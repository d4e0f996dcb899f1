/** Workspace containment: crates/workspace/src/boundary.rs. */
module Boundary {
  import opened Prelude
  import opened Paths

  // The part of a file system the boundary can see: which spellings exist, what they canonicalize
  // to (possibly failing), and which of them are themselves symbolic links.
  datatype FileSystem = FileSystem(existing: set<Path>, canonical: map<Path, Path>, links: set<Path>)

  datatype WorkspaceError = RootNotFound | PathEscapesRoot | SymlinkEscapesRoot

  const EMPTY := Path(false, [])

  // What canonicalization promises: an absolute path of real names.
  ghost predicate Canonicalizes(fs: FileSystem) {
    forall p | p in fs.canonical :: fs.canonical[p].absolute && Clean(fs.canonical[p])
  }

  function Normalized(components: seq<string>): (r: seq<string>)
  {
    if components == [] then []
    else
      var init, last := components[..|components| - 1], components[|components| - 1];
      var r := Normalized(init);
      if last == "." then r
      else if last == ".." then (if r == [] then [] else r[..|r| - 1])
      else r + [last]
  }

  function LexicalPath(p: Path): (r: Path) {
    Path(p.absolute, Normalized(p.components))
  }

  method LexicalNormalize(p: Path) returns (r: Path)
    ensures r == LexicalPath(p)
  {
    var result: seq<string> := [];
    for i := 0 to |p.components|
      invariant result == Normalized(p.components[..i])
    {
      var c := p.components[i];
      assert p.components[..i + 1][..i] == p.components[..i];
      if c == "." {
      } else if c == ".." {
        if result != [] { result := result[..|result| - 1]; }
      } else {
        result := result + [c];
      }
    }
    assert p.components[..|p.components|] == p.components;
    r := Path(p.absolute, result);
  }

  lemma {:induction false} NormalizedIsClean(components: seq<string>)
    ensures forall c | c in Normalized(components) :: c in components && c != "." && c != ".."
    ensures |Normalized(components)| <= |components|
    decreases |components|
  {
    if components != [] {
      var init, last := components[..|components| - 1], components[|components| - 1];
      NormalizedIsClean(init);
      forall c | c in Normalized(components) ensures c in components && c != "." && c != ".." {
        assert c in Normalized(init) || (c == last && last != "." && last != "..");
        assert c in init ==> c in components;
      }
    }
  }

  lemma {:induction false} CleanIsNormalized(components: seq<string>)
    requires forall c | c in components :: c != "." && c != ".."
    ensures Normalized(components) == components
    decreases |components|
  {
    if components != [] {
      var init, last := components[..|components| - 1], components[|components| - 1];
      assert last in components;
      forall c | c in init ensures c != "." && c != ".." { assert c in components; }
      CleanIsNormalized(init);
      assert components == init + [last];
    }
  }

  // What follows a path only sees its normal form.
  lemma {:induction false} NormalizedInStages(a: seq<string>, b: seq<string>)
    ensures Normalized(a + b) == Normalized(Normalized(a) + b)
    decreases |b|
  {
    if b == [] {
      assert a + b == a && Normalized(a) + b == Normalized(a);
      NormalizedIsClean(a);
      CleanIsNormalized(Normalized(a));
    } else {
      var init := b[..|b| - 1];
      NormalizedInStages(a, init);
      assert (a + b)[..|a + b| - 1] == a + init;
      assert (Normalized(a) + b)[..|Normalized(a) + b| - 1] == Normalized(a) + init;
    }
  }

  /** The rewriting rules of lexical normalization, anywhere in a path: "." disappears, a name followed by
      ".." disappears with it, and ".." at the start disappears. Together with leaving paths of real names
      alone they determine it. */
  lemma LexicalRewrites(a: seq<string>, name: string, b: seq<string>)
    requires name != "." && name != ".."
    ensures Normalized(a + ["."] + b) == Normalized(a + b)
    ensures Normalized(a + [name, ".."] + b) == Normalized(a + b)
    ensures Normalized([".."] + b) == Normalized(b)
  {
    DotDisappears(a, b);
    ParentCancels(a, name, b);
    NormalizedInStages([".."], b);
    NormalizedInStages([], b);
    assert [".."][..0] == [] && [] + b == b;
  }

  lemma DotDisappears(a: seq<string>, b: seq<string>)
    ensures Normalized(a + ["."] + b) == Normalized(a + b)
  {
    NormalizedInStages(a, b);
    NormalizedInStages(a + ["."], b);
    assert (a + ["."])[..|a|] == a;
  }

  lemma ParentCancels(a: seq<string>, name: string, b: seq<string>)
    requires name != "." && name != ".."
    ensures Normalized(a + [name, ".."] + b) == Normalized(a + b)
  {
    NormalizedInStages(a, b);
    NormalizedInStages(a + [name, ".."], b);
    NameThenParent(a, name);
  }

  lemma NameThenParent(a: seq<string>, name: string)
    requires name != "." && name != ".."
    ensures Normalized(a + [name, ".."]) == Normalized(a)
  {
    assert (a + [name])[..|a|] == a;
    assert Normalized(a + [name]) == Normalized(a) + [name];
    assert (a + [name, ".."])[..|a| + 1] == a + [name];
  }

  /** Lexical normalization removes every "." and "..", and changes exactly the paths that had one. */
  lemma LexicalIsIdempotent(p: Path)
    ensures Clean(LexicalPath(p))
    ensures LexicalPath(LexicalPath(p)) == LexicalPath(p)
    ensures LexicalPath(p) == p <==> Clean(p)
  {
    NormalizedIsClean(p.components);
    CleanIsNormalized(Normalized(p.components));
    if Clean(p) { CleanIsNormalized(p.components); }
  }

  // The longest prefix the search stops at: the first, from the full path down, that exists, is the
  // empty path, or is the root directory (which has no file name to strip).
  function ExistingLength(fs: FileSystem, p: Path, n: nat): (k: nat)
    requires n <= |p.components|
    ensures k <= n
    ensures k == 0 || Path(p.absolute, p.components[..k]) in fs.existing
    ensures forall j | k < j <= n :: Path(p.absolute, p.components[..j]) !in fs.existing
  {
    if n == 0 || Path(p.absolute, p.components[..n]) in fs.existing then n
    else ExistingLength(fs, p, n - 1)
  }

  /** Splits a clean path into its longest existing ancestor and the missing rest. */
  method SplitExistingPrefix(fs: FileSystem, p: Path) returns (existing: Path, remaining: seq<string>)
    requires Clean(p)
    ensures existing.absolute == p.absolute && existing.components + remaining == p.components
    ensures existing in fs.existing || existing.components == []
    ensures forall j | |existing.components| < j <= |p.components| ::
              Path(p.absolute, p.components[..j]) !in fs.existing
    ensures |existing.components| == ExistingLength(fs, p, |p.components|)
  {
    existing := p;
    remaining := [];
    assert p.components[..|p.components|] == p.components;
    while existing.components != [] && existing !in fs.existing
      invariant existing == Path(p.absolute, p.components[..|existing.components|])
      invariant existing.components + remaining == p.components
      invariant forall j | |existing.components| < j <= |p.components| ::
                  Path(p.absolute, p.components[..j]) !in fs.existing
      invariant ExistingLength(fs, p, |existing.components|) == ExistingLength(fs, p, |p.components|)
      decreases |existing.components|
    {
      var n := |existing.components|;
      remaining := [existing.components[n - 1]] + remaining;
      existing := Path(existing.absolute, existing.components[..n - 1]);
      assert existing.components == p.components[..n - 1];
    }
  }

  function Prefix(fs: FileSystem, requested: Path): (r: Path)
  {
    var p := LexicalPath(requested);
    Path(p.absolute, p.components[..ExistingLength(fs, p, |p.components|)])
  }

  function Remainder(fs: FileSystem, requested: Path): (r: seq<string>)
  {
    var p := LexicalPath(requested);
    p.components[ExistingLength(fs, p, |p.components|)..]
  }

  predicate LinkInside(fs: FileSystem, root: Path, p: Path, n: nat)
    requires n < |p.components|
  {
    var parent := Path(p.absolute, p.components[..n]);
    && Path(p.absolute, p.components[..n + 1]) in fs.links
    && parent in fs.canonical && HasPrefix(root, fs.canonical[parent])
  }

  method SymlinkInsideWorkspace(fs: FileSystem, root: Path, p: Path) returns (inside: bool)
    ensures inside <==> exists n | 0 <= n < |p.components| :: LinkInside(fs, root, p, n)
  {
    for i := 0 to |p.components|
      invariant forall n | 0 <= n < i :: !LinkInside(fs, root, p, n)
    {
      if LinkInside(fs, root, p, i) { return true; }
    }
    return false;
  }

  function ResolveWithin(fs: FileSystem, root: Path, requested: Path): (r: Result<Path, WorkspaceError>)
  {
    var prefix := Prefix(fs, requested);
    if prefix != EMPTY && prefix !in fs.canonical then Err(RootNotFound)
    else
      var start := if prefix == EMPTY then root else fs.canonical[prefix];
      var candidate := Path(start.absolute, start.components + Remainder(fs, requested));
      if HasPrefix(root, candidate) then Ok(candidate)
      else if exists n | 0 <= n < |prefix.components| :: LinkInside(fs, root, prefix, n) then Err(SymlinkEscapesRoot)
      else Err(PathEscapesRoot)
  }

  method Resolve(fs: FileSystem, root: Path, requested: Path) returns (r: Result<Path, WorkspaceError>)
    ensures r == ResolveWithin(fs, root, requested)
  {
    var p := LexicalNormalize(requested);
    LexicalIsIdempotent(requested);
    var existing, remaining := SplitExistingPrefix(fs, p);
    assert existing.components == p.components[..|existing.components|];
    assert existing == Prefix(fs, requested);
    assert remaining == Remainder(fs, requested);
    var start := root;
    if existing != EMPTY {
      if existing !in fs.canonical { return Err(RootNotFound); }
      start := fs.canonical[existing];
    }
    var candidate := Path(start.absolute, start.components + remaining);
    if HasPrefix(root, candidate) { return Ok(candidate); }
    var inside := SymlinkInsideWorkspace(fs, root, existing);
    return Err(if inside then SymlinkEscapesRoot else PathEscapesRoot);
  }

  // The longest existing ancestor of a normal form ends after k components.
  ghost predicate AncestorEnds(fs: FileSystem, p: Path, k: nat) {
    && k <= |p.components|
    && (k == 0 || Path(p.absolute, p.components[..k]) in fs.existing)
    && forall j | k < j <= |p.components| :: Path(p.absolute, p.components[..j]) !in fs.existing
  }

  lemma AncestorIsUnique(fs: FileSystem, p: Path, k: nat)
    requires AncestorEnds(fs, p, k)
    ensures k == ExistingLength(fs, p, |p.components|)
  {
  }

  // Where the ancestor really is: the root for the empty path, else its canonical form, if it has one.
  ghost function WhereItIs(fs: FileSystem, root: Path, ancestor: Path): Option<Path> {
    if ancestor == Path(false, []) then Some(root)
    else if ancestor in fs.canonical then Some(fs.canonical[ancestor])
    else None
  }

  ghost predicate Inside(root: Path, p: Path) {
    p.absolute == root.absolute && |root.components| <= |p.components|
    && forall i | 0 <= i < |root.components| :: p.components[i] == root.components[i]
  }

  // Some link on the way to the ancestor sits in a directory that really is inside the root.
  ghost predicate LeavesByLink(fs: FileSystem, root: Path, ancestor: Path) {
    exists n | 0 <= n < |ancestor.components| :: LeavesAt(fs, root, ancestor, n)
  }

  ghost predicate LeavesAt(fs: FileSystem, root: Path, ancestor: Path, n: nat)
    requires n < |ancestor.components|
  {
    && Path(ancestor.absolute, ancestor.components[..n + 1]) in fs.links
    && Path(ancestor.absolute, ancestor.components[..n]) in fs.canonical
    && Inside(root, fs.canonical[Path(ancestor.absolute, ancestor.components[..n])])
  }

  /** Resolving, for every file system and request: with k the end of the longest existing ancestor of the
      normal form p, the answer is the real place of that ancestor followed by the missing rest, accepted
      exactly when that lies inside the root component by component; an ancestor without a real place is
      not found; and an escape is blamed on a link exactly when one leads out from inside. */
  lemma ResolveIff(fs: FileSystem, root: Path, requested: Path, k: nat)
    requires AncestorEnds(fs, LexicalPath(requested), k)
    ensures var p := LexicalPath(requested);
            var ancestor := Path(p.absolute, p.components[..k]);
            var place := WhereItIs(fs, root, ancestor);
            var r := ResolveWithin(fs, root, requested);
            && (place.None? <==> r == Err(RootNotFound))
            && (place.Some? ==>
                  var target := Path(place.value.absolute, place.value.components + p.components[k..]);
                  && (r.Ok? <==> Inside(root, target))
                  && (r.Ok? ==> r.value == target)
                  && (r == Err(SymlinkEscapesRoot) <==> !Inside(root, target) && LeavesByLink(fs, root, ancestor)))
  {
    var p := LexicalPath(requested);
    AncestorIsUnique(fs, p, k);
    var ancestor := Path(p.absolute, p.components[..k]);
    var place := WhereItIs(fs, root, ancestor);
    if place.Some? { InsideMeansPrefix(root, Path(place.value.absolute, place.value.components + p.components[k..])); }
    LinksAgree(fs, root, ancestor);
  }

  lemma LinksAgree(fs: FileSystem, root: Path, ancestor: Path)
    ensures (exists n | 0 <= n < |ancestor.components| :: LinkInside(fs, root, ancestor, n)) <==> LeavesByLink(fs, root, ancestor)
  {
    forall n | 0 <= n < |ancestor.components| ensures LinkInside(fs, root, ancestor, n) <==> LeavesAt(fs, root, ancestor, n) {
      var parent := Path(ancestor.absolute, ancestor.components[..n]);
      if parent in fs.canonical { InsideMeansPrefix(root, fs.canonical[parent]); }
    }
  }

  lemma InsideMeansPrefix(root: Path, p: Path)
    ensures HasPrefix(root, p) <==> Inside(root, p)
  {
    if Inside(root, p) { assert p.components[..|root.components|] == root.components; }
  }

  // From any spelling of an ancestor of the root, the way down to the root exists.
  ghost predicate RootIsReachable(fs: FileSystem, root: Path) {
    forall a | a in fs.canonical && fs.canonical[a].absolute == root.absolute
               && fs.canonical[a].components < root.components ::
      Path(a.absolute, a.components + [root.components[|fs.canonical[a].components|]]) in fs.existing
  }

  /** No way out through a link: where the root can be reached from its ancestors, a request is accepted
      exactly when the real place of its longest existing ancestor is itself inside the root. So a link to
      anywhere outside leads nowhere, whatever follows it. */
  lemma AcceptedIffAncestorInside(fs: FileSystem, root: Path, requested: Path, k: nat)
    requires AncestorEnds(fs, LexicalPath(requested), k) && RootIsReachable(fs, root)
    ensures var p := LexicalPath(requested);
            var place := WhereItIs(fs, root, Path(p.absolute, p.components[..k]));
            ResolveWithin(fs, root, requested).Ok? <==> place.Some? && Inside(root, place.value)
  {
    ResolveIff(fs, root, requested, k);
    var p := LexicalPath(requested);
    var ancestor := Path(p.absolute, p.components[..k]);
    var place := WhereItIs(fs, root, ancestor);
    if place.Some? {
      var target := Path(place.value.absolute, place.value.components + p.components[k..]);
      if Inside(root, target) && !Inside(root, place.value) {
        InsideMeansPrefix(root, target);
        RestStaysOutside(fs, root, p, k);
      }
    }
  }

  lemma RestStaysOutside(fs: FileSystem, root: Path, p: Path, k: nat)
    requires AncestorEnds(fs, p, k) && RootIsReachable(fs, root)
    requires Path(p.absolute, p.components[..k]) != Path(false, []) && Path(p.absolute, p.components[..k]) in fs.canonical
    requires !Inside(root, fs.canonical[Path(p.absolute, p.components[..k])])
    ensures var place := fs.canonical[Path(p.absolute, p.components[..k])];
            !HasPrefix(root, Path(place.absolute, place.components + p.components[k..]))
  {
    var place := fs.canonical[Path(p.absolute, p.components[..k])];
    InsideMeansPrefix(root, place);
    assert k < |p.components| ==> p.components[..k] + [p.components[k]] == p.components[..k + 1];
    if root.components <= place.components + p.components[k..] {
      ReachedFrom(root.components, place.components, p.components[k..]);
    }
  }

  lemma ReachedFrom(root: seq<string>, place: seq<string>, rest: seq<string>)
    requires root <= place + rest
    ensures root <= place || (place < root && rest != [] && rest[0] == root[|place|])
  {
    var target := place + rest;
    assert root == target[..|root|] && place == target[..|place|];
    if |root| > |place| { assert target[|place|] == rest[0]; }
  }

  /** A successful resolve lies below the root component by component, and nothing in it can climb back
      out. */
  lemma ResolvedStaysInside(fs: FileSystem, root: Path, requested: Path)
    requires Canonicalizes(fs) && root.absolute && Clean(root)
    requires ResolveWithin(fs, root, requested).Ok?
    ensures var r := ResolveWithin(fs, root, requested).value;
            && r.absolute && Clean(r) && root.components <= r.components
            && (exists below :: r.components == root.components + below && ".." !in below)
            && Prefix(fs, requested).components + Remainder(fs, requested) == LexicalPath(requested).components
  {
    LexicalIsIdempotent(requested);
    var r := ResolveWithin(fs, root, requested).value;
    var p := LexicalPath(requested);
    var k := ExistingLength(fs, p, |p.components|);
    assert p.components == p.components[..k] + p.components[k..];
    var prefix := Prefix(fs, requested);
    var start := if prefix == EMPTY then root else fs.canonical[prefix];
    JoinIsClean(start.components, p.components, k);
    Below(root.components, r.components);
  }

  lemma JoinIsClean(start: seq<string>, components: seq<string>, k: nat)
    requires k <= |components|
    requires forall c | c in start :: c != "." && c != ".."
    requires forall c | c in components :: c != "." && c != ".."
    ensures forall c | c in start + components[k..] :: c != "." && c != ".."
  {
    forall c | c in start + components[k..] ensures c != "." && c != ".." {
      assert c in start || c in components;
    }
  }

  lemma Below(root: seq<string>, components: seq<string>)
    requires root <= components && ".." !in components
    ensures exists below :: components == root + below && ".." !in below
  {
    var below := components[|root|..];
    assert components == root + below;
    assert ".." !in below;
  }

  /** Without symbolic links the boundary decides exactly lexical containment: an absolute request is
      accepted if and only if its normalized components start with the root's. */
  lemma WithoutLinksContainmentIsLexical(fs: FileSystem, root: Path, requested: Path)
    requires forall p | p in fs.existing :: p.absolute ==> p in fs.canonical && fs.canonical[p] == p
    requires Path(true, []) in fs.canonical && fs.canonical[Path(true, [])] == Path(true, [])
    requires root.absolute && requested.absolute
    ensures ResolveWithin(fs, root, requested).Ok? <==> root.components <= LexicalPath(requested).components
    ensures ResolveWithin(fs, root, requested).Ok? ==>
              ResolveWithin(fs, root, requested).value == LexicalPath(requested)
    ensures ResolveWithin(fs, root, requested).Err? ==> ResolveWithin(fs, root, requested).error != RootNotFound
  {
    var p := LexicalPath(requested);
    var k := ExistingLength(fs, p, |p.components|);
    assert p.components == p.components[..k] + p.components[k..];
    assert k == 0 ==> Prefix(fs, requested) == Path(true, []);
  }
}
