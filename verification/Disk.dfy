/** A file tree without links, and the recursive copy and clear of crates/checkpoints/src/fs_ops.rs
    that change it in place. */
module Disk {
  import opened Prelude

  // Absolute places as lists of names; without links a place is its own canonical form.
  type Place = seq<string>

  datatype Node = Dir | File(content: string)

  type Tree = map<Place, Node>

  ghost predicate WellFormed(fs: Tree) {
    && [] in fs && fs[[]].Dir?
    && forall p {:trigger HasParent(fs, p)} :: HasParent(fs, p)
  }

  ghost predicate HasParent(fs: Tree, p: Place) {
    p in fs && p != [] ==> IsDir(fs, p[..|p| - 1])
  }

  predicate IsDir(fs: Tree, p: Place) { p in fs && fs[p].Dir? }

  lemma {:induction false} AncestorsExist(fs: Tree, p: Place, k: nat)
    requires WellFormed(fs) && p in fs && k < |p|
    ensures IsDir(fs, p[..k])
    decreases |p|
  {
    var up := p[..|p| - 1];
    assert HasParent(fs, p);
    if k < |up| {
      AncestorsExist(fs, up, k);
      assert up[..k] == p[..k];
    } else {
      assert up == p[..k];
    }
  }

  // Directory creation ------------------------------------------------------------------------------------

  ghost predicate FileOnWay(fs: Tree, p: Place) {
    exists k | 0 <= k <= |p| :: p[..k] in fs && fs[p[..k]].File?
  }

  ghost function WithDirs(fs: Tree, p: Place): (r: Tree)
    ensures forall q | q in fs :: q in r && r[q] == fs[q]
    ensures forall q | q in r && q !in fs :: q <= p && r[q] == Dir
    ensures forall q | q <= p :: q in r
  {
    var missing := set k | 0 <= k <= |p| && p[..k] !in fs :: p[..k];
    assert forall q | q <= p :: q == p[..|q|];
    fs + map q | q in missing :: Dir
  }

  lemma WithDirsWellFormed(fs: Tree, p: Place)
    requires WellFormed(fs) && !FileOnWay(fs, p)
    ensures WellFormed(WithDirs(fs, p)) && IsDir(WithDirs(fs, p), p)
    ensures !FileOnWay(WithDirs(fs, p), p)
  {
    var r := WithDirs(fs, p);
    forall k | 0 <= k <= |p| ensures IsDir(r, p[..k]) {
      assert p[..k] <= p;
    }
    assert p[..|p|] == p;
    forall q: Place ensures HasParent(r, q) {
      if q in fs {
        assert HasParent(fs, q);
      } else if q in r && q != [] {
        assert q[..|q| - 1] == p[..|q| - 1];
      }
    }
  }

  lemma WithDirsOfDir(fs: Tree, p: Place)
    requires WellFormed(fs) && IsDir(fs, p)
    ensures WithDirs(fs, p) == fs && !FileOnWay(fs, p)
  {
    forall q | q <= p ensures IsDir(fs, q) {
      if |q| < |p| {
        AncestorsExist(fs, p, |q|);
        assert p[..|q|] == q;
      } else {
        assert q == p;
      }
    }
    forall k | 0 <= k <= |p| ensures IsDir(fs, p[..k]) {
      assert p[..k] <= p;
    }
    assert forall q :: q in WithDirs(fs, p) <==> q in fs;
  }

  lemma RootDirs(fs: Tree)
    requires WellFormed(fs)
    ensures WithDirs(fs, []) == fs && !FileOnWay(fs, [])
  {
    WithDirsOfDir(fs, []);
  }

  // One more component: made if missing, and in the way if it is a file.
  lemma NextDir(fs: Tree, p: Place, n: string)
    requires !FileOnWay(fs, p)
    ensures WithDirs(fs, p + [n]) == NextTree(WithDirs(fs, p), p + [n])
    ensures FileOnWay(fs, p + [n]) <==> p + [n] in WithDirs(fs, p) && WithDirs(fs, p)[p + [n]].File?
  {
    forall r: Place ensures AgreeAt(WithDirs(fs, p + [n]), NextTree(WithDirs(fs, p), p + [n]), r) {
      assert r <= p + [n] && |r| <= |p| ==> r <= p;
      assert r <= p + [n] && |r| > |p| ==> r == p + [n];
    }
    AgreeEverywhere(WithDirs(fs, p + [n]), NextTree(WithDirs(fs, p), p + [n]));
    NextFile(fs, p, n);
  }

  function NextTree(fs: Tree, q: Place): (r: Tree) {
    if q in fs then fs else fs[q := Dir]
  }

  lemma NextFile(fs: Tree, p: Place, n: string)
    requires !FileOnWay(fs, p)
    ensures FileOnWay(fs, p + [n]) <==> p + [n] in fs && fs[p + [n]].File?
  {
    var q := p + [n];
    assert q[..|q|] == q;
    assert forall k | 0 <= k <= |p| :: q[..k] == p[..k];
  }

  lemma FileStops(fs: Tree, p: Place, k: nat)
    requires WellFormed(fs) && 0 < k <= |p|
    requires p[..k] in WithDirs(fs, p[..k - 1]) && WithDirs(fs, p[..k - 1])[p[..k]].File?
    ensures FileOnWay(fs, p) && WithDirs(fs, p[..k - 1]) == fs
  {
    assert p[..k] in fs;
    AncestorsExist(fs, p[..k], k - 1);
    assert p[..k][..k - 1] == p[..k - 1];
    WithDirsOfDir(fs, p[..k - 1]);
  }

  // Copying -------------------------------------------------------------------------------------------------

  // What a copy of src walks over: everything under it except the excluded place strictly below it.
  predicate InRegion(src: Place, exclude: Place, p: Place) {
    src <= p && !(src < exclude && exclude <= p)
  }

  function Moved(src: Place, dest: Place, p: Place): (r: Place)
    requires src <= p
  {
    dest + p[|src|..]
  }

  lemma MovedBack(src: Place, dest: Place, p: Place)
    ensures src <= p ==> dest <= Moved(src, dest, p) && Moved(dest, src, Moved(src, dest, p)) == p
  {
  }

  // The copied nodes, restricted to the entries of src already handled.
  ghost predicate InImage(fs: Tree, src: Place, dest: Place, exclude: Place, handled: set<string>, q: Place) {
    && dest <= q
    && Moved(dest, src, q) in fs
    && InRegion(src, exclude, Moved(dest, src, q))
    && (|q| > |dest| ==> q[|dest|] in handled)
  }

  ghost function Images(fs: Tree, src: Place, dest: Place): (r: set<Place>)
    ensures forall q | dest <= q && Moved(dest, src, q) in fs :: q in r
  {
    var r := set p | p in fs && src <= p :: Moved(src, dest, p);
    forall q | dest <= q && Moved(dest, src, q) in fs ensures q in r {
      MovedBack(dest, src, q);
      assert src <= Moved(dest, src, q);
    }
    r
  }

  ghost function Image(fs: Tree, src: Place, dest: Place, exclude: Place, handled: set<string>): (r: Tree)
    ensures forall q :: q in r <==> InImage(fs, src, dest, exclude, handled, q)
    ensures forall q | InImage(fs, src, dest, exclude, handled, q) :: r[q] == fs[Moved(dest, src, q)]
  {
    map q | q in Images(fs, src, dest) && InImage(fs, src, dest, exclude, handled, q) :: fs[Moved(dest, src, q)]
  }

  function Names(fs: Tree, dir: Place): (r: set<string>)
    ensures forall n :: n in r <==> dir + [n] in fs
  {
    var r := set p | p in fs && |p| == |dir| + 1 && dir <= p :: p[|dir|];
    assert forall n | dir + [n] in fs :: (dir + [n])[|dir|] == n;
    assert forall p | p in fs && |p| == |dir| + 1 && dir <= p :: p == dir + [p[|dir|]];
    r
  }

  /** The meaning of a copy: the destination and its parents exist, and below it stands every node of the
      source that is not excluded. */
  ghost function Copied(fs: Tree, src: Place, dest: Place, exclude: Place): (r: Tree) {
    WithDirs(fs, dest) + Image(fs, src, dest, exclude, Names(fs, src))
  }

  // The destination is free, and no written place is one the copy walks over.
  ghost predicate Fits(fs: Tree, src: Place, dest: Place, exclude: Place) {
    && (forall p {:trigger FreeFor(fs, src, dest, exclude, p)} :: FreeFor(fs, src, dest, exclude, p))
    && (forall q {:trigger MadeOutside(fs, src, exclude, q)} | q <= dest :: MadeOutside(fs, src, exclude, q))
  }

  ghost predicate FreeFor(fs: Tree, src: Place, dest: Place, exclude: Place, p: Place) {
    p in fs && InRegion(src, exclude, p) ==>
      !InRegion(src, exclude, Moved(src, dest, p)) && (p != src ==> Moved(src, dest, p) !in fs)
  }

  ghost predicate MadeOutside(fs: Tree, src: Place, exclude: Place, q: Place) {
    q !in fs ==> !InRegion(src, exclude, q)
  }

  ghost function Walked(fs: Tree, src: Place, exclude: Place): (r: set<Place>) {
    set p | p in fs && InRegion(src, exclude, p)
  }

  // Partway through the entries of src.
  ghost function Midway(fs: Tree, src: Place, dest: Place, exclude: Place, handled: set<string>): (r: Tree) {
    WithDirs(fs, dest) + Image(fs, src, dest, exclude, handled)
  }

  ghost predicate Ready(fs: Tree, src: Place, dest: Place, exclude: Place) {
    WellFormed(fs) && IsDir(fs, src) && !FileOnWay(fs, dest) && Fits(fs, src, dest, exclude)
  }

  lemma FirstName(fs: Tree, src: Place, p: Place)
    requires WellFormed(fs) && p in fs && src < p
    ensures p[|src|] in Names(fs, src) && src + [p[|src|]] <= p
  {
    assert p[..|src| + 1] == src + [p[|src|]];
    if |p| > |src| + 1 { AncestorsExist(fs, p, |src| + 1); } else { assert p == p[..|src| + 1]; }
  }

  // The copy leaves alone everything it walks over.
  lemma MidwayFrame(fs: Tree, src: Place, dest: Place, exclude: Place, handled: set<string>, p: Place)
    requires Ready(fs, src, dest, exclude) && InRegion(src, exclude, p)
    ensures var m := Midway(fs, src, dest, exclude, handled); (p in m <==> p in fs) && (p in fs ==> m[p] == fs[p])
  {
    assert p <= dest ==> MadeOutside(fs, src, exclude, p);
    if InImage(fs, src, dest, exclude, handled, p) {
      MovedBack(dest, src, p);
      var free := FreeFor(fs, src, dest, exclude, Moved(dest, src, p));
    }
  }

  lemma MidwayWellFormed(fs: Tree, src: Place, dest: Place, exclude: Place, handled: set<string>)
    requires Ready(fs, src, dest, exclude)
    ensures WellFormed(Midway(fs, src, dest, exclude, handled)) && IsDir(Midway(fs, src, dest, exclude, handled), dest)
  {
    var m := Midway(fs, src, dest, exclude, handled);
    WithDirsWellFormed(fs, dest);
    assert InImage(fs, src, dest, exclude, handled, dest) ==> Moved(dest, src, dest) == src;
    forall q: Place ensures HasParent(m, q) {
      if q in m && q != [] {
        if InImage(fs, src, dest, exclude, handled, q) && q != dest {
          ImageParent(fs, src, dest, exclude, handled, q);
        } else {
          assert HasParent(WithDirs(fs, dest), q);
          DirStaysDir(fs, src, dest, exclude, handled, q[..|q| - 1]);
        }
      }
    }
    DirStaysDir(fs, src, dest, exclude, handled, []);
    DirStaysDir(fs, src, dest, exclude, handled, dest);
  }

  // The image only adds places, apart from dest itself.
  lemma DirStaysDir(fs: Tree, src: Place, dest: Place, exclude: Place, handled: set<string>, q: Place)
    requires Ready(fs, src, dest, exclude) && IsDir(WithDirs(fs, dest), q)
    ensures IsDir(Midway(fs, src, dest, exclude, handled), q)
  {
    if InImage(fs, src, dest, exclude, handled, q) {
      MovedBack(dest, src, q);
      assert FreeFor(fs, src, dest, exclude, Moved(dest, src, q)) && MadeOutside(fs, src, exclude, q);
      if q == dest { assert Moved(dest, src, dest) == src; }
    }
  }

  lemma ImageParent(fs: Tree, src: Place, dest: Place, exclude: Place, handled: set<string>, q: Place)
    requires Ready(fs, src, dest, exclude) && InImage(fs, src, dest, exclude, handled, q) && q != dest
    ensures IsDir(Midway(fs, src, dest, exclude, handled), q[..|q| - 1])
  {
    var up, p := q[..|q| - 1], Moved(dest, src, q);
    assert Moved(dest, src, up) == p[..|p| - 1];
    assert HasParent(fs, p);
    assert InImage(fs, src, dest, exclude, handled, up);
  }

  // Naming every entry, or more, makes the whole image.
  lemma ImageSaturates(fs: Tree, src: Place, dest: Place, exclude: Place, handled: set<string>)
    requires WellFormed(fs) && Names(fs, src) <= handled
    ensures Image(fs, src, dest, exclude, handled) == Image(fs, src, dest, exclude, Names(fs, src))
  {
    forall q | InImage(fs, src, dest, exclude, handled, q) ensures InImage(fs, src, dest, exclude, Names(fs, src), q) {
      if |q| > |dest| { FirstName(fs, src, Moved(dest, src, q)); }
    }
  }

  lemma ExcludedEntry(src: Place, dest: Place, exclude: Place, n: string, q: Place)
    requires src + [n] == exclude && dest <= q && |q| > |dest| && q[|dest|] == n
    ensures !InRegion(src, exclude, Moved(dest, src, q))
  {
    assert q[|dest|..] == [n] + q[|dest| + 1..];
  }

  lemma SkipExcluded(fs: Tree, src: Place, dest: Place, exclude: Place, handled: set<string>, n: string)
    requires src + [n] == exclude
    ensures Midway(fs, src, dest, exclude, handled + {n}) == Midway(fs, src, dest, exclude, handled)
  {
    forall q | InImage(fs, src, dest, exclude, handled + {n}, q) ensures InImage(fs, src, dest, exclude, handled, q) {
      if |q| > |dest| && q[|dest|] == n { ExcludedEntry(src, dest, exclude, n, q); }
    }
    assert Image(fs, src, dest, exclude, handled + {n}) == Image(fs, src, dest, exclude, handled);
  }

  // The image of one entry, as the copy of that entry alone.
  lemma EntryImage(fs: Tree, src: Place, dest: Place, exclude: Place, handled: set<string>, n: string, q: Place)
    requires WellFormed(fs) && src + [n] in fs && src + [n] != exclude && n !in handled
    ensures InImage(fs, src, dest, exclude, handled + {n}, q) <==>
            || InImage(fs, src, dest, exclude, handled, q)
            || InImage(fs, src + [n], dest + [n], exclude, Names(fs, src + [n]), q)
  {
    if dest + [n] <= q {
      EntryMoves(src, dest, n, q);
      var p := Moved(dest, src, q);
      RegionNarrows(src, exclude, n, p);
      if p in fs && |q| > |dest| + 1 { FirstName(fs, src + [n], p); }
    } else if dest <= q && |q| > |dest| {
      assert q[..|dest| + 1] == dest + [q[|dest|]];
    }
  }

  lemma EntryMoves(src: Place, dest: Place, n: string, q: Place)
    requires dest + [n] <= q
    ensures dest <= q && q[|dest|] == n && Moved(dest + [n], src + [n], q) == Moved(dest, src, q)
    ensures src + [n] <= Moved(dest, src, q) && Moved(dest, src, q)[|src|..] == q[|dest|..]
  {
    assert q[|dest|..] == [n] + q[|dest| + 1..];
  }

  lemma RegionNarrows(src: Place, exclude: Place, n: string, p: Place)
    requires src + [n] <= p && src + [n] != exclude
    ensures InRegion(src, exclude, p) <==> InRegion(src + [n], exclude, p)
  {
    if src < exclude && exclude <= p {
      assert exclude[..|src| + 1] == p[..|src| + 1] == src + [n];
    }
  }

  // The entry n of src, copied in the state reached after the handled ones.
  lemma EntryReady(fs: Tree, src: Place, dest: Place, exclude: Place, handled: set<string>, n: string)
    requires Ready(fs, src, dest, exclude)
    requires src + [n] in fs && src + [n] != exclude && n !in handled
    ensures var m := Midway(fs, src, dest, exclude, handled);
            && src + [n] in m && m[src + [n]] == fs[src + [n]] && dest + [n] !in m
            && Fits(m, src + [n], dest + [n], exclude) && WellFormed(m) && IsDir(m, dest) && !FileOnWay(m, dest + [n])
  {
    var m, child, target := Midway(fs, src, dest, exclude, handled), src + [n], dest + [n];
    MidwayWellFormed(fs, src, dest, exclude, handled);
    RegionNarrows(src, exclude, n, child);
    assert InRegion(src, exclude, child);
    MidwayFrame(fs, src, dest, exclude, handled, child);
    forall p: Place ensures FreeFor(m, child, target, exclude, p) {
      if p in m && InRegion(child, exclude, p) { EntryFits(fs, src, dest, exclude, handled, n, p); }
    }
    EntryFits(fs, src, dest, exclude, handled, n, child);
    assert Moved(child, target, child) == target;
    TargetFree(m, dest, n);
    forall q | q <= target ensures MadeOutside(m, child, exclude, q) {
      assert q !in m ==> q == target;
    }
  }

  lemma TargetFree(m: Tree, dest: Place, n: string)
    requires WellFormed(m) && IsDir(m, dest) && dest + [n] !in m
    ensures !FileOnWay(m, dest + [n])
    ensures forall q | q <= dest + [n] && q !in m :: q == dest + [n]
  {
    var target := dest + [n];
    WithDirsOfDir(m, dest);
    forall k | 0 <= k <= |target| ensures !(target[..k] in m && m[target[..k]].File?) {
      if k <= |dest| { assert target[..k] == dest[..k]; } else { assert target[..k] == target; }
    }
    forall q | q <= target && q !in m ensures q == target {
      assert |q| <= |dest| ==> q <= dest;
      assert q == target[..|q|];
    }
  }

  lemma EntryFits(fs: Tree, src: Place, dest: Place, exclude: Place, handled: set<string>, n: string, p: Place)
    requires Ready(fs, src, dest, exclude) && src + [n] != exclude && n !in handled
    requires p in Midway(fs, src, dest, exclude, handled) && InRegion(src + [n], exclude, p)
    ensures !InRegion(src + [n], exclude, Moved(src + [n], dest + [n], p))
    ensures Moved(src + [n], dest + [n], p) !in Midway(fs, src, dest, exclude, handled)
  {
    RegionNarrows(src, exclude, n, p);
    MidwayFrame(fs, src, dest, exclude, handled, p);
    EntryMoves(dest, src, n, p);
    var q := Moved(src, dest, p);
    assert q == Moved(src + [n], dest + [n], p) && dest + [n] <= q;
    assert FreeFor(fs, src, dest, exclude, p);
    if src + [n] <= q { RegionNarrows(src, exclude, n, q); }
    assert q !in fs && !(q <= dest);
    assert q[|dest|] == n;
  }

  // What the recursive call produces is the next state of the loop.
  lemma EntryDone(fs: Tree, src: Place, dest: Place, exclude: Place, handled: set<string>, n: string)
    requires Ready(fs, src, dest, exclude)
    requires src + [n] in fs && src + [n] != exclude && n !in handled
    ensures var m := Midway(fs, src, dest, exclude, handled);
            var next := Midway(fs, src, dest, exclude, handled + {n});
            if fs[src + [n]].Dir? then Copied(m, src + [n], dest + [n], exclude) == next
            else m[dest + [n] := fs[src + [n]]] == next
  {
    var m, next := Midway(fs, src, dest, exclude, handled), Midway(fs, src, dest, exclude, handled + {n});
    if fs[src + [n]].Dir? {
      var copied := Copied(m, src + [n], dest + [n], exclude);
      forall q: Place ensures AgreeAt(copied, next, q) { DirEntryAt(fs, src, dest, exclude, handled, n, q); }
      AgreeEverywhere(copied, next);
    } else {
      var copied := m[dest + [n] := fs[src + [n]]];
      forall q: Place ensures AgreeAt(copied, next, q) { FileEntryAt(fs, src, dest, exclude, handled, n, q); }
      AgreeEverywhere(copied, next);
    }
  }

  lemma DirEntryAt(fs: Tree, src: Place, dest: Place, exclude: Place, handled: set<string>, n: string, q: Place)
    requires Ready(fs, src, dest, exclude)
    requires IsDir(fs, src + [n]) && src + [n] != exclude && n !in handled
    ensures var copied := Copied(Midway(fs, src, dest, exclude, handled), src + [n], dest + [n], exclude);
            var next := Midway(fs, src, dest, exclude, handled + {n});
            AgreeAt(copied, next, q)
  {
    var m, child, target := Midway(fs, src, dest, exclude, handled), src + [n], dest + [n];
    EntryReady(fs, src, dest, exclude, handled, n);
    TargetFree(m, dest, n);
    SameImage(fs, src, dest, exclude, handled, n, q);
    EntryImage(fs, src, dest, exclude, handled, n, q);
    if target <= q { EntryMoves(src, dest, n, q); }
    if q == target {
      assert Moved(target, child, q) == child;
      assert InImage(m, child, target, exclude, Names(m, child), q);
    }
  }

  lemma FileImage(fs: Tree, file: Place, target: Place, exclude: Place, q: Place)
    requires WellFormed(fs) && file in fs && fs[file].File?
    ensures InImage(fs, file, target, exclude, Names(fs, file), q) <==> q == target
    ensures Moved(target, file, target) == file
  {
    assert Moved(target, file, target) == file;
    assert target <= q && |q| == |target| ==> q == target;
    if target < q { NothingUnderFile(fs, file, Moved(target, file, q)); }
  }

  lemma FileEntryAt(fs: Tree, src: Place, dest: Place, exclude: Place, handled: set<string>, n: string, q: Place)
    requires Ready(fs, src, dest, exclude)
    requires src + [n] in fs && fs[src + [n]].File? && src + [n] != exclude && n !in handled
    ensures var copied := Midway(fs, src, dest, exclude, handled)[dest + [n] := fs[src + [n]]];
            var next := Midway(fs, src, dest, exclude, handled + {n});
            AgreeAt(copied, next, q)
  {
    EntryImage(fs, src, dest, exclude, handled, n, q);
    FileImage(fs, src + [n], dest + [n], exclude, q);
    if q == dest + [n] { EntryMoves(src, dest, n, q); }
  }

  lemma NothingUnderFile(fs: Tree, file: Place, p: Place)
    requires WellFormed(fs) && file in fs && fs[file].File? && file < p
    ensures p !in fs
  {
    assert p[..|file|] == file;
    if p in fs { AncestorsExist(fs, p, |file|); }
  }

  lemma SameImage(fs: Tree, src: Place, dest: Place, exclude: Place, handled: set<string>, n: string, q: Place)
    requires Ready(fs, src, dest, exclude)
    requires src + [n] in fs && src + [n] != exclude && n !in handled
    ensures var m := Midway(fs, src, dest, exclude, handled);
            && (InImage(m, src + [n], dest + [n], exclude, Names(m, src + [n]), q) <==>
                InImage(fs, src + [n], dest + [n], exclude, Names(fs, src + [n]), q))
            && (InImage(m, src + [n], dest + [n], exclude, Names(m, src + [n]), q) ==>
                  m[Moved(dest + [n], src + [n], q)] == fs[Moved(dest + [n], src + [n], q)])
  {
    var m, child, target := Midway(fs, src, dest, exclude, handled), src + [n], dest + [n];
    if target <= q && InRegion(child, exclude, Moved(target, child, q)) {
      var p := Moved(target, child, q);
      RegionNarrows(src, exclude, n, p);
      MidwayFrame(fs, src, dest, exclude, handled, p);
      MidwayWellFormed(fs, src, dest, exclude, handled);
      if p in fs && |q| > |target| {
        FirstName(fs, child, p);
        FirstName(m, child, p);
        assert p[|child|] == q[|target|];
      }
    }
  }

  lemma MidwayStart(fs: Tree, src: Place, dest: Place, exclude: Place)
    requires IsDir(fs, src) && !FileOnWay(fs, dest)
    ensures Midway(fs, src, dest, exclude, {}) == WithDirs(fs, dest)
  {
    assert Moved(dest, src, dest) == src;
    assert dest[..|dest|] == dest;
    forall q: Place ensures AgreeAt(Midway(fs, src, dest, exclude, {}), WithDirs(fs, dest), q) {
      assert dest <= q && |q| == |dest| ==> q == dest;
    }
    AgreeEverywhere(Midway(fs, src, dest, exclude, {}), WithDirs(fs, dest));
  }

  // All entries but those still to do are copied.
  ghost predicate Copying(nodes: Tree, fs: Tree, src: Place, dest: Place, exclude: Place, todo: set<string>) {
    var all := Names(WithDirs(fs, dest), src);
    todo <= all && nodes == Midway(fs, src, dest, exclude, all - todo)
  }

  lemma CopyStarts(fs: Tree, src: Place, dest: Place, exclude: Place)
    requires Ready(fs, src, dest, exclude)
    ensures Copying(WithDirs(fs, dest), fs, src, dest, exclude, Names(WithDirs(fs, dest), src))
  {
    var all := Names(WithDirs(fs, dest), src);
    assert all - all == {};
    MidwayStart(fs, src, dest, exclude);
  }

  lemma CopyEnds(nodes: Tree, fs: Tree, src: Place, dest: Place, exclude: Place)
    requires WellFormed(fs) && Copying(nodes, fs, src, dest, exclude, {})
    ensures nodes == Copied(fs, src, dest, exclude)
  {
    var all := Names(WithDirs(fs, dest), src);
    assert all - {} == all;
    ImageSaturates(fs, src, dest, exclude, all);
  }

  // An entry seen after the destination was made was there before, unless it is the excluded one.
  lemma EntryFound(fs: Tree, src: Place, dest: Place, exclude: Place, n: string)
    requires Ready(fs, src, dest, exclude) && n in Names(WithDirs(fs, dest), src) && src + [n] != exclude
    ensures src + [n] in fs
  {
    RegionNarrows(src, exclude, n, src + [n]);
    assert MadeOutside(fs, src, exclude, src + [n]);
  }

  lemma WalkShrinks(fs: Tree, src: Place, dest: Place, exclude: Place, handled: set<string>, n: string)
    requires Ready(fs, src, dest, exclude) && src + [n] != exclude
    ensures |Walked(Midway(fs, src, dest, exclude, handled), src + [n], exclude)| < |Walked(fs, src, exclude)|
  {
    var m := Midway(fs, src, dest, exclude, handled);
    var inner, outer := Walked(m, src + [n], exclude), Walked(fs, src, exclude);
    forall p | p in inner ensures p in outer - {src} {
      RegionNarrows(src, exclude, n, p);
      MidwayFrame(fs, src, dest, exclude, handled, p);
    }
    assert src in outer;
    Smaller(inner, outer - {src});
  }

  lemma {:induction false} Smaller(a: set<Place>, b: set<Place>)
    requires a <= b
    ensures |a| <= |b|
    decreases |a|
  {
    if a != {} {
      var x :| x in a;
      Smaller(a - {x}, b - {x});
    }
  }

  // Clearing ----------------------------------------------------------------------------------------------------

  // Only entries of the directory itself are compared with the excluded place.
  predicate Kept(dir: Place, exclude: Place, p: Place) {
    !(dir < p) || p[..|dir| + 1] == exclude
  }

  function Cleared(fs: Tree, dir: Place, exclude: Place): (r: Tree) {
    map p | p in fs && Kept(dir, exclude, p) :: fs[p]
  }

  function Without(fs: Tree, top: Place): (r: Tree) {
    map p | p in fs && !(top <= p) :: fs[p]
  }

  // Cleared of the handled entries only.
  function ClearedOf(fs: Tree, dir: Place, exclude: Place, handled: set<string>): (r: Tree) {
    map p | p in fs && (Kept(dir, exclude, p) || p[|dir|] !in handled) :: fs[p]
  }

  lemma ClearStart(fs: Tree, dir: Place, exclude: Place)
    ensures ClearedOf(fs, dir, exclude, {}) == fs
  {
  }

  lemma ClearStep(fs: Tree, dir: Place, exclude: Place, handled: set<string>, n: string)
    ensures ClearedOf(fs, dir, exclude, handled + {n}) ==
            if dir + [n] == exclude then ClearedOf(fs, dir, exclude, handled)
            else Without(ClearedOf(fs, dir, exclude, handled), dir + [n])
  {
    var before, after := ClearedOf(fs, dir, exclude, handled), ClearedOf(fs, dir, exclude, handled + {n});
    var expected := if dir + [n] == exclude then before else Without(before, dir + [n]);
    forall p: Place ensures AgreeAt(after, expected, p) {
      if dir < p { assert p[..|dir| + 1] == dir + [p[|dir|]]; }
      assert dir + [n] <= p ==> dir < p && p[|dir|] == n;
    }
    AgreeEverywhere(after, expected);
  }

  lemma ClearEnd(fs: Tree, dir: Place, exclude: Place)
    requires WellFormed(fs)
    ensures ClearedOf(fs, dir, exclude, Names(fs, dir)) == Cleared(fs, dir, exclude)
  {
    forall p | p in fs && dir < p ensures p[|dir|] in Names(fs, dir) {
      FirstName(fs, dir, p);
    }
  }

  /** The disk as the object the operations change. */
  class FileTree {
    var nodes: Tree

    constructor (initial: Tree)
      ensures nodes == initial
    {
      nodes := initial;
    }

    method CreateDirAll(p: Place) returns (ok: bool)
      requires WellFormed(nodes)
      modifies this
      ensures ok <==> !FileOnWay(old(nodes), p)
      ensures nodes == if ok then WithDirs(old(nodes), p) else old(nodes)
    {
      RootDirs(nodes);
      assert p[..0] == [];
      for k := 1 to |p| + 1
        invariant nodes == WithDirs(old(nodes), p[..k - 1]) && !FileOnWay(old(nodes), p[..k - 1])
      {
        assert p[..k] == p[..k - 1] + [p[k - 1]];
        NextDir(old(nodes), p[..k - 1], p[k - 1]);
        if p[..k] in nodes {
          if nodes[p[..k]].File? {
            FileStops(old(nodes), p, k);
            return false;
          }
        } else {
          nodes := nodes[p[..k] := Dir];
        }
      }
      assert p[..|p|] == p;
      return true;
    }

    method CopyDirRecursive(src: Place, dest: Place, exclude: Place) returns (ok: bool)
      requires WellFormed(nodes)
      requires src <= dest ==> src in nodes
      requires IsDir(nodes, src) && !FileOnWay(nodes, dest) ==> Fits(nodes, src, dest, exclude)
      modifies this
      ensures ok <==> IsDir(old(nodes), src) && !FileOnWay(old(nodes), dest)
      ensures nodes == if ok then Copied(old(nodes), src, dest, exclude)
                       else if FileOnWay(old(nodes), dest) then old(nodes) else WithDirs(old(nodes), dest)
      decreases |Walked(nodes, src, exclude)|, 2
    {
      ghost var fs := nodes;
      var made := CreateDirAll(dest);
      if !made { return false; }
      if src !in nodes || nodes[src].File? { return false; }
      ok := CopyEntries(src, dest, exclude, fs);
    }

    method CopyEntries(src: Place, dest: Place, exclude: Place, ghost fs: Tree) returns (ok: bool)
      requires Ready(fs, src, dest, exclude) && nodes == WithDirs(fs, dest)
      modifies this
      ensures ok && nodes == Copied(fs, src, dest, exclude)
      decreases |Walked(fs, src, exclude)|, 1
    {
      ok := true;
      var todo := Names(nodes, src);
      CopyStarts(fs, src, dest, exclude);
      while todo != {}
        invariant ok && Copying(nodes, fs, src, dest, exclude, todo)
        decreases |todo|
      {
        var n :| n in todo;
        ok := CopyEntry(src, dest, exclude, n, fs, todo);
        todo := todo - {n};
      }
      CopyEnds(nodes, fs, src, dest, exclude);
    }

    // The body of the loop.
    method CopyEntry(src: Place, dest: Place, exclude: Place, n: string, ghost fs: Tree, ghost todo: set<string>)
      returns (ok: bool)
      requires Ready(fs, src, dest, exclude) && Copying(nodes, fs, src, dest, exclude, todo) && n in todo
      modifies this
      ensures ok && Copying(nodes, fs, src, dest, exclude, todo - {n})
      decreases |Walked(fs, src, exclude)|, 0
    {
      ok := true;
      ghost var all := Names(WithDirs(fs, dest), src);
      ghost var handled := all - todo;
      assert all - (todo - {n}) == handled + {n};
      if src + [n] == exclude {
        SkipExcluded(fs, src, dest, exclude, handled, n);
        return;
      }
      EntryFound(fs, src, dest, exclude, n);
      EntryReady(fs, src, dest, exclude, handled, n);
      EntryDone(fs, src, dest, exclude, handled, n);
      if nodes[src + [n]].Dir? {
        WalkShrinks(fs, src, dest, exclude, handled, n);
        ok := CopyDirRecursive(src + [n], dest + [n], exclude);
      } else {
        nodes := nodes[dest + [n] := nodes[src + [n]]];
      }
    }

    // A missing directory has nothing to remove.
    method RemoveDirAll(top: Place)
      modifies this
      ensures nodes == Without(old(nodes), top)
    {
      nodes := Without(nodes, top);
    }

    method ClearDirExcluding(dir: Place, exclude: Place) returns (ok: bool)
      requires WellFormed(nodes)
      modifies this
      ensures ok <==> IsDir(old(nodes), dir)
      ensures nodes == if ok then Cleared(old(nodes), dir, exclude) else old(nodes)
    {
      if dir !in nodes || nodes[dir].File? { return false; }
      var todo := Names(nodes, dir);
      ClearStart(nodes, dir, exclude);
      while todo != {}
        invariant todo <= Names(old(nodes), dir)
        invariant nodes == ClearedOf(old(nodes), dir, exclude, Names(old(nodes), dir) - todo)
        decreases |todo|
      {
        var n :| n in todo;
        ghost var handled := Names(old(nodes), dir) - todo;
        assert Names(old(nodes), dir) - (todo - {n}) == handled + {n};
        ClearStep(old(nodes), dir, exclude, handled, n);
        todo := todo - {n};
        if dir + [n] != exclude {
          nodes := Without(nodes, dir + [n]);
        }
      }
      ClearEnd(old(nodes), dir, exclude);
      return true;
    }
  }
}
