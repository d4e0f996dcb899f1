/** What a path argument says, read off its characters: the reference for the path arithmetic of
    crates/policy/src/operation_effects.rs. */
module PathText {
  import opened Prelude
  import opened Paths
  import opened EffectContracts

  // The same text with every backslash turned into a slash.
  ghost predicate IsPortable(raw: string, text: string) {
    |text| == |raw| && forall i | 0 <= i < |raw| :: text[i] == if raw[i] == '\\' then '/' else raw[i]
  }

  function Joined(parts: seq<string>): (r: string)
    requires parts != []
  {
    if |parts| == 1 then parts[0] else parts[0] + "/" + Joined(parts[1..])
  }

  // The texts between the slashes.
  ghost predicate Segments(text: string, parts: seq<string>) {
    parts != [] && (forall p | p in parts :: '/' !in p) && Joined(parts) == text
  }

  predicate IsName(part: string) { part != "" && part != "." }

  // The positions of the segments that count, in order: all but empty ones and ".".
  ghost predicate Selects(parts: seq<string>, indices: seq<nat>) {
    && (forall i, j | 0 <= i < j < |indices| :: indices[i] < indices[j])
    && (forall i | 0 <= i < |indices| :: indices[i] < |parts| && IsName(parts[indices[i]]))
    && (forall n | 0 <= n < |parts| && IsName(parts[n]) :: n in indices)
  }

  ghost function Pick(parts: seq<string>, indices: seq<nat>): (r: seq<string>)
    requires forall i | 0 <= i < |indices| :: indices[i] < |parts|
  {
    seq(|indices|, i requires 0 <= i < |indices| => parts[indices[i]])
  }

  // A text that begins with a slash stands for itself; any other continues the base.
  ghost predicate ReadsAs(raw: string, base: Path, r: Path) {
    exists text: string, parts: seq<string>, indices: seq<nat> :: ReadsBy(raw, base, r, text, parts, indices)
  }

  ghost predicate ReadsBy(raw: string, base: Path, r: Path, text: string, parts: seq<string>, indices: seq<nat>) {
    && IsPortable(raw, text) && Segments(text, parts) && Selects(parts, indices)
    && r == if text != "" && text[0] == '/' then Path(true, Pick(parts, indices))
            else Path(base.absolute, base.components + Pick(parts, indices))
  }

  lemma {:induction false} JoinedSplits(text: string)
    ensures Segments(text, Split(text))
    decreases |text|
  {
    if text != "" {
      var rest := Split(text[1..]);
      JoinedSplits(text[1..]);
      if text[0] == '/' {
        assert ([""] + rest)[1..] == rest;
        assert text == "/" + text[1..];
      } else {
        var parts := [[text[0]] + rest[0]] + rest[1..];
        assert parts[1..] == rest[1..];
        assert text == [text[0]] + text[1..];
      }
    }
  }

  lemma {:induction false} SegmentsAreSplit(text: string, parts: seq<string>)
    requires Segments(text, parts)
    ensures parts == Split(text)
    decreases |text|
  {
    var first, rest := parts[0], parts[1..];
    if first == "" {
      if rest != [] {
        assert text[0] == '/' && text[1..] == Joined(rest);
        SegmentsAreSplit(text[1..], rest);
      }
    } else {
      var shorter := [first[1..]] + rest;
      assert shorter[1..] == rest;
      assert text == [first[0]] + Joined(shorter);
      assert first[0] in first;
      assert forall c | c in first[1..] :: c in first;
      SegmentsAreSplit(text[1..], shorter);
      assert first == [first[0]] + first[1..];
    }
  }

  lemma {:induction false} DropAppends(parts: seq<string>, last: string)
    ensures DropSeparators(parts + [last]) == DropSeparators(parts) + if IsName(last) then [last] else []
  {
    if parts == [] {
      assert [last][1..] == [];
    } else {
      assert (parts + [last])[1..] == parts[1..] + [last];
      DropAppends(parts[1..], last);
    }
  }

  lemma {:induction false} PickedAreKept(parts: seq<string>, indices: seq<nat>)
    requires Selects(parts, indices)
    ensures Pick(parts, indices) == DropSeparators(parts)
    decreases |parts|
  {
    if parts == [] {
    } else {
      var n := |parts| - 1;
      var init := parts[..n];
      assert parts == init + [parts[n]];
      DropAppends(init, parts[n]);
      if IsName(parts[n]) {
        var m := |indices| - 1;
        LastSelected(parts, indices);
        PickedAreKept(init, indices[..m]);
        PickLast(parts, indices);
      } else {
        PickedAreKept(init, indices);
        assert Pick(parts, indices) == Pick(init, indices);
      }
    }
  }

  lemma PickLast(parts: seq<string>, indices: seq<nat>)
    requires parts != [] && indices != [] && indices[|indices| - 1] == |parts| - 1
    requires forall i | 0 <= i < |indices| - 1 :: indices[i] < |parts| - 1
    ensures Pick(parts, indices) == Pick(parts[..|parts| - 1], indices[..|indices| - 1]) + [parts[|parts| - 1]]
  {
  }

  lemma LastSelected(parts: seq<string>, indices: seq<nat>)
    requires Selects(parts, indices) && parts != [] && IsName(parts[|parts| - 1])
    ensures indices != [] && indices[|indices| - 1] == |parts| - 1
    ensures Selects(parts[..|parts| - 1], indices[..|indices| - 1])
  {
    var n := |parts| - 1;
    assert n in indices;
    var i :| 0 <= i < |indices| && indices[i] == n;
    var m := |indices| - 1;
    assert indices[i] <= indices[m] && indices[m] == n;
    forall k | 0 <= k < n && IsName(parts[..n][k]) ensures k in indices[..m] {
      var j :| 0 <= j < |indices| && indices[j] == k;
      assert indices[..m][j] == k;
    }
  }

  lemma {:induction false} SomeSelection(parts: seq<string>) returns (indices: seq<nat>)
    ensures Selects(parts, indices)
    decreases |parts|
  {
    if parts == [] {
      indices := [];
    } else {
      var n := |parts| - 1;
      indices := SomeSelection(parts[..n]);
      if IsName(parts[n]) {
        SelectsOneMore(parts, indices);
        indices := indices + [n];
      } else {
        forall k | 0 <= k < |parts| && IsName(parts[k]) ensures k in indices { assert parts[..n][k] == parts[k]; }
      }
    }
  }

  lemma SelectsOneMore(parts: seq<string>, before: seq<nat>)
    requires parts != [] && IsName(parts[|parts| - 1]) && Selects(parts[..|parts| - 1], before)
    ensures Selects(parts, before + [|parts| - 1])
  {
    var n := |parts| - 1;
    var indices := before + [n];
    forall i | 0 <= i < |before| ensures indices[i] < n && IsName(parts[indices[i]]) {
      assert parts[..n][before[i]] == parts[before[i]];
    }
    forall k | 0 <= k < |parts| && IsName(parts[k]) ensures k in indices {
      if k < n { assert parts[..n][k] == parts[k]; } else { assert indices[|before|] == k; }
    }
  }

  lemma PortableIsPortable(raw: string, text: string)
    ensures IsPortable(raw, text) <==> text == Portable(raw)
  {
  }

  // Parsing and joining come to the kept segments, after the base unless the text is absolute.
  lemma ArgumentPathIs(raw: string, base: Path)
    requires base != Path(false, [])
    ensures var text := Portable(raw);
            var kept := DropSeparators(Split(text));
            ArgumentPath(raw, base) ==
            if text != "" && text[0] == '/' then Path(true, kept) else Path(base.absolute, base.components + kept)
  {
    var kept := DropSeparators(Split(Portable(raw)));
    assert (["."] + kept)[1..] == kept;
    assert [] + kept == kept;
  }

  /** The path of an argument is what its characters say: with backslashes read as slashes, a text that
      begins with a slash is that absolute path whatever the base; any other is the base followed by exactly
      the non-empty, non-"." segments between the slashes, in order, ".." included. */
  lemma ArgumentPathMeans(raw: string, base: Path, r: Path)
    requires base != Path(false, [])
    ensures ReadsAs(raw, base, r) <==> r == ArgumentPath(raw, base)
  {
    var text := Portable(raw);
    PortableIsPortable(raw, text);
    ArgumentPathIs(raw, base);
    if r == ArgumentPath(raw, base) {
      JoinedSplits(text);
      var indices := SomeSelection(Split(text));
      PickedAreKept(Split(text), indices);
      assert ReadsBy(raw, base, r, text, Split(text), indices);
    }
    if ReadsAs(raw, base, r) {
      var t: string, parts: seq<string>, indices: seq<nat> :| ReadsBy(raw, base, r, t, parts, indices);
      PortableIsPortable(raw, t);
      SegmentsAreSplit(text, parts);
      PickedAreKept(parts, indices);
    }
  }
}
