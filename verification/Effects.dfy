/** Normalizing an operation's arguments into the effects it may have:
    ToolEffectContract::normalize in crates/policy/src/operation_effects.rs. */
module Effects {
  import opened Prelude
  import opened Paths
  import opened EffectContracts

  datatype Json = JNull | JBool(b: bool) | JNumber | JString(text: string) | JArray(items: seq<Json>) | JObject

  type Arguments = map<string, Json>

  type EffectSet = set<(Effect, Path)>

  datatype NormalizationError =
    | UnknownArgument(name: string)
    | MissingRequiredPathArgument(name: string)
    | InvalidPathValue(name: string)
    | UnsupportedPathSyntax(name: string)
    | NothingNormalized
    | InvalidPathDependency(name: string)

  predicate AllStrings(items: seq<Json>) {
    forall i | 0 <= i < |items| :: items[i].JString?
  }

  function Texts(items: seq<Json>): (r: seq<string>)
    requires AllStrings(items)
    ensures |r| == |items|
  {
    seq(|items|, i requires 0 <= i < |items| => items[i].text)
  }

  // The raw path texts one argument contributes: its value, its default, or nothing.
  function RawPaths(a: PathArgument, arguments: Arguments): (r: Result<seq<string>, NormalizationError>) {
    if a.argument !in arguments || arguments[a.argument].JNull? then
      if a.default.Some? then Ok([a.default.value])
      else if a.required then Err(MissingRequiredPathArgument(a.argument))
      else Ok([])
    else
      match arguments[a.argument]
      case JString(text) => Ok([text])
      case JArray(items) => if AllStrings(items) then Ok(Texts(items)) else Err(InvalidPathValue(a.argument))
      case _ => Err(InvalidPathValue(a.argument))
  }

  predicate AllValid(raws: seq<string>) {
    forall i | 0 <= i < |raws| :: ValidPathText(raws[i])
  }

  function Row(raw: string, bases: seq<Path>): (r: seq<Path>)
    ensures |r| == |bases|
  {
    seq(|bases|, i requires 0 <= i < |bases| => ArgumentPath(raw, bases[i]))
  }

  function Product(raws: seq<string>, bases: seq<Path>): (r: seq<Path>) {
    if raws == [] then []
    else Product(raws[..|raws| - 1], bases) + Row(raws[|raws| - 1], bases)
  }

  function Pairs(effects: set<Effect>, paths: set<Path>): (r: EffectSet) {
    set e, p | e in effects && p in paths :: (e, p)
  }

  // resolve_path_argument: the paths of argument k, given the arguments already being resolved.
  function ResolvePaths(ps: PathArguments, k: string, arguments: Arguments, root: Path, resolving: set<string>)
    : (r: Result<seq<Path>, NormalizationError>)
    requires k in ps
    decreases ps.Keys - resolving
  {
    if k in resolving then Err(InvalidPathDependency(k))
    else
      var raws := RawPaths(ps[k], arguments);
      if raws.Err? then Err(raws.error)
      else if raws.value == [] then Ok([])
      else
        var bases :=
          if ps[k].base.None? then Ok([root])
          else if ps[k].base.value !in ps then Err(InvalidPathDependency(k))
          else ResolvePaths(ps, ps[k].base.value, arguments, root, resolving + {k});
        if bases.Err? then bases
        else if bases.value == [] then Err(InvalidPathDependency(k))
        else if !AllValid(raws.value) then Err(UnsupportedPathSyntax(k))
        else Ok(Product(raws.value, bases.value))
  }

  // The effects one successful resolution records: the argument's own and those of its base chain.
  function Inserted(ps: PathArguments, k: string, arguments: Arguments, root: Path, resolving: set<string>)
    : (r: EffectSet)
    requires k in ps
    decreases ps.Keys - resolving
  {
    var paths := ResolvePaths(ps, k, arguments, root, resolving);
    if paths.Err? || paths.value == [] then {}
    else
      Pairs(ps[k].effects, ToSet(paths.value)) +
      (if ps[k].base.None? then {} else Inserted(ps, ps[k].base.value, arguments, root, resolving + {k}))
  }

  function ResolveAll(ps: PathArguments, keys: seq<string>, arguments: Arguments, root: Path)
    : (r: Result<EffectSet, NormalizationError>)
    requires forall k | k in keys :: k in ps
  {
    if keys == [] then Ok({})
    else
      var init, k := keys[..|keys| - 1], keys[|keys| - 1];
      var before := ResolveAll(ps, init, arguments, root);
      if before.Err? then before
      else
        var paths := ResolvePaths(ps, k, arguments, root, {});
        if paths.Err? then Err(paths.error)
        else Ok(before.value + Inserted(ps, k, arguments, root, {}))
  }

  function FirstUnknown(keys: seq<string>, known: set<string>): (r: Option<string>)
    ensures r.None? <==> ToSet(keys) <= known
    ensures r.Some? ==> r.value in keys && r.value !in known
  {
    if keys == [] then None
    else if keys[0] !in known then Some(keys[0])
    else FirstUnknown(keys[1..], known)
  }

  function Normalize(c: Contract, arguments: Table<Json>, root: Path): (r: Result<EffectSet, NormalizationError>)
    requires Accepted(c)
  {
    assert forall k | k in c.paths.keys :: k in ToSet(c.paths.keys);
    var unknown := FirstUnknown(arguments.keys, c.arguments);
    if unknown.Some? then Err(UnknownArgument(unknown.value))
    else
      var resolved := ResolveAll(c.paths.values, c.paths.keys, arguments.values, root);
      if resolved.Err? then resolved
      else
        var all := Pairs(c.effects, {root}) + resolved.value;
        if all == {} then Err(NothingNormalized) else Ok(all)
  }

  /** One run of the normalizer, with the two collections the recursion updates in place. */
  class Normalizer {
    var normalized: EffectSet
    var resolving: set<string>

    constructor ()
      ensures normalized == {} && resolving == {}
    {
      normalized, resolving := {}, {};
    }

    // The argument's raw texts, collected item by item.
    method CollectRaw(a: PathArgument, arguments: Arguments) returns (r: Result<seq<string>, NormalizationError>)
      ensures r == RawPaths(a, arguments)
    {
      if a.argument !in arguments || arguments[a.argument].JNull? {
        if a.default.Some? { return Ok([a.default.value]); }
        if a.required { return Err(MissingRequiredPathArgument(a.argument)); }
        return Ok([]);
      }
      match arguments[a.argument] {
        case JString(text) => return Ok([text]);
        case JArray(items) =>
          var raws: seq<string> := [];
          for i := 0 to |items|
            invariant AllStrings(items[..i]) && raws == Texts(items[..i])
          {
            if !items[i].JString? {
              return Err(InvalidPathValue(a.argument));
            }
            raws := raws + [items[i].text];
            assert items[..i + 1] == items[..i] + [items[i]];
          }
          assert items[..|items|] == items;
          return Ok(raws);
        case _ => return Err(InvalidPathValue(a.argument));
      }
    }

    // The nested loop over raw texts and resolved bases.
    method Combine(a: PathArgument, raws: seq<string>, bases: seq<Path>)
      returns (r: Result<seq<Path>, NormalizationError>)
      requires bases != []
      modifies this`normalized
      ensures r == if AllValid(raws) then Ok(Product(raws, bases)) else Err(UnsupportedPathSyntax(a.argument))
      ensures r.Ok? ==> normalized == old(normalized) + Pairs(a.effects, ToSet(r.value))
    {
      var paths: seq<Path> := [];
      for i := 0 to |raws|
        invariant AllValid(raws[..i]) && paths == Product(raws[..i], bases)
        invariant normalized == old(normalized) + Pairs(a.effects, ToSet(paths))
      {
        ghost var done := paths;
        for j := 0 to |bases|
          invariant j > 0 ==> ValidPathText(raws[i])
          invariant paths == done + Row(raws[i], bases)[..j]
          invariant normalized == old(normalized) + Pairs(a.effects, ToSet(paths))
        {
          if !ValidPathText(raws[i]) {
            return Err(UnsupportedPathSyntax(a.argument));
          }
          var path := ArgumentPath(raws[i], bases[j]);
          normalized := normalized + Pairs(a.effects, {path});
          assert ToSet(paths + [path]) == ToSet(paths) + {path};
          paths := paths + [path];
          assert Row(raws[i], bases)[..j + 1] == Row(raws[i], bases)[..j] + [path];
        }
        assert raws[..i + 1][..i] == raws[..i];
        assert Row(raws[i], bases)[..|bases|] == Row(raws[i], bases);
      }
      assert raws[..|raws|] == raws;
      return Ok(paths);
    }

    method ResolvePathArgument(ps: PathArguments, k: string, arguments: Arguments, root: Path)
      returns (r: Result<seq<Path>, NormalizationError>)
      requires k in ps && forall n | n in ps :: ps[n].argument == n
      modifies this
      ensures r == ResolvePaths(ps, k, arguments, root, old(resolving))
      ensures r.Ok? ==>
                && resolving == old(resolving)
                && normalized == old(normalized) + Inserted(ps, k, arguments, root, old(resolving))
      decreases ps.Keys - resolving
    {
      var a := ps[k];
      if k in resolving { return Err(InvalidPathDependency(k)); }
      resolving := resolving + {k};
      var raws := CollectRaw(a, arguments);
      if raws.Err? {
        resolving := resolving - {k};
        return Err(raws.error);
      }
      if raws.value == [] {
        resolving := resolving - {k};
        return Ok([]);
      }
      var bases := [root];
      if a.base.Some? {
        if a.base.value !in ps { return Err(InvalidPathDependency(k)); }
        var below := ResolvePathArgument(ps, a.base.value, arguments, root);
        if below.Err? { return below; }
        bases := below.value;
      }
      if bases == [] { return Err(InvalidPathDependency(k)); }
      r := Combine(a, raws.value, bases);
      if r.Err? { return; }
      resolving := resolving - {k};
      ProductNonEmpty(raws.value, bases);
    }

    // Every path argument in table order, stopping at the first refusal.
    method ResolveEvery(ps: PathArguments, keys: seq<string>, arguments: Arguments, root: Path)
      returns (refused: Option<NormalizationError>)
      requires resolving == {} && (forall n | n in ps :: ps[n].argument == n) && (forall k | k in keys :: k in ps)
      modifies this
      ensures refused.Some? ==> ResolveAll(ps, keys, arguments, root) == Err(refused.value)
      ensures refused.None? ==>
                var all := ResolveAll(ps, keys, arguments, root);
                all.Ok? && normalized == old(normalized) + all.value
    {
      for i := 0 to |keys|
        invariant resolving == {}
        invariant forall k | k in keys[..i] :: k in ps
        invariant ResolveAll(ps, keys[..i], arguments, root).Ok?
        invariant normalized == old(normalized) + ResolveAll(ps, keys[..i], arguments, root).value
      {
        assert keys[..i + 1][..i] == keys[..i];
        var paths := ResolvePathArgument(ps, keys[i], arguments, root);
        if paths.Err? {
          ResolveAllStops(ps, keys, i + 1, arguments, root);
          return Some(paths.error);
        }
      }
      assert keys[..|keys|] == keys;
      return None;
    }
  }

  lemma ProductNonEmpty(raws: seq<string>, bases: seq<Path>)
    requires raws != [] && bases != []
    ensures Product(raws, bases) != []
  {
  }

  /** The imperative normalizer computes the specification. */
  method NormalizeArguments(c: Contract, arguments: Table<Json>, root: Path)
    returns (r: Result<EffectSet, NormalizationError>)
    requires Accepted(c) && arguments.Valid()
    ensures r == Normalize(c, arguments, root)
  {
    assert forall k | k in c.paths.keys :: k in ToSet(c.paths.keys);
    var unknown := FirstUnknown(arguments.keys, c.arguments);
    if unknown.Some? { return Err(UnknownArgument(unknown.value)); }
    var run := new Normalizer();
    run.normalized := Pairs(c.effects, {root});
    var refused := run.ResolveEvery(c.paths.values, c.paths.keys, arguments.values, root);
    if refused.Some? { return Err(refused.value); }
    return if run.normalized == {} then Err(NothingNormalized) else Ok(run.normalized);
  }

  lemma {:induction false} ResolveAllStops(
    ps: PathArguments, keys: seq<string>, n: nat, arguments: Arguments, root: Path)
    requires n <= |keys| && forall k | k in keys :: k in ps
    requires forall k | k in keys[..n] :: k in ps
    requires ResolveAll(ps, keys[..n], arguments, root).Err?
    ensures ResolveAll(ps, keys, arguments, root) == ResolveAll(ps, keys[..n], arguments, root)
    decreases |keys|
  {
    if n == |keys| {
      assert keys[..n] == keys;
    } else {
      var init := keys[..|keys| - 1];
      assert init[..n] == keys[..n];
      assert forall k | k in init :: k in keys;
      ResolveAllStops(ps, init, n, arguments, root);
    }
  }
}
