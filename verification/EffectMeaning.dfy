/** What normalization means, stated without recursion guards or error plumbing. */
module EffectMeaning {
  import opened Prelude
  import opened Paths
  import opened EffectContracts
  import opened Effects

  function Raws(ps: PathArguments, k: string, arguments: Arguments): (r: seq<string>)
    requires k in ps
  {
    var raws := RawPaths(ps[k], arguments);
    if raws.Ok? then raws.value else []
  }

  // The paths argument k stands for: every raw text against every path of its base, or the root.
  ghost function PathSet(ps: PathArguments, k: string, arguments: Arguments, root: Path): set<Path>
    requires k in ps && BasesResolve(ps) && !Cyclic(ps)
    decreases Height(ps, k)
  {
    var bases :=
      if ps[k].base.None? then {root}
      else (HeightDescends(ps, k); PathSet(ps, ps[k].base.value, arguments, root));
    set raw, base | raw in Raws(ps, k, arguments) && base in bases :: ArgumentPath(raw, base)
  }

  // Static effects touch the root; each path argument's effects touch each of its paths.
  ghost predicate Declared(c: Contract, arguments: Arguments, root: Path, effect: Effect, path: Path)
    requires Accepted(c)
  {
    || (effect in c.effects && path == root)
    || (exists k | k in c.paths.values ::
          effect in c.paths.values[k].effects && path in PathSet(c.paths.values, k, arguments, root))
  }

  // One argument, judged on its own value and on whether the base it needs was left empty.
  ghost predicate Supplied(ps: PathArguments, k: string, arguments: Arguments)
    requires k in ps && BasesResolve(ps)
  {
    && RawPaths(ps[k], arguments).Ok?
    && (Raws(ps, k, arguments) != [] ==>
          && AllValid(Raws(ps, k, arguments))
          && (ps[k].base.Some? ==> !SuppliedEmpty(arguments, ps[k].base.value)))
  }

  ghost predicate SuppliedEmpty(arguments: Arguments, k: string) {
    k in arguments && arguments[k] == JArray([])
  }

  ghost predicate Acceptable(c: Contract, arguments: Table<Json>)
    requires Accepted(c)
  {
    && ToSet(arguments.keys) <= c.arguments
    && (forall k | k in c.paths.values :: Supplied(c.paths.values, k, arguments.values))
    && (c.effects != {} || exists k | k in c.paths.values :: Raws(c.paths.values, k, arguments.values) != [])
  }

  ghost predicate WellFormed(ps: PathArguments) {
    && BasesResolve(ps) && BasesDeterminate(ps) && !Cyclic(ps)
    && forall k | k in ps :: ps[k].argument == k && ps[k].effects != {}
  }

  // Whether k and the bases it needs were all supplied acceptably.
  ghost predicate ChainSupplied(ps: PathArguments, k: string, arguments: Arguments)
    requires k in ps && BasesResolve(ps) && !Cyclic(ps)
    decreases Height(ps, k)
  {
    && Supplied(ps, k, arguments)
    && (Raws(ps, k, arguments) != [] && ps[k].base.Some? ==>
          (HeightDescends(ps, k); ChainSupplied(ps, ps[k].base.value, arguments)))
  }

  // No argument on the chain of k is being resolved already.
  ghost predicate ChainFree(ps: PathArguments, k: string, resolving: set<string>) {
    forall n: nat | Follow(ps, k, n).Some? :: Follow(ps, k, n).value !in resolving
  }

  lemma ChainFreeBelow(ps: PathArguments, k: string, resolving: set<string>)
    requires !Cyclic(ps) && HasBase(ps, k) && ChainFree(ps, k, resolving)
    ensures k !in resolving && ChainFree(ps, ps[k].base.value, resolving + {k})
  {
    assert Follow(ps, k, 0) == Some(k);
    var b := ps[k].base.value;
    forall n: nat | Follow(ps, b, n).Some? ensures Follow(ps, b, n).value !in resolving + {k} {
      assert Follow(ps, k, n + 1) == Follow(ps, b, n);
    }
  }

  lemma {:induction false} ProductIsAll(raws: seq<string>, bases: seq<Path>)
    ensures ToSet(Product(raws, bases)) == set raw, base | raw in raws && base in ToSet(bases) :: ArgumentPath(raw, base)
    decreases |raws|
  {
    if raws != [] {
      var init, last := raws[..|raws| - 1], raws[|raws| - 1];
      ProductIsAll(init, bases);
      var row := Row(last, bases);
      assert forall base | base in ToSet(bases) :: exists i | 0 <= i < |bases| :: bases[i] == base;
      assert ToSet(row) == set base | base in ToSet(bases) :: ArgumentPath(last, base) by {
        forall base | base in ToSet(bases) ensures ArgumentPath(last, base) in row {
          var i :| 0 <= i < |bases| && bases[i] == base;
          assert row[i] == ArgumentPath(last, base);
        }
      }
      assert ToSet(Product(raws, bases)) == ToSet(Product(init, bases)) + ToSet(row);
      assert forall raw | raw in raws :: raw in init || raw == last;
      assert forall raw | raw in init :: raw in raws;
    }
  }

  // A determinate base yields no path text exactly when it was supplied as an empty array.
  lemma EmptyBaseIsEmptyArray(ps: PathArguments, k: string, arguments: Arguments)
    requires WellFormed(ps) && HasBase(ps, k)
    requires RawPaths(ps[ps[k].base.value], arguments).Ok?
    ensures Raws(ps, ps[k].base.value, arguments) == [] <==> SuppliedEmpty(arguments, ps[k].base.value)
  {
    var b := ps[ps[k].base.value];
    if b.argument in arguments && arguments[b.argument].JArray? && AllStrings(arguments[b.argument].items) {
      assert |Texts(arguments[b.argument].items)| == |arguments[b.argument].items|;
    }
  }

  ghost predicate NeedsEmptyBase(ps: PathArguments, x: string, arguments: Arguments) {
    && HasBase(ps, x) && Raws(ps, x, arguments) != [] && SuppliedEmpty(arguments, ps[x].base.value)
  }

  /** The guarded recursion, for one argument: it succeeds exactly when the chain was supplied well,
      its paths are the declarative set, and it blames a dependency only over an empty base. */
  lemma {:induction false} ResolveMeans(
    ps: PathArguments, k: string, arguments: Arguments, root: Path, resolving: set<string>)
    requires k in ps && WellFormed(ps) && ChainFree(ps, k, resolving)
    ensures var r := ResolvePaths(ps, k, arguments, root, resolving);
            && (r.Ok? <==> ChainSupplied(ps, k, arguments))
            && (r.Ok? ==> ToSet(r.value) == PathSet(ps, k, arguments, root))
            && (r.Ok? ==> (r.value == [] <==> Raws(ps, k, arguments) == []))
            && (r.Err? && r.error.InvalidPathDependency? ==>
                  r.error.name in ps && NeedsEmptyBase(ps, r.error.name, arguments))
    decreases Height(ps, k)
  {
    assert Follow(ps, k, 0) == Some(k);
    var raws := RawPaths(ps[k], arguments);
    if raws.Ok? && raws.value != [] {
      if ps[k].base.Some? {
        var b := ps[k].base.value;
        HeightDescends(ps, k);
        ChainFreeBelow(ps, k, resolving);
        ResolveMeans(ps, b, arguments, root, resolving + {k});
        var bases := ResolvePaths(ps, b, arguments, root, resolving + {k});
        if RawPaths(ps[b], arguments).Ok? { EmptyBaseIsEmptyArray(ps, k, arguments); }
        if bases.Ok? && bases.value != [] {
          ProductIsAll(raws.value, bases.value);
          ProductNonEmpty(raws.value, bases.value);
        }
      } else {
        ProductIsAll(raws.value, [root]);
        assert ToSet([root]) == {root};
      }
    }
  }

  // Every effect a resolution records belongs to the argument or to a base of it.
  lemma {:induction false} InsertedIsDeclared(
    ps: PathArguments, k: string, arguments: Arguments, root: Path, resolving: set<string>)
    requires k in ps && WellFormed(ps) && ChainFree(ps, k, resolving)
    requires ResolvePaths(ps, k, arguments, root, resolving).Ok?
    ensures var r := Inserted(ps, k, arguments, root, resolving);
            && Pairs(ps[k].effects, PathSet(ps, k, arguments, root)) <= r
            && forall pair | pair in r ::
                 exists n | n in ps :: pair.0 in ps[n].effects && pair.1 in PathSet(ps, n, arguments, root)
    decreases Height(ps, k)
  {
    ResolveMeans(ps, k, arguments, root, resolving);
    var paths := ResolvePaths(ps, k, arguments, root, resolving).value;
    if paths == [] {
      assert ToSet(paths) == {};
    } else if ps[k].base.Some? {
      HeightDescends(ps, k);
      ChainFreeBelow(ps, k, resolving);
      InsertedIsDeclared(ps, ps[k].base.value, arguments, root, resolving + {k});
    }
  }

  ghost predicate FromKeys(ps: PathArguments, keys: seq<string>, arguments: Arguments, root: Path, effects: EffectSet)
    requires WellFormed(ps) && forall k | k in keys :: k in ps
  {
    && (forall k | k in keys :: Pairs(ps[k].effects, PathSet(ps, k, arguments, root)) <= effects)
    && (forall pair | pair in effects ::
          exists n | n in ps :: pair.0 in ps[n].effects && pair.1 in PathSet(ps, n, arguments, root))
  }

  lemma {:induction false} ResolveAllMeans(ps: PathArguments, keys: seq<string>, arguments: Arguments, root: Path)
    requires WellFormed(ps) && forall k | k in keys :: k in ps
    ensures var r := ResolveAll(ps, keys, arguments, root);
            && (r.Ok? <==> forall k | k in keys :: ChainSupplied(ps, k, arguments))
            && (r.Ok? ==> FromKeys(ps, keys, arguments, root, r.value))
            && (r.Err? && r.error.InvalidPathDependency? ==>
                  r.error.name in ps && NeedsEmptyBase(ps, r.error.name, arguments))
            && (r.Err? ==> !r.error.NothingNormalized? && !r.error.UnknownArgument?)
    decreases |keys|
  {
    if keys != [] {
      var init, k := keys[..|keys| - 1], keys[|keys| - 1];
      assert forall x | x in init :: x in keys;
      assert forall x | x in keys :: x in init || x == k;
      ResolveAllMeans(ps, init, arguments, root);
      ResolveMeans(ps, k, arguments, root, {});
      ErrorsAreLocal(ps, k, arguments, root, {});
      if ResolvePaths(ps, k, arguments, root, {}).Ok? { InsertedIsDeclared(ps, k, arguments, root, {}); }
    }
  }

  lemma {:induction false} ErrorsAreLocal(
    ps: PathArguments, k: string, arguments: Arguments, root: Path, resolving: set<string>)
    requires k in ps
    ensures var r := ResolvePaths(ps, k, arguments, root, resolving);
            r.Err? ==> !r.error.NothingNormalized? && !r.error.UnknownArgument?
    decreases ps.Keys - resolving
  {
    if k !in resolving && ps[k].base.Some? && ps[k].base.value in ps {
      ErrorsAreLocal(ps, ps[k].base.value, arguments, root, resolving + {k});
    }
  }

  // With every argument judged, judging chains adds nothing.
  lemma {:induction false} ChainsFromParts(ps: PathArguments, k: string, arguments: Arguments)
    requires k in ps && WellFormed(ps)
    requires forall n | n in ps :: Supplied(ps, n, arguments)
    ensures ChainSupplied(ps, k, arguments)
    decreases Height(ps, k)
  {
    if ps[k].base.Some? {
      HeightDescends(ps, k);
      ChainsFromParts(ps, ps[k].base.value, arguments);
    }
  }

  lemma {:induction false} PathsExist(ps: PathArguments, k: string, arguments: Arguments, root: Path)
    requires k in ps && WellFormed(ps) && ChainSupplied(ps, k, arguments)
    ensures PathSet(ps, k, arguments, root) == {} <==> Raws(ps, k, arguments) == []
    decreases Height(ps, k)
  {
    ResolveMeans(ps, k, arguments, root, {});
    var paths := ResolvePaths(ps, k, arguments, root, {}).value;
    if paths != [] { assert paths[0] in ToSet(paths); }
  }

  /** The whole of normalization, for every accepted contract and every argument object. */
  lemma NormalizeMeans(c: Contract, arguments: Table<Json>, root: Path)
    requires Accepted(c) && arguments.Valid()
    ensures Normalize(c, arguments, root).Ok? <==> Acceptable(c, arguments)
    ensures Normalize(c, arguments, root).Ok? ==>
              forall effect: Effect, path: Path ::
                (effect, path) in Normalize(c, arguments, root).value <==>
                Declared(c, arguments.values, root, effect, path)
    ensures var r := Normalize(c, arguments, root);
            r.Err? && r.error.InvalidPathDependency? ==>
              r.error.name in c.paths.values && NeedsEmptyBase(c.paths.values, r.error.name, arguments.values)
    ensures var r := Normalize(c, arguments, root);
            r.Err? && r.error.NothingNormalized? ==>
              c.effects == {} && forall k | k in c.paths.values :: Raws(c.paths.values, k, arguments.values) == []
  {
    var ps, keys, args := c.paths.values, c.paths.keys, arguments.values;
    assert forall k | k in keys :: k in ToSet(keys);
    assert forall k | k in ps :: k in ToSet(keys);
    ResolveAllMeans(ps, keys, args, root);
    var resolved := ResolveAll(ps, keys, args, root);
    if resolved.Err? {
      if forall n | n in ps :: Supplied(ps, n, args) {
        forall k | k in keys ensures ChainSupplied(ps, k, args) { ChainsFromParts(ps, k, args); }
      }
    } else {
      forall k | k in ps ensures PathSet(ps, k, args, root) == {} <==> Raws(ps, k, args) == [] {
        PathsExist(ps, k, args, root);
      }
      ContentsAgree(c, args, root, Pairs(c.effects, {root}) + resolved.value, resolved.value);
      EmptinessAgrees(c, args, root, Pairs(c.effects, {root}) + resolved.value);
    }
  }

  ghost predicate AllDeclared(c: Contract, arguments: Arguments, root: Path, all: EffectSet)
    requires Accepted(c)
  {
    forall effect: Effect, path: Path :: (effect, path) in all <==> Declared(c, arguments, root, effect, path)
  }

  lemma ContentsAgree(c: Contract, arguments: Arguments, root: Path, all: EffectSet, resolved: EffectSet)
    requires Accepted(c) && ToSet(c.paths.keys) == c.paths.values.Keys
    requires forall k | k in c.paths.keys :: k in c.paths.values
    requires FromKeys(c.paths.values, c.paths.keys, arguments, root, resolved)
    requires all == Pairs(c.effects, {root}) + resolved
    ensures AllDeclared(c, arguments, root, all)
  {
    var ps := c.paths.values;
    forall effect: Effect, path: Path
      ensures (effect, path) in all <==> Declared(c, arguments, root, effect, path)
    {
      if k :| k in ps && effect in ps[k].effects && path in PathSet(ps, k, arguments, root) {
        assert k in ToSet(c.paths.keys);
        assert (effect, path) in Pairs(ps[k].effects, PathSet(ps, k, arguments, root));
      }
      if effect in c.effects && path == root { assert (effect, path) in Pairs(c.effects, {root}); }
      if (effect, path) in resolved {
        var n :| n in ps && effect in ps[n].effects && path in PathSet(ps, n, arguments, root);
      }
    }
  }

  lemma EmptinessAgrees(c: Contract, arguments: Arguments, root: Path, all: EffectSet)
    requires Accepted(c) && AllDeclared(c, arguments, root, all)
    requires forall k | k in c.paths.values ::
               PathSet(c.paths.values, k, arguments, root) == {} <==> Raws(c.paths.values, k, arguments) == []
    ensures all == {} <==>
            c.effects == {} && forall k | k in c.paths.values :: Raws(c.paths.values, k, arguments) == []
  {
    var ps := c.paths.values;
    if e :| e in c.effects { assert Declared(c, arguments, root, e, root); }
    if k :| k in ps && Raws(ps, k, arguments) != [] {
      var p :| p in PathSet(ps, k, arguments, root);
      var e :| e in ps[k].effects;
      assert Declared(c, arguments, root, e, p);
    }
    if pair :| pair in all {
      assert Declared(c, arguments, root, pair.0, pair.1);
    }
  }
}
