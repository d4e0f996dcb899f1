/** Reviewed tool-effect contracts and the check of their path-argument dependencies:
    crates/policy/src/operation_effects.rs. */
module EffectContracts {
  import opened Prelude
  import opened Paths

  datatype Effect = Read | Write | Create | Delete

  // An ordered table: the keys in iteration order together with their values.
  datatype Table<V> = Table(keys: seq<string>, values: map<string, V>)
  {
    ghost predicate Valid() { Distinct(keys) && ToSet(keys) == values.Keys }
  }

  datatype PathArgument = PathArgument(
    argument: string, effects: set<Effect>, required: bool, default: Option<string>, base: Option<string>)

  type PathArguments = map<string, PathArgument>

  datatype Contract = Contract(arguments: set<string>, effects: set<Effect>, paths: Table<PathArgument>)

  datatype ContractError =
    | NoEffects
    | EmptyArgument
    | DuplicateArgument(name: string)
    | UndeclaredPathArgument(name: string)
    | DuplicatePathArgument(name: string)
    | InvalidDefaultPath(name: string)
    | EmptyBaseArgument
    | UndeclaredBasePathArgument(name: string, baseName: string)
    | CyclicPathDependency(name: string)
    | IndeterminateBasePath(name: string, baseName: string)

  // Path text ------------------------------------------------------------------------------------

  function Portable(raw: string): (r: string)
    ensures |r| == |raw|
  {
    seq(|raw|, i requires 0 <= i < |raw| => if raw[i] == '\\' then '/' else raw[i])
  }

  predicate HasDrivePrefix(text: string) {
    |text| >= 2 && ('a' <= text[0] <= 'z' || 'A' <= text[0] <= 'Z') && text[1] == ':'
  }

  predicate ValidPathText(raw: string) {
    && !Blank(raw) && '\0' !in raw
    && raw[0] != '~' && raw[0] != '$' && raw[0] != '%'
    && !HasDrivePrefix(Portable(raw))
  }

  function ArgumentPath(raw: string, base: Path): (r: Path)
    ensures base.absolute ==> r.absolute
  {
    Join(base, Parse(Portable(raw)))
  }

  // Construction ---------------------------------------------------------------------------------

  function NewPathArgument(
    argument: string, effects: set<Effect>, required: bool, default: Option<string>, base: Option<string>)
    : (r: Result<PathArgument, ContractError>)
    ensures r.Ok? <==> ValidPathArgument(PathArgument(argument, effects, required, default, base))
    ensures r.Ok? ==> r.value == PathArgument(argument, effects, required, default, base)
  {
    if Blank(argument) then Err(EmptyArgument)
    else if effects == {} then Err(NoEffects)
    else if default.Some? && !ValidPathText(default.value) then Err(InvalidDefaultPath(argument))
    else if base.Some? && Blank(base.value) then Err(EmptyBaseArgument)
    else Ok(PathArgument(argument, effects, required, default, base))
  }

  predicate ValidPathArgument(a: PathArgument) {
    && !Blank(a.argument) && a.effects != {}
    && (a.default.Some? ==> ValidPathText(a.default.value))
    && (a.base.Some? ==> !Blank(a.base.value))
  }

  // The base-argument graph ------------------------------------------------------------------------

  predicate HasBase(ps: PathArguments, k: string) {
    k in ps && ps[k].base.Some?
  }

  // The argument reached from k by following n base references, if the chain is that long.
  ghost function Follow(ps: PathArguments, k: string, n: nat): Option<string>
    decreases n
  {
    if n == 0 then Some(k)
    else if HasBase(ps, k) then Follow(ps, ps[k].base.value, n - 1)
    else None
  }

  ghost predicate OnCycle(ps: PathArguments, k: string) {
    exists n: nat :: n > 0 && Follow(ps, k, n) == Some(k)
  }

  ghost predicate Cyclic(ps: PathArguments) {
    exists k :: k in ps && OnCycle(ps, k)
  }

  ghost predicate Ends(ps: PathArguments, k: string) {
    exists n: nat :: Follow(ps, k, n).None?
  }

  ghost predicate BasesResolve(ps: PathArguments) {
    forall k | k in ps && ps[k].base.Some? :: ps[k].base.value in ps
  }

  // A base must have a value whatever the caller supplies.
  ghost predicate BasesDeterminate(ps: PathArguments) {
    forall k | HasBase(ps, k) && ps[k].base.value in ps ::
      ps[ps[k].base.value].required || ps[ps[k].base.value].default.Some?
  }

  lemma {:induction false} FollowAdds(ps: PathArguments, k: string, a: nat, b: nat)
    ensures Follow(ps, k, a + b) ==
            if Follow(ps, k, a).Some? then Follow(ps, Follow(ps, k, a).value, b) else None
    decreases a
  {
    if a > 0 && HasBase(ps, k) {
      FollowAdds(ps, ps[k].base.value, a - 1, b);
    }
  }

  lemma {:induction false} CycleNeverEnds(ps: PathArguments, k: string, period: nat, n: nat)
    requires period > 0 && Follow(ps, k, period) == Some(k)
    ensures Follow(ps, k, n).Some?
    decreases n
  {
    if n < period {
      FollowAdds(ps, k, n, period - n);
    } else {
      FollowAdds(ps, k, period, n - period);
      CycleNeverEnds(ps, k, period, n - period);
    }
  }

  // What the recursive visit with its set of open arguments decides.
  predicate Visits(ps: PathArguments, k: string, visiting: set<string>)
    decreases ps.Keys - visiting
  {
    k !in visiting && (HasBase(ps, k) ==> Visits(ps, ps[k].base.value, visiting + {k}))
  }

  lemma {:induction false} VisitedChainEnds(ps: PathArguments, k: string, visiting: set<string>)
    requires Visits(ps, k, visiting)
    ensures Ends(ps, k)
    decreases ps.Keys - visiting
  {
    if HasBase(ps, k) {
      var b := ps[k].base.value;
      VisitedChainEnds(ps, b, visiting + {k});
      var n: nat :| Follow(ps, b, n).None?;
      assert Follow(ps, k, n + 1).None?;
    } else {
      assert Follow(ps, k, 1).None?;
    }
  }

  // y is reached from k, and is either already open or lies on a cycle.
  ghost predicate Revisits(ps: PathArguments, k: string, visiting: set<string>, y: string) {
    (exists n: nat :: Follow(ps, k, n) == Some(y)) && (y in visiting || OnCycle(ps, y))
  }

  lemma RevisitsThroughBase(ps: PathArguments, k: string, visiting: set<string>, y: string)
    requires HasBase(ps, k) && Revisits(ps, ps[k].base.value, visiting + {k}, y)
    ensures Revisits(ps, k, visiting, y)
  {
    var n: nat :| Follow(ps, ps[k].base.value, n) == Some(y);
    assert Follow(ps, k, n + 1) == Some(y);
  }

  /** visit_path_dependencies: the caller's set of open arguments comes back unchanged on success. */
  method VisitPathDependencies(ps: PathArguments, k: string, visiting: set<string>)
    returns (r: Result<(), ContractError>, open: set<string>)
    ensures r.Ok? <==> Visits(ps, k, visiting)
    ensures r.Ok? ==> open == visiting
    ensures r.Err? ==> r.error.CyclicPathDependency? && Revisits(ps, k, visiting, r.error.name)
    decreases ps.Keys - visiting
  {
    if k in visiting {
      assert Follow(ps, k, 0) == Some(k);
      return Err(CyclicPathDependency(k)), visiting;
    }
    open := visiting + {k};
    if HasBase(ps, k) {
      r, open := VisitPathDependencies(ps, ps[k].base.value, open);
      if r.Err? {
        RevisitsThroughBase(ps, k, visiting, r.error.name);
        return;
      }
    }
    r, open := Ok(()), open - {k};
  }

  lemma CyclicMeansVisitFails(ps: PathArguments, k: string)
    requires k in ps && OnCycle(ps, k)
    ensures !Visits(ps, k, {})
  {
    if Visits(ps, k, {}) {
      VisitedChainEnds(ps, k, {});
      var n: nat :| Follow(ps, k, n).None?;
      var period: nat :| period > 0 && Follow(ps, k, period) == Some(k);
      CycleNeverEnds(ps, k, period, n);
    }
  }

  /** Accepts exactly the tables whose base references all name a declared, determinate argument and
      whose base graph has no cycle; a cycle report names an argument on a cycle. */
  // The error names its cause: a base that is not declared, one that may be left out, or an argument that
  // following bases leads back to.
  ghost predicate IsDependencyFault(ps: PathArguments, error: ContractError) {
    match error
    case UndeclaredBasePathArgument(a, b) => a in ps && ps[a].base == Some(b) && b !in ps
    case IndeterminateBasePath(a, b) =>
      a in ps && ps[a].base == Some(b) && b in ps && !ps[b].required && ps[b].default.None?
    case CyclicPathDependency(a) => a in ps && OnCycle(ps, a)
    case _ => false
  }

  // The path arguments by name.
  ghost predicate Indexes(ps: PathArguments, paths: seq<PathArgument>) {
    && (forall p | p in paths :: p.argument in ps && ps[p.argument] == p)
    && (forall k | k in ps :: ps[k] in paths)
  }

  method ValidatePathDependencies(t: Table<PathArgument>) returns (r: Result<(), ContractError>)
    requires t.Valid()
    ensures r.Ok? <==> BasesResolve(t.values) && BasesDeterminate(t.values) && !Cyclic(t.values)
    ensures r.Err? ==> IsDependencyFault(t.values, r.error)
  {
    var ps := t.values;
    for i := 0 to |t.keys|
      invariant forall j | 0 <= j < i && ps[t.keys[j]].base.Some? ::
                  var b := ps[t.keys[j]].base.value; b in ps && (ps[b].required || ps[b].default.Some?)
    {
      var k := t.keys[i];
      assert k in ToSet(t.keys);
      if ps[k].base.Some? {
        var b := ps[k].base.value;
        if b !in ps { return Err(UndeclaredBasePathArgument(k, b)); }
        if !ps[b].required && ps[b].default.None? {
          assert HasBase(ps, k);
          return Err(IndeterminateBasePath(k, b));
        }
      }
    }
    assert forall k | k in ps :: k in ToSet(t.keys);
    var visiting: set<string> := {};
    for i := 0 to |t.keys|
      invariant visiting == {}
      invariant forall j | 0 <= j < i :: Visits(ps, t.keys[j], {})
    {
      assert t.keys[i] in ToSet(t.keys);
      r, visiting := VisitPathDependencies(ps, t.keys[i], visiting);
      if r.Err? {
        var y := r.error.name;
        OnCycleIsDeclared(ps, y);
        return;
      }
    }
    if Cyclic(ps) {
      var k :| k in ps && OnCycle(ps, k);
      assert k in ToSet(t.keys);
      CyclicMeansVisitFails(ps, k);
    }
    return Ok(());
  }

  lemma OnCycleIsDeclared(ps: PathArguments, k: string)
    requires OnCycle(ps, k)
    ensures k in ps
  {
    var n: nat :| n > 0 && Follow(ps, k, n) == Some(k);
  }

  // In an acyclic table every chain ends, so following bases has a height.
  lemma {:induction false} VisitFailureRevisits(ps: PathArguments, k: string, visiting: set<string>)
    returns (y: string)
    requires !Visits(ps, k, visiting)
    ensures Revisits(ps, k, visiting, y)
    decreases ps.Keys - visiting
  {
    if k in visiting {
      y := k;
      assert Follow(ps, k, 0) == Some(k);
    } else {
      y := VisitFailureRevisits(ps, ps[k].base.value, visiting + {k});
      RevisitsThroughBase(ps, k, visiting, y);
    }
  }

  lemma AcyclicChainsEnd(ps: PathArguments, k: string)
    requires !Cyclic(ps)
    ensures Ends(ps, k)
  {
    if Visits(ps, k, {}) {
      VisitedChainEnds(ps, k, {});
    } else {
      var y := VisitFailureRevisits(ps, k, {});
      OnCycleIsDeclared(ps, y);
    }
  }

  ghost predicate IsHeight(ps: PathArguments, k: string, h: nat) {
    Follow(ps, k, h).None? && forall m: nat | m < h :: Follow(ps, k, m).Some?
  }

  lemma {:induction false} LeastEnd(ps: PathArguments, k: string, n: nat) returns (h: nat)
    requires Follow(ps, k, n).None?
    ensures IsHeight(ps, k, h)
    decreases n
  {
    if m: nat :| m < n && Follow(ps, k, m).None? {
      h := LeastEnd(ps, k, m);
    } else {
      h := n;
    }
  }

  lemma HeightExists(ps: PathArguments, k: string)
    requires !Cyclic(ps)
    ensures exists h: nat :: IsHeight(ps, k, h)
  {
    AcyclicChainsEnd(ps, k);
    var n: nat :| Follow(ps, k, n).None?;
    var h := LeastEnd(ps, k, n);
  }

  ghost function Height(ps: PathArguments, k: string): (h: nat)
    requires !Cyclic(ps)
    ensures IsHeight(ps, k, h)
  {
    HeightExists(ps, k);
    var h: nat :| IsHeight(ps, k, h);
    h
  }

  lemma HeightDescends(ps: PathArguments, k: string)
    requires !Cyclic(ps) && HasBase(ps, k)
    ensures Height(ps, ps[k].base.value) < Height(ps, k)
  {
    var b := ps[k].base.value;
    var h := Height(ps, b);
    forall m: nat | m <= h ensures Follow(ps, k, m).Some? {
      if m > 0 { assert Follow(ps, k, m) == Follow(ps, b, m - 1); }
    }
  }

  // Contracts ---------------------------------------------------------------------------------------

  ghost predicate Accepted(c: Contract) {
    && c.paths.Valid()
    && (forall k | k in c.paths.values ::
          c.paths.values[k].argument == k && k in c.arguments && ValidPathArgument(c.paths.values[k]))
    && BasesResolve(c.paths.values) && BasesDeterminate(c.paths.values) && !Cyclic(c.paths.values)
    && (c.effects != {} || c.paths.keys != [])
  }

  /** ToolEffectContract::new: every contract it returns is accepted, and it refuses only lists that
      describe no accepted contract. */
  method NewContract(arguments: seq<string>, effects: set<Effect>, paths: seq<PathArgument>)
    returns (r: Result<Contract, ContractError>)
    requires forall a | a in paths :: ValidPathArgument(a)
    ensures r.Ok? ==>
              && Accepted(r.value)
              && r.value.arguments == ToSet(arguments) && r.value.effects == effects
              && |r.value.paths.keys| == |paths|
              && forall i | 0 <= i < |paths| :: r.value.paths.keys[i] == paths[i].argument
                                                && r.value.paths.values[paths[i].argument] == paths[i]
    ensures r.Err? ==>
              match r.error
              case EmptyArgument => exists a | a in arguments :: Blank(a)
              case DuplicateArgument(a) => a in arguments && !Distinct(arguments)
              case UndeclaredPathArgument(a) => a !in arguments && exists p | p in paths :: p.argument == a
              case DuplicatePathArgument(a) => exists i, j | 0 <= i < j < |paths| :: paths[i].argument == paths[j].argument == a
              case NoEffects => effects == {} && paths == []
              case _ => exists ps :: Indexes(ps, paths) && IsDependencyFault(ps, r.error)
  {
    var names: set<string> := {};
    for i := 0 to |arguments|
      invariant names == ToSet(arguments[..i])
    {
      if Blank(arguments[i]) { return Err(EmptyArgument); }
      if arguments[i] in names { return Err(DuplicateArgument(arguments[i])); }
      names := names + {arguments[i]};
      assert arguments[..i + 1] == arguments[..i] + [arguments[i]];
    }
    assert arguments[..|arguments|] == arguments;
    var t: Table<PathArgument> := Table([], map[]);
    for i := 0 to |paths|
      invariant t.Valid() && |t.keys| == i
      invariant forall j | 0 <= j < i ::
                  t.keys[j] == paths[j].argument && t.keys[j] in t.values && t.values[t.keys[j]] == paths[j]
      invariant forall j | 0 <= j < i :: paths[j].argument in names
    {
      var name := paths[i].argument;
      if name !in names {
        assert paths[i] in paths;
        return Err(UndeclaredPathArgument(name));
      }
      if name in t.values {
        assert name in ToSet(t.keys);
        return Err(DuplicatePathArgument(name));
      }
      assert name !in ToSet(t.keys);
      assert ToSet(t.keys + [name]) == ToSet(t.keys) + {name};
      t := Table(t.keys + [name], t.values[name := paths[i]]);
    }
    var dependencies := ValidatePathDependencies(t);
    assert forall k | k in t.values :: k in ToSet(t.keys);
    if dependencies.Err? {
      assert Indexes(t.values, paths);
      return Err(dependencies.error);
    }
    if effects == {} && t.keys == [] { return Err(NoEffects); }
    return Ok(Contract(names, effects, t));
  }
}
