/** Risk escalation from reviewed rules: crates/policy/src/risk_assessment.rs and the rule half of
    crates/policy/src/tool_registry.rs. */
module Risk {
  import opened Prelude
  import opened Paths
  import opened EffectContracts
  import opened Effects
  import opened EffectMeaning

  datatype RiskLevel = Low | Normal | High | Critical
  {
    function Rank(): (r: nat) {
      match this
      case Low => 0
      case Normal => 1
      case High => 2
      case Critical => 3
    }
  }

  function MaxRisk(a: RiskLevel, b: RiskLevel): (r: RiskLevel)
    ensures r == a || r == b
    ensures a.Rank() <= r.Rank() && b.Rank() <= r.Rank()
  {
    if a.Rank() < b.Rank() then b else a
  }

  datatype Breadth = ItemCount | PathCount

  datatype RiskRule =
    | ArgumentCardinality(argument: string, breadth: Breadth, minimumCount: nat, requiresEffect: Effect, escalateTo: RiskLevel)
    | BooleanEquals(argument: string, expected: bool, default: bool, requiresEffect: Effect, escalateTo: RiskLevel)

  datatype RiskFactor =
    | BulkArgumentCardinality(subject: string, observedCount: nat, threshold: nat, escalatedTo: RiskLevel)
    | ConfirmedOverwrite(subject: string, escalatedTo: RiskLevel)

  datatype RiskError =
    | EffectiveRiskBelowBase | RequiredEffectMissing | RequiredArgumentMissing
    | ArgumentNotArray | ArgumentNotBoolean

  const OPERATION_RISK_POLICY_VERSION: nat := 4

  datatype RiskAssessment = RiskAssessment(policyVersion: nat, base: RiskLevel, effective: RiskLevel, factors: seq<RiskFactor>)

  predicate HasEffect(effects: EffectSet, effect: Effect) {
    exists pair | pair in effects :: pair.0 == effect
  }

  // One rule against one operation: an error, or the factor it contributes if it fires.
  function Outcome(rule: RiskRule, arguments: Arguments, effects: EffectSet): (r: Result<Option<RiskFactor>, RiskError>)
    ensures r.Ok? && r.value.Some? ==> r.value.value.escalatedTo == rule.escalateTo
  {
    if !HasEffect(effects, rule.requiresEffect) then Err(RequiredEffectMissing)
    else
      match rule
      case ArgumentCardinality(argument, _, minimum, _, level) =>
        if argument !in arguments then Err(RequiredArgumentMissing)
        else if !arguments[argument].JArray? then Err(ArgumentNotArray)
        else
          var count := |arguments[argument].items|;
          Ok(if count >= minimum then Some(BulkArgumentCardinality(argument, count, minimum, level)) else None)
      case BooleanEquals(argument, expected, default, _, level) =>
        if argument in arguments && !arguments[argument].JBool? then Err(ArgumentNotBoolean)
        else
          var value := if argument in arguments then arguments[argument].b else default;
          Ok(if value == expected then Some(ConfirmedOverwrite(argument, level)) else None)
  }

  function Scan(rules: seq<RiskRule>, arguments: Arguments, effects: EffectSet, base: RiskLevel)
    : (r: Result<(RiskLevel, seq<RiskFactor>), RiskError>)
  {
    if rules == [] then Ok((base, []))
    else
      var before := Scan(rules[..|rules| - 1], arguments, effects, base);
      if before.Err? then before
      else
        var rule := rules[|rules| - 1];
        var outcome := Outcome(rule, arguments, effects);
        if outcome.Err? then Err(outcome.error)
        else if outcome.value.None? then before
        else Ok((MaxRisk(before.value.0, rule.escalateTo), before.value.1 + [outcome.value.value]))
  }

  function Assess(rules: seq<RiskRule>, arguments: Arguments, effects: EffectSet, base: RiskLevel)
    : (r: Result<RiskAssessment, RiskError>)
  {
    var scan := Scan(rules, arguments, effects, base);
    if scan.Err? then Err(scan.error)
    else if scan.value.0.Rank() < base.Rank() then Err(EffectiveRiskBelowBase)
    else Ok(RiskAssessment(OPERATION_RISK_POLICY_VERSION, base, scan.value.0, scan.value.1))
  }

  method AssessOperationRisk(rules: seq<RiskRule>, arguments: Arguments, effects: EffectSet, base: RiskLevel)
    returns (r: Result<RiskAssessment, RiskError>)
    ensures r == Assess(rules, arguments, effects, base)
  {
    var effective := base;
    var factors: seq<RiskFactor> := [];
    for i := 0 to |rules|
      invariant Scan(rules[..i], arguments, effects, base) == Ok((effective, factors))
    {
      assert rules[..i + 1][..i] == rules[..i];
      var outcome := Outcome(rules[i], arguments, effects);
      if outcome.Err? {
        ScanStops(rules, i + 1, arguments, effects, base);
        return Err(outcome.error);
      }
      if outcome.value.Some? {
        effective := MaxRisk(effective, rules[i].escalateTo);
        factors := factors + [outcome.value.value];
      }
    }
    assert rules[..|rules|] == rules;
    if effective.Rank() < base.Rank() { return Err(EffectiveRiskBelowBase); }
    return Ok(RiskAssessment(OPERATION_RISK_POLICY_VERSION, base, effective, factors));
  }

  lemma {:induction false} ScanStops(
    rules: seq<RiskRule>, n: nat, arguments: Arguments, effects: EffectSet, base: RiskLevel)
    requires n <= |rules| && Scan(rules[..n], arguments, effects, base).Err?
    ensures Scan(rules, arguments, effects, base) == Scan(rules[..n], arguments, effects, base)
    decreases |rules|
  {
    if n == |rules| {
      assert rules[..n] == rules;
    } else {
      assert rules[..|rules| - 1][..n] == rules[..n];
      ScanStops(rules[..|rules| - 1], n, arguments, effects, base);
    }
  }

  // Meaning ------------------------------------------------------------------------------------------

  ghost predicate Fires(rule: RiskRule, arguments: Arguments, effects: EffectSet) {
    var outcome := Outcome(rule, arguments, effects);
    outcome.Ok? && outcome.value.Some?
  }

  ghost predicate Judgeable(rules: seq<RiskRule>, arguments: Arguments, effects: EffectSet) {
    forall i | 0 <= i < |rules| :: Outcome(rules[i], arguments, effects).Ok?
  }

  // The least level at or above the base and every escalation that fires.
  ghost predicate IsEffective(rules: seq<RiskRule>, arguments: Arguments, effects: EffectSet, base: RiskLevel, level: RiskLevel) {
    && base.Rank() <= level.Rank()
    && (forall i | 0 <= i < |rules| && Fires(rules[i], arguments, effects) :: rules[i].escalateTo.Rank() <= level.Rank())
    && (level == base ||
        exists i | 0 <= i < |rules| :: Fires(rules[i], arguments, effects) && rules[i].escalateTo == level)
  }

  ghost predicate Raises(rules: seq<RiskRule>, base: RiskLevel) {
    forall i | 0 <= i < |rules| :: base.Rank() < rules[i].escalateTo.Rank()
  }

  // The rule's argument, if it must be there, is there, and has the kind the rule reads.
  predicate Readable(rule: RiskRule, arguments: Arguments) {
    match rule
    case ArgumentCardinality(argument, _, _, _, _) => argument in arguments && arguments[argument].JArray?
    case BooleanEquals(argument, _, _, _, _) => argument in arguments ==> arguments[argument].JBool?
  }

  // What the rule watches for is the case: enough items, or the expected flag, given or by default.
  predicate Met(rule: RiskRule, arguments: Arguments)
    requires Readable(rule, arguments)
  {
    match rule
    case ArgumentCardinality(argument, _, minimum, _, _) => |arguments[argument].items| >= minimum
    case BooleanEquals(argument, expected, default, _, _) =>
      (if argument in arguments then arguments[argument].b else default) == expected
  }

  // A rule is judged exactly when its effect occurs and its argument reads, and then fires exactly when met.
  lemma OutcomeMeans(rule: RiskRule, arguments: Arguments, effects: EffectSet)
    ensures Outcome(rule, arguments, effects).Ok? <==> HasEffect(effects, rule.requiresEffect) && Readable(rule, arguments)
    ensures Outcome(rule, arguments, effects).Ok? ==> (Fires(rule, arguments, effects) <==> Met(rule, arguments))
  {
  }

  lemma {:induction false} ScanMeans(rules: seq<RiskRule>, arguments: Arguments, effects: EffectSet, base: RiskLevel)
    ensures var r := Scan(rules, arguments, effects, base);
            && (r.Ok? <==> Judgeable(rules, arguments, effects))
            && (r.Ok? ==> IsEffective(rules, arguments, effects, base, r.value.0))
            && (r.Ok? && Raises(rules, base) ==> (r.value.1 == [] <==> r.value.0 == base))
            && (r.Err? ==> exists i | 0 <= i < |rules| :: Outcome(rules[i], arguments, effects) == Err(r.error))
    decreases |rules|
  {
    if rules != [] {
      var init := rules[..|rules| - 1];
      ScanMeans(init, arguments, effects, base);
      assert forall i | 0 <= i < |init| :: init[i] == rules[i];
    }
  }

  /** For rules that only raise: the assessment exists exactly when every rule can be judged, it is the
      maximum of the base and the fired escalations, it carries factors exactly when it raised the
      risk, and the below-base error cannot occur. */
  lemma AssessMeans(rules: seq<RiskRule>, arguments: Arguments, effects: EffectSet, base: RiskLevel)
    requires Raises(rules, base)
    ensures var r := Assess(rules, arguments, effects, base);
            && (r.Ok? <==> Judgeable(rules, arguments, effects))
            && (r.Ok? ==> r.value.base == base && IsEffective(rules, arguments, effects, base, r.value.effective))
            && (r.Ok? ==> (r.value.factors != [] <==> base.Rank() < r.value.effective.Rank()))
            && (r.Err? ==> r.error != EffectiveRiskBelowBase)
  {
    ScanMeans(rules, arguments, effects, base);
  }

  // The factor a met rule contributes.
  ghost predicate Explains(factor: RiskFactor, rule: RiskRule, arguments: Arguments) {
    Readable(rule, arguments) && Met(rule, arguments) &&
    match rule
    case ArgumentCardinality(argument, _, minimum, _, level) =>
      factor == BulkArgumentCardinality(argument, |arguments[argument].items|, minimum, level)
    case BooleanEquals(argument, _, _, _, level) => factor == ConfirmedOverwrite(argument, level)
  }

  // How many of the rules fire.
  ghost function Fired(rules: seq<RiskRule>, arguments: Arguments, effects: EffectSet): (r: nat) {
    if rules == [] then 0
    else
      Fired(rules[..|rules| - 1], arguments, effects) + (if Fires(rules[|rules| - 1], arguments, effects) then 1 else 0)
  }

  /** The factors are the met rules, one each and in order: the factor of rule i stands after as many others
      as rules before it fired, and names its argument, the observed count and the threshold. */
  lemma {:induction false} FactorsExplain(rules: seq<RiskRule>, arguments: Arguments, effects: EffectSet, base: RiskLevel)
    ensures var r := Scan(rules, arguments, effects, base);
            r.Ok? ==>
              && |r.value.1| == Fired(rules, arguments, effects)
              && forall i | 0 <= i < |rules| && Fires(rules[i], arguments, effects) ::
                   && Fired(rules[..i], arguments, effects) < |r.value.1|
                   && Explains(r.value.1[Fired(rules[..i], arguments, effects)], rules[i], arguments)
    decreases |rules|
  {
    if rules != [] {
      var n := |rules| - 1;
      var init := rules[..n];
      FactorsExplain(init, arguments, effects, base);
      OutcomeMeans(rules[n], arguments, effects);
      forall i | 0 <= i < n ensures init[..i] == rules[..i] {}
    }
  }

  lemma SameRulesSameMeaning(
    a: seq<RiskRule>, b: seq<RiskRule>, arguments: Arguments, effects: EffectSet, base: RiskLevel, level: RiskLevel)
    requires ToSet(a) == ToSet(b)
    ensures Judgeable(a, arguments, effects) ==> Judgeable(b, arguments, effects)
    ensures IsEffective(a, arguments, effects, base, level) ==> IsEffective(b, arguments, effects, base, level)
    ensures Raises(a, base) ==> Raises(b, base)
  {
    forall i | 0 <= i < |b| ensures exists j | 0 <= j < |a| :: a[j] == b[i] { assert b[i] in ToSet(a); }
    forall i | 0 <= i < |a| ensures exists j | 0 <= j < |b| :: b[j] == a[i] { assert a[i] in ToSet(b); }
  }

  lemma EffectiveIsUnique(
    rules: seq<RiskRule>, arguments: Arguments, effects: EffectSet, base: RiskLevel, x: RiskLevel, y: RiskLevel)
    requires IsEffective(rules, arguments, effects, base, x) && IsEffective(rules, arguments, effects, base, y)
    ensures x == y
  {
    assert x.Rank() == y.Rank();
  }

  /** Reordering or repeating rules changes neither whether they can be judged nor the effective risk. */
  lemma OrderDoesNotMatter(
    a: seq<RiskRule>, b: seq<RiskRule>, arguments: Arguments, effects: EffectSet, base: RiskLevel)
    requires ToSet(a) == ToSet(b) && Raises(a, base)
    ensures Assess(a, arguments, effects, base).Ok? <==> Assess(b, arguments, effects, base).Ok?
    ensures Assess(a, arguments, effects, base).Ok? ==>
              Assess(a, arguments, effects, base).value.effective == Assess(b, arguments, effects, base).value.effective
  {
    SameRulesSameMeaning(a, b, arguments, effects, base, base);
    SameRulesSameMeaning(b, a, arguments, effects, base, base);
    AssessMeans(a, arguments, effects, base);
    AssessMeans(b, arguments, effects, base);
    var x, y := Assess(a, arguments, effects, base), Assess(b, arguments, effects, base);
    if x.Ok? {
      SameRulesSameMeaning(a, b, arguments, effects, base, x.value.effective);
      EffectiveIsUnique(b, arguments, effects, base, x.value.effective, y.value.effective);
    }
  }

  // Registry validation ---------------------------------------------------------------------------------

  datatype RawRule =
    | RawCardinality(argument: string, breadth: string, minimumCount: nat, requiresEffect: string, escalateTo: string)
    | RawBoolean(argument: string, expected: bool, default: bool, requiresEffect: string, escalateTo: string, factor: string)

  function ParseLevel(text: string): (r: Option<RiskLevel>) {
    if text == "low" then Some(Low) else if text == "normal" then Some(Normal)
    else if text == "high" then Some(High) else if text == "critical" then Some(Critical) else None
  }

  function ParseEffect(text: string): (r: Option<Effect>) {
    if text == "read" then Some(Read) else if text == "write" then Some(Write)
    else if text == "create" then Some(Create) else if text == "delete" then Some(Delete) else None
  }

  // Some declared effect, static or of a path argument, is the required one.
  predicate ContractHasEffect(c: Contract, effect: Effect) {
    effect in c.effects || exists k | k in c.paths.values :: effect in c.paths.values[k].effects
  }

  predicate ValidRule(rule: RiskRule, base: RiskLevel, c: Contract) {
    && rule.argument in c.arguments
    && ContractHasEffect(c, rule.requiresEffect)
    && base.Rank() < rule.escalateTo.Rank()
    && (rule.ArgumentCardinality? ==> rule.minimumCount >= 2)
  }

  function ParseRule(raw: RawRule, base: RiskLevel, c: Contract): (r: Option<RiskRule>)
    ensures r.Some? ==> ValidRule(r.value, base, c) && r.value.argument == raw.argument
  {
    var effect, level := ParseEffect(raw.requiresEffect), ParseLevel(raw.escalateTo);
    if raw.argument !in c.arguments || effect.None? || !ContractHasEffect(c, effect.value) then None
    else if level.None? || level.value.Rank() <= base.Rank() then None
    else
      match raw
      case RawCardinality(argument, breadth, minimum, _, _) =>
        if minimum < 2 then None
        else if breadth == "item_count" then Some(ArgumentCardinality(argument, ItemCount, minimum, effect.value, level.value))
        else if breadth == "path_count" then Some(ArgumentCardinality(argument, PathCount, minimum, effect.value, level.value))
        else None
      case RawBoolean(argument, expected, default, _, _, factor) =>
        if factor == "confirmed_overwrite" then Some(BooleanEquals(argument, expected, default, effect.value, level.value))
        else None
  }

  /** parse_risk_rules: all raw rules, in order, or a refusal; a refusal means some rule is invalid,
      repeats another, or has no reviewed contract to be checked against. */
  method ParseRiskRules(raws: seq<RawRule>, base: RiskLevel, contract: Option<Contract>) returns (r: Option<seq<RiskRule>>)
    ensures r.Some? ==> |r.value| == |raws| && Raises(r.value, base) && Distinct(r.value)
    ensures r.Some? && raws != [] ==>
              && contract.Some?
              && forall i | 0 <= i < |raws| ::
                   Some(r.value[i]) == ParseRule(raws[i], base, contract.value) && ValidRule(r.value[i], base, contract.value)
    ensures r.None? ==>
              && raws != []
              && (contract.Some? ==>
                    || (exists i | 0 <= i < |raws| :: ParseRule(raws[i], base, contract.value).None?)
                    || (exists i, j | 0 <= i < j < |raws| ::
                          ParseRule(raws[i], base, contract.value) == ParseRule(raws[j], base, contract.value)))
  {
    if raws == [] { return Some([]); }
    if contract.None? { return None; }
    var rules: seq<RiskRule> := [];
    for i := 0 to |raws|
      invariant |rules| == i && Raises(rules, base) && Distinct(rules)
      invariant forall j | 0 <= j < i ::
                  Some(rules[j]) == ParseRule(raws[j], base, contract.value) && ValidRule(rules[j], base, contract.value)
    {
      var rule := ParseRule(raws[i], base, contract.value);
      if rule.None? { return None; }
      if rule.value in rules { return None; }
      rules := rules + [rule.value];
    }
    return Some(rules);
  }

  /** After a successful normalization a validated rule misses its effect exactly when the effect is not
      static and every path argument carrying it was left without paths. */
  lemma EffectMissingIff(c: Contract, arguments: Table<Json>, root: Path, rule: RiskRule)
    requires Accepted(c) && arguments.Valid() && Normalize(c, arguments, root).Ok?
    ensures Outcome(rule, arguments.values, Normalize(c, arguments, root).value) == Err(RequiredEffectMissing) <==>
            && rule.requiresEffect !in c.effects
            && forall k | k in c.paths.values && rule.requiresEffect in c.paths.values[k].effects ::
                 Raws(c.paths.values, k, arguments.values) == []
  {
    NormalizeMeans(c, arguments, root);
    forall k | k in c.paths.values
      ensures PathSet(c.paths.values, k, arguments.values, root) == {} <==> Raws(c.paths.values, k, arguments.values) == []
    {
      ChainsFromParts(c.paths.values, k, arguments.values);
      PathsExist(c.paths.values, k, arguments.values, root);
    }
    HasEffectIff(c, arguments.values, root, Normalize(c, arguments, root).value, rule.requiresEffect);
  }

  lemma HasEffectIff(c: Contract, arguments: Arguments, root: Path, effects: EffectSet, e: Effect)
    requires Accepted(c) && AllDeclared(c, arguments, root, effects)
    requires forall k | k in c.paths.values ::
               PathSet(c.paths.values, k, arguments, root) == {} <==> Raws(c.paths.values, k, arguments) == []
    ensures HasEffect(effects, e) <==>
            || e in c.effects
            || exists k | k in c.paths.values :: e in c.paths.values[k].effects && Raws(c.paths.values, k, arguments) != []
  {
    var ps := c.paths.values;
    if e in c.effects {
      assert Declared(c, arguments, root, e, root);
    }
    if k :| k in ps && e in ps[k].effects && Raws(ps, k, arguments) != [] {
      var p :| p in PathSet(ps, k, arguments, root);
      assert Declared(c, arguments, root, e, p);
    }
    if pair :| pair in effects && pair.0 == e {
      assert Declared(c, arguments, root, pair.0, pair.1);
    }
  }
}
