/** The ordered policy checks of crates/policy/src/engine.rs and their flat meaning. */
module Policy {
  import opened Prelude
  import opened Authorization
  import opened Paths
  import opened Boundary
  import opened EffectContracts
  import opened Effects
  import opened EffectMeaning
  import opened Risk

  datatype OperationRequest = OperationRequest(
    operationId: Id, sessionId: Id, workspaceId: Id, tool: string, arguments: Table<Json>, targetPath: Option<Path>)

  datatype Workspace = Workspace(workspaceId: Id, root: Path)

  datatype Tool = Tool(capability: Capability, risk: RiskLevel, contract: Option<Contract>, rules: seq<RiskRule>)

  datatype Engine = Engine(tools: map<string, Tool>)
  {
    // What loading the registry guarantees.
    ghost predicate Valid() {
      forall name | name in tools ::
        && (tools[name].contract.Some? ==> Accepted(tools[name].contract.value))
        && Raises(tools[name].rules, tools[name].risk)
    }
  }

  datatype DenyReason =
    | MalformedRequest | SessionNotActive | SessionExpiredReason | SessionRevokedReason | OneShotGrantConsumed
    | AuthorizationNotEstablished | PrincipalBindingMismatch | WorkspaceNotAuthorized | PathEscapesWorkspace
    | UnknownTool | UnmodelledToolContract | MalformedToolArguments | CapabilityNotInGrant

  datatype PolicyDecision =
    | Allow(capability: Capability, risk: RiskAssessment)
    | Deny(reason: DenyReason)
    | RequireApproval(capability: Capability, risk: RiskAssessment)

  function NormalizeOperation(e: Engine, request: OperationRequest, workspace: Workspace)
    : (r: Result<EffectSet, DenyReason>)
    requires e.Valid()
  {
    if Blank(request.tool) then Err(MalformedRequest)
    else if request.tool !in e.tools then Err(UnknownTool)
    else if e.tools[request.tool].contract.None? then Err(UnmodelledToolContract)
    else
      var effects := Normalize(e.tools[request.tool].contract.value, request.arguments, workspace.root);
      if effects.Ok? then Ok(effects.value)
      else Err(if effects.error.NothingNormalized? then UnmodelledToolContract else MalformedToolArguments)
  }

  predicate AnyEscapes(fs: FileSystem, root: Path, effects: EffectSet) {
    exists pair | pair in effects :: ResolveWithin(fs, root, pair.1).Err?
  }

  function StatusRefusal(status: Status): (r: Option<DenyReason>) {
    match status
    case Active => None
    case Revoked => Some(SessionRevokedReason)
    case Expired => Some(SessionExpiredReason)
    case Consumed => Some(OneShotGrantConsumed)
    case _ => Some(SessionNotActive)
  }

  function RiskRefusal(error: RiskError): (r: DenyReason) {
    match error
    case RequiredEffectMissing => UnmodelledToolContract
    case EffectiveRiskBelowBase => UnmodelledToolContract
    case _ => MalformedToolArguments
  }

  function EvaluateWithGrant(
    e: Engine, request: OperationRequest, grant: AccessGrant, workspace: Workspace, fs: FileSystem, now: Time)
    : (r: PolicyDecision)
    requires e.Valid()
  {
    if Blank(request.tool) then Deny(MalformedRequest)
    else if request.sessionId != grant.subject then Deny(AuthorizationNotEstablished)
    else if StatusRefusal(grant.status).Some? then Deny(StatusRefusal(grant.status).value)
    else if now >= grant.expiresAt then Deny(SessionExpiredReason)
    else if request.workspaceId != workspace.workspaceId || request.workspaceId !in grant.workspaces
    then Deny(WorkspaceNotAuthorized)
    else EvaluateEffects(e, request, grant.capabilities, workspace, fs)
  }

  // The checks from effect normalization on.
  function EvaluateEffects(
    e: Engine, request: OperationRequest, capabilities: set<Capability>, workspace: Workspace, fs: FileSystem)
    : (r: PolicyDecision)
    requires e.Valid()
  {
    var effects := NormalizeOperation(e, request, workspace);
    if effects.Err? then Deny(effects.error)
    else if AnyEscapes(fs, workspace.root, effects.value) then Deny(PathEscapesWorkspace)
    else if request.tool !in e.tools then Deny(UnknownTool)
    else
      var tool := e.tools[request.tool];
      if tool.capability !in capabilities then Deny(CapabilityNotInGrant)
      else
        var risk := Assess(tool.rules, request.arguments.values, effects.value, tool.risk);
        if risk.Err? then Deny(RiskRefusal(risk.error))
        else if risk.value.effective.Rank() >= High.Rank() then RequireApproval(tool.capability, risk.value)
        else Allow(tool.capability, risk.value)
  }

  // The compatibility adapter for callers that only hold a session row.
  function EvaluateSession(
    e: Engine, request: OperationRequest, session: Session, workspace: Workspace, fs: FileSystem, now: Time)
    : (r: PolicyDecision)
    requires e.Valid()
  {
    var grant := GrantFromLegacySession(session);
    if grant.Err? || grant.value.None? then Deny(AuthorizationNotEstablished)
    else EvaluateWithGrant(e, request, grant.value.value, workspace, fs, now)
  }

  // The flat meaning -----------------------------------------------------------------------------------

  // Every effect the contract declares for these arguments stays inside the workspace.
  ghost predicate Contained(c: Contract, request: OperationRequest, workspace: Workspace, fs: FileSystem)
    requires Accepted(c)
  {
    forall effect: Effect, path: Path | Declared(c, request.arguments.values, workspace.root, effect, path) ::
      ResolveWithin(fs, workspace.root, path).Ok?
  }

  ghost predicate Authorized(request: OperationRequest, grant: AccessGrant, workspace: Workspace, now: Time) {
    && request.sessionId == grant.subject
    && grant.UsableAt(now)
    && request.workspaceId == workspace.workspaceId
    && request.workspaceId in grant.workspaces
  }

  // The operation has this effect somewhere.
  ghost predicate Touches(c: Contract, request: OperationRequest, workspace: Workspace, effect: Effect)
    requires Accepted(c)
  {
    exists path: Path :: Declared(c, request.arguments.values, workspace.root, effect, path)
  }

  ghost predicate Permitted(
    e: Engine, request: OperationRequest, grant: AccessGrant, workspace: Workspace, fs: FileSystem, now: Time)
    requires e.Valid()
  {
    Authorized(request, grant, workspace, now) && EffectsPermitted(e, request, grant.capabilities, workspace, fs)
  }

  ghost predicate EffectsPermitted(
    e: Engine, request: OperationRequest, capabilities: set<Capability>, workspace: Workspace, fs: FileSystem)
    requires e.Valid()
  {
    && !Blank(request.tool)
    && request.tool in e.tools
    && var tool := e.tools[request.tool];
       && tool.contract.Some?
       && Acceptable(tool.contract.value, request.arguments)
       && Contained(tool.contract.value, request, workspace, fs)
       && tool.capability in capabilities
       && forall i | 0 <= i < |tool.rules| ::
            && Touches(tool.contract.value, request, workspace, tool.rules[i].requiresEffect)
            && Readable(tool.rules[i], request.arguments.values)
  }

  // Escalations of the rules that are met.
  ghost predicate Escalates(rules: seq<RiskRule>, arguments: Arguments, level: RiskLevel) {
    exists i | 0 <= i < |rules| :: Readable(rules[i], arguments) && Met(rules[i], arguments) && rules[i].escalateTo == level
  }

  // The maximum of the tool's own risk and those escalations.
  ghost predicate IsRisk(tool: Tool, arguments: Arguments, level: RiskLevel) {
    && (level == tool.risk || Escalates(tool.rules, arguments, level))
    && tool.risk.Rank() <= level.Rank()
    && forall other | Escalates(tool.rules, arguments, other) :: other.Rank() <= level.Rank()
  }

  ghost predicate HighRisk(e: Engine, request: OperationRequest)
    requires request.tool in e.tools
  {
    exists level :: IsRisk(e.tools[request.tool], request.arguments.values, level) && level.Rank() >= High.Rank()
  }

  lemma EffectsMean(e: Engine, request: OperationRequest, workspace: Workspace, fs: FileSystem)
    requires e.Valid() && request.arguments.Valid()
    requires !Blank(request.tool) && request.tool in e.tools && e.tools[request.tool].contract.Some?
    ensures NormalizeOperation(e, request, workspace).Ok? <==>
            Acceptable(e.tools[request.tool].contract.value, request.arguments)
    ensures var effects := NormalizeOperation(e, request, workspace);
            effects.Ok? ==>
              && AllDeclared(e.tools[request.tool].contract.value, request.arguments.values, workspace.root, effects.value)
              && (AnyEscapes(fs, workspace.root, effects.value) <==>
                  !Contained(e.tools[request.tool].contract.value, request, workspace, fs))
  {
    var c := e.tools[request.tool].contract.value;
    NormalizeMeans(c, request.arguments, workspace.root);
    if NormalizeOperation(e, request, workspace).Ok? {
      EscapesMean(c, request, workspace, fs, NormalizeOperation(e, request, workspace).value);
    }
  }

  lemma EscapesMean(c: Contract, request: OperationRequest, workspace: Workspace, fs: FileSystem, effects: EffectSet)
    requires Accepted(c) && AllDeclared(c, request.arguments.values, workspace.root, effects)
    ensures AnyEscapes(fs, workspace.root, effects) <==> !Contained(c, request, workspace, fs)
  {
    if AnyEscapes(fs, workspace.root, effects) {
      var pair :| pair in effects && ResolveWithin(fs, workspace.root, pair.1).Err?;
      assert (pair.0, pair.1) in effects;
      assert Declared(c, request.arguments.values, workspace.root, pair.0, pair.1);
    } else {
      forall effect: Effect, path: Path | Declared(c, request.arguments.values, workspace.root, effect, path)
        ensures ResolveWithin(fs, workspace.root, path).Ok?
      {
        assert (effect, path) in effects;
      }
    }
  }

  lemma TouchesMean(c: Contract, request: OperationRequest, workspace: Workspace, effects: EffectSet, effect: Effect)
    requires Accepted(c) && AllDeclared(c, request.arguments.values, workspace.root, effects)
    ensures HasEffect(effects, effect) <==> Touches(c, request, workspace, effect)
  {
    if HasEffect(effects, effect) {
      var pair :| pair in effects && pair.0 == effect;
      assert (pair.0, pair.1) in effects;
    }
    if Touches(c, request, workspace, effect) {
      var path: Path :| Declared(c, request.arguments.values, workspace.root, effect, path);
      assert (effect, path) in effects;
    }
  }

  // Judged rules fire exactly when met, so the effective level is the maximum over the met ones.
  lemma EffectiveIsRisk(tool: Tool, arguments: Arguments, effects: EffectSet, level: RiskLevel)
    requires Judgeable(tool.rules, arguments, effects) && IsEffective(tool.rules, arguments, effects, tool.risk, level)
    ensures IsRisk(tool, arguments, level)
    ensures forall other | IsRisk(tool, arguments, other) :: other == level
  {
    forall i | 0 <= i < |tool.rules|
      ensures Readable(tool.rules[i], arguments)
      ensures Fires(tool.rules[i], arguments, effects) <==> Met(tool.rules[i], arguments)
    {
      OutcomeMeans(tool.rules[i], arguments, effects);
    }
    forall other | IsRisk(tool, arguments, other) ensures other == level {
      assert other.Rank() == level.Rank();
    }
  }

  // The last two checks, once the effects are known to be fine.
  lemma RiskStage(e: Engine, request: OperationRequest, workspace: Workspace, effects: EffectSet)
    requires e.Valid() && request.tool in e.tools && e.tools[request.tool].contract.Some?
    requires AllDeclared(e.tools[request.tool].contract.value, request.arguments.values, workspace.root, effects)
    ensures var tool := e.tools[request.tool];
            var risk := Assess(tool.rules, request.arguments.values, effects, tool.risk);
            && (risk.Ok? <==>
                forall i | 0 <= i < |tool.rules| ::
                  && Touches(tool.contract.value, request, workspace, tool.rules[i].requiresEffect)
                  && Readable(tool.rules[i], request.arguments.values))
            && (risk.Ok? ==>
                  && risk.value.base == tool.risk
                  && IsRisk(tool, request.arguments.values, risk.value.effective)
                  && (risk.value.effective.Rank() >= High.Rank() <==> HighRisk(e, request)))
  {
    var tool := e.tools[request.tool];
    AssessMeans(tool.rules, request.arguments.values, effects, tool.risk);
    forall i | 0 <= i < |tool.rules|
      ensures Outcome(tool.rules[i], request.arguments.values, effects).Ok? <==>
              && Touches(tool.contract.value, request, workspace, tool.rules[i].requiresEffect)
              && Readable(tool.rules[i], request.arguments.values)
    {
      OutcomeMeans(tool.rules[i], request.arguments.values, effects);
      TouchesMean(tool.contract.value, request, workspace, effects, tool.rules[i].requiresEffect);
    }
    var risk := Assess(tool.rules, request.arguments.values, effects, tool.risk);
    if risk.Ok? { EffectiveIsRisk(tool, request.arguments.values, effects, risk.value.effective); }
  }

  lemma EffectStageIsFlat(
    e: Engine, request: OperationRequest, capabilities: set<Capability>, workspace: Workspace, fs: FileSystem)
    requires e.Valid() && request.arguments.Valid()
    ensures var d := EvaluateEffects(e, request, capabilities, workspace, fs);
            && (!d.Deny? <==> EffectsPermitted(e, request, capabilities, workspace, fs))
            && (!d.Deny? ==>
                  && d.capability == e.tools[request.tool].capability
                  && d.risk.base == e.tools[request.tool].risk
                  && IsRisk(e.tools[request.tool], request.arguments.values, d.risk.effective)
                  && (d.RequireApproval? <==> HighRisk(e, request)))
  {
    if !Blank(request.tool) && request.tool in e.tools && e.tools[request.tool].contract.Some? {
      EffectsMean(e, request, workspace, fs);
      var effects := NormalizeOperation(e, request, workspace);
      if effects.Ok? { RiskStage(e, request, workspace, effects.value); }
    }
  }

  /** The ordered checks decide exactly the flat conditions: anything but a denial means every one of
      them holds, and approval is demanded exactly for effective risk High or above. */
  lemma EvaluationIsFlat(
    e: Engine, request: OperationRequest, grant: AccessGrant, workspace: Workspace, fs: FileSystem, now: Time)
    requires e.Valid() && request.arguments.Valid()
    ensures var d := EvaluateWithGrant(e, request, grant, workspace, fs, now);
            && (!d.Deny? <==> Permitted(e, request, grant, workspace, fs, now))
            && (!d.Deny? ==>
                  && d.capability == e.tools[request.tool].capability
                  && d.risk.base == e.tools[request.tool].risk
                  && IsRisk(e.tools[request.tool], request.arguments.values, d.risk.effective)
                  && (d.RequireApproval? <==> HighRisk(e, request)))
  {
    EffectStageIsFlat(e, request, grant.capabilities, workspace, fs);
  }

  /** The adapter for callers that hold only a session row permits exactly what its derived grant permits,
      so only for an active, approved and unexpired row. */
  lemma LegacyEvaluationIsFlat(
    e: Engine, request: OperationRequest, session: Session, workspace: Workspace, fs: FileSystem, now: Time)
    requires e.Valid() && request.arguments.Valid()
    ensures var grant := GrantFromLegacySession(session);
            !EvaluateSession(e, request, session, workspace, fs, now).Deny? <==>
            grant.Ok? && grant.value.Some? && Permitted(e, request, grant.value.value, workspace, fs, now)
    ensures !EvaluateSession(e, request, session, workspace, fs, now).Deny? ==>
              && session.status.SessionActive? && session.approvedAt.Some? && now < session.expiresAt
              && request.sessionId == session.sessionId && request.workspaceId in session.workspaces
  {
    var grant := GrantFromLegacySession(session);
    if grant.Ok? && grant.value.Some? {
      EvaluationIsFlat(e, request, grant.value.value, workspace, fs, now);
      UsableOnlyFromActiveRow(session, grant.value.value, now);
    }
  }

  lemma UsableOnlyFromActiveRow(session: Session, grant: AccessGrant, now: Time)
    requires GrantFromLegacySession(session) == Ok(Some(grant))
    ensures grant.subject == session.sessionId && grant.workspaces == session.workspaces
    ensures grant.UsableAt(now) ==> session.status.SessionActive? && session.approvedAt.Some? && now < session.expiresAt
  {
  }
}
