/** The grant table (crates/sessions/src/authorization_repository.rs), its startup migration
    (crates/sessions/src/migration.rs) and the lifetime clamp (crates/policy/src/authorization_ttl.rs). */
module GrantStore {
  import opened Prelude
  import opened Authorization
  import opened Risk

  type Grants = map<Id, AccessGrant>

  type SessionRows = map<Id, Session>

  ghost predicate Keyed(grants: Grants) {
    forall id | id in grants :: grants[id].grantId == id
  }

  ghost predicate KeyedRows(rows: SessionRows) {
    forall id | id in rows :: rows[id].sessionId == id
  }

  // An upsert keeps the stored issue time and migration origin of an existing row.
  function Upsert(grants: Grants, g: AccessGrant): (r: Grants)
    ensures Keyed(grants) ==> Keyed(r)
    ensures r.Keys == grants.Keys + {g.grantId}
    ensures g.grantId in grants && SameTerms(grants[g.grantId], g) ==> r == grants[g.grantId := g]
  {
    if g.grantId in grants
    then grants[g.grantId := g.(issuedAt := grants[g.grantId].issuedAt, migratedFrom := grants[g.grantId].migratedFrom)]
    else grants[g.grantId := g]
  }

  // Lookup order for one subject: newest issue time, then greatest id.
  predicate Precedes(a: AccessGrant, b: AccessGrant) {
    a.issuedAt < b.issuedAt || (a.issuedAt == b.issuedAt && a.grantId < b.grantId)
  }

  ghost predicate IsAnswer(grants: Grants, subject: Id, id: Id) {
    && id in grants && grants[id].subject == subject
    && forall other | other in grants && grants[other].subject == subject && other != id ::
         Precedes(grants[other], grants[id])
  }

  ghost predicate HasGrant(grants: Grants, subject: Id) {
    exists id | id in grants :: grants[id].subject == subject
  }

  predicate SameRequest(a: AccessGrant, b: AccessGrant) {
    && a.device == b.device && a.principal == b.principal && a.taskScope == b.taskScope
    && a.workspaces == b.workspaces && a.profile == b.profile
  }

  predicate HasLiveRequest(grants: Grants, request: AccessGrant) {
    exists id | id in grants :: grants[id].Live() && SameRequest(grants[id], request)
  }

  lemma {:induction false} AnswerExistsIn(grants: Grants, subject: Id, ids: set<Id>) returns (best: Id)
    requires Keyed(grants) && ids <= grants.Keys && ids != {}
    requires forall id | id in ids :: grants[id].subject == subject
    ensures best in ids && forall other | other in ids && other != best :: Precedes(grants[other], grants[best])
    decreases |ids|
  {
    var id :| id in ids;
    if ids == {id} {
      best := id;
    } else {
      var rest := AnswerExistsIn(grants, subject, ids - {id});
      best := if Precedes(grants[rest], grants[id]) then id else rest;
    }
  }

  lemma AnswerExists(grants: Grants, subject: Id)
    requires Keyed(grants) && HasGrant(grants, subject)
    ensures exists id :: IsAnswer(grants, subject, id)
  {
    var ids := set id | id in grants && grants[id].subject == subject;
    var some :| some in grants && grants[some].subject == subject;
    assert some in ids;
    var best := AnswerExistsIn(grants, subject, ids);
    assert IsAnswer(grants, subject, best);
  }

  // The persisted grant that answers a subject, if there is one.
  ghost function Persisted(grants: Grants, subject: Id): (r: Option<AccessGrant>)
    requires Keyed(grants)
    ensures r.Some? <==> HasGrant(grants, subject)
    ensures r.Some? ==> IsAnswer(grants, subject, r.value.grantId) && grants[r.value.grantId] == r.value
    ensures forall id | IsAnswer(grants, subject, id) :: r == Some(grants[id])
  {
    if HasGrant(grants, subject) then
      AnswerExists(grants, subject);
      var id :| IsAnswer(grants, subject, id);
      Some(grants[id])
    else None
  }

  function Derived(session: Session): (r: Option<AccessGrant>)
    ensures r.Some? ==>
              r.value.grantId == r.value.subject == session.sessionId && r.value.migratedFrom == Some(session.sessionId)
  {
    GrantOf(GrantFromLegacySession(session))
  }

  // The authority behind a subject: a persisted grant, else the one derived from its row.
  ghost function Authority(grants: Grants, rows: SessionRows, subject: Id): (r: Option<AccessGrant>)
    requires Keyed(grants)
  {
    var persisted := Persisted(grants, subject);
    if persisted.Some? then persisted
    else if subject in rows then Derived(rows[subject])
    else None
  }

  /** The table as an object whose statements change it in place. */
  class AuthorizationRepository {
    var grants: Grants

    constructor ()
      ensures grants == map[]
    {
      grants := map[];
    }

    method SaveGrant(g: AccessGrant)
      modifies this
      ensures grants == Upsert(old(grants), g)
    {
      if g.grantId in grants {
        var row := grants[g.grantId];
        grants := grants[g.grantId := g.(issuedAt := row.issuedAt, migratedFrom := row.migratedFrom)];
      } else {
        grants := grants[g.grantId := g];
      }
    }

    method LoadGrantForSubject(subject: Id) returns (r: Option<AccessGrant>)
      requires Keyed(grants)
      ensures r == Persisted(grants, subject)
    {
      r := None;
      var todo := grants.Keys;
      while todo != {}
        invariant todo <= grants.Keys
        invariant r.None? ==> forall id | id in grants.Keys - todo :: grants[id].subject != subject
        invariant r.Some? ==>
                    && r.value.grantId in grants.Keys - todo && grants[r.value.grantId] == r.value
                    && r.value.subject == subject
                    && forall id | id in grants.Keys - todo && grants[id].subject == subject && id != r.value.grantId ::
                         Precedes(grants[id], r.value)
        decreases |todo|
      {
        var id :| id in todo;
        todo := todo - {id};
        if grants[id].subject == subject && (r.None? || Precedes(r.value, grants[id])) {
          r := Some(grants[id]);
        }
      }
      if r.Some? {
        assert IsAnswer(grants, subject, r.value.grantId);
      }
    }

    method FindLiveRequest(request: AccessGrant) returns (r: Option<AccessGrant>)
      ensures r.Some? <==> HasLiveRequest(grants, request)
      ensures r.Some? ==> r.value in grants.Values && r.value.Live() && SameRequest(r.value, request)
    {
      var todo := grants.Keys;
      while todo != {}
        invariant todo <= grants.Keys
        invariant forall id | id in grants.Keys - todo :: !(grants[id].Live() && SameRequest(grants[id], request))
        decreases |todo|
      {
        var id :| id in todo;
        todo := todo - {id};
        if grants[id].Live() && SameRequest(grants[id], request) {
          return Some(grants[id]);
        }
      }
      return None;
    }

    // One row: save its grant unless the table already has it.
    method MigrateRow(row: Result<Option<AccessGrant>, LegacyError>) returns (written: bool)
      modifies this
      ensures written <==> GrantOf(row).Some? && GrantOf(row).value.grantId !in old(grants)
      ensures grants == if written then old(grants)[GrantOf(row).value.grantId := GrantOf(row).value] else old(grants)
    {
      written := row.Ok? && row.value.Some? && row.value.value.grantId !in grants;
      if written { SaveGrant(row.value.value); }
    }

    /** Startup migration: adds the grant each interpretable row lacks, and counts what it added. */
    method MigrateLegacySessions(order: seq<Id>, rows: SessionRows) returns (written: nat)
      requires KeyedRows(rows) && ToSet(order) == rows.Keys
      modifies this
      ensures grants == Migrated(old(grants), rows)
      ensures written == |grants| - |old(grants)|
    {
      written := 0;
      var mapped := MapRows(rows);
      for i := 0 to |order|
        invariant grants == Pass(old(grants), mapped, order[..i])
        invariant written == |grants| - |old(grants)|
      {
        assert order[i] in ToSet(order);
        assert order[..i + 1][..i] == order[..i];
        var added := MigrateRow(mapped[order[i]]);
        if added { written := written + 1; }
      }
      assert order[..|order|] == order;
      PassAddsMissing(old(grants), mapped, order);
      assert Only(mapped, ToSet(order)) == mapped;
    }
  }

  // The migration loop: row by row, skipping a grant already present.
  function Pass(grants: Grants, mapped: MappedRows, order: seq<Id>): (r: Grants) {
    if order == [] then grants
    else
      var id := order[|order| - 1];
      var before := Pass(grants, mapped, order[..|order| - 1]);
      if id !in mapped || GrantOf(mapped[id]).None? || GrantOf(mapped[id]).value.grantId in before then before
      else before[GrantOf(mapped[id]).value.grantId := GrantOf(mapped[id]).value]
  }

  lemma {:induction false} PassAddsMissing(grants: Grants, mapped: MappedRows, order: seq<Id>)
    requires forall id | id in mapped && GrantOf(mapped[id]).Some? :: GrantOf(mapped[id]).value.grantId == id
    requires ToSet(order) <= mapped.Keys
    ensures Pass(grants, mapped, order) == AddMissing(grants, Only(mapped, ToSet(order)))
    decreases |order|
  {
    if order == [] {
      assert Only(mapped, ToSet(order)) == map[];
    } else {
      var init, id := order[..|order| - 1], order[|order| - 1];
      assert id in ToSet(order) && forall x | x in init :: x in order;
      PassAddsMissing(grants, mapped, init);
      assert ToSet(order) == ToSet(init) + {id};
      if id in ToSet(init) {
        assert ToSet(order) == ToSet(init);
      } else {
        AddMissingStep(grants, mapped, ToSet(init), id);
      }
    }
  }

  type MappedRows = map<Id, Result<Option<AccessGrant>, LegacyError>>

  function MapRows(rows: SessionRows): (r: MappedRows) {
    map id | id in rows :: GrantFromLegacySession(rows[id])
  }

  function GrantOf(mapped: Result<Option<AccessGrant>, LegacyError>): (r: Option<AccessGrant>) {
    if mapped.Ok? then mapped.value else None
  }

  function AddMissing(grants: Grants, mapped: MappedRows): (r: Grants) {
    grants + map id | id in mapped && GrantOf(mapped[id]).Some? && id !in grants :: GrantOf(mapped[id]).value
  }

  ghost function Only(mapped: MappedRows, ids: set<Id>): (r: MappedRows)
    requires ids <= mapped.Keys
  {
    map id | id in ids :: mapped[id]
  }

  lemma AddMissingStep(grants: Grants, mapped: MappedRows, seen: set<Id>, id: Id)
    requires seen <= mapped.Keys && id in mapped && id !in seen
    ensures var before := AddMissing(grants, Only(mapped, seen));
            && (id in before <==> id in grants)
            && AddMissing(grants, Only(mapped, seen + {id})) ==
               if id in before || GrantOf(mapped[id]).None? then before else before[id := GrantOf(mapped[id]).value]
  {
    OnlyAdds(grants, Only(mapped, seen), Only(mapped, seen + {id}), id);
  }

  // One more mapped row.
  lemma OnlyAdds(grants: Grants, a: MappedRows, b: MappedRows, id: Id)
    requires id !in a && id in b && b == a[id := b[id]]
    ensures var before := AddMissing(grants, a);
            && (id in before <==> id in grants)
            && AddMissing(grants, b) ==
               if id in before || GrantOf(b[id]).None? then before else before[id := GrantOf(b[id]).value]
  {
    var before, after := AddMissing(grants, a), AddMissing(grants, b);
    AddMissingAt(grants, a, id);
    var expected := if id in before || GrantOf(b[id]).None? then before else before[id := GrantOf(b[id]).value];
    forall k: Id ensures AgreeAt(after, expected, k) {
      AddMissingAt(grants, a, k);
      AddMissingAt(grants, b, k);
    }
    AgreeEverywhere(after, expected);
  }

  lemma AddMissingAt(grants: Grants, mapped: MappedRows, k: Id)
    ensures var r := AddMissing(grants, mapped);
            if k in grants then k in r && r[k] == grants[k]
            else if k in mapped && GrantOf(mapped[k]).Some? then k in r && r[k] == GrantOf(mapped[k]).value
            else k !in r
  {
  }

  function Migrated(grants: Grants, rows: SessionRows): (r: Grants)
    requires KeyedRows(rows)
    ensures Keyed(grants) ==> Keyed(r)
  {
    AddMissing(grants, MapRows(rows))
  }

  /** Migration only adds, alters nothing, and a second pass over the same rows adds nothing. */
  lemma MigrationIsAdditive(grants: Grants, rows: SessionRows)
    requires KeyedRows(rows)
    ensures forall id | id in grants :: id in Migrated(grants, rows) && Migrated(grants, rows)[id] == grants[id]
    ensures forall id | id in Migrated(grants, rows) && id !in grants ::
              id in rows && Derived(rows[id]) == Some(Migrated(grants, rows)[id])
    ensures Migrated(Migrated(grants, rows), rows) == Migrated(grants, rows)
  {
    var once := Migrated(grants, rows);
    assert Migrated(once, rows) == once;
  }

  // Lifetimes --------------------------------------------------------------------------------------------

  const MAX_TTL_MINUTES := 525_600

  newtype Int64 = x: int | -0x8000_0000_0000_0000 <= x < 0x8000_0000_0000_0000

  datatype TtlProfile = TtlProfile(maxMinutes: Int64, risk: RiskLevel)

  datatype TtlConfig = TtlConfig(
    inspect: TtlProfile, design: TtlProfile, manufacturing: TtlProfile, custom: TtlProfile,
    low: Int64, normal: Int64, high: Int64, critical: Int64)
  {
    function ProfileOf(profile: CapabilityProfile): (r: TtlProfile) {
      match profile
      case Inspect => inspect
      case Design => design
      case Manufacturing => manufacturing
      case Custom(_) => custom
    }

    function Ceiling(risk: RiskLevel): (r: Int64) {
      match risk
      case Low => low
      case Normal => normal
      case High => high
      case Critical => critical
    }

    // What configuration loading enforces on every ceiling.
    predicate Valid() {
      && ValidCeiling(inspect.maxMinutes) && ValidCeiling(design.maxMinutes)
      && ValidCeiling(manufacturing.maxMinutes) && ValidCeiling(custom.maxMinutes)
      && ValidCeiling(low) && ValidCeiling(normal) && ValidCeiling(high) && ValidCeiling(critical)
    }
  }

  predicate ValidCeiling(value: Int64) {
    1 <= value as int <= MAX_TTL_MINUTES
  }

  function Min(a: Int64, b: Int64): (r: Int64) {
    if a <= b then a else b
  }

  /** The clamp: at least a minute, at most both ceilings, and otherwise what was asked for. */
  function EffectiveTtl(config: TtlConfig, profile: CapabilityProfile, requested: Int64): (r: Int64)
    requires config.Valid()
    ensures 1 <= r as int <= MAX_TTL_MINUTES
    ensures r <= config.ProfileOf(profile).maxMinutes && r <= config.Ceiling(config.ProfileOf(profile).risk)
    ensures 1 <= requested ==> r <= requested
    ensures requested < 1 ==> r == 1
    ensures r == requested || (r == 1 && requested < 1)
            || r == config.ProfileOf(profile).maxMinutes || r == config.Ceiling(config.ProfileOf(profile).risk)
    ensures 1 <= requested && requested <= config.ProfileOf(profile).maxMinutes ==>
              requested <= config.Ceiling(config.ProfileOf(profile).risk) ==> r == requested
  {
    var p := config.ProfileOf(profile);
    assert ValidCeiling(p.maxMinutes) && ValidCeiling(config.Ceiling(p.risk));
    Min(Min(if requested < 1 then 1 else requested, p.maxMinutes), config.Ceiling(p.risk))
  }
}
