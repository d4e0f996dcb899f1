# A verified model of the authorization gateway

This project models the deny-by-default authorization gateway in Dafny and proves what its parts promise
together: nothing reaches the core without durable evidence and a local decision, nothing reaches it twice,
revocation is final, effects stay inside the workspace, proofs of identity cannot be replayed, and a
checkpoint restores exactly what it saved. `dafny verify dfyconfig.toml` checks all of it.

The modules follow the program:

| modules | what they model |
|---|---|
| `Authorization`, `GrantMachine`, `Leases`, `Sessions` | grants, leases, the two state machines, and how the session row mirrors the grant |
| `GrantStore` | the grant table as an object, its lookup order, the startup migration, the lifetime clamp |
| `Paths`, `PathText`, `Boundary`, `EffectContracts`, `Effects`, `EffectMeaning` | path arithmetic and its meaning character by character, the workspace boundary, reviewed tool contracts, effect normalization and its declarative meaning |
| `Risk`, `Policy`, `Containment` | dynamic risk, the ordered policy checks against one flat condition, and what that means for the caller's own text |
| `Daemon`, `PipelineSafety`, `PipelineTheorems`, `AuditTruth`, `Provenance`, `PolicyInPipeline` | the operation pipeline as an interleaved step system, its invariant and its theorems |
| `AuthorityTables`, `Refusals`, `Revocation`, `Requests` | what whole runs do to the grant and session tables, and what revocation and missing approval mean for execution |
| `Gateway`, `Outcomes`, `AuthorityOutcomes` | the daemon's handlers as methods that change its state, proved equal to runs of the step system, and what each of them brings about |
| `Words`, `Replay`, `Identity`, `OwnerManifest`, `OwnerPolicy` | 64-bit windows, the anti-replay store, actor assertions, owner manifests and their activation |
| `Disk`, `Checkpoints` | a file tree changed in place, and the checkpoint store on it |

How the pipeline is modelled. Every handler is cut where it gives up a lock between two writes, or between
judging and writing, and any sequence of events is a run: an event whose handler is not at that point changes
nothing. Two spans that take the lock more than once are kept whole: one local decision, and the reads of one
evaluation (see "Left out"). Access requests are handled one at a time by the receive loop, but each takes the
lock anew for its duplicate check, its row and its grant, so decisions fall between them. Every audit write
may be stored, lost, or stored although an error was reported. A restart empties the queue and the handlers,
keeps the database and runs the migration. A run starts from any database (`Booted`). The policy is a
parameter of the pipeline; `PolicyInPipeline` and `Refusals` put the engine in its place.

Where the code and its documentation disagree, the model follows the code:

- docs/architecture/session-lifecycle.md:57 says a pending request that outlives its lifetime can never be
  approved. The state machine does approve it; `LateApprovalIsAcceptedButUseless` proves that the grant it
  yields is never usable.
- crates/checkpoints/src/fs_ops.rs:1-5 says an operation never walks into previous checkpoints even when they
  live inside the workspace. That holds for copying at any depth (`CreateFits`), but clearing compares only the
  workspace's own entries: `ClearSparesIff` gives the exact condition and `DeepRootLosesAll` the failure.
- Revocation is meant to be final. Two windows make exceptions, and both have their exact condition. A request
  saves its session row before its grant; a decision that lands between the two acts on the grant derived from
  the row, and the request's own grant, written after, takes over if it was stamped later: `RevocationStandsIff`
  gives the condition, `LateWriteRevives` the failure and `RequestCanOutrank` that it is reached from an empty
  database. And across a restart a revocation depends on the session row: `RestartKeepsRevocationIff` gives the
  condition, `LostMirrorReopens` a family of failing runs.

## Model

| member | source | states |
|---|---|---|
| PipelineTheorems.EvidencePrecedesEveryCall | apps/daemon/src/remote_processor.rs:298-347 | in every run, with audit writes failing at will, each step that reaches the core finds the durable Allow row, or the RequireApproval row with a stored AllowOnce, already there with the call's session, workspace, tool, capability and effective risk, and that evidence is still in place at the end |
| PipelineTheorems.EachOperationAtMostOnce | apps/daemon/src/remote_processor.rs:581-684 | no operation id reaches the core twice over replays, concurrent decisions, requeues and restarts; a queued operation has no other holder and was never executed |
| PipelineSafety.RunSafe | apps/daemon/src/remote_processor.rs:236-347 | the invariant behind both: rows, queue, handlers and calls agree in every reachable state |
| AuditTruth.AuditTellsExecution | apps/daemon/src/remote_processor.rs:487-538 | for every row of the run: a duration means the operation reached the core, success is never claimed without one, and a row closed without one belongs to an operation that did not reach the core and never will |
| PipelineTheorems.StepMoves | apps/daemon/src/remote_processor.rs:585-684 | in one step an operation enters the queue or the core only from the handler that holds it, and a handler obtains one only from the queue or by recording a new row |
| PipelineTheorems.DenialIsFinal | apps/daemon/src/remote_processor.rs:692-751 | an operation a denial took out of the queue is never queued or executed again, whatever its two audit writes do and whatever follows |
| PipelineTheorems.SweepIsFinal | apps/daemon/src/remote_processor.rs:756-787 | the same for every operation the revocation sweep removes |
| PipelineTheorems.FailedApprovalRequeues | apps/daemon/src/remote_processor.rs:608-625 | an approval whose decision write is not confirmed executes nothing, and puts back exactly the entry it took, whatever other handlers did meanwhile |
| PolicyInPipeline.EveryCallWasPermitted | apps/daemon/src/remote_processor.rs:596-606 | each executed operation met the whole flat policy at the step named by EveryCallWasJudged, carries exactly the verdict the engine gave there, the tool's capability and the maximum of base and met escalations as risk, and went through approval exactly if high-risk |
| PolicyInPipeline.EveryCallWasJudged | apps/daemon/src/remote_processor.rs:581-668 | an approved call was taken out of the queue at a step m, judged again at a later step n by the handler that took it, on the grant and workspace stored at n, and made at a later step j by that handler, with the queued request, capability and risk; another call was judged on arrival; and the arrival behind either came from the device daemon and answering grant are bound to and from the actor the grant was given to, field by field |
| Provenance.RunTraced | apps/daemon/src/remote_processor.rs:581-668 | in every run each handler past a take, an arrival or a revalidation can name the step it came from, and each call the steps behind it |
| PolicyInPipeline.RunBacked | apps/daemon/src/remote_processor.rs:390-416 | every call and every handler past its evaluation rests on an evaluation observable in the run |
| Revocation.RevocationIsFinal | apps/daemon/src/handlers.rs:550-604 | after a decision revokes the grant that answers a subject, every later evaluation for it refuses, and only operations already past their evaluation can still execute; given that no outranking grant of that subject was about to be written, and across restarts given a mirrored Revoke |
| Revocation.RevocationStandsIff | apps/daemon/src/remote_processor.rs:210-211 | for the rest of the process the revoked grant goes on answering its subject if and only if the subject's own request did not stand between its two writes with a grant that outranks the answering one |
| Revocation.LateWriteRevives | apps/daemon/src/remote_processor.rs:210-211 | in that case the late write makes the subject pending again and a later Approve makes it active under the request's grant |
| Revocation.RequestCanOutrank | apps/daemon/src/remote_processor.rs:149-211 | from an empty database, a request with its row saved and its grant stamped later stands in exactly that position when a Revoke is accepted |
| Revocation.RestartKeepsRevocationIff | crates/sessions/src/migration.rs:63-88 | a restart keeps a revocation exactly when no live session row without its own grant outranks the revoked one in the lookup order |
| Revocation.LostMirrorReopens | apps/daemon/src/handlers.rs:557-571 | from an empty database: a request recorded within one instant, approved, then revoked with the mirror write lost, is usable again after a restart until its original deadline |
| Refusals.RefusedShutsOut | apps/daemon/src/remote_processor.rs:581-657 | while every evaluation of a subject refuses, the only calls for it are those already in flight at the start |
| Refusals.EngineRefusesUnusable | crates/policy/src/engine.rs:150-180 | the engine permits nothing on a grant that is not active and unexpired |
| Requests.NothingRunsUnapproved | crates/sessions/src/grant_machine.rs:101-188 | from a database with nothing approved for a subject, its operations reach the core only in runs containing a local Approve of that subject |
| Requests.RunCarriesGrants | crates/sessions/src/authorization_repository.rs:44-103 | over every run no stored grant changes its terms and no terminal grant changes at all |
| Requests.OneLiveGrantPerRequest | apps/daemon/src/remote_processor.rs:149-211 | at most one live request-made grant per device, principal, scope, workspaces and profile, although duplicate check and write are separate statements; each with a lifetime of 60 s to 525,600 min |
| Requests.RepeatedRequestChangesNothing | crates/sessions/src/authorization_repository.rs:173-207 | a request whose grant was written, asked for again with any ids and times, changes nothing while that grant is live, whatever happened in between |
| AuthorityTables.DecideOutcome | apps/daemon/src/handlers.rs:550-580 | a decision changes nothing or saves the next state, on the same terms, of the grant that answers its subject, overwriting no other subject's grant |
| AuthorityTables.RebootAdds | crates/sessions/src/migration.rs:63-88 | a restart changes a subject's grants only by adding the one derived from its own row |
| Gateway.DaemonState.HandleOperationRequest | apps/daemon/src/remote_processor.rs:236-347 | the handler changes audit, queue and calls exactly as its four pipeline steps do |
| Gateway.DaemonState.ApprovePendingOperation | apps/daemon/src/remote_processor.rs:581-668 | approval as its six pipeline steps; missing exactly when nothing is queued, an audit error exactly when the decision is not recorded, and success exactly when what was queued still stands |
| Gateway.DaemonState.DenyPendingOperation | apps/daemon/src/remote_processor.rs:692-751 | denial: the entry leaves the queue whatever the writes do, nothing is called |
| Gateway.DaemonState.InvalidatePendingForSession | apps/daemon/src/remote_processor.rs:756-787 | exactly the subject's entries leave the queue, their number is returned, and each row is closed by its own write |
| Gateway.DaemonState.DecideSession | apps/daemon/src/handlers.rs:550-591 | a local decision as one pipeline step; a refused one changes nothing |
| Gateway.DaemonState.HandleSessionRequest | apps/daemon/src/remote_processor.rs:112-220 | an access request as its three pipeline steps: checks and duplicate search, row write, grant write |
| Gateway.DaemonState.EvaluateOperationRequest | apps/daemon/src/remote_processor.rs:363-416 | grant lookup, derived grant and evaluation agree with the specification of one evaluation |
| Gateway.OperationIsARun | apps/daemon/src/remote_processor.rs:236-347 | an uninterrupted operation handler is a run of the interleaved system |
| Gateway.ApprovalIsARun | apps/daemon/src/remote_processor.rs:581-668 | an uninterrupted approval is a run of the interleaved system |
| Outcomes.OperationOutcome | apps/daemon/src/remote_processor.rs:236-347 | a fresh, recorded request from the bound device: with a grant, a known workspace and the right actor, Allow makes exactly that call and the row shows how it ended, RequireApproval queues exactly that entry, Deny does neither; lacking any of those it is denied |
| Outcomes.RefusedOutcome | apps/daemon/src/remote_processor.rs:242-316 | from another device a request leaves no trace; with an id seen before or an unconfirmed record it runs and queues nothing |
| Outcomes.ApprovalOutcome | apps/daemon/src/remote_processor.rs:581-668 | a recorded approval runs exactly the queued entry if and only if there is a transport and the verdict on the grant and workspace stored now is still to ask approval of the queued capability and risk; the row shows the core's outcome, or POLICY_REVALIDATION_DENIED |
| Outcomes.UnrecordedApprovalOutcome | apps/daemon/src/remote_processor.rs:608-625 | an approval whose decision is not confirmed leaves queue, calls and handlers as they were |
| Outcomes.DenialOutcome | apps/daemon/src/remote_processor.rs:692-751 | the entry is gone, nothing ran, and each write that is not lost reads Denied and DENIED_BY_USER |
| Outcomes.SweptRowOutcome | apps/daemon/src/remote_processor.rs:775-786 | a swept row whose write is not lost reads SESSION_REVOKED, and nothing else changes |
| AuthorityOutcomes.RequestOutcome | apps/daemon/src/remote_processor.rs:112-211 | if it may be asked and nothing alike is live, a request adds exactly one pending grant and one pending row holding what was asked, for the clamped lifetime; otherwise nothing changes |
| AuthorityOutcomes.DecisionOutcome | apps/daemon/src/handlers.rs:550-580 | which decision applies in which state, and that the answering grant then answers on the same terms in the new state, stamped with the instant, the row keeps step and a revocation goes on to the sweep; otherwise nothing changes |
| Daemon.RecordRow | crates/audit/src/repository.rs:27-74 | the operation id is the key of the audit table: a second record always fails and changes nothing |
| GrantMachine.TermsNeverChange | crates/sessions/src/grant_machine.rs:101-188 | over any event sequence scope, device, principal, kind and expiry never change and terminal states are never left |
| GrantMachine.StampsTellStatus | crates/sessions/src/grant_machine.rs:101-188 | under any events the approval, revocation and consumption stamps of a grant agree with its state, both ways |
| GrantMachine.ExpiryOutcome | crates/sessions/src/grant_machine.rs:138-152 | the expiry check ends any grant that has not ended exactly from its deadline on |
| GrantMachine.RequestedGrantNeedsApproval | crates/core/src/authorization.rs:327-364 | a requested grant is usable only after an Approve and before its original deadline |
| GrantMachine.NotApprovedStaysUnusable | crates/sessions/src/grant_machine.rs:101-188 | without an Approve a pending grant stays pending or ends |
| GrantMachine.LateApprovalIsAcceptedButUseless | crates/sessions/src/grant_machine.rs:101-188 | a request past its deadline can still be approved, and no continuation makes it usable |
| Leases.LeasesStayNarrow | crates/core/src/authorization.rs:427-569 | in every reachable store leases stay within their grant, one-shot grants have one lease, spent leases never change |
| Leases.OneShotHasOneLease | crates/sessions/src/grant_machine.rs:194-226 | two leases of one one-shot grant are the same lease |
| Leases.SpendableIff | crates/sessions/src/grant_machine.rs:208-226 | spending succeeds exactly when the grant is usable and the lease unspent and unexpired |
| Leases.IssuableIff | crates/core/src/authorization.rs:427-486 | a lease is issued exactly within the scope of a usable grant that may still issue, carries the grant's own binding, and ends when asked or with its grant |
| Sessions.MirrorHolds | crates/sessions/src/state_machine.rs:68-121 | any decisions keep row and grant in matching states, accept the same events on both, and the legacy adapter reads the grant's status off the row |
| Sessions.RequestStartsMirrored | crates/sessions/src/state_machine.rs:125-157 | a session request starts a mirrored pair |
| Authorization.GrantFromLegacySession | crates/core/src/authorization.rs:659-730 | the derived grant has the row's id, origin and status, and is Active only with an approval time |
| Authorization.LegacyGrantIsTheRow | crates/core/src/authorization.rs:659-730 | a row yields a grant exactly when its status carries authority and it is complete, and the grant has the row's own terms and an unverified principal |
| Authorization.ProfilesNest | crates/core/src/capability.rs:89-125 | inspection writes and exports nothing, design adds exactly the three writes, manufacturing exactly its two |
| GrantStore.AuthorizationRepository.LoadGrantForSubject | crates/sessions/src/authorization_repository.rs:117-134 | the answer is the subject's newest grant, then the greatest id, or none if it has none |
| GrantStore.AuthorizationRepository.FindLiveRequest | crates/sessions/src/authorization_repository.rs:173-207 | finds a live grant of the same request exactly when there is one |
| GrantStore.AuthorizationRepository.SaveGrant | crates/sessions/src/authorization_repository.rs:44-103 | an upsert that keeps issue time and migration origin of an existing row |
| GrantStore.AuthorizationRepository.MigrateLegacySessions | crates/sessions/src/migration.rs:63-88 | the loop adds exactly the missing grant of each interpretable row and counts what it added |
| GrantStore.MigrationIsAdditive | crates/sessions/src/migration.rs:63-88 | migration alters nothing, adds only derived grants, and a second pass adds none |
| GrantStore.EffectiveTtl | crates/policy/src/authorization_ttl.rs:33-48 | for every 64-bit request: between 1 and 525,600 minutes, below both ceilings, and the request itself when it fits |
| EffectContracts.ValidatePathDependencies | crates/policy/src/operation_effects.rs:143-189 | accepts exactly the contracts whose bases resolve, can supply a single base, and form no cycle |
| EffectContracts.VisitPathDependencies | crates/policy/src/operation_effects.rs:171-189 | the in-place walk leaves the visiting set as it found it, and an error names an argument that following bases does come back to |
| EffectContracts.NewPathArgument | crates/policy/src/operation_effects.rs:83-120 | succeeds exactly on named arguments with effects, a portable default if any and a named base if any |
| EffectContracts.NewContract | crates/policy/src/operation_effects.rs:199-240 | an accepted contract holds exactly the given arguments, effects and paths and satisfies everything normalization relies on; each error names its cause, dependency errors as the validator proves them |
| Effects.NormalizeArguments | crates/policy/src/operation_effects.rs:254-288 | the in-place normalizer computes the recursive specification, errors included |
| Effects.Normalizer.ResolvePathArgument | crates/policy/src/operation_effects.rs:290-385 | one argument: its resolved paths, the inserted effects and the restored resolving set, or the same error |
| EffectMeaning.NormalizeMeans | crates/policy/src/operation_effects.rs:254-385 | for accepted contracts normalization succeeds exactly on acceptable arguments, equals the declared set of effects and paths, and reports an invalid dependency only for a needed base given as an empty array |
| EffectMeaning.ResolveMeans | crates/policy/src/operation_effects.rs:290-385 | one argument resolves to the product of its raw texts and its base's paths |
| PathText.ArgumentPathMeans | crates/policy/src/operation_effects.rs:388-407 | read off the characters: a text that begins with a slash or backslash is that absolute path whatever the base; any other is the base followed by exactly its non-empty, non-dot segments, in order |
| Containment.RawPathsMean | crates/policy/src/operation_effects.rs:304-340 | an argument stands for exactly the texts the caller gave, or its default when none was given |
| Containment.PermittedTextIsInside | crates/policy/src/engine.rs:190-201 | with links or without, every path text of a permitted operation is really inside the workspace |
| Containment.EscapingTextIsDenied | crates/policy/src/engine.rs:190-201 | without links, an absolute text outside the root or a relative one climbing above it is denied |
| Containment.ForeignTextIsDenied | crates/policy/src/operation_effects.rs:409-426 | blank text, NUL, shell and drive syntax are denied in any path argument |
| Boundary.LexicalNormalize | crates/workspace/src/boundary.rs:119-133 | the loop computes the normal form of a path |
| Boundary.LexicalIsIdempotent | crates/workspace/src/boundary.rs:119-133 | normal forms have no `.` or `..` and normalize to themselves |
| Boundary.LexicalRewrites | crates/workspace/src/boundary.rs:119-133 | anywhere in a path a dot disappears, a name and the parent after it cancel, and a leading parent disappears |
| Boundary.SplitExistingPrefix | crates/workspace/src/boundary.rs:135-160 | prefix and rest rejoin to the input and the prefix is the longest existing ancestor |
| Boundary.Resolve | crates/workspace/src/boundary.rs:85-117 | the boundary check, with its three refusals |
| Boundary.ResolveIff | crates/workspace/src/boundary.rs:85-117 | the answer is the real place of the longest existing ancestor plus the missing rest, accepted exactly when inside the root; each error has its exact condition |
| Boundary.AcceptedIffAncestorInside | crates/workspace/src/boundary.rs:85-117 | a request is accepted exactly when the real place of its longest existing ancestor is inside, so a link out of the root leads nowhere |
| Boundary.ResolvedStaysInside | crates/workspace/src/boundary.rs:85-169 | a successful resolve has the root as component prefix and no way back out |
| Boundary.WithoutLinksContainmentIsLexical | crates/workspace/src/boundary.rs:85-169 | without links an absolute request is accepted exactly when its normal form lies under the root |
| Risk.AssessOperationRisk | crates/policy/src/risk_assessment.rs:9-96 | the loop computes the assessment the specification gives |
| Risk.AssessMeans | crates/policy/src/risk_assessment.rs:9-96 | effective risk is the maximum of base and fired escalations, factors are present exactly when it was raised, the below-base error cannot occur |
| Risk.FactorsExplain | crates/policy/src/risk_assessment.rs:9-96 | the factors are the met rules, one each and in order, with argument, observed count and threshold |
| Risk.OrderDoesNotMatter | crates/policy/src/risk_assessment.rs:9-96 | reordering or repeating rules changes neither success nor effective risk |
| Risk.EffectMissingIff | crates/policy/src/risk_assessment.rs:9-96 | a rule misses its effect exactly when the effect is not static and every argument carrying it has no paths |
| Risk.ParseRiskRules | crates/policy/src/tool_registry.rs:403-483 | accepted rules are valid, distinct, in order and strictly raise the base; a refusal names an invalid, repeated or unreviewed rule |
| Risk.ParseRule | crates/policy/src/tool_registry.rs:499-553 | an accepted rule names a known argument and a declared effect and raises the base |
| Policy.EvaluationIsFlat | crates/policy/src/engine.rs:130-254 | anything but a denial means every condition of the flat policy holds, and the converse, stated over the declared effects and the rules' own conditions; the risk is the maximum of base and met escalations, and approval is demanded exactly from High on |
| Policy.LegacyEvaluationIsFlat | crates/policy/src/engine.rs:264-290 | the session-row adapter permits exactly what the derived grant permits, hence only for an active, approved, unexpired row of the request's own session and workspace |
| Replay.Storage.RegisterActorChallenge | crates/storage/src/actor_replay.rs:176-200 | takes effect exactly when well-formed, in time, below capacity and new, also when the commit reports an error after taking effect; otherwise changes nothing, with the error's exact cause |
| Replay.Storage.ConsumeIssuedActorProof | crates/storage/src/actor_replay.rs:206-277 | claims challenge and proof together exactly when both are unused, confirmed or not; otherwise changes nothing |
| Replay.Storage.ConsumeActorProof | crates/storage/src/actor_replay.rs:49-89 | the legacy reservation, under the same clock and capacity gates |
| Replay.Storage.BeginLimitedWrite | crates/storage/src/actor_replay.rs:102-144 | the clock and capacity gate that opens every transaction |
| Replay.AcceptsIff | crates/storage/src/actor_replay.rs:49-277 | exactly which challenges, claims and reservations the store accepts, field by field |
| Replay.RunSound | crates/storage/src/actor_replay.rs:102-144 | over every run the clock mark never goes back, both tables stay at or below 250,000 rows, no row is dropped or unconsumed, no two proofs clash |
| Replay.NothingIsAcceptedTwice | crates/storage/src/actor_replay.rs:206-277 | calls that take effect, confirmed or not, do so at non-decreasing times, share no replay identifier, and claim different challenges |
| Replay.ClaimedWasRegistered | crates/storage/src/actor_replay.rs:176-277 | a challenge in the table was registered with the very same binding |
| Replay.ProofsAreAccountedFor | crates/storage/src/actor_replay.rs:49-277 | proof rows grow by exactly the claims plus legacy reservations that took effect, claimed challenges by exactly the claims |
| Replay.ReportedProofsAreStored | crates/storage/src/actor_replay.rs:49-277 | the table holds at least the proofs whose acceptance was reported |
| Replay.ConservativeSeed | crates/storage/src/migrations.rs:35-52 | the seed is the latest recorded expiry, an empty table standing for 0 |
| Replay.Storage.SeedActorClockHighWater | crates/storage/src/migrations.rs:35-52 | the upgrade sets the mark to the seed, or aborts if the seed is negative |
| Replay.NoOldChallenge | crates/storage/src/migrations.rs:35-52 | in any run after the upgrade an older challenge is claimable only at the second that is seed, deadline and clock mark at once |
| Replay.OldChallengeClaimableIff | crates/storage/src/migrations.rs:35-52 | at that second it is, so the exception is exact |
| Identity.VerifyAndConsumeActorAssertion | crates/identity/src/actor_attestation.rs:305-405 | an identity exactly when every gate passes and the store accepts; the store changes only after all gates |
| Identity.IssueGatewayChallenge | crates/identity/src/actor_attestation.rs:123-158 | a challenge of exactly 60 s, registered before it is returned |
| Identity.NewIssuers | crates/identity/src/actor_issuer_policy.rs:52-75 | accepts exactly 1 to 32 well-formed keys with distinct names and distinct public keys |
| Identity.VerifyWithIssuers | crates/identity/src/actor_issuer_policy.rs:83-118 | an identity exactly when a pinned active key covers and signed the assertion |
| OwnerManifest.OwnerApprovedIssuerKeys | crates/identity/src/owner_manifest.rs:157-185 | the keys, in order, exactly when all decode, none is the owner root and together they are a policy |
| OwnerManifest.VerifyOwnerSignedIssuerManifest | crates/identity/src/owner_manifest.rs:191-211 | succeeds exactly on canonical, fresh, owner-signed manifests of a newer generation |
| OwnerManifest.OwnerApprovedIff | crates/identity/src/owner_manifest.rs:96-211 | exactly which manifests the owner's root vouches for, field by field |
| OwnerManifest.VerifyAndConsume | crates/identity/src/owner_manifest.rs:74-88 | an identity exactly when the manifest is current, the rest of the chain accepts and the commit is confirmed; the store changes exactly when the chain accepts |
| OwnerManifest.WindowsAreExact | crates/identity/src/actor_attestation.rs:258-268 | the saturating 64-bit windows agree with exact integers on all inputs |
| OwnerManifest.IdentityImpliesWindows | crates/identity/src/owner_manifest.rs:74-88 | any identity implies now-60 <= issued <= now+15, now <= expiry <= issued+60, now within challenge (60 s), key and manifest (30 days) windows, and an active key other than the root that signed |
| OwnerManifest.VouchedIff | crates/identity/src/actor_attestation.rs:201-386 | an identity comes out exactly when the manifest is active and in its window, a pinned key attests to exactly these request bytes on exactly this channel for these ids with every window holding, and the store accepts |
| OwnerManifest.OneAssertionOneRequest | crates/identity/src/actor_attestation.rs:292-299 | one signed assertion vouches for one request on one channel |
| OwnerManifest.IdentityUsesIssuedChallenge | crates/identity/src/actor_attestation.rs:100-158 | every identity spends a challenge registered earlier for exactly its binding |
| OwnerManifest.SameBindingSameChannel | crates/identity/src/actor_attestation.rs:100-118 | equal bindings mean the same challenge text, device, workspace, connection, transport and instants |
| OwnerManifest.ChallengeRoundTrip | crates/identity/src/actor_attestation.rs:123-158 | an issued challenge is claimable on its own channel for exactly its minute, and never again |
| OwnerManifest.NoIdentityTwice | crates/identity/src/actor_attestation.rs:305-386 | no two identities share a nonce, message, challenge or correlation of one issuer, or a gateway challenge |
| OwnerPolicy.RunSound | crates/identity/src/owner_policy_authority.rs:32-191 | for any number of authorities generations strictly increase, history only grows, and every active pair is an entry of it |
| OwnerPolicy.ActivationsAreBounded | crates/identity/src/owner_manifest.rs:115-138 | at most MAX_GENERATION commits follow the provisioned entry |
| OwnerPolicy.FailedCommitIsForever | crates/identity/src/owner_policy_authority.rs:145-163 | an unconfirmed commit leaves that authority without policy for the rest of any run |
| OwnerPolicy.RejectedCandidateChangesNothing | crates/identity/src/owner_policy_authority.rs:125-150 | a manifest that fails verification changes nothing |
| OwnerPolicy.ActivationOutcome | crates/identity/src/owner_policy_authority.rs:125-170 | a confirmed activation leaves exactly the candidate's generation and digest at the end of the history and its manifest active |
| OwnerPolicy.CurrentIffNotOvertaken | crates/identity/src/owner_policy_authority.rs:125-191 | a live authority still has the latest policy exactly when no other authority committed meanwhile |
| OwnerPolicy.StepCurrentIff | crates/identity/src/owner_policy_authority.rs:125-170 | the same for one step; one that is behind stays behind |
| OwnerPolicy.BehindNeverCommits | crates/identity/src/owner_policy_authority.rs:150-163 | an authority that is behind cannot move the store; trying disables it |
| OwnerPolicy.OtherCommitLeavesBehind | crates/identity/src/owner_policy_authority.rs:175-191 | an authority overtaken by another goes on verifying under the superseded policy |
| OwnerPolicy.OpenedIsLatest | crates/identity/src/owner_policy_authority.rs:75-116 | the second read makes a successful construction publish the latest policy |
| OwnerPolicy.OwnerPolicyAuthority.VerifyCandidateCommitAndActivate | crates/identity/src/owner_policy_authority.rs:125-170 | the method changes store and policy as specified, with the exact cause of each error |
| OwnerPolicy.OwnerPolicyAuthority.FromTrustedStore | crates/identity/src/owner_policy_authority.rs:75-116 | opens exactly when the manifest is the committed one and both reads agree |
| OwnerPolicy.OwnerPolicyAuthority.VerifyActorAndConsume | crates/identity/src/owner_policy_authority.rs:175-191 | an identity exactly when a policy is active and the chain accepts under it |
| Disk.FileTree.CopyDirRecursive | crates/checkpoints/src/fs_ops.rs:9-30 | the recursive copy produces exactly the source minus the excluded place, and fails only for a missing source or a file in the way |
| Disk.FileTree.ClearDirExcluding | crates/checkpoints/src/fs_ops.rs:32-47 | removes every entry but the excluded one |
| Checkpoints.CreateFits | crates/checkpoints/src/fs_ops.rs:14-30 | a snapshot never walks over its own output, at any depth of the checkpoints root |
| Checkpoints.RoundTrip | crates/checkpoints/src/store.rs:51-194 | create, any changes outside this snapshot, other checkpoints included, restore: the workspace is exactly the snapshotted one and all else untouched |
| Checkpoints.ClearSparesIff | crates/checkpoints/src/fs_ops.rs:32-47 | clearing spares a snapshot exactly when it is outside the workspace or its root is a direct entry |
| Checkpoints.DeepRootLosesAll | crates/checkpoints/src/fs_ops.rs:32-47 | with a root deeper inside, clearing loses the snapshots and the workspace |
| Checkpoints.FilesystemCheckpointStore.Create | crates/checkpoints/src/store.rs:51-81 | the row and the copied tree, or an error without a row |
| Checkpoints.FilesystemCheckpointStore.Restore | crates/checkpoints/src/store.rs:171-194 | refuses without change for the four causes, and otherwise succeeds exactly when clearing spares the snapshot |
| Checkpoints.FilesystemCheckpointStore.Delete | crates/checkpoints/src/store.rs:199-219 | exactly one snapshot and its row, or nothing |
| Checkpoints.FilesystemCheckpointStore.UnusableSnapshots | crates/checkpoints/src/store.rs:101-126 | startup reports exactly the rows whose restore would be refused for their snapshot |
| Checkpoints.DeleteIsLocal | crates/checkpoints/src/store.rs:199-219 | deleting one checkpoint leaves every node of every other |

## Left out

- SQLite, JSON, TOML and RFC 3339 text: tables are maps, and times are integers compared as such where the program compares stored text.
- Storage reads always succeed; only writes fail. Poisoned locks and panicking tasks are not modelled.
- Cryptography, digests and canonical encoding are abstract functions and predicates (`Primitives`).
- Generated ids are unused ones (`IdsApart` and the id tests of `RequestAccess`); how they are generated is not modelled.
- A local decision loads and saves the grant under two lock acquisitions; the model takes one decision as one atomic step.
- Gateway.DaemonState.EvaluateOperationRequest: session row, grant and workspace are read at one moment, where the program reads them one after another under separate locks.
- GrantStore.AuthorizationRepository.LoadGrantForSubject: orders instants, where the query orders their RFC 3339 text.
- Drive prefixes and other platform path forms; the operating system's view is an abstract set of existing paths, canonical forms and links. What a tool does with a path it was given is outside the model.
- Iteration over argument tables is in a fixed order, which only decides which of several errors is reported.
- Responses sent over the transport, logging, and audit columns that no decision reads (principal metadata, risk factors).
- A request repeated after its grant expired but before anyone marked it terminal is still treated as a duplicate, as the program does; nothing is claimed about honouring it.
- Lease rows in the repository, listing queries and the incomplete-operation report: they would add only easy members.
- Loading the tool registry beyond its risk rules, and configuration loading beyond the lifetime ceilings; the model starts from a registry that passed both (`Engine.Valid`, `TtlConfig.Valid`).
- Checkpoint roots that contain the workspace, links inside workspaces, and the session and task columns of checkpoint rows.
- Checkpoints.FilesystemCheckpointStore.Restore: requires that a stored snapshot holds no entry under the name of the checkpoints root; `CreatedIsSane` proves that Create makes only such snapshots.
- Disk.FileTree.CopyDirRecursive: requires that the destination is free and disjoint from what it walks over, because the program has no defined end otherwise; `CreateFits` and `RestoreFits` prove it for both callers.
- Network clients, relay handshake, local IPC, command line, desktop interface, supervision, pairing, reconnect backoff.
