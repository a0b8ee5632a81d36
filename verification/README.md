# Verified model of the agent security runtime

The runtime decides, request by request, whether an autonomous agent may use a tool. Several of
its services keep a fast, bounded or cached structure that has to agree with a simple one: a risk
posture maintained incrementally against the evidence it summarises, a grant authority that forgets
against one that does not, a pruned event store against the whole history, a bounded receipt store
against every receipt ever opened. This project models those services and the pipeline that
composes them, and proves that the fast forms agree with the simple ones, over every run.

## How the model is built

Each service of the program is a class with the fields its source has; its methods change those
fields in the source's order and are proved to compute a function of the old state (`Record`,
`Apply`, `Claim`, `Execute`, ...). What the program is for is then proved about those functions, and
about runs: sequences of any length of any steps, with arbitrary arguments, clocks that only move
forward, and failures where the source can fail. Where several writers or attempts can interleave,
the run takes their steps one at a time in any order.

| file | what it models |
|---|---|
| `Prelude.dfy` | options and results, time, string order, Python's stable `sorted` |
| `Findings.dfy` | the evidence store, its per-agent numbering and its bootstrap |
| `RiskProjection.dfy`, `RiskAggregation.dfy`, `RiskRuns.dfy`, `RiskHealth.dfy` | one agent's risk projection, the aggregator that owns them all, runs of both over the evidence, and when the projection keeps up with it |
| `RiskReports.dfy` | assessments per session and agent, reconstructed from evidence |
| `EnforcementPlane.dfy`, `AdministrativePlane.dfy`, `AgentLifecycle.dfy` | the two compare-and-set ledgers, racing writers, and the service and policy on top of them |
| `Binding.dfy` | canonical descriptions of an operation |
| `GrantAuthority.dfy`, `GrantRuns.dfy` | single-use grants, and the ledger that never forgets them |
| `Containment.dfy`, `ContainmentRuns.dfy`, `ContainmentOrders.dfy` | recovery over several stores, containment with a failure at any point, and containment and recovery mixed in any order |
| `SessionStore.dfy`, `SessionRuns.dfy` | sessions, events, retention and horizon queries |
| `Detection.dfy`, `DetectionRuns.dfy`, `DetectionLaws.dfy` | the denial rule, the identity of a crossing, runs over both stores, and what one evaluation adds |
| `ExecutionEvidence.dfy`, `EvidenceRuns.dfy`, `Reconciliation.dfy` | the bounded receipt store and its reconciler |
| `Executor.dfy`, `ExecutorRuns.dfy`, `ExecutorDecisions.dfy` | the execution boundary, interleaved attempts, and when one attempt runs |
| `Runtime.dfy`, `RuntimeRuns.dfy`, `RuntimeResults.dfy`, `RuntimeRecovery.dfy`, `RuntimeDetection.dfy` | `execute` with its five exits, runs of the whole platform, what a result says, what a reinstatement cuts off, and detection carried through every run |

Python dictionaries whose insertion order matters are sequences with unique keys. The MAC is ideal:
a signature verifies exactly when it is over the presented fields and the authority issued them.
SHA-256 and name-based UUIDs are ideal too and stand as what they digest; random identifiers are
fresh or, where freshness is not needed, arbitrary. Times are integers in microseconds. The sandbox,
the content rules, tool resolution and filesystem resource identity are arbitrary outcomes supplied
with the request, content findings under its own session and agent; authorization is an arbitrary decision that is DENY whenever the lifecycle refuses
the agent, which it also does when either plane cannot be read.

## Where the code does less than it says

The model follows the code in each of these, and a lemma shows what it does instead.

- `AgentService.disable_agent` says that it closes issuance on the administrative plane
  (app/services/agent_service.py:220-224). Nothing in the program closes that plane, and disabling
  withdraws no grant (`ContainmentRuns.DisablingLeavesGrants`).
- `EnforcementCoordinator.reinstate` says that retrying it repairs an agent whose gate stayed closed
  (app/services/enforcement_coordinator.py:76-77). The retry is refused with
  `AgentNotSuspendedError`; `repair` is what converges (`ContainmentRuns.PartialReinstatement`).
- `_project_status` says that the displayed status cannot disagree with the decision
  (app/services/agent_service.py:390-394). It can, exactly when the administrative record is missing
  or the agent is both REGISTERED and suspended (`LifecycleAuthorization.StatusAgainstDecision`).
- `repair` zeroes the projection even when evidence was accepted since the baseline
  (app/services/enforcement_coordinator.py:162-170). That is the truth exactly when none was
  (`RiskRuns.RepairResetsTruthfullyIffNothingSince`), and the next finding exposes it otherwise.
- A finding accepted in the same clock tick as the reinstatement before it is after the boundary by
  number and before it by time (`RiskRuns.LaterEvidenceSplitsIffClockMoved`).
- Denials of one agent in two sessions can be charged twice, because earlier crossings are looked up
  by the requesting session (app/services/runtime_service.py:1192-1194). A request does so exactly
  when its crossing is not stored under the last denial's session, and either a crossing of the
  requesting session still has evidence in the window or the window's first three denials are partly
  charged under another session (`Detection.RechargesIff`, at every reachable state
  `DetectionRuns.ReachableRechargesIff`). A run that meets the condition is
  `DetectionRuns.SecondSessionChargesAgain`; with one session it is never met
  (`Detection.OneSessionNeverRecharges`).
- Compare-and-set alone does not make suspensions and reinstatements alternate. They do exactly when
  every write that commits fits the state its writer read
  (`EnforcementRaces.AlternatesIffWritesFit`), which the service lock brings about
  (`AgentLifecycleRuns.EpochFromGeneration`).
- An operation whose resource is named apart from its `path` parameter can be granted and never
  executed (`ExecutorRuns.SeparateResourceNeverRuns`).
- Containment and recovery of one agent are not mutually exclusive: recovery holds the agent's
  coordination lock (app/services/enforcement_coordinator.py:86), containment does not
  (app/services/runtime_service.py:1356-1362). A suspended agent ends with its enforcement plane open
  exactly when neither is over before the other begins
  (`ContainmentOrders.OverlapBreaksContainmentIff`); without overlap it never does
  (`ContainmentRuns.ContainmentHolds`).

## Main results

The results the rest is built for hold over every run, or are exact conditions for all inputs:

- evidence and posture: `RiskRuns.ProjectionEquivalence`, `RiskHealth.AcceptKeepsHealthyIff`,
  `RiskHealth.PromptRunsStayHealthy`, `RiskProjection.PostureIsWeighted`, `RiskRuns.RiskRatchet`,
  `RiskRuns.NoEarlierFindingContributes`, `Findings.BootstrapOrdersEvidence`,
  `RiskReports.ReconstructionAccountsForEvidence`
- ledgers: `EnforcementRaces.SameEpochSameLedger`, `EnforcementRaces.AlternatesIffWritesFit`,
  `AgentLifecycleRuns.EpochFromGeneration`, `AdministrativeRaces.LedgerChain`
- grants: `GrantLedger.ForgettingIsInvisible`, `GrantLedger.ClaimedInTime`,
  `GrantLedger.ClaimedOnceInTime`, `GrantLedger.SuspensionIsFinal`, `Binding.RebuildingKeepsBinding`
- containment: `ContainmentRuns.ContainmentHolds`, `ContainmentOrders.OverlapBreaksContainmentIff`
- sessions and detection: `SessionRuns.PruningIsInvisible`, `SessionRuns.ExpiresIffUntouched`,
  `DetectionLaws.EvaluationChargesRecent`, `DetectionRuns.DenialsChargedOnce`,
  `DetectionRuns.ReachableRechargesIff`
- execution evidence: `EvidenceRuns.RetainedIffAmongLatest`, `EvidenceRuns.RetentionConserves`,
  `Reconciliation.ReconciliationIsExact`, `ExecutorRuns.OneAuthorizedCallPerGrant`,
  `ExecutorDecisions.RunsIffPermitted`, `ExecutorDecisions.ClaimedEndsOnRecord`
- the pipeline: `RuntimeRuns.EveryRequestAgrees`, `RuntimeRuns.AuditsAreResults`,
  `RuntimeRuns.EveryPostureIsTrue`, `RuntimeRuns.NoGrantAfterSuspension`, `RuntimeRuns.RuntimeRatchet`,
  `RuntimeDetection.EveryRequestDetects`, `RuntimeDetection.RunsChargeOnce`,
  `RuntimeDetection.CriticalRequestNeedsTwelveDenials`, `RuntimeRecovery.EveryReinstatementDrawsTheLine`,
  `RuntimeRecovery.EarlierEventsStayOut`, `RuntimeResults.EveryResultSays`

Rows marked "Corollary" state what one call does or what follows at once from a main result.

## Model

| member | source | states |
|---|---|---|
| Findings.FindingsService.RecordFindingLocked | app/services/findings_service.py:97-127 | A stored id keeps its number and recording time; a new one is appended under its agent's next number |
| Findings.ReRecordingKeepsIdentity | app/services/findings_service.py:97-127 | Recording under a stored id again keeps the number and the moment of acceptance, draws no number, and replaces only that finding |
| Findings.FindingsService.RecordNewFindings | app/services/findings_service.py:142-157 | Only findings with unknown ids are recorded, in order, and exactly those are reported |
| Findings.FindingsService.CaptureEvidenceBaselineSequence | app/services/findings_service.py:213-237 | The highest number of the agent recorded by the given moment, 0 if none |
| Findings.CaptureIsHighest | app/services/findings_service.py:213-237 | A capture is the highest number of the agent's findings recorded by the moment, and 0 if there is none |
| Findings.FindingsService.ListFindings | app/services/findings_service.py:159-196 | The findings that pass every filter given (session, agent, severity, category, status, rule, accepted strictly after a moment), in recording order |
| Findings.SelectedExactly | app/services/findings_service.py:159-196 | A listing holds exactly the findings that pass each filter given |
| Findings.FindingsService.ListForAgent | app/services/findings_service.py:159-196 | The two-filter query the runtime makes: the agent's findings, and only of the session if one is given, in recording order |
| Findings.FindingsService.BootstrapSequences | app/services/findings_service.py:47-95 | The two bootstrap loops leave the store the specification describes: assigned numbers kept, the queue numbered above them |
| Findings.BootstrapNumbersQueue | app/services/findings_service.py:58-88 | The k-th unnumbered finding of an agent, in bootstrap order, becomes the highest assigned number plus k + 1 |
| Findings.BootstrapOrdersEvidence | app/services/findings_service.py:47-90 | Assigned numbers stay, new ones are above them, and new numbers follow recording time, creation time and id |
| Findings.BootstrapKeepsDistinct | app/services/findings_service.py:47-90 | If assigned numbers were unique per agent, all numbers are unique per agent afterwards |
| Findings.BootstrapCursor | app/services/findings_service.py:85-90 | The allocator ends at the highest number of the agent |
| Findings.BootstrapIdempotent | app/services/findings_service.py:92-95 | A second bootstrap changes nothing |
| RiskProjection.AgentRiskAggregate.ApplyFinding | app/services/agent_risk_aggregate.py:120-190 | One finding is refused, ignored, applied, or makes the projection STALE, by the cursor, baseline, gap, duplicate and time rules |
| RiskProjection.AgentRiskAggregate.RebuildFromFindings | app/services/agent_risk_aggregate.py:192-253 | The loops over all findings produce the projection of exactly the evidence after the watermark |
| RiskProjection.AgentRiskAggregate.ResetToBaseline | app/services/agent_risk_aggregate.py:255-271 | An empty HEALTHY projection at the watermark |
| RiskProjection.AgentRiskAggregate.RecalculateScoreAndLevel | app/services/agent_risk_aggregate.py:307-313 | Score and level are those of the severity counts |
| RiskProjection.AgentRiskAggregate.Snapshot | app/services/agent_risk_aggregate.py:280-305 | A cursor behind the baseline is reported as an integrity error, never as a posture |
| RiskProjection.TallyCounts | app/services/agent_risk_aggregate.py:223-249 | The counters equal the numbers of active findings per severity, per known rule and in all |
| RiskProjection.TallyScoreIsFindingScore | app/services/risk_service.py:15-17 | The projection's weighted counts equal the session assessment's score of the same active findings |
| RiskProjection.PostureIsWeighted | app/services/agent_risk_aggregate.py:192-313 | A rebuilt posture scores 10, 25, 50 and 100 points for each LOW, MEDIUM, HIGH and CRITICAL finding of the agent that is open or acknowledged and after the boundary by number and time, with levels at 25, 50 and 100 |
| RiskAggregation.RiskAggregator.GetPosture | app/services/risk_aggregator.py:39-59 | UNINITIALIZED without a projection, else its snapshot |
| RiskAggregation.RiskAggregator.IngestFinding | app/services/risk_aggregator.py:61-79 | Only the finding's own agent's projection moves, to what applying it gives or to STALE on an error |
| RiskAggregation.RiskAggregator.ReconcileAgent | app/services/risk_aggregator.py:89-106 | The agent's projection becomes the full rebuild and all others stay |
| RiskAggregation.RiskAggregator.ResetAgentToBaseline | app/services/risk_aggregator.py:108-120 | The agent's projection becomes empty at the watermark and all others stay |
| RiskRuns.ApplyMatchesRebuild | app/services/agent_risk_aggregate.py:120-190 | Applying the newest finding to a rebuilt projection distrusts it or equals the rebuild of the longer log |
| RiskRuns.NewestAppliedIffInOrder | app/services/agent_risk_aggregate.py:137-190 | Applied to a rebuilt projection, the agent's newest finding gives the healthy rebuild of the longer log and True exactly when it is the next number and was accepted after the boundary; otherwise False and STALE |
| RiskRuns.SeenIsIgnored | app/services/agent_risk_aggregate.py:140-147 | Evidence already counted, or excluded by number, changes nothing in any state |
| RiskRuns.ProjectionEquivalence | app/services/agent_risk_aggregate.py:120-253 | After any run a HEALTHY projection is the full rebuild of the whole evidence store at the stored baseline, and no cursor precedes its baseline |
| RiskRuns.StepKeepsSound | app/services/runtime_service.py:1208-1221 | Every acceptance, fault, assessment and reinstatement keeps numbering, baselines and projections sound |
| RiskRuns.EvidenceIsNumberedFromOne | app/services/findings_service.py:97-127 | From an empty store an agent's findings carry exactly 1..n and the cursor stands at n |
| RiskRuns.StaleLeftOnlyByRebuildOrReset | app/services/agent_risk_aggregate.py:192-278 | STALE is left only by a full rebuild or a reinstatement, with exactly their result |
| RiskRuns.RiskRatchet | app/services/agent_risk_aggregate.py:173-190 | Between reinstatements the assessed score and level never decrease, on the incremental or the rebuild path |
| RiskRuns.ReinstatementSplitsEvidence | app/services/findings_service.py:213-237 | A stored finding is at or below the captured number exactly when it was recorded by the baseline moment |
| RiskRuns.CaptureIsAllocator | app/services/enforcement_coordinator.py:86-103 | A capture at the present moment stands exactly at the agent's allocator |
| RiskRuns.NoEarlierFindingContributes | app/services/agent_risk_aggregate.py:212-237 | No finding stored before a reinstatement contributes to any rebuild after it, however the run goes on |
| RiskRuns.LaterEvidenceSplitsIffClockMoved | app/services/agent_risk_aggregate.py:150-170 | For later evidence number and time agree, and the posture stays HEALTHY, exactly when the clock has moved |
| RiskRuns.RepairResetsTruthfullyIffNothingSince | app/services/enforcement_coordinator.py:162-170 | A repair's empty projection equals the rebuild exactly when nothing was accepted since the baseline |
| RiskRuns.RepairIsCaughtByNextFinding | app/services/agent_risk_aggregate.py:160-171 | After a repair that dropped evidence the next finding makes the posture STALE |
| RiskHealth.CursorAtAllocatorIff | app/services/agent_risk_aggregate.py:149-171 | A HEALTHY cursor stands at the agent's allocator exactly unless the latest finding is after the boundary by number and not by time |
| RiskHealth.AcceptKeepsHealthyIff | app/services/runtime_service.py:1208-1221 | A batch accepted without a fault keeps a projection HEALTHY exactly when the agent gained nothing, or the cursor stood at the allocator and the clock is past the boundary; the cursor then moves by what was gained |
| RiskHealth.PromptRunsStayHealthy | app/services/agent_risk_aggregate.py:120-190 | In every run without faults whose clock passes each boundary before evidence is accepted, every projection is HEALTHY, at the allocator, and the full rebuild |
| RiskHealth.UnusableDistrusts | app/services/risk_aggregator.py:61-79 | A finding of another agent or without a number is an error, and an error or a failed call leaves the projection STALE |
| RiskReports.RiskService.Reconstruct | app/services/risk_service.py:118-134 | The grouping loop yields the assessment of each pair's own findings in sorted order |
| RiskReports.AssessmentMeans | app/services/risk_service.py:59-116 | An assessment is refused exactly for foreign findings; else its score is 10, 25, 50 and 100 points by severity of all findings given, whatever their status, with levels at 25, 50 and 100 |
| RiskReports.ReconstructionAccountsForEvidence | app/services/risk_service.py:118-134 | One assessment for each session and agent with findings and none for others, strictly ordered, together accounting for every finding and point once |
| RiskReports.ReconstructionIsSessionAssessment | app/services/risk_service.py:59-116 | Each reconstructed assessment is what assessing that session's findings directly gives |
| EnforcementPlane.InMemoryEnforcementStateRepository.Record | app/repositories/in_memory/enforcement_state_repository.py:45-86 | Compare-and-set on the epoch, then the generation check; a refused write leaves no trace |
| EnforcementPlane.InMemoryEnforcementStateRepository.CountReinstatements | app/repositories/in_memory/enforcement_state_repository.py:102-115 | The counting comprehension counts the agent's reinstatements by the given moment |
| EnforcementRaces.CommitOutcome | app/services/agent_service.py:612-680 | A commit loses exactly when the epoch moved since its read, without a trace, and otherwise appends its one transition |
| EnforcementRaces.RecordAdmits | app/repositories/in_memory/enforcement_state_repository.py:45-86 | Against any writer a write is admitted exactly when it takes the present epoch to the next and keeps or increments the generation; a skipped generation is an error, anything else lost, and neither leaves a trace |
| EnforcementRaces.EpochCountsLedger | app/repositories/in_memory/enforcement_state_repository.py:45-86 | Under any interleaving of reads and writes the epoch is the ledger's length and the generation its number of reinstatements |
| EnforcementRaces.SameEpochSameLedger | app/repositories/in_memory/enforcement_state_repository.py:45-86 | An agent's ledger is append-only, and two moments have the same epoch exactly when no transition came between them |
| EnforcementRaces.GenerationIsEpochQuery | app/services/agent_service.py:569-577 | The timestamped count of reinstatements, now or later, equals the allocated generation |
| EnforcementRaces.AlternatesIffWritesFit | app/services/agent_service.py:612-680 | Under any interleaving an agent's ledger alternates exactly when every write that commits suspends from a clear read or reinstates from a suspended one, and its last transition says whether the agent is suspended |
| EnforcementRaces.RacingWritersNeedNotAlternate | app/services/agent_service.py:471-490 | Corollary: a run whose writes do not fit, and a ledger with two suspensions in a row |
| AgentLifecycleRuns.EpochFromGeneration | app/services/agent_service.py:452-535 | Through one service the ledger alternates, so epoch is twice the generation plus one while suspended, and neither suspending nor reinstating is ever refused for concurrency |
| AgentLifecycleRuns.SuspensionKeepsBoundary | app/services/agent_service.py:452-490 | In every reachable state exactly a known agent, neither disabled nor suspended, is suspended, keeping its boundary and generation; only an unknown agent is an error |
| AgentLifecycleRuns.ReinstatementMovesBoundary | app/services/agent_service.py:492-535 | In every reachable state a reinstatement is refused for the first thing missing, or clears the agent under the next generation at the boundary given, drawn now where none is |
| AgentLifecycleRuns.DisabledNeverSuspended | app/services/agent_service.py:452-490 | Whatever is called on it, a disabled agent's enforcement ledger gains no suspension and at most one entry |
| AgentLifecycle.AgentService.SuspendAgent | app/services/agent_service.py:452-490 | Suspension is idempotent, leaves a DISABLED agent alone, and otherwise commits one transition |
| AgentLifecycle.AgentService.ReinstateAgent | app/services/agent_service.py:492-535 | The four refusals in order, else one reinstatement at the given watermark |
| AgentLifecycle.AgentService.AdministrativeTransition | app/services/agent_service.py:282-341 | A legal move commits by compare-and-set; illegal, unknown and lost ones change nothing |
| AgentLifecycle.AgentService.RegisterAgent | app/services/agent_service.py:121-177 | Record and administrative state commit together or not at all |
| AgentLifecycle.AgentService.RefusalFor | app/services/agent_service.py:366-382 | The refusal code of the two planes' readings, a plane whose repository fails being unavailable |
| AdministrativePlane.InMemoryAdministrativeStateRepository.Record | app/repositories/in_memory/administrative_state_repository.py:50-101 | Compare-and-set on the version with the legality and shape checks; a refused write changes nothing |
| AdministrativePlane.InMemoryAdministrativeStateRepository.Registration | app/repositories/in_memory/administrative_state_repository.py:103-139 | A registration writes agent and state together, and a duplicate is refused |
| AdministrativeRaces.LedgerChain | app/models/agent_administrative.py:80-128 | Under racing writers entries have consecutive versions from 1 and chain state to state, the stored state is their fold, DISABLED is last, the version never exceeds 3, and agent record and state exist together |
| AdministrativeRaces.MovesExactly | app/models/agent_administrative.py:80-128 | In every reachable state the moves that succeed are exactly registration once, REGISTERED to ACTIVE or DISABLED, and ACTIVE to DISABLED; all others are refused without effect |
| AdministrativeRaces.RecordAdmits | app/repositories/in_memory/administrative_state_repository.py:50-101 | Against any writer a write is admitted exactly when it is based on the stored version, takes the next, moves legally and describes that move; each failing is its own answer and leaves no trace |
| LifecycleAuthorization.RefusalIsMostSignificant | app/policy/lifecycle_authorization.py:45-117 | No refusal exactly when known ACTIVE and known not suspended; otherwise the code names the most significant failing condition |
| LifecycleAuthorization.StatusAgainstDecision | app/services/agent_service.py:384-404 | With a record or without on either plane, the displayed status is ACTIVE exactly when nothing refuses, and names the refusing condition exactly unless the administrative record is missing or the agent is REGISTERED and suspended |
| LifecycleAuthorization.StatusCanDisagree | app/services/agent_service.py:384-404 | Corollary: a REGISTERED suspended agent is shown SUSPENDED and refused NOT_ACTIVE |
| Binding.CanonicalizeParameters | app/models/execution_binding.py:39-61 | The loop and sort give the canonical pairs, or the first item's error |
| Binding.SameCanonicalIffSameEntries | app/models/execution_binding.py:39-61 | Two mappings give the same canonical sequence exactly when they have the same entries, in any order |
| Binding.BindingRefusals | app/models/execution_binding.py:83-145 | A binding is made exactly when every entry is well formed, tool and version are named, and the resource does not contradict the path |
| Binding.BindingErrors | app/models/execution_binding.py:39-145 | Each refusal names its own cause: the first entry that is not a named text, then a contradicted resource, then a missing tool identity |
| Binding.AcceptedInOrder | app/models/execution_binding.py:39-145 | Whatever was passed, an accepted binding lists each name once in increasing order, none empty, and its resource is the declared path when there is one |
| Binding.RebuildingKeepsBinding | app/models/execution_binding.py:106-145 | Rebuilding from a binding's own parameters gives the same binding exactly when its resource is absent or came from the path parameter |
| GrantAuthority.ExecutionAuthority.Create | app/runtime/execution_authority.py:146-184 | A time-to-live that is not positive or above thirty seconds is refused |
| GrantAuthority.ExecutionAuthority.IssueGrant | app/runtime/execution_authority.py:195-298 | A grant only for ALLOW, with no plane closed and the expected epoch current; otherwise nothing changes |
| GrantAuthority.ExecutionAuthority.VerifyGrant | app/runtime/execution_authority.py:405-424 | Authenticity first, then the verdict on the pruned state; the grant is not spent |
| GrantAuthority.ExecutionAuthority.ClaimGrant | app/runtime/execution_authority.py:426-454 | The same verdict, and an accepted grant is removed in the same step |
| GrantAuthority.ExecutionAuthority.PruneExpired | app/runtime/execution_authority.py:634-649 | Exactly the expired entries of both tables are forgotten |
| GrantAuthority.ExecutionAuthority.Suspend | app/runtime/execution_authority.py:483-513 | The plane is closed and exactly the agent's outstanding grants are revoked, with their number |
| GrantAuthority.ExecutionAuthority.Resume | app/runtime/execution_authority.py:515-538 | Exactly the named plane is reopened |
| GrantLedger.ForgettingIsInvisible | app/runtime/execution_authority.py:354-454 | Every reply of any run equals that of a ledger that never forgets, and what is remembered is its unexpired part |
| GrantLedger.GenuineGrantAnswers | app/runtime/execution_authority.py:354-403 | Corollary: a genuine grant is EXPIRED exactly past its time, else REVOKED exactly if withdrawn, else CONSUMED exactly if used, else accepted exactly for its own binding |
| GrantLedger.OnlyGenuineAccepted | app/runtime/execution_authority.py:300-352 | Corollary: only a grant this authority issued, unchanged, for its own binding is ever accepted |
| GrantLedger.RefusalsNameCause | app/runtime/execution_authority.py:300-352 | Missing, malformed, foreign and altered grants, and mismatches in tool, resource and parameters, are refused exactly as what they are |
| GrantLedger.ClaimedInTime | app/runtime/execution_authority.py:426-454 | Every accepted claim of a run, be it the only one, is of a genuine live grant, for its own binding, and within its time-to-live, itself at most thirty seconds |
| GrantLedger.ClaimedOnceInTime | app/runtime/execution_authority.py:426-454 | Two accepted claims of a run are of different grants, each of them within its time-to-live and for its own binding |
| GrantLedger.SuspensionIsFinal | app/runtime/execution_authority.py:483-513 | A grant issued before a suspension of its agent is never accepted after it, whatever is reopened |
| GrantLedger.ClosedPlanesHold | app/runtime/execution_authority.py:223-225 | With any plane closed the agent has no outstanding grant and gets none; reopening one plane leaves the other |
| GrantLedger.RevocationCount | app/runtime/execution_authority.py:483-513 | The reported number is at least the agent's unexpired live grants and at most all its live ones |
| EnforcementCoordination.EnforcementCoordinator.ReinstateAgent | app/services/enforcement_coordinator.py:69-143 | The recovery steps in order, stopping at the first failure with the earlier ones done |
| EnforcementCoordination.EnforcementCoordinator.RepairAgent | app/services/enforcement_coordinator.py:145-177 | The repair steps in order, refused for unknown and for suspended agents |
| ContainmentRuns.ContainmentHolds | app/services/runtime_service.py:737-752 | In every reachable state, with failures after any step, a suspended agent's enforcement plane is closed, and an agent with a closed plane holds and gets no grant |
| ContainmentRuns.ContainmentEndsGrants | app/services/runtime_service.py:737-752 | A grant held when containment begins is never claimable again, through any recovery that follows |
| ContainmentOrders.OverlapBreaksContainmentIff | app/services/enforcement_coordinator.py:86-139 | One containment and one recovery of a suspended agent in any of their six orders, any other steps of any agent between: it ends suspended with its plane open exactly when neither is over before the other begins, and each half is decided by its last call |
| ContainmentOrders.LastCallsDecide | app/services/runtime_service.py:737-752 | However many containments and recoveries are mixed, the last suspension or clearance decides whether the agent is suspended and the last closing or reopening whether its plane is open |
| ContainmentOrders.OverlapIsReachable | app/services/enforcement_coordinator.py:86-139 | From the empty platform a registered agent ends suspended with its plane open |
| ContainmentRuns.ReopenTouchesOnePlane | app/runtime/execution_authority.py:515-538 | Corollary: recovery opens the agent's enforcement plane and no other plane of any agent |
| ContainmentRuns.RepairConverges | app/services/enforcement_coordinator.py:145-177 | Repair reopens exactly for a known agent that is not suspended, and succeeds exactly when the other plane is open too |
| ContainmentRuns.PartialReinstatement | app/services/enforcement_coordinator.py:105-143 | Corollary: after a failure in the second half, retrying is refused without effect and repair reopens |
| ContainmentRuns.SuccessfulReinstatement | app/services/enforcement_coordinator.py:105-143 | Corollary: success means containment cleared at the captured boundary, one generation on, posture emptied, exactly the enforcement plane opened |
| ContainmentRuns.OverlapLeavesPlaneOpen | app/services/enforcement_coordinator.py:115-139 | Corollary: one such order on any stores |
| ContainmentRuns.DisablingLeavesGrants | app/services/agent_service.py:206-234 | Corollary: once disabled an agent is refused as AGENT_DISABLED, while every claim of a grant it already holds is answered as before |
| ContainmentRuns.OvertakenSnapshotGetsNoGrant | app/runtime/execution_authority.py:226-252 | With racing enforcement writers, a request holding an earlier snapshot is granted exactly when no transition of its agent came in between and no plane is closed |
| SessionStore.InMemorySessionRepository.BindOrCreateSession | app/repositories/in_memory/session_repository.py:81-111 | Terminal ids and other agents' sessions are refused, else the session is owned by the agent |
| SessionStore.InMemorySessionRepository.RecordEvent | app/repositories/in_memory/session_repository.py:136-186 | The refusals in order, else the next position in both namespaces and one event appended |
| SessionStore.InMemorySessionRepository.ListEligibleEvents | app/repositories/in_memory/session_repository.py:188-215 | The matching events sorted by the scope's own sequence |
| SessionStore.InMemorySessionRepository.PruneEvents | app/repositories/in_memory/session_repository.py:229-233 | Exactly the events before the cutoff go, nothing else changes, and their number is returned |
| SessionStore.InMemorySessionRepository.UpdateEventFinalDecision | app/repositories/in_memory/session_repository.py:245-275 | A final decision is set once, repeated idempotently, and never replaced by another |
| SessionServices.SessionService.EndSession | app/services/session_service.py:135-175 | Ending is idempotent for the owner and refused for anyone else |
| SessionServices.SessionService.ExpireIdleSessions | app/services/session_service.py:177-203 | Exactly the idle active sessions get their owner's tombstone |
| SessionRuns.SessionHistory | app/repositories/in_memory/session_repository.py:66-186 | Over any run ownership is final, termination is final, events belong to their owner, positions never repeat or go back, a final decision never changes |
| SessionRuns.EligibleExactly | app/repositories/in_memory/session_repository.py:188-215 | A query answers with exactly the agent's stored events after its boundary, in its window, and in its session if it names one |
| SessionRuns.BindingAnswers | app/repositories/in_memory/session_repository.py:81-111 | Terminated ids and other agents' sessions are refused as such without effect; else the session is the agent's, active now |
| SessionRuns.RecordingAnswers | app/repositories/in_memory/session_repository.py:136-186 | The four refusals exactly, without effect; else the next number in both namespaces, one event appended, activity at its moment |
| SessionRuns.FinalizingAnswers | app/repositories/in_memory/session_repository.py:245-275 | In a sound store the one event named gets the decision; another decision, an ended and an absent session are refused without effect |
| SessionRuns.EndingAnswers | app/services/session_service.py:135-175 | Only the owner ends a session, ending again is a success whatever ended it, and a terminal reason is never replaced |
| SessionRuns.ExpiresIffUntouched | app/services/session_service.py:177-203 | After any run a session expires exactly when it is active and was last created, bound or recorded in the threshold ago or longer; it ends under its owner and no other changes |
| SessionRuns.EligibleInRecordOrder | app/repositories/in_memory/session_repository.py:188-215 | The declared order of a query's answer is the order of recording |
| SessionRuns.NoEarlierEventEligible | app/repositories/in_memory/session_repository.py:193-205 | A query at a boundary taken from the allocator never returns an event recorded before it, however the run goes on |
| SessionRuns.PruningIsInvisible | app/services/session_service.py:213-228 | A query within the retention window and no older than the latest pruning less the grace gets the same list as from a store that never pruned |
| SessionRuns.PruningVisibleFurtherBack | app/models/detection_retention.py:37-40 | For any query reaching further back there is a run where the answers differ |
| Detection.IdNamesCrossing | app/services/detection_service.py:22-57 | Within one session and agent two crossing ids are equal exactly when evidence and generation are |
| Detection.IdNamesEverything | app/services/detection_service.py:22-57 | Between sessions and agents whose names hold no separator two crossing ids are equal exactly when session, agent, evidence and generation are |
| Detection.DetectionService.Create | app/services/detection_service.py:63-70 | A window that is not positive is refused |
| Detection.DetectionService.DetectExcessiveDenials | app/services/detection_service.py:89-163 | The grouping and reporting loops report what the specification reports |
| Detection.DetectionService.CrossingEvidenceFor | app/services/detection_service.py:165-207 | Evidence of the first earlier crossing still in the window, else the window's first three denials |
| Detection.DetectOneAgent | app/services/detection_service.py:89-163 | Over one agent's evidence one crossing is reported exactly when the window holds three denials, and otherwise none |
| Detection.OneCrossingPerAgent | app/services/detection_service.py:89-163 | Over anyone's events one crossing is reported for each agent with three denials in the window or more, and none for any other |
| Detection.RechargesIff | app/services/runtime_service.py:1189-1196 | A crossing is newly stored and shares evidence with one charged in its lifecycle exactly when it is not stored under the last denial's session, and the requesting session's own crossing still has evidence in the window or the first three denials are partly charged under another session |
| Detection.OneSessionNeverRecharges | app/services/runtime_service.py:1189-1196 | Corollary: for an agent of one session the reported crossing is stored already or shares no charged evidence |
| DetectionRuns.DenialsChargedOnce | app/services/detection_service.py:105-207 | For an agent in one session every crossing names three recorded denials, no denial is named twice within or across generations, and so there are three denials to a finding |
| DetectionRuns.CriticalNeedsTwelveDenials | app/services/risk_service.py:7-28 | Without content findings every 25 points of assessed posture cost three denials since the last reinstatement, and CRITICAL costs twelve |
| DetectionRuns.ReachableRechargesIff | app/services/runtime_service.py:1140-1200 | The same equivalence at every reachable state and every request after it, for names that hold no separator |
| DetectionRuns.SecondSessionChargesAgain | app/services/runtime_service.py:1192-1194 | A run of the stores: three denials in one session are charged, and a fourth in a second session charges the same three again under a new id |
| DetectionLaws.DetectedExactly | app/services/detection_service.py:89-207 | Fewer than three recent denials report nothing; three or more report one OPEN MEDIUM crossing of the lifecycle, naming the first open prior's evidence or else their first three |
| DetectionLaws.EvaluationChargesRecent | app/services/runtime_service.py:1150-1221 | Read off the stored events: after an evaluation three recent denials are charged, newly with their first three if none was before, fewer charge nothing, and never two crossings at once |
| ExecutionEvidence.ExecutionEvidenceService.RecordStarted | app/services/execution_evidence_service.py:147-201 | Duplicates of either id are refused and counted, invalid receipts refused, else one open receipt and its index entries |
| ExecutionEvidence.ExecutionEvidenceService.RecordTerminalReceipt | app/services/execution_evidence_service.py:203-256 | Only an open receipt ends, only with an executor status, and retention is applied |
| ExecutionEvidence.ExecutionEvidenceService.RecordReconciledReceipt | app/services/execution_evidence_service.py:258-300 | Only an open receipt becomes UNKNOWN, it is counted, and retention is applied |
| ExecutionEvidence.ExecutionEvidenceService.PruneTerminalLocked | app/services/execution_evidence_service.py:119-145 | The loop takes exactly the oldest excess out of the receipts and both indexes |
| EvidenceRuns.RetentionConserves | app/services/execution_evidence_service.py:119-145 | Every open receipt is kept, only ended ones go, the grant index is the exact inverse, starts exist for open receipts only, opened is open plus retained plus evicted |
| EvidenceRuns.RetainedIffAmongLatest | app/services/execution_evidence_service.py:119-145 | A receipt that ever ended is still stored exactly when fewer than the bound of all ended ones started after it |
| EvidenceRuns.HistoryIsFinal | app/services/execution_evidence_service.py:221-256 | Identities never change and an ended receipt never changes again, over any run |
| EvidenceRuns.StepExtends | app/services/execution_evidence_service.py:258-300 | Corollary: UNKNOWN is reached only by a reconciliation of that receipt |
| EvidenceRuns.UnknownsCounted | app/services/execution_evidence_service.py:108-117 | The counter equals the receipts that ever became UNKNOWN, evicted or not |
| EvidenceRuns.OpeningAdmits | app/services/execution_evidence_service.py:147-201 | A receipt is stored exactly if neither its id nor its grant is and it is complete; duplicates are counted; its start is remembered as given |
| EvidenceRuns.EndingAdmits | app/services/execution_evidence_service.py:203-256 | A stored STARTED receipt takes exactly the four outcomes an executor reports, if well formed; every other call is refused as what it is without effect |
| Reconciliation.ExecutionReconciler.ReconcileUnresolved | app/services/execution_reconciler.py:139-186 | The loop reconciles each snapshot receipt against the store as it is by then |
| Reconciliation.ExecutionReconciler.ReconcileOnStartup | app/services/execution_reconciler.py:122-137 | The same for every open receipt at startup |
| Reconciliation.ReconciliationIsExact | app/services/execution_reconciler.py:81-186 | After any run, at startup every STARTED receipt becomes UNKNOWN, periodically exactly those without a start and those whose start, declared timeout and grace are past, each for its own reason; all others stay, those turned are returned in order, and retention holds for the result |
| Reconciliation.ReconcileOneIsAStep | app/services/execution_reconciler.py:81-120 | Corollary: each call is one store step, and a receipt that ended meanwhile is left alone and not returned |
| Executor.DefaultToolExecutor.Execute | app/runtime/tool_executor.py:168-264 | The production path is the six steps of an attempt in order, with every refusal at its place |
| Executor.DefaultToolExecutor.VerifyAndPrepare | app/runtime/tool_executor.py:297-426 | Verification, context, sandbox, profile and digest checks, and only then the claim |
| Executor.DefaultToolExecutor.RunClaimed | app/runtime/tool_executor.py:551-792 | Refusals before evidence, STARTED evidence, the call, terminal evidence, and the result they imply |
| ExecutorRuns.OneAuthorizedCallPerGrant | app/runtime/tool_executor.py:297-396 | Under any interleaving no grant reaches the sandbox twice, and every call follows a successful claim for this operation, an agreeing context, the registered profile the grant is bound to by name and digest, the enabled, instantiable descriptor registered for exactly the grant's tool and version, and a STARTED receipt of the grant's identity |
| ExecutorRuns.RefusalBeforeClaimSpendsNothing | app/runtime/tool_executor.py:374-394 | An attempt refused before its claim leaves the answer to any later claim of any grant as it was |
| ExecutorRuns.SuccessIsOnRecord | app/runtime/tool_executor.py:718-746 | Corollary: output is returned exactly when the sandbox succeeded and the store took the SUCCEEDED outcome of this attempt's receipt |
| ExecutorRuns.SeparateResourceNeverRuns | app/runtime/tool_executor.py:336-353 | Every grant that runs names the resource its path parameter names, or none |
| ExecutorDecisions.RunsIffPermitted | app/runtime/tool_executor.py:168-426 | An undisturbed attempt reaches the sandbox exactly when tool, grant, operation, context, profile, implementation and receipt all permit it, with exactly one call of the registered implementation; else it is refused and calls nothing |
| ExecutorDecisions.ClaimedEndsOnRecord | app/runtime/tool_executor.py:551-792 | A run attempt tells the caller what happened and whether it is on record, and its receipt says whose grant ran what, under which limit, when and how it ended; an outcome that cannot be recorded leaves it STARTED |
| ExecutorDecisions.UnavailableToolRefused | app/runtime/tool_executor.py:199-251 | Corollary: an unregistered version and a disabled tool are refused as that before the grant is looked at, with authority, store, ledger and calls unchanged |
| Runtime.RuntimeService.ExecuteRequest | app/services/runtime_service.py:839-1420 | The whole pipeline, every store it touches and every exit, equals the specification |
| Runtime.RuntimeService.AssessAgentPosture | app/services/runtime_service.py:762-837 | A HEALTHY posture as cached, an inconsistent one refused, else the rebuild at the stored baseline |
| Runtime.RuntimeService.AuthorizeExecution | app/services/runtime_service.py:1290-1348 | The binding and capability gates and issuance, and the decision they leave |
| Runtime.RuntimeService.RecordEvidence | app/services/runtime_service.py:1198-1221 | Accepted evidence stands; each failed projection leaves the request's agent STALE |
| Runtime.RuntimeService.SuspendAgent | app/services/runtime_service.py:719-756 | Issuance closed before the transition; an unregistered agent is tolerated |
| RuntimeRuns.PipelineAgreement | app/services/runtime_service.py:405-717 | Whichever of the five exits, one audit record agrees with the result event's final decision, the stored event is the reported one, only the binding refusal records none and changes nothing else, and a grant comes exactly with a final ALLOW |
| RuntimeRuns.GrantExactlyWhen | app/services/runtime_service.py:1275-1348 | A grant comes exactly when session, detection, evidence, binding, profile, lifecycle, policy and planes permit it and the posture is below HIGH, and it is for this agent, session and operation; approval is required exactly by policy or by a HIGH posture over an ALLOW |
| RuntimeRuns.AuthorizeExactly | app/services/runtime_service.py:1290-1348 | With any snapshot a grant comes exactly for an ALLOW of a bound operation with a profile, no plane closed and a current epoch; an ALLOW without one becomes DENY and every other decision stands |
| RuntimeRuns.EvidenceIsDurable | app/services/runtime_service.py:1197-1240 | Unless refused earlier, everything the content rules found is stored before the request concludes, and the result reports exactly what the store gained |
| RuntimeRuns.CriticalPostureContains | app/services/runtime_service.py:1352-1362 | A request decided by a CRITICAL posture leaves no grant outstanding, issuance closed, and a registered agent suspended unless disabled |
| RuntimeRuns.EveryRequestAgrees | app/services/runtime_service.py:839-1420 | From the empty platform, after any run with repairs and failing reinstatements, every request meets PipelineAgreement, GrantExactlyWhen, EvidenceIsDurable and CriticalPostureContains |
| RuntimeRuns.AuditsAreResults | app/services/runtime_service.py:1364-1391 | Over any run from the empty platform the audit log is the requests' final decisions in order, one record a request and none for anything else |
| RuntimeRuns.EveryPostureIsTrue | app/services/runtime_service.py:1258-1273 | In every run from the empty platform that resets projections only to the truth, the posture a request is decided by is the full rebuild of its agent's evidence |
| RuntimeRuns.NoGrantAfterSuspension | app/services/runtime_service.py:1352-1362 | After a SUSPEND_AGENT response, itself without a grant, no request of the agent returns one until it is reinstated, repaired or not if it was registered at the time, and unless repaired if it was registered only later |
| RuntimeRuns.RuntimeRatchet | app/services/runtime_service.py:1258-1273 | Between reinstatements successive requests are decided by a score and level that never decrease, whatever runs in between, as long as projections are reset only to the truth |
| RuntimeRuns.AssessSound | app/services/runtime_service.py:762-837 | The posture a request acts on is the full rebuild of the evidence, by either path |
| RuntimeResults.EveryResultSays | app/services/runtime_service.py:839-1420 | In any state the decision is the policy's exactly for a coherent operation of an agent that may execute, each refusal is reported for the first cause, and a result without one carries posture and matching response; only a SUSPEND_AGENT response suspends or closes, and only for its agent |
| RuntimeResults.AssessAnswers | app/services/runtime_service.py:762-837 | A broken projection is refused and kept, a HEALTHY one taken as cached, otherwise the rebuild at the stored boundary is taken and kept, unless reconciliation fails |
| RuntimeRecovery.EveryReinstatementDrawsTheLine | app/services/enforcement_coordinator.py:86-139 | In every run a reinstatement asked for properly stores the agent's last finding number, last event number and the moment as its boundary, under the next generation, with an empty projection there and the plane open unless a step fails; else nothing changes |
| RuntimeRecovery.EarlierEventsStayOut | app/services/enforcement_coordinator.py:103-113 | After a reinstatement in any run, however it goes on, a query at the stored boundary answers only with events recorded after it |
| RuntimeDetection.EveryRequestDetects | app/services/runtime_service.py:1150-1221 | In every run a request past its early refusals leaves three recent denials of its agent, counted in the stored events themselves, charged in the present generation, newly with their first three if none was; fewer charge nothing; the result reports exactly what the evidence gained |
| RuntimeDetection.RunsChargeOnce | app/services/detection_service.py:105-207 | Over every run of the platform an agent of one session has no denial charged twice and three stored denials to a finding |
| RuntimeDetection.CriticalRequestNeedsTwelveDenials | app/services/risk_service.py:7-28 | Without content findings every 25 points a request is decided by cost three denials stored since the last reinstatement, and CRITICAL costs twelve |

## Left out

- HTTP routers, authentication, settings, the SQL adapters, telemetry, logging and the process sandbox: outside the decision, or foreign processes.
- `FindingsService.record_finding` as a public call: it may overwrite stored evidence, and the runtime only records new findings.
- `save_session` and the `clear` methods: raw writes that void every run invariant.
- Risk assessments inside a request's result, reasons, timestamps of assessment and other descriptive fields: reported, never decided on.
- Text-matching rules, tool registry, approvals and the scenario runner: not on the path modelled, or easy members.
- Object identity of returned records: records are values, so deep copies have nothing to protect.
- `execute_descriptor` and `execute_tool`: internal primitives beside the production path.
- SessionServices.SessionService.ExpireIdleSessions: the expired ids are a set; the order of the returned list is not modelled.
- GrantLedger.ForgettingIsInvisible: the number a suspension reports is left out of the replies compared, because it counts grants not yet pruned; GrantLedger.RevocationCount bounds it.
- DetectionRuns.DenialsChargedOnce: evaluations of one agent do not overlap, so recording, querying, detecting and storing are one step.
- ContainmentRuns.ContainmentHolds: containment and recovery of one agent do not overlap, which the code does not enforce; ContainmentOrders.OverlapBreaksContainmentIff is the exact result without that assumption.
- RuntimeRuns.RuntimeRatchet: excludes a reinstatement whose projection reset fails, which leaves the posture of the older boundary, and a repair after evidence was accepted, which RiskRuns.RepairResetsTruthfullyIffNothingSince shows to lose it; RuntimeRuns.EveryPostureIsTrue excludes the same.
- RuntimeRuns.PipelineAgreement: a request is one step, so a session cannot end in the middle of it; if it did, finalizing its event would raise.
- Detection.IdNamesEverything: names that contain the separator are left out, because then different sessions and agents can spell the same identifier; DetectionRuns.ReachableRechargesIff, DetectionLaws.EvaluationChargesRecent and RuntimeDetection.EveryRequestDetects assume separator-free names and content rules that do not imitate crossings.
- EvidenceRuns.RetentionConserves: an identifier whose receipt was evicted is not used again.
