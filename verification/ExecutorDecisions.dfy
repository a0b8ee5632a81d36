/** When an attempt runs: app/runtime/tool_executor.py:168-426 and 551-792 for one attempt that
    nothing else comes between, as an exact condition on the wiring, the request, the grants on
    record and the receipts stored. */
module ExecutorDecisions {
  import opened Prelude
  import opened Binding
  import opened GrantAuthority
  import opened ExecutionEvidence
  import opened Executor
  import opened ExecutorRuns
  import L = GrantLedger

  /** The grant presented is genuine, in time, neither used nor withdrawn, and for the operation
      that the registered descriptor would perform with these parameters. */
  ghost predicate Authorized(wiring: Wiring, l: L.Ledger, at: Attempt, now: Time) {
    && at.presented.Some? && wiring.authority && wiring.tools.Some?
    && var g := at.presented.value.0;
       var named := (g.binding.toolId, g.binding.toolVersion);
       && named in wiring.tools.value && wiring.tools.value[named].enabled
       && FromOperation(wiring.tools.value[named].toolId, wiring.tools.value[named].version, at.parameters, None) == Ok(g.binding)
       && L.Genuine(l, TokenOf(at)) && g.id !in l.used && g.id !in l.withdrawn && now < g.issuedAt + l.ttl
  }

  /** The caller's context agrees and the grant's capability profile is the registered one. */
  ghost predicate Supported(wiring: Wiring, at: Attempt) {
    && at.presented.Some? && SpeaksFor(at.context, at.presented.value.0)
    && wiring.sandbox && wiring.profiles.Some?
    && var g := at.presented.value.0;
       && g.profileId.Some? && g.profileId.value != "" && g.profileId.value in wiring.profiles.value
       && Confined(wiring, g, wiring.profiles.value[g.profileId.value])
  }

  /** Everything the receipt names is named. */
  predicate Attributable(at: Attempt, g: Grant) {
    && g.agentId != "" && g.sessionId != "" && g.binding.toolId != "" && g.binding.toolVersion != ""
    && (if at.context.Some? then at.context.value.requestId else at.correlation) != ""
  }

  /** The store takes a receipt for this attempt: neither of its identifiers is stored, and the
      profile's limit and digest are well formed. */
  ghost predicate Recordable(s: Store, at: Attempt, g: Grant, c: Capabilities) {
    && (forall r :: r in s.receipts ==> r.receiptId != at.receiptId) && g.id !in s.grantToReceipt
    && at.receiptId != "" && c.timeout > 0 && c.digest != ""
  }

  /** What an attempt needs to reach the sandbox. */
  ghost predicate Permitted(wiring: Wiring, l: L.Ledger, s: Store, at: Attempt, now: Time) {
    && Authorized(wiring, l, at, now) && Supported(wiring, at)
    && var g := at.presented.value.0;
       var d := wiring.tools.value[(g.binding.toolId, g.binding.toolVersion)];
       && d.instantiable && d.implementationId != "" && Attributable(at, g)
       && (wiring.evidence ==> Recordable(s, at, g, wiring.profiles.value[g.profileId.value]))
  }

  // ---- up to the claim -------------------------------------------------------------------------------

  lemma VerifyAnswers(a: Authority, l: L.Ledger, clock: Time, token: Token, requested: ExecutionBinding, now: Time)
    requires L.Tracks(a, l, clock) && clock <= now
    ensures var (b, refusal) := Verify(a, token, requested, now);
            && L.Tracks(b, l, now)
            && (refusal.None? <==> && L.Genuine(l, token) && requested == token.grant.binding
                                   && token.grant.id !in l.used && token.grant.id !in l.withdrawn
                                   && now < token.grant.issuedAt + l.ttl)
  {
    L.StepTracks(a, l, clock, L.Check(token, requested), now);
    AnswerMeans(l, clock, token, requested, now);
  }

  lemma ClaimAnswers(a: Authority, l: L.Ledger, clock: Time, token: Token, requested: ExecutionBinding, now: Time)
    requires L.Tracks(a, l, clock) && clock <= now
    ensures Claim(a, token, requested, now).1.None?
            <==> && L.Genuine(l, token) && requested == token.grant.binding
                 && token.grant.id !in l.used && token.grant.id !in l.withdrawn
                 && now < token.grant.issuedAt + l.ttl
  {
    L.StepTracks(a, l, clock, L.Take(token, requested), now);
    AnswerMeans(l, clock, token, requested, now);
  }

  lemma AnswerMeans(l: L.Ledger, clock: Time, token: Token, requested: ExecutionBinding, now: Time)
    requires L.LedgerSound(l, clock)
    ensures L.Answer(l, token, requested, now).None?
            <==> && L.Genuine(l, token) && requested == token.grant.binding
                 && token.grant.id !in l.used && token.grant.id !in l.withdrawn
                 && now < token.grant.issuedAt + l.ttl
  {
    if L.Answer(l, token, requested, now).None? {
      L.OnlyGenuineAccepted(l, token, requested, now);
    }
    if L.Genuine(l, token) {
      L.GenuineGrantAnswers(l, clock, token, requested, now);
    }
  }

  lemma SupportedIff(wiring: Wiring, at: Attempt)
    requires at.presented.Some?
    ensures CapabilitiesFor(wiring, at, at.presented.value.0).Ok? <==> Supported(wiring, at)
    ensures Supported(wiring, at) ==>
              CapabilitiesFor(wiring, at, at.presented.value.0) == Ok(wiring.profiles.value[at.presented.value.0.profileId.value])
  {
  }

  /** An attempt claims its grant exactly when it is authorized and supported. */
  lemma ClaimsIff(wiring: Wiring, bound: nat, at: Attempt, s: Shared, l: L.Ledger, clock: Time, ms: Moments)
    requires L.Tracks(s.authority, l, clock) && clock <= ms.0.now <= ms.2.now
    ensures var (phase, t) := Thrice(wiring, bound, at, Waiting, s, ms);
            && t.store == s.store && t.calls == s.calls && (phase.Claimed? || (phase.Finished? && phase.result.Refused?))
            && (phase.Claimed? <==> Authorized(wiring, l, at, ms.2.now) && Supported(wiring, at))
            && (phase.Claimed? ==>
                  var g := at.presented.value.0;
                  phase == Claimed(wiring.tools.value[(g.binding.toolId, g.binding.toolVersion)], g.binding,
                                   wiring.profiles.value[g.profileId.value]))
  {
    hide Verify, Claim, FromOperation, L.Tracks, L.Genuine, CapabilitiesFor, Supported;
    var d := Resolve(wiring, at);
    if d.Ok? {
      SupportedIff(wiring, at);
      var requested := RequestedBinding(wiring, at, d.value);
      if requested.Ok? {
        VerifyAnswers(s.authority, l, clock, TokenOf(at), requested.value, ms.0.now);
        ClaimAnswers(Verify(s.authority, TokenOf(at), requested.value, ms.0.now).0, l, ms.0.now, TokenOf(at), requested.value, ms.2.now);
      }
    }
  }

  // ---- from the claim on -----------------------------------------------------------------------------

  lemma OpensIff(s: Store, d: Descriptor, at: Attempt, g: Grant, c: Capabilities, startedAt: Time, start: Time)
    requires Attributable(at, g) && d.implementationId != "" && d.toolId == g.binding.toolId
    requires g.profileId == Some(c.profileId) && g.digest == Some(c.digest) && c.profileId != ""
    ensures Open(s, ReceiptFor(d, at, g, c, startedAt), Some(start)).1.Ok? <==> Recordable(s, at, g, c)
  {
    var k := Find(s.receipts, at.receiptId);
    if k < |s.receipts| {
      assert s.receipts[k] in s.receipts;
    }
  }

  /** The implementation a descriptor names can be run and the receipt attributed. */
  lemma ReadyIff(d: Descriptor, at: Attempt, g: Grant)
    ensures Unready(d, at, g).None? <==> d.instantiable && d.implementationId != "" && Attributable(at, g)
  {
  }

  /** A claimed attempt reaches the sandbox exactly when it is ready and its receipt is taken. */
  lemma ClaimedRunsIff(wiring: Wiring, bound: nat, at: Attempt, s: Shared, d: Descriptor, c: Capabilities, ms: Moments)
    requires at.presented.Some? && d.toolId == at.presented.value.0.binding.toolId
    requires at.presented.value.0.profileId == Some(c.profileId) && at.presented.value.0.digest == Some(c.digest)
    requires c.profileId != ""
    ensures var g := at.presented.value.0;
            var (done, t) := Thrice(wiring, bound, at, Claimed(d, g.binding, c), s, ms);
            var runs := d.instantiable && d.implementationId != "" && Attributable(at, g)
                        && (wiring.evidence ==> Recordable(s.store, at, g, c));
            && done.Finished? && (done.result.Refused? <==> !runs)
            && (runs ==>
                  && |t.calls| == |s.calls| + 1 && t.calls[..|s.calls|] == s.calls
                  && var call := t.calls[|s.calls|];
                     && call.grant == g && call.requested == g.binding && call.capabilities == c
                     && call.implementationId == d.implementationId)
            && (!runs ==> t.calls == s.calls)
            && (runs && ms.1.outcome.Returned? && !wiring.evidence ==> done.result == Output(ms.1.outcome.output))
  {
    hide Open, RecordTerminal, ReceiptFor, Unready, Recordable, Attributable;
    var g := at.presented.value.0;
    ReadyIff(d, at, g);
    if d.instantiable && d.implementationId != "" && Attributable(at, g) {
      OpensIff(s.store, d, at, g, c, ms.0.now, ms.0.monotonic);
    }
  }

  /** What the caller is told, given whether the outcome is on record. */
  predicate Reports(outcome: SandboxOutcome, recorded: bool, result: ExecutionResult) {
    match outcome
    case Returned(output) => result == if recorded then Output(output) else NotEstablished
    case Raised(kind) => result == Failed(kind, !recorded)
    case Unsuccessful(kind) => result == Failed(kind, !recorded)
  }

  /** What the receipt says once the outcome is on record: whose grant ran what, under which profile
      and limit, when, and how it ended. */
  predicate Tells(r: Receipt, at: Attempt, g: Grant, d: Descriptor, c: Capabilities, ms: Moments) {
    && r.grantId == g.id && r.declaredTimeout == c.timeout && r.startedAt == ms.0.now
    && r.provenance == Provenance(g.sessionId, g.agentId, if at.context.Some? then at.context.value.requestId else at.correlation,
                                  g.binding.toolId, g.binding.toolVersion, d.implementationId, g.binding, c.profileId, c.digest)
    && r.outcome.Observed? && r.outcome.completedAt == ms.2.now && r.outcome.duration == ms.2.duration
    && match ms.1.outcome
       case Returned(output) =>
         r.status == SUCCEEDED && r.outcome.outputDigest == output && r.outcome.errorType.None? && r.outcome.errorCode.None?
       case Raised(kind) => Fails(r, kind)
       case Unsuccessful(kind) => Fails(r, kind)
  }

  predicate Fails(r: Receipt, kind: ErrorKind)
    requires r.outcome.Observed?
  {
    && r.outcome.outputDigest.None? && r.outcome.errorType == r.outcome.errorCode
    && match kind
       case TimedOut => r.status == TIMEOUT && r.outcome.errorCode == Some("EXECUTION_TIMEOUT")
       case Interrupted => r.status == INTERRUPTED && r.outcome.errorCode == Some("EXECUTION_INTERRUPTED")
       case Exhausted => r.status == FAILED && r.outcome.errorCode == Some("RESOURCE_EXHAUSTED")
       case Isolated => r.status == FAILED && r.outcome.errorCode == Some("ISOLATION_FAILURE")
       case OtherError => r.status == FAILED && r.outcome.errorCode == Some("TOOL_EXECUTION_ERROR")
  }

  lemma TerminalTells(s: Store, bound: nat, d: Descriptor, at: Attempt, g: Grant, c: Capabilities, ms: Moments)
    requires Recordable(s, at, g, c) && Attributable(at, g) && d.implementationId != "" && d.toolId == g.binding.toolId
    requires g.profileId == Some(c.profileId) && g.digest == Some(c.digest) && c.profileId != ""
    ensures var (t, taken) := Open(s, ReceiptFor(d, at, g, c, ms.0.now), Some(ms.0.monotonic));
            var (u, r) := RecordTerminal(t, bound, at.receiptId, StatusOf(ms.1.outcome),
                                         ObservedOf(ms.1.outcome, ms.2.now, ms.2.duration));
            && taken.Ok? && t.monotonicStarts == s.monotonicStarts[at.receiptId := ms.0.monotonic]
            && (r.Ok? <==> ms.2.duration >= 0)
            && forall e :: e in u.receipts && e.receiptId == at.receiptId ==>
                 if ms.2.duration >= 0 then Tells(e, at, g, d, c, ms) else e == taken.value && e.status == STARTED
  {
    OpensIff(s, d, at, g, c, ms.0.now, ms.0.monotonic);
    var r := ReceiptFor(d, at, g, c, ms.0.now);
    var t := Open(s, r, Some(ms.0.monotonic)).0;
    assert t.receipts == s.receipts + [r];
    assert t.receipts[|s.receipts|] == r;
    assert forall k :: 0 <= k < |s.receipts| ==> t.receipts[k] == s.receipts[k] && s.receipts[k] in s.receipts;
    ClosedTells(t, s.receipts, r, bound, d, at, g, c, ms);
  }

  lemma ClosedTells(t: Store, others: seq<Receipt>, r: Receipt, bound: nat, d: Descriptor, at: Attempt, g: Grant, c: Capabilities,
                    ms: Moments)
    requires t.receipts == others + [r] && Find(t.receipts, at.receiptId) == |others|
    requires r == ReceiptFor(d, at, g, c, ms.0.now) && WellFormed(r)
    requires forall e :: e in others ==> e.receiptId != at.receiptId
    requires d.toolId == g.binding.toolId && g.profileId == Some(c.profileId) && g.digest == Some(c.digest)
    ensures var (u, result) := RecordTerminal(t, bound, at.receiptId, StatusOf(ms.1.outcome),
                                              ObservedOf(ms.1.outcome, ms.2.now, ms.2.duration));
            && (result.Ok? <==> ms.2.duration >= 0)
            && forall e :: e in u.receipts && e.receiptId == at.receiptId ==>
                 if ms.2.duration >= 0 then Tells(e, at, g, d, c, ms) else e == r && e.status == STARTED
  {
    var (closed, result) := Close(t, at.receiptId, StatusOf(ms.1.outcome), ObservedOf(ms.1.outcome, ms.2.now, ms.2.duration));
    assert t.receipts[|others|] == r;
    if result.Ok? {
      assert closed.receipts == others + [result.value];
      WithoutMembers(closed.receipts, Ids(Victims(closed.receipts, bound)));
    }
  }

  /** How a claimed attempt that runs ends. Without a store the caller is told what happened. With one
      the outcome is on record exactly when it is well formed, the caller is told so, and the receipt,
      unless retention already dropped it, tells the whole story; an outcome that could not be recorded
      leaves it STARTED, and its start remembered for reconciliation. */
  lemma ClaimedEndsOnRecord(wiring: Wiring, bound: nat, at: Attempt, s: Shared, d: Descriptor, c: Capabilities, ms: Moments)
    requires at.presented.Some? && d.toolId == at.presented.value.0.binding.toolId
    requires at.presented.value.0.profileId == Some(c.profileId) && at.presented.value.0.digest == Some(c.digest)
    requires c.profileId != "" && d.instantiable && d.implementationId != "" && Attributable(at, at.presented.value.0)
    requires wiring.evidence ==> Recordable(s.store, at, at.presented.value.0, c)
    ensures var g := at.presented.value.0;
            var (done, t) := Thrice(wiring, bound, at, Claimed(d, g.binding, c), s, ms);
            && done.Finished? && Reports(ms.1.outcome, !wiring.evidence || ms.2.duration >= 0, done.result)
            && (!wiring.evidence ==> t.store == s.store)
            && (wiring.evidence ==> forall e :: e in t.store.receipts && e.receiptId == at.receiptId ==>
                  if ms.2.duration >= 0 then Tells(e, at, g, d, c, ms) else e.status == STARTED)
  {
    hide Open, RecordTerminal, ReceiptFor, Unready, Recordable, Attributable, Tells, ObservedOf, StatusOf;
    var g := at.presented.value.0;
    ReadyIff(d, at, g);
    if wiring.evidence {
      TerminalTells(s.store, bound, d, at, g, c, ms);
    }
  }

  // ---- the whole attempt -----------------------------------------------------------------------------

  /** When an undisturbed attempt runs. It reaches the sandbox exactly when it is permitted; then it
      makes exactly one call, of the implementation registered for the grant's tool and version, under
      the grant's own profile; otherwise it is refused and makes none. */
  lemma RunsIffPermitted(wiring: Wiring, bound: nat, at: Attempt, s: Shared, l: L.Ledger, clock: Time,
                         before: Moments, after: Moments)
    requires L.Tracks(s.authority, l, clock) && clock <= before.0.now <= before.2.now
    ensures var (phase, t) := Thrice(wiring, bound, at, Waiting, s, before);
            var (done, u) := Thrice(wiring, bound, at, phase, t, after);
            && done.Finished?
            && (done.result.Refused? <==> !Permitted(wiring, l, s.store, at, before.2.now))
            && (done.result.Refused? ==> u.calls == s.calls)
            && (Permitted(wiring, l, s.store, at, before.2.now) ==>
                  var g := at.presented.value.0;
                  && |u.calls| == |s.calls| + 1 && u.calls[..|s.calls|] == s.calls
                  && var call := u.calls[|s.calls|];
                     && call.grant == g && call.requested == g.binding
                     && call.capabilities == wiring.profiles.value[g.profileId.value]
                     && call.implementationId
                        == wiring.tools.value[(g.binding.toolId, g.binding.toolVersion)].implementationId)
  {
    hide Thrice, L.Tracks, FromOperation, L.Genuine, Attributable, Recordable;
    ClaimsIff(wiring, bound, at, s, l, clock, before);
    var (phase, t) := Thrice(wiring, bound, at, Waiting, s, before);
    if phase.Claimed? {
      var g := at.presented.value.0;
      var d := wiring.tools.value[(g.binding.toolId, g.binding.toolVersion)];
      OperationNamesTool(d.toolId, d.version, at.parameters);
      ClaimedRunsIff(wiring, bound, at, t, d, wiring.profiles.value[g.profileId.value], after);
    } else {
      FinishedStays(wiring, bound, at, phase.result, t, after);
    }
  }

  lemma OperationNamesTool(toolId: string, version: string, parameters: Parameters)
    ensures var b := FromOperation(toolId, version, parameters, None);
            b.Ok? ==> b.value.toolId == toolId && b.value.toolVersion == version
  {
  }

  /** A tool that is not registered in the grant's version, and one that is disabled, are refused as
      that before the grant is looked at: authority, store, ledger and calls stay as they were. */
  lemma UnavailableToolRefused(wiring: Wiring, bound: nat, w: World, id: nat, elapsed: nat, m: Moment)
    requires id in w.attempts && id in w.phases && w.phases[id].Waiting?
    requires w.attempts[id].presented.Some? && wiring.tools.Some?
    ensures var u := Next(w, wiring, bound, Work(id, elapsed, m.monotonic, m.duration, m.outcome));
            var named := (w.attempts[id].presented.value.0.binding.toolId, w.attempts[id].presented.value.0.binding.toolVersion);
            && (named !in wiring.tools.value ==>
                  u.phases[id] == Finished(Refused(ToolNotRegistered)) && u.shared == w.shared && u.ledger == w.ledger)
            && (named in wiring.tools.value && !wiring.tools.value[named].enabled ==>
                  u.phases[id] == Finished(Refused(ToolDisabled)) && u.shared == w.shared && u.ledger == w.ledger)
  {
    hide Verify, FromOperation;
  }
}
