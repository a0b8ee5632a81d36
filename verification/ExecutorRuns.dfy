/** Runs of many interleaved execution attempts over one authority and one receipt store. */
module ExecutorRuns {
  import opened Prelude
  import opened Binding
  import opened GrantAuthority
  import opened ExecutionEvidence
  import opened Executor
  import L = GrantLedger
  import R = EvidenceRuns

  /** `ledger` is the authority's memory without forgetting, `started` every receipt an attempt
      opened, and `authors[k]` the attempt that made call k. */
  datatype World = World(
    clock: Time,
    shared: Shared,
    ledger: L.Ledger,
    attempts: map<nat, Attempt>,
    phases: map<nat, Phase>,
    started: seq<Receipt>,
    authors: seq<nat>)

  datatype Step =
    | Begin(id: nat, attempt: Attempt)
    | Work(id: nat, elapsed: nat, monotonic: Time, duration: int, outcome: SandboxOutcome)
    | UseAuthority(elapsed: nat, step: L.Step)
    | UseStore(use: R.Step)

  function LedgerAfter(w: World, id: nat, now: Time): L.Ledger
    requires id in w.attempts && id in w.phases
  {
    var at, phase := w.attempts[id], w.phases[id];
    if phase.Cleared? then
      L.LedgerStep(w.ledger, L.Take(if at.presented.Some? then TokenOf(at) else NoGrant, phase.requested), now).0
    else w.ledger
  }

  function Next(w: World, wiring: Wiring, bound: nat, step: Step): World {
    match step
    case Begin(id, at) =>
      if id in w.attempts then w
      else w.(attempts := w.attempts[id := at], phases := w.phases[id := Waiting])
    case Work(id, elapsed, monotonic, duration, outcome) =>
      if id !in w.attempts || id !in w.phases then w
      else
        var now := w.clock + elapsed;
        var (phase, shared) := Advance(wiring, bound, w.attempts[id], w.phases[id], w.shared,
                                       Moment(now, monotonic, duration, outcome));
        w.(clock := now, shared := shared, ledger := LedgerAfter(w, id, now), phases := w.phases[id := phase],
           started := if w.phases[id].Claimed? && phase.Opened? && phase.call.receipt.Some?
                      then w.started + [phase.call.receipt.value] else w.started,
           authors := if w.phases[id].Opened? then w.authors + [id] else w.authors)
    case UseAuthority(elapsed, step) =>
      var now := w.clock + elapsed;
      w.(clock := now, ledger := L.LedgerStep(w.ledger, step, now).0,
         shared := w.shared.(authority := L.AuthorityStep(w.shared.authority, step, now).0))
    case UseStore(use) =>
      w.(shared := w.shared.(store := R.Next(w.shared.store, bound, use)))
  }

  function Run(w: World, wiring: Wiring, bound: nat, steps: seq<Step>): World {
    if steps == [] then w else Next(Run(w, wiring, bound, steps[..|steps| - 1]), wiring, bound, steps[|steps| - 1])
  }

  function Start(authorityId: string, ttl: Time, clock: Time): World {
    World(clock, Shared(L.NewAuthority(authorityId, ttl), EMPTY_EVIDENCE, []), L.NewLedger(authorityId, ttl),
          map[], map[], [], [])
  }

  // ---- invariant -------------------------------------------------------------------------------

  /** The ledger really is what the authority remembers, up to expired grants. */
  ghost predicate Tracks(w: World) {
    L.Tracks(w.shared.authority, w.ledger, w.clock)
  }

  /** The operation was rebuilt from parameters alone, so its resource is the `path` given. */
  predicate Rebuilt(b: ExecutionBinding) {
    b.resource == Lookup(b.parameters, RESOURCE_PARAMETER)
  }

  /** The context claims no other agent and no other session than the grant's. */
  predicate SpeaksFor(context: Option<Context>, g: Grant) {
    context.Some? ==>
      && context.value.agent in {"", g.agentId}
      && context.value.session in {"", g.sessionId}
  }

  /** The profile the grant is bound to, by name and by digest, as it is registered. */
  predicate Confined(wiring: Wiring, g: Grant, c: Capabilities) {
    && wiring.sandbox && wiring.profiles.Some?
    && g.profileId == Some(c.profileId) && g.digest == Some(c.digest)
    && c.profileId in wiring.profiles.value && wiring.profiles.value[c.profileId] == c
  }

  /** What the checks before the claim establish. */
  predicate Entitled(wiring: Wiring, at: Attempt, requested: ExecutionBinding, c: Capabilities) {
    && at.presented.Some? && Rebuilt(requested)
    && SpeaksFor(at.context, at.presented.value.0)
    && Confined(wiring, at.presented.value.0, c)
  }

  /** The descriptor registered for exactly the tool and version the grant names, enabled. */
  predicate Registered(wiring: Wiring, g: Grant, d: Descriptor) {
    var named := (g.binding.toolId, g.binding.toolVersion);
    wiring.tools.Some? && named in wiring.tools.value && wiring.tools.value[named] == d && d.enabled
  }

  /** The implementation is that descriptor's, and it can be instantiated. */
  predicate Implemented(wiring: Wiring, g: Grant, implementationId: string) {
    var named := (g.binding.toolId, g.binding.toolVersion);
    && wiring.tools.Some? && named in wiring.tools.value
    && var d := wiring.tools.value[named];
       d.enabled && d.instantiable && d.implementationId == implementationId && implementationId != ""
  }

  ghost predicate Spent(l: L.Ledger, at: Attempt, requested: ExecutionBinding) {
    && at.presented.Some? && L.Genuine(l, TokenOf(at)) && at.presented.value.0.id in l.used
    && requested == at.presented.value.0.binding
  }

  /** The receipt opened for a grant carries that grant's identity. */
  predicate Names(r: Receipt, g: Grant, implementationId: string) {
    && r.status == STARTED && r.grantId == g.id
    && r.provenance.agentId == g.agentId && r.provenance.sessionId == g.sessionId
    && r.provenance.binding == g.binding && r.provenance.implementationId == implementationId
    && Some(r.provenance.capabilityProfileId) == g.profileId && Some(r.provenance.capabilityDigest) == g.digest
  }

  /** A call was authorised: its grant genuine and claimed by this attempt for exactly this
      operation, the context in agreement, the capabilities those the grant is bound to, the
      implementation the one registered for it, and evidence of its start on record. */
  ghost predicate CallSound(wiring: Wiring, w: World, at: Attempt, c: Call) {
    && Entitled(wiring, at, c.requested, c.capabilities) && Spent(w.ledger, at, c.requested)
    && c.grant == at.presented.value.0 && Implemented(wiring, c.grant, c.implementationId)
    && (wiring.evidence ==> c.receipt.Some? && c.receipt.value in w.started
                            && Names(c.receipt.value, c.grant, c.implementationId))
  }

  ghost predicate PhaseSound(wiring: Wiring, w: World, at: Attempt, phase: Phase) {
    match phase
    case Waiting => true
    case Verified(d, requested) => at.presented.Some? && Rebuilt(requested) && Registered(wiring, at.presented.value.0, d)
    case Cleared(d, requested, c) => Entitled(wiring, at, requested, c) && Registered(wiring, at.presented.value.0, d)
    case Claimed(d, requested, c) =>
      Entitled(wiring, at, requested, c) && Registered(wiring, at.presented.value.0, d) && Spent(w.ledger, at, requested)
    case Opened(call) => CallSound(wiring, w, at, call)
    case Ran(call, _) => CallSound(wiring, w, at, call)
    case Finished(_) => true
  }

  /** A grant claimed whose sandbox call has not been made yet. */
  predicate Pending(phase: Phase) {
    phase.Claimed? || phase.Opened?
  }

  function GrantId(at: Attempt): Option<nat> {
    if at.presented.Some? then Some(at.presented.value.0.id) else None
  }

  ghost predicate Exclusive(w: World) {
    && w.phases.Keys == w.attempts.Keys
    && |w.authors| == |w.shared.calls|
    && (forall i, j :: i in w.phases && j in w.phases && i != j && Pending(w.phases[i]) && Pending(w.phases[j])
                       ==> GrantId(w.attempts[i]) != GrantId(w.attempts[j]))
    && (forall i, k :: i in w.phases && Pending(w.phases[i]) && 0 <= k < |w.shared.calls|
                       ==> GrantId(w.attempts[i]) != Some(w.shared.calls[k].grant.id))
    && (forall j, k :: 0 <= j < k < |w.shared.calls| ==> w.shared.calls[j].grant.id != w.shared.calls[k].grant.id)
  }

  ghost predicate AllSound(wiring: Wiring, w: World) {
    && w.phases.Keys == w.attempts.Keys
    && |w.authors| == |w.shared.calls|
    && (forall i :: i in w.phases ==> PhaseSound(wiring, w, w.attempts[i], w.phases[i]))
    && (forall k :: 0 <= k < |w.shared.calls| ==>
          w.authors[k] in w.attempts && CallSound(wiring, w, w.attempts[w.authors[k]], w.shared.calls[k]))
  }

  ghost predicate Sound(wiring: Wiring, w: World) {
    Tracks(w) && AllSound(wiring, w) && Exclusive(w)
  }

  // ---- the authority underneath --------------------------------------------------------------------

  lemma AuthorityTracks(w: World, step: L.Step, now: Time)
    requires Tracks(w) && w.clock <= now
    ensures var u := w.(clock := now, ledger := L.LedgerStep(w.ledger, step, now).0,
                        shared := w.shared.(authority := L.AuthorityStep(w.shared.authority, step, now).0));
            Tracks(u) && L.Grows(w.ledger, u.ledger)
    ensures L.AuthorityStep(w.shared.authority, step, now).1 == L.LedgerStep(w.ledger, step, now).1
  {
    L.StepTracks(w.shared.authority, w.ledger, w.clock, step, now);
  }

  lemma RebuiltFromOperation(d: Descriptor, parameters: Parameters)
    requires FromOperation(d.toolId, d.version, parameters, None).Ok?
    ensures Rebuilt(FromOperation(d.toolId, d.version, parameters, None).value)
  {
    CanonicalOrdered(parameters);
    StableSortIdentity(PairOrder(), Canonicalize(parameters).value);
  }

  lemma CallSoundLater(wiring: Wiring, w: World, u: World, at: Attempt, c: Call)
    requires CallSound(wiring, w, at, c) && L.Grows(w.ledger, u.ledger)
    requires forall r :: r in w.started ==> r in u.started
    ensures CallSound(wiring, u, at, c)
  {
  }

  lemma PhaseSoundLater(wiring: Wiring, w: World, u: World, at: Attempt, phase: Phase)
    requires PhaseSound(wiring, w, at, phase) && L.Grows(w.ledger, u.ledger)
    requires forall r :: r in w.started ==> r in u.started
    ensures PhaseSound(wiring, u, at, phase)
  {
    hide Names, SpeaksFor, Confined, Registered, Implemented;
  }

  /** Nothing but the memory grew: every attempt and call stays sound. */
  lemma QuietSound(wiring: Wiring, w: World, u: World)
    requires AllSound(wiring, w) && Exclusive(w)
    requires u.attempts == w.attempts && u.phases == w.phases && u.authors == w.authors
    requires u.shared.calls == w.shared.calls && u.started == w.started && L.Grows(w.ledger, u.ledger)
    ensures AllSound(wiring, u) && Exclusive(u)
  {
    hide CallSound, PhaseSound;
    forall i | i in u.phases ensures PhaseSound(wiring, u, u.attempts[i], u.phases[i]) {
      PhaseSoundLater(wiring, w, u, w.attempts[i], w.phases[i]);
    }
    forall k | 0 <= k < |u.shared.calls|
      ensures u.authors[k] in u.attempts && CallSound(wiring, u, u.attempts[u.authors[k]], u.shared.calls[k])
    {
      CallSoundLater(wiring, w, u, w.attempts[w.authors[k]], w.shared.calls[k]);
    }
  }

  // ---- one step of one attempt ------------------------------------------------------------------------

  /** What a step of attempt `id` does to everything else. */
  ghost predicate Moves(w: World, u: World, id: nat) {
    && id in w.phases && id in u.phases && u.attempts == w.attempts
    && u.phases == w.phases[id := u.phases[id]]
    && L.Grows(w.ledger, u.ledger)
    && (forall r :: r in w.started ==> r in u.started)
  }

  lemma MovedSound(wiring: Wiring, w: World, u: World, id: nat)
    requires AllSound(wiring, w) && Moves(w, u, id)
    requires PhaseSound(wiring, u, u.attempts[id], u.phases[id])
    requires if w.phases[id].Opened?
             then u.shared.calls == w.shared.calls + [w.phases[id].call] && u.authors == w.authors + [id]
             else u.shared.calls == w.shared.calls && u.authors == w.authors
    ensures AllSound(wiring, u)
  {
    hide CallSound;
    forall i | i in u.phases ensures PhaseSound(wiring, u, u.attempts[i], u.phases[i]) {
      if i != id {
        PhaseSoundLater(wiring, w, u, w.attempts[i], w.phases[i]);
      }
    }
    forall k | 0 <= k < |u.shared.calls|
      ensures u.authors[k] in u.attempts && CallSound(wiring, u, u.attempts[u.authors[k]], u.shared.calls[k])
    {
      if k < |w.shared.calls| {
        CallSoundLater(wiring, w, u, w.attempts[w.authors[k]], w.shared.calls[k]);
      } else {
        assert PhaseSound(wiring, w, w.attempts[id], w.phases[id]);
        CallSoundLater(wiring, w, u, w.attempts[id], w.phases[id].call);
      }
    }
  }

  /** A step that claims no grant and calls no sandbox, or only ends an attempt. */
  lemma ExclusiveUnlessClaim(w: World, u: World, id: nat)
    requires Exclusive(w) && Moves(w, u, id)
    requires u.shared.calls == w.shared.calls && u.authors == w.authors
    requires Pending(u.phases[id]) ==> Pending(w.phases[id])
    ensures Exclusive(u)
  {
  }

  /** A claim takes a grant nobody holds and nobody used. */
  lemma ExclusiveClaim(wiring: Wiring, w: World, u: World, id: nat)
    requires AllSound(wiring, w) && Exclusive(w) && Moves(w, u, id)
    requires u.shared.calls == w.shared.calls && u.authors == w.authors
    requires w.attempts[id].presented.Some? && w.attempts[id].presented.value.0.id !in w.ledger.used
    ensures Exclusive(u)
  {
    hide Names, SpeaksFor, Confined, Registered, Implemented, Rebuilt;
    var g := GrantId(w.attempts[id]).value;
    forall i | i in w.phases && i != id && Pending(w.phases[i]) ensures GrantId(w.attempts[i]) != Some(g) {
      assert PhaseSound(wiring, w, w.attempts[i], w.phases[i]);
    }
    forall k | 0 <= k < |w.shared.calls| ensures w.shared.calls[k].grant.id != g {
      assert CallSound(wiring, w, w.attempts[w.authors[k]], w.shared.calls[k]);
    }
  }

  /** A call moves a grant from the pending to the called. */
  lemma ExclusiveCall(wiring: Wiring, w: World, u: World, id: nat)
    requires AllSound(wiring, w) && Exclusive(w) && Moves(w, u, id)
    requires w.phases[id].Opened? && !Pending(u.phases[id])
    requires u.shared.calls == w.shared.calls + [w.phases[id].call] && u.authors == w.authors + [id]
    ensures Exclusive(u)
  {
    hide Names, SpeaksFor, Confined, Registered, Implemented, Rebuilt;
    assert PhaseSound(wiring, w, w.attempts[id], w.phases[id]);
    var n := |w.shared.calls|;
    assert GrantId(w.attempts[id]) == Some(u.shared.calls[n].grant.id);
    forall i, k | i in u.phases && Pending(u.phases[i]) && 0 <= k < |u.shared.calls|
      ensures GrantId(u.attempts[i]) != Some(u.shared.calls[k].grant.id)
    {
      assert i != id && Pending(w.phases[i]);
    }
    forall j, k | 0 <= j < k < |u.shared.calls| ensures u.shared.calls[j].grant.id != u.shared.calls[k].grant.id {
      assert Pending(w.phases[id]);
    }
  }

  lemma TracksLater(w: World, u: World)
    requires Tracks(w) && u.shared.authority == w.shared.authority && u.ledger == w.ledger && w.clock <= u.clock
    ensures Tracks(u) && L.Grows(w.ledger, u.ledger)
  {
    L.TracksLater(w.shared.authority, w.ledger, w.clock, u.clock);
  }

  lemma WaitingWorks(wiring: Wiring, bound: nat, w: World, id: nat, elapsed: nat, m: Moment)
    requires Sound(wiring, w) && id in w.phases && w.phases[id].Waiting? && m.now == w.clock + elapsed
    ensures Sound(wiring, Next(w, wiring, bound, Work(id, elapsed, m.monotonic, m.duration, m.outcome)))
  {
    hide Verify, FromOperation, Tracks, AllSound, Exclusive, CallSound;
    assert id in w.attempts by { SameKeys(wiring, w); }
    var u := Next(w, wiring, bound, Work(id, elapsed, m.monotonic, m.duration, m.outcome));
    var at := w.attempts[id];
    TracksLater(w, w.(clock := m.now));
    var d := Resolve(wiring, at);
    if d.Ok? && RequestedBinding(wiring, at, d.value).Ok? {
      var requested := RequestedBinding(wiring, at, d.value).value;
      RebuiltFromOperation(d.value, at.parameters);
      AuthorityTracks(w, L.Check(TokenOf(at), requested), m.now);
      TracksLater(w.(clock := m.now, shared := w.shared.(authority := Verify(w.shared.authority, TokenOf(at), requested, m.now).0)), u);
    } else {
      TracksLater(w, u);
    }
    MovedSound(wiring, w, u, id);
    ExclusiveUnlessClaim(w, u, id);
  }

  lemma SameKeys(wiring: Wiring, w: World)
    requires Sound(wiring, w)
    ensures w.phases.Keys == w.attempts.Keys
    ensures Tracks(w) && AllSound(wiring, w) && Exclusive(w)
    ensures forall i :: i in w.phases ==> PhaseSound(wiring, w, w.attempts[i], w.phases[i])
  {
  }

  lemma VerifiedWorks(wiring: Wiring, bound: nat, w: World, id: nat, elapsed: nat, m: Moment)
    requires Sound(wiring, w) && id in w.phases && w.phases[id].Verified? && m.now == w.clock + elapsed
    ensures Sound(wiring, Next(w, wiring, bound, Work(id, elapsed, m.monotonic, m.duration, m.outcome)))
  {
    hide Tracks, AllSound, Exclusive, CallSound, Rebuilt;
    SameKeys(wiring, w);
    var u := Next(w, wiring, bound, Work(id, elapsed, m.monotonic, m.duration, m.outcome));
    TracksLater(w, u);
    MovedSound(wiring, w, u, id);
    ExclusiveUnlessClaim(w, u, id);
  }

  lemma ClaimSpends(w: World, token: Token, requested: ExecutionBinding, now: Time)
    requires Tracks(w) && w.clock <= now && Claim(w.shared.authority, token, requested, now).1.None?
    ensures token.Signed? && token.grant.id !in w.ledger.used
    ensures var l := L.LedgerStep(w.ledger, L.Take(token, requested), now).0;
            L.Genuine(l, token) && token.grant.id in l.used && requested == token.grant.binding
  {
    AuthorityTracks(w, L.Take(token, requested), now);
    hide Claim;
    L.OnlyGenuineAccepted(w.ledger, token, requested, now);
    L.GenuineGrantAnswers(w.ledger, w.clock, token, requested, now);
  }

  lemma ClearedWorks(wiring: Wiring, bound: nat, w: World, id: nat, elapsed: nat, m: Moment)
    requires Sound(wiring, w) && id in w.phases && w.phases[id].Cleared? && m.now == w.clock + elapsed
    ensures Sound(wiring, Next(w, wiring, bound, Work(id, elapsed, m.monotonic, m.duration, m.outcome)))
  {
    hide Tracks, AllSound, Exclusive, CallSound, Rebuilt, Claim, L.LedgerStep, SpeaksFor, Confined, Registered;
    SameKeys(wiring, w);
    var u := Next(w, wiring, bound, Work(id, elapsed, m.monotonic, m.duration, m.outcome));
    var at, phase := w.attempts[id], w.phases[id];
    assert PhaseSound(wiring, w, at, phase);
    var token := TokenOf(at);
    AuthorityTracks(w, L.Take(token, phase.requested), m.now);
    TracksLater(w.(clock := m.now, ledger := u.ledger,
                   shared := w.shared.(authority := Claim(w.shared.authority, token, phase.requested, m.now).0)), u);
    if Claim(w.shared.authority, token, phase.requested, m.now).1.None? {
      ClaimSpends(w, token, phase.requested, m.now);
      ExclusiveClaim(wiring, w, u, id);
    } else {
      ExclusiveUnlessClaim(w, u, id);
    }
    MovedSound(wiring, w, u, id);
  }

  lemma ReceiptNames(d: Descriptor, at: Attempt, g: Grant, c: Capabilities, s: Store, startedAt: Time, start: Time)
    requires g.profileId == Some(c.profileId) && g.digest == Some(c.digest)
    ensures Open(s, ReceiptFor(d, at, g, c, startedAt), Some(start)).1.Ok?
            ==> Names(Open(s, ReceiptFor(d, at, g, c, startedAt), Some(start)).1.value, g, d.implementationId)
  {
  }

  lemma ClaimedWorks(wiring: Wiring, bound: nat, w: World, id: nat, elapsed: nat, m: Moment)
    requires Sound(wiring, w) && id in w.phases && w.phases[id].Claimed? && m.now == w.clock + elapsed
    ensures Sound(wiring, Next(w, wiring, bound, Work(id, elapsed, m.monotonic, m.duration, m.outcome)))
  {
    hide Tracks, AllSound, Exclusive, Rebuilt, Open, ReceiptFor, Names, SpeaksFor, L.Genuine;
    SameKeys(wiring, w);
    var u := Next(w, wiring, bound, Work(id, elapsed, m.monotonic, m.duration, m.outcome));
    var at, phase := w.attempts[id], w.phases[id];
    assert PhaseSound(wiring, w, at, phase);
    ReceiptNames(phase.descriptor, at, at.presented.value.0, phase.capabilities, w.shared.store, m.now, m.monotonic);
    TracksLater(w, u);
    MovedSound(wiring, w, u, id);
    ExclusiveUnlessClaim(w, u, id);
  }

  lemma OpenedWorks(wiring: Wiring, bound: nat, w: World, id: nat, elapsed: nat, m: Moment)
    requires Sound(wiring, w) && id in w.phases && w.phases[id].Opened? && m.now == w.clock + elapsed
    ensures Sound(wiring, Next(w, wiring, bound, Work(id, elapsed, m.monotonic, m.duration, m.outcome)))
  {
    hide Tracks, AllSound, Exclusive, CallSound;
    SameKeys(wiring, w);
    var u := Next(w, wiring, bound, Work(id, elapsed, m.monotonic, m.duration, m.outcome));
    assert PhaseSound(wiring, w, w.attempts[id], w.phases[id]);
    TracksLater(w, u);
    CallSoundLater(wiring, w, u, w.attempts[id], w.phases[id].call);
    MovedSound(wiring, w, u, id);
    ExclusiveCall(wiring, w, u, id);
  }

  lemma EndingWorks(wiring: Wiring, bound: nat, w: World, id: nat, elapsed: nat, m: Moment)
    requires Sound(wiring, w) && id in w.phases && (w.phases[id].Ran? || w.phases[id].Finished?) && m.now == w.clock + elapsed
    ensures Sound(wiring, Next(w, wiring, bound, Work(id, elapsed, m.monotonic, m.duration, m.outcome)))
  {
    hide Tracks, AllSound, Exclusive, CallSound, RecordTerminal;
    SameKeys(wiring, w);
    var u := Next(w, wiring, bound, Work(id, elapsed, m.monotonic, m.duration, m.outcome));
    TracksLater(w, u);
    MovedSound(wiring, w, u, id);
    ExclusiveUnlessClaim(w, u, id);
  }

  lemma BeginSound(wiring: Wiring, bound: nat, w: World, id: nat, at: Attempt)
    requires Sound(wiring, w)
    ensures Sound(wiring, Next(w, wiring, bound, Begin(id, at)))
  {
    hide CallSound;
    var u := Next(w, wiring, bound, Begin(id, at));
    TracksLater(w, u);
    forall i | i in u.phases ensures PhaseSound(wiring, u, u.attempts[i], u.phases[i]) {
      if i in w.phases {
        PhaseSoundLater(wiring, w, u, w.attempts[i], w.phases[i]);
      }
    }
    forall k | 0 <= k < |u.shared.calls|
      ensures u.authors[k] in u.attempts && CallSound(wiring, u, u.attempts[u.authors[k]], u.shared.calls[k])
    {
      CallSoundLater(wiring, w, u, w.attempts[w.authors[k]], w.shared.calls[k]);
    }
  }

  lemma StepSound(wiring: Wiring, bound: nat, w: World, step: Step)
    requires Sound(wiring, w)
    ensures Sound(wiring, Next(w, wiring, bound, step))
  {
    hide Tracks, AllSound, Exclusive, Advance, R.Next, L.LedgerStep, L.AuthorityStep;
    match step
    case Begin(id, at) => BeginSound(wiring, bound, w, id, at);
    case Work(id, elapsed, monotonic, duration, outcome) =>
      var m := Moment(w.clock + elapsed, monotonic, duration, outcome);
      if id in w.phases {
        match w.phases[id]
        case Waiting => WaitingWorks(wiring, bound, w, id, elapsed, m);
        case Verified(_, _) => VerifiedWorks(wiring, bound, w, id, elapsed, m);
        case Cleared(_, _, _) => ClearedWorks(wiring, bound, w, id, elapsed, m);
        case Claimed(_, _, _) => ClaimedWorks(wiring, bound, w, id, elapsed, m);
        case Opened(_) => OpenedWorks(wiring, bound, w, id, elapsed, m);
        case Ran(_, _) => EndingWorks(wiring, bound, w, id, elapsed, m);
        case Finished(_) => EndingWorks(wiring, bound, w, id, elapsed, m);
      }
    case UseAuthority(elapsed, use) =>
      AuthorityTracks(w, use, w.clock + elapsed);
      QuietSound(wiring, w, Next(w, wiring, bound, step));
    case UseStore(_) =>
      TracksLater(w, Next(w, wiring, bound, step));
      QuietSound(wiring, w, Next(w, wiring, bound, step));
  }

  lemma StartSound(wiring: Wiring, authorityId: string, ttl: Time, clock: Time)
    requires ttl > 0
    ensures Sound(wiring, Start(authorityId, ttl, clock))
  {
    var w := Start(authorityId, ttl, clock);
    L.NewLedgerSound(authorityId, ttl, clock);
    assert L.Remembers(w.shared.authority, w.ledger, clock);
  }

  lemma {:induction false} RunSound(wiring: Wiring, bound: nat, authorityId: string, ttl: Time, clock: Time, steps: seq<Step>)
    requires ttl > 0
    ensures Sound(wiring, Run(Start(authorityId, ttl, clock), wiring, bound, steps))
  {
    hide Sound, Next;
    if steps == [] {
      StartSound(wiring, authorityId, ttl, clock);
    } else {
      RunSound(wiring, bound, authorityId, ttl, clock, steps[..|steps| - 1]);
      StepSound(wiring, bound, Run(Start(authorityId, ttl, clock), wiring, bound, steps[..|steps| - 1]), steps[|steps| - 1]);
    }
  }

  // ---- what every run guarantees ---------------------------------------------------------------------

  /** Executor runs. However attempts interleave with each other and with everything else that
      uses the authority and the store, no grant reaches the sandbox twice, and every call was
      made by an attempt that claimed a genuine grant for exactly this operation, in an agreeing
      context, under the capabilities the grant is bound to, with the enabled implementation
      registered for exactly the grant's tool and version, and (with a store wired) after a STARTED
      receipt carrying the grant's identity was recorded. */
  lemma OneAuthorizedCallPerGrant(wiring: Wiring, bound: nat, authorityId: string, ttl: Time, clock: Time, steps: seq<Step>)
    requires ttl > 0
    ensures var w := Run(Start(authorityId, ttl, clock), wiring, bound, steps);
            && (forall j, k :: 0 <= j < k < |w.shared.calls| ==> w.shared.calls[j].grant.id != w.shared.calls[k].grant.id)
            && |w.authors| == |w.shared.calls|
            && (forall k :: 0 <= k < |w.shared.calls| ==>
                  w.authors[k] in w.attempts && CallSound(wiring, w, w.attempts[w.authors[k]], w.shared.calls[k]))
  {
    RunSound(wiring, bound, authorityId, ttl, clock, steps);
  }

  /** A grant for a resource that was named apart from the `path` parameter never runs: the
      executor rebuilds the operation from parameters alone and cannot name it again. */
  lemma SeparateResourceNeverRuns(wiring: Wiring, bound: nat, authorityId: string, ttl: Time, clock: Time,
                                  steps: seq<Step>, k: nat)
    requires ttl > 0 && k < |Run(Start(authorityId, ttl, clock), wiring, bound, steps).shared.calls|
    ensures var b := Run(Start(authorityId, ttl, clock), wiring, bound, steps).shared.calls[k].grant.binding;
            b.resource == Lookup(b.parameters, RESOURCE_PARAMETER)
  {
    hide Run;
    OneAuthorizedCallPerGrant(wiring, bound, authorityId, ttl, clock, steps);
    var w := Run(Start(authorityId, ttl, clock), wiring, bound, steps);
    assert CallSound(wiring, w, w.attempts[w.authors[k]], w.shared.calls[k]);
  }

  /** What any later claim would be told is what the ledger says. */
  lemma ClaimIsAnswer(w: World, token: Token, requested: ExecutionBinding, later: Time)
    requires Tracks(w) && w.clock <= later
    ensures Claim(w.shared.authority, token, requested, later).1 == L.Answer(w.ledger, token, requested, later)
  {
    AuthorityTracks(w, L.Take(token, requested), later);
  }

  /** An attempt that gets no further than a refusal before its claim leaves every grant worth
      exactly what it was, its own included: any claim is answered as if the attempt had not
      been made. */
  lemma RefusalBeforeClaimSpendsNothing(wiring: Wiring, bound: nat, w: World, id: nat, elapsed: nat, m: Moment,
                                        token: Token, requested: ExecutionBinding, later: Time)
    requires Sound(wiring, w) && id in w.phases
    requires w.phases[id].Waiting? || w.phases[id].Verified? || w.phases[id].Cleared?
    requires var u := Next(w, wiring, bound, Work(id, elapsed, m.monotonic, m.duration, m.outcome));
             !u.phases[id].Claimed? && u.clock <= later
    ensures var u := Next(w, wiring, bound, Work(id, elapsed, m.monotonic, m.duration, m.outcome));
            Claim(u.shared.authority, token, requested, later).1 == Claim(w.shared.authority, token, requested, later).1
  {
    var step := Work(id, elapsed, m.monotonic, m.duration, m.outcome);
    var u := Next(w, wiring, bound, step);
    StepSound(wiring, bound, w, step);
    SameKeys(wiring, w);
    SameKeys(wiring, u);
    RefusedLedger(wiring, bound, w, id, elapsed, m);
    hide Sound, Next, Claim, Tracks, AllSound, Exclusive, PhaseSound;
    assert w.clock <= u.clock by { ClockAdvances(w, wiring, bound, step); }
    ClaimIsAnswer(w, token, requested, later);
    ClaimIsAnswer(u, token, requested, later);
  }

  lemma ClockAdvances(w: World, wiring: Wiring, bound: nat, step: Step)
    ensures w.clock <= Next(w, wiring, bound, step).clock
  {
    hide Advance, L.LedgerStep, L.AuthorityStep, R.Next;
  }

  lemma RefusedLedger(wiring: Wiring, bound: nat, w: World, id: nat, elapsed: nat, m: Moment)
    requires Sound(wiring, w) && id in w.phases
    requires w.phases[id].Waiting? || w.phases[id].Verified? || w.phases[id].Cleared?
    requires !Next(w, wiring, bound, Work(id, elapsed, m.monotonic, m.duration, m.outcome)).phases[id].Claimed?
    ensures Next(w, wiring, bound, Work(id, elapsed, m.monotonic, m.duration, m.outcome)).ledger == w.ledger
  {
    hide AllSound, Exclusive, Claim, L.Answer, Verify, Tracks;
    SameKeys(wiring, w);
    if w.phases[id].Cleared? {
      var at := w.attempts[id];
      ClaimIsAnswer(w, if at.presented.Some? then TokenOf(at) else NoGrant, w.phases[id].requested, w.clock + elapsed);
    }
  }

  /** Success is returned exactly when the sandbox succeeded and, with a store wired, the store
      took the SUCCEEDED outcome for the receipt of this attempt. */
  lemma SuccessIsOnRecord(wiring: Wiring, bound: nat, at: Attempt, phase: Phase, s: Shared, m: Moment, output: Option<string>)
    requires !phase.Finished?
    ensures var (next, t) := Advance(wiring, bound, at, phase, s, m);
            next == Finished(Output(output))
            <==> && phase.Ran? && phase.outcome == Returned(output)
                 && (wiring.evidence ==>
                       var (store, r) := RecordTerminal(s.store, bound, at.receiptId, SUCCEEDED, ObservedOf(phase.outcome, m.now, m.duration));
                       r.Ok? && r.value.receiptId == at.receiptId && r.value.status == SUCCEEDED && t.store == store)
  {
    hide ExecutionEvidence.Prune, Verify, Claim, FromOperation, Unready, CapabilitiesFor;
  }
}
