/** Runs of the session service. */
module SessionRuns {
  import opened Prelude
  import opened SessionStore
  import opened SessionServices

  datatype Step =
    | CreateStep(session: Session)
    | BindStep(id: string, agent: string, now: Time)
    | RecordStep(event: Event)
    | FinalizeStep(id: string, n: nat, d: Decision)
    | EndStep(id: string, agent: string, now: Time)
    | ExpireStep(threshold: Time, now: Time)
    | PruneStep(now: Time)

  function Next(s: Store, policy: Option<Retention>, step: Step): Store {
    match step
    case CreateStep(session) => Create(s, session).0
    case BindStep(id, agent, now) => Bind(s, id, agent, now).0
    case RecordStep(e) => RecordAndPrune(s, policy, e).0
    case FinalizeStep(id, n, d) => Finalize(s, id, n, d).0
    case EndStep(id, agent, now) => End(s, id, agent, now).0
    case ExpireStep(threshold, now) => ExpireIdle(s, threshold, now).0
    case PruneStep(now) => Pruned(s, policy, now)
  }

  function Run(s: Store, policy: Option<Retention>, steps: seq<Step>): Store {
    if steps == [] then s else Next(Run(s, policy, steps[..|steps| - 1]), policy, steps[|steps| - 1])
  }

  /** The agent a session id belongs to, active or terminated. */
  function Owner(s: Store, id: string): Option<string> {
    if id in s.sessions then Some(s.sessions[id].agentId)
    else if id in s.tombstones then Some(s.tombstones[id].agentId)
    else None
  }

  // ---- invariant and evolution ---------------------------------------------------------------

  ghost predicate Precedes(e: Event, f: Event) {
    && (e.sessionId == f.sessionId ==> e.sequence < f.sequence)
    && (e.agentId == f.agentId ==> e.agentSequence < f.agentSequence)
  }

  ghost predicate EventsOrdered(events: seq<Event>) {
    forall i, j :: 0 <= i < j < |events| ==> Precedes(events[i], events[j])
  }

  ghost predicate EventFits(s: Store, e: Event) {
    && Owner(s, e.sessionId) == Some(e.agentId)
    && 1 <= e.sequence <= Counter(s.sessionSequences, e.sessionId)
    && 1 <= e.agentSequence <= Counter(s.agentSequences, e.agentId)
  }

  ghost predicate Sound(s: Store) {
    && s.sessions.Keys !! s.tombstones.Keys
    && EventsOrdered(s.events)
    && forall i :: 0 <= i < |s.events| ==> EventFits(s, s.events[i])
  }

  /** `f` is the record `e`, possibly with its final decision filled in once. */
  ghost predicate SameRecord(e: Event, f: Event) {
    f == e || (e.finalDecision.None? && f == e.(finalDecision := f.finalDecision))
  }

  /** A record made after `s`: both its positions are beyond anything allocated by `s`. */
  ghost predicate NewSince(s: Store, f: Event) {
    f.sequence > Counter(s.sessionSequences, f.sessionId) && f.agentSequence > Counter(s.agentSequences, f.agentId)
  }

  ghost predicate Traced(s: Store, f: Event) {
    NewSince(s, f) || exists i :: 0 <= i < |s.events| && SameRecord(s.events[i], f)
  }

  /** Owners and tombstones are final, positions are never reused, a final decision is set at
      most once. */
  ghost predicate Evolves(s: Store, t: Store) {
    && (forall id :: Owner(s, id).Some? ==> Owner(t, id) == Owner(s, id))
    && (forall id :: id in s.tombstones ==> id in t.tombstones && id !in t.sessions)
    && (forall id :: Counter(s.sessionSequences, id) <= Counter(t.sessionSequences, id))
    && (forall a :: Counter(s.agentSequences, a) <= Counter(t.agentSequences, a))
    && forall j :: 0 <= j < |t.events| ==> Traced(s, t.events[j])
  }

  lemma EvolvesReflexive(s: Store)
    requires Sound(s)
    ensures Evolves(s, s)
  {
    forall j | 0 <= j < |s.events| ensures Traced(s, s.events[j]) {
      assert SameRecord(s.events[j], s.events[j]);
    }
  }

  lemma TracedFurther(s: Store, t: Store, f: Event)
    requires Evolves(s, t) && Traced(t, f)
    ensures Traced(s, f)
  {
    if !NewSince(t, f) {
      var k :| 0 <= k < |t.events| && SameRecord(t.events[k], f);
      assert Traced(s, t.events[k]);
      if !NewSince(s, t.events[k]) {
        var i :| 0 <= i < |s.events| && SameRecord(s.events[i], t.events[k]);
        assert SameRecord(s.events[i], f);
      }
    }
  }

  lemma EvolvesTransitive(s: Store, t: Store, u: Store)
    requires Evolves(s, t) && Evolves(t, u)
    ensures Evolves(s, u)
  {
    hide Traced;
    forall j | 0 <= j < |u.events| ensures Traced(s, u.events[j]) {
      TracedFurther(s, t, u.events[j]);
    }
  }

  lemma OrderedAppend(rest: seq<Event>, last: Event)
    requires EventsOrdered(rest)
    requires forall i :: 0 <= i < |rest| ==> Precedes(rest[i], last)
    ensures EventsOrdered(rest + [last])
  {
  }

  lemma OrderedLast(front: seq<Event>, last: Event)
    requires EventsOrdered(front + [last])
    ensures EventsOrdered(front)
    ensures forall e :: e in front ==> Precedes(e, last)
  {
    var all := front + [last];
    assert forall i :: 0 <= i < |front| ==> all[i] == front[i];
    forall e | e in front ensures Precedes(e, last) {
      var k :| 0 <= k < |front| && front[k] == e;
      assert all[k] == e && all[|front|] == last;
    }
  }

  lemma {:induction false} SinceMembers(events: seq<Event>, cutoff: Time)
    ensures forall e :: e in Since(events, cutoff) <==> e in events && e.timestamp >= cutoff
  {
    if events != [] {
      SinceMembers(events[..|events| - 1], cutoff);
      assert events == events[..|events| - 1] + [events[|events| - 1]];
    }
  }

  lemma {:induction false} SinceOrdered(events: seq<Event>, cutoff: Time)
    requires EventsOrdered(events)
    ensures EventsOrdered(Since(events, cutoff))
  {
    if events != [] {
      hide EventsOrdered, Precedes;
      var front, last := events[..|events| - 1], events[|events| - 1];
      assert events == front + [last];
      OrderedLast(front, last);
      SinceOrdered(front, cutoff);
      SinceMembers(front, cutoff);
      assert forall i :: 0 <= i < |Since(front, cutoff)| ==> Since(front, cutoff)[i] in front;
      OrderedAppend(Since(front, cutoff), last);
    } else {
      assert Since(events, cutoff) == events;
    }
  }

  lemma PruneSound(s: Store, policy: Option<Retention>, now: Time)
    requires Sound(s)
    ensures Sound(Pruned(s, policy, now)) && Evolves(s, Pruned(s, policy, now))
  {
    var t := Pruned(s, policy, now);
    EvolvesReflexive(s);
    if policy.Some? {
      SinceMembers(s.events, Cutoff(policy.value, now));
      SinceOrdered(s.events, Cutoff(policy.value, now));
      forall j | 0 <= j < |t.events|
        ensures EventFits(s, t.events[j]) && Traced(s, t.events[j])
      {
        assert t.events[j] in s.events;
        var i :| 0 <= i < |s.events| && s.events[i] == t.events[j];
        assert SameRecord(s.events[i], t.events[j]);
      }
    }
  }

  lemma NewIsTraced(s: Store, f: Event)
    requires NewSince(s, f)
    ensures Traced(s, f)
  {
  }

  lemma RecordSound(s: Store, e: Event)
    requires Sound(s)
    ensures Sound(Record(s, e).0) && Evolves(s, Record(s, e).0)
  {
    EvolvesReflexive(s);
    var (t, r) := Record(s, e);
    if r.Ok? {
      hide EventsOrdered, Traced;
      OrderedAppend(s.events, r.value);
      forall i | 0 <= i < |t.events| ensures EventFits(t, t.events[i]) && Traced(s, t.events[i]) {
        if i < |s.events| {
          assert EventFits(s, s.events[i]) && t.events[i] == s.events[i];
        } else {
          assert t.events[i] == r.value;
          NewIsTraced(s, r.value);
        }
      }
    }
  }

  lemma FinalizeSound(s: Store, id: string, n: nat, d: Decision)
    requires Sound(s)
    ensures Sound(Finalize(s, id, n, d).0) && Evolves(s, Finalize(s, id, n, d).0)
  {
    var t := Finalize(s, id, n, d).0;
    forall j | 0 <= j < |t.events| ensures Traced(s, t.events[j]) && EventFits(t, t.events[j]) {
      assert SameRecord(s.events[j], t.events[j]) && EventFits(s, s.events[j]);
    }
  }

  /** A step that only touches the lifecycle tables keeps every owner. */
  lemma LifecycleSound(s: Store, t: Store)
    requires Sound(s)
    requires t.events == s.events && t.sessionSequences == s.sessionSequences && t.agentSequences == s.agentSequences
    requires t.sessions.Keys !! t.tombstones.Keys
    requires forall id :: Owner(s, id).Some? ==> Owner(t, id) == Owner(s, id)
    requires forall id :: id in s.tombstones ==> id in t.tombstones
    ensures Sound(t) && Evolves(s, t)
  {
    EvolvesReflexive(s);
    forall i | 0 <= i < |s.events| ensures EventFits(t, s.events[i]) {
      assert EventFits(s, s.events[i]);
    }
  }

  lemma StepSound(s: Store, policy: Option<Retention>, step: Step)
    requires Sound(s)
    ensures Sound(Next(s, policy, step)) && Evolves(s, Next(s, policy, step))
  {
    hide Sound, Evolves, Since;
    match step
    case RecordStep(e) =>
      RecordSound(s, e);
      var (t, r) := Record(s, e);
      EvolvesReflexive(s);
      if r.Ok? {
        PruneSound(t, policy, r.value.timestamp);
        EvolvesTransitive(s, t, Pruned(t, policy, r.value.timestamp));
      }
    case FinalizeStep(id, n, d) => FinalizeSound(s, id, n, d);
    case PruneStep(now) => PruneSound(s, policy, now);
    case CreateStep(_) => LifecycleStepSound(s, policy, step);
    case BindStep(_, _, _) => LifecycleStepSound(s, policy, step);
    case EndStep(_, _, _) => LifecycleStepSound(s, policy, step);
    case ExpireStep(_, _) => LifecycleStepSound(s, policy, step);
  }

  lemma LifecycleStepSound(s: Store, policy: Option<Retention>, step: Step)
    requires Sound(s)
    requires step.CreateStep? || step.BindStep? || step.EndStep? || step.ExpireStep?
    ensures Sound(Next(s, policy, step)) && Evolves(s, Next(s, policy, step))
  {
    hide EventsOrdered, Evolves;
    LifecycleSound(s, Next(s, policy, step));
  }

  /** Session runs. Ownership is final, a terminated session never becomes active again, every
      stored event belongs to its session's owner, both positions are unique and grow in
      record order across pruning, and a final decision never changes. */
  lemma {:induction false} SessionHistory(s: Store, policy: Option<Retention>, steps: seq<Step>)
    requires Sound(s)
    ensures Sound(Run(s, policy, steps)) && Evolves(s, Run(s, policy, steps))
  {
    hide Next, Sound, Evolves;
    if steps == [] {
      EvolvesReflexive(s);
    } else {
      var mid := Run(s, policy, steps[..|steps| - 1]);
      SessionHistory(s, policy, steps[..|steps| - 1]);
      StepSound(mid, policy, steps[|steps| - 1]);
      EvolvesTransitive(s, mid, Run(s, policy, steps));
    }
  }

  lemma EmptySound()
    ensures Sound(EMPTY_SESSIONS)
  {
  }

  // ---- horizon queries ---------------------------------------------------------------------------

  lemma {:induction false} MatchingMembers(events: seq<Event>, q: HorizonQuery)
    ensures forall e :: e in Matching(events, q) <==> e in events && Matches(e, q)
  {
    if events != [] {
      MatchingMembers(events[..|events| - 1], q);
      assert events == events[..|events| - 1] + [events[|events| - 1]];
    }
  }

  lemma {:induction false} MatchingOrdered(events: seq<Event>, q: HorizonQuery)
    requires EventsOrdered(events)
    ensures EventsOrdered(Matching(events, q))
  {
    if events != [] {
      hide EventsOrdered, Precedes, Matches;
      var front, last := events[..|events| - 1], events[|events| - 1];
      assert events == front + [last];
      OrderedLast(front, last);
      MatchingOrdered(front, q);
      MatchingMembers(front, q);
      assert forall i :: 0 <= i < |Matching(front, q)| ==> Matching(front, q)[i] in front;
      OrderedAppend(Matching(front, q), last);
    } else {
      assert Matching(events, q) == events;
    }
  }

  /** The declared ordering of a query's answer is the order in which the events were recorded. */
  lemma EligibleInRecordOrder(s: Store, q: HorizonQuery)
    requires Sound(s)
    ensures Eligible(s.events, q) == Matching(s.events, q)
  {
    hide Matching;
    MatchingMembers(s.events, q);
    MatchingOrdered(s.events, q);
    var found := Matching(s.events, q);
    forall i, j | 0 <= i < j < |found| ensures ScopeOrder(q.scope)(found[i], found[j]) {
      assert found[i] in found && found[j] in found;
      assert Precedes(found[i], found[j]);
    }
    StableSortIdentity(ScopeOrder(q.scope), found);
  }

  /** A boundary taken from the allocator excludes everything recorded before it: no earlier
      event is returned by any later query at that boundary, however the run continues. */
  lemma NoEarlierEventEligible(s: Store, policy: Option<Retention>, steps: seq<Step>, q: HorizonQuery, f: Event)
    requires Sound(s) && q.baseline >= Counter(s.agentSequences, q.agentId)
    requires f in Eligible(Run(s, policy, steps).events, q)
    ensures NewSince(s, f)
    ensures forall e :: e in s.events ==> !SameRecord(e, f)
  {
    hide Run, Matching, EventsOrdered, Eligible;
    var t := Run(s, policy, steps);
    SessionHistory(s, policy, steps);
    EligibleInRecordOrder(t, q);
    MatchingMembers(t.events, q);
    assert Matches(f, q);
    var j :| 0 <= j < |t.events| && t.events[j] == f;
    forall e | e in s.events ensures !SameRecord(e, f) {
      var i :| 0 <= i < |s.events| && s.events[i] == e;
      assert EventFits(s, s.events[i]);
    }
  }

  // ---- pruning is invisible ------------------------------------------------------------------------

  /** The retained list is the full list with some events older than `horizon` taken out. */
  ghost predicate Thinned(kept: seq<Event>, full: seq<Event>, horizon: Option<Time>) {
    if full == [] then kept == []
    else
      var last := full[|full| - 1];
      || (kept != [] && kept[|kept| - 1] == last && Thinned(kept[..|kept| - 1], full[..|full| - 1], horizon))
      || (horizon.Some? && last.timestamp < horizon.value && Thinned(kept, full[..|full| - 1], horizon))
  }

  lemma ThinnedAppend(kept: seq<Event>, full: seq<Event>, horizon: Option<Time>, e: Event)
    requires Thinned(kept, full, horizon)
    ensures Thinned(kept + [e], full + [e], horizon)
  {
    assert (kept + [e])[..|kept|] == kept && (full + [e])[..|full|] == full;
  }

  function Later(a: Option<Time>, b: Time): Option<Time> {
    if a.None? then Some(b) else Some(Max(a.value, b))
  }

  lemma {:induction false} ThinnedPrune(kept: seq<Event>, full: seq<Event>, horizon: Option<Time>, cutoff: Time)
    requires Thinned(kept, full, horizon)
    ensures Thinned(Since(kept, cutoff), full, Later(horizon, cutoff))
  {
    if full != [] {
      var last := full[|full| - 1];
      if kept != [] && kept[|kept| - 1] == last && Thinned(kept[..|kept| - 1], full[..|full| - 1], horizon) {
        ThinnedPrune(kept[..|kept| - 1], full[..|full| - 1], horizon, cutoff);
        var rest := Since(kept[..|kept| - 1], cutoff);
        assert (rest + [last])[..|rest|] == rest;
      } else {
        ThinnedPrune(kept, full[..|full| - 1], horizon, cutoff);
      }
    }
  }

  lemma {:induction false} ThinnedMatching(kept: seq<Event>, full: seq<Event>, horizon: Option<Time>, q: HorizonQuery)
    requires Thinned(kept, full, horizon)
    requires horizon.Some? ==> horizon.value <= q.evaluationTime - q.window
    ensures Matching(kept, q) == Matching(full, q)
  {
    if full != [] {
      var last := full[|full| - 1];
      if kept != [] && kept[|kept| - 1] == last && Thinned(kept[..|kept| - 1], full[..|full| - 1], horizon) {
        ThinnedMatching(kept[..|kept| - 1], full[..|full| - 1], horizon, q);
      } else {
        ThinnedMatching(kept, full[..|full| - 1], horizon, q);
      }
    }
  }

  predicate Named(e: Event, id: string, n: nat) {
    e.sessionId == id && e.sequence == n
  }

  /** Finalising by name: every event so named, of which an ordered list has at most one. */
  function Stamped(events: seq<Event>, id: string, n: nat, d: Decision): seq<Event> {
    if events == [] then []
    else
      var last := events[|events| - 1];
      Stamped(events[..|events| - 1], id, n, d) + [if Named(last, id, n) then last.(finalDecision := Some(d)) else last]
  }

  lemma {:induction false} StampedAt(events: seq<Event>, id: string, n: nat, d: Decision)
    ensures |Stamped(events, id, n, d)| == |events|
    ensures forall i :: 0 <= i < |events| ==>
              Stamped(events, id, n, d)[i]
              == if Named(events[i], id, n) then events[i].(finalDecision := Some(d)) else events[i]
  {
    if events != [] {
      StampedAt(events[..|events| - 1], id, n, d);
    }
  }

  lemma FinalizeIsStamped(s: Store, id: string, n: nat, d: Decision)
    requires Sound(s) && id in s.sessions
    ensures var (t, r) := Finalize(s, id, n, d);
            && (r.Ok? ==> t.events == Stamped(s.events, id, n, d))
            && (r == Err(EventNotFound) <==> forall e :: e in s.events ==> !Named(e, id, n))
            && (r == Err(AlreadyFinalized)
                <==> exists e :: e in s.events && Named(e, id, n) && e.finalDecision.Some? && e.finalDecision.value != d)
  {
    StampedAt(s.events, id, n, d);
    var k := Find(s.events, id, n);
    forall i | 0 <= i < |s.events| && Named(s.events[i], id, n) ensures i == k {
    }
  }

  lemma {:induction false} ThinnedStamped(kept: seq<Event>, full: seq<Event>, horizon: Option<Time>,
                                          id: string, n: nat, d: Decision)
    requires Thinned(kept, full, horizon)
    ensures Thinned(Stamped(kept, id, n, d), Stamped(full, id, n, d), horizon)
  {
    if full != [] {
      var last := full[|full| - 1];
      var stamped := if Named(last, id, n) then last.(finalDecision := Some(d)) else last;
      if kept != [] && kept[|kept| - 1] == last && Thinned(kept[..|kept| - 1], full[..|full| - 1], horizon) {
        ThinnedStamped(kept[..|kept| - 1], full[..|full| - 1], horizon, id, n, d);
        ThinnedAppend(Stamped(kept[..|kept| - 1], id, n, d), Stamped(full[..|full| - 1], id, n, d), horizon, stamped);
      } else {
        ThinnedStamped(kept, full[..|full| - 1], horizon, id, n, d);
        var rest := Stamped(full[..|full| - 1], id, n, d);
        assert (rest + [stamped])[..|rest|] == rest;
      }
    }
  }

  lemma {:induction false} StampedNobody(events: seq<Event>, id: string, n: nat, d: Decision)
    requires forall e :: e in events ==> !Named(e, id, n)
    ensures Stamped(events, id, n, d) == events
  {
    if events != [] {
      assert events == events[..|events| - 1] + [events[|events| - 1]];
      StampedNobody(events[..|events| - 1], id, n, d);
    }
  }

  lemma {:induction false} ThinnedPart(kept: seq<Event>, full: seq<Event>, horizon: Option<Time>)
    requires Thinned(kept, full, horizon)
    ensures forall e :: e in kept ==> e in full
  {
    if full != [] {
      var last := full[|full| - 1];
      assert full == full[..|full| - 1] + [last];
      if kept != [] && kept[|kept| - 1] == last && Thinned(kept[..|kept| - 1], full[..|full| - 1], horizon) {
        assert kept == kept[..|kept| - 1] + [last];
        ThinnedPart(kept[..|kept| - 1], full[..|full| - 1], horizon);
      } else {
        ThinnedPart(kept, full[..|full| - 1], horizon);
      }
    }
  }

  /** One service that prunes and one that never does, driven by the same steps; `latest` is
      the latest moment pruning was asked for. */
  datatype Twins = Twins(kept: Store, full: Store, latest: Option<Time>)

  function NextTwins(w: Twins, policy: Retention, step: Step): Twins {
    Twins(Next(w.kept, Some(policy), step), Next(w.full, None, step),
          if step.PruneStep? then Later(w.latest, step.now)
          else if step.RecordStep? && Record(w.kept, step.event).1.Ok? then Later(w.latest, step.event.timestamp)
          else w.latest)
  }

  function RunTwins(policy: Retention, steps: seq<Step>): Twins {
    if steps == [] then Twins(EMPTY_SESSIONS, EMPTY_SESSIONS, None)
    else NextTwins(RunTwins(policy, steps[..|steps| - 1]), policy, steps[|steps| - 1])
  }

  function Horizon(policy: Retention, latest: Option<Time>): Option<Time> {
    if latest.None? then None else Some(Cutoff(policy, latest.value))
  }

  ghost predicate Agree(w: Twins, policy: Retention) {
    && Sound(w.kept) && Sound(w.full)
    && w.kept == w.full.(events := w.kept.events)
    && Thinned(w.kept.events, w.full.events, Horizon(policy, w.latest))
  }

  lemma FinalizeAgree(w: Twins, policy: Retention, id: string, n: nat, d: Decision)
    requires Agree(w, policy)
    ensures Agree(NextTwins(w, policy, FinalizeStep(id, n, d)), policy)
  {
    hide Sound, Thinned, Finalize;
    FinalizeSound(w.kept, id, n, d);
    FinalizeSound(w.full, id, n, d);
    FinalizeFrame(w.kept, id, n, d);
    FinalizeFrame(w.full, id, n, d);
    if id !in w.kept.tombstones && id in w.kept.sessions {
      ThinnedFinalize(w, Horizon(policy, w.latest), id, n, d);
    }
  }

  lemma FinalizeFrame(s: Store, id: string, n: nat, d: Decision)
    ensures var t := Finalize(s, id, n, d).0;
            t == s.(events := t.events) && (id in s.tombstones || id !in s.sessions ==> t == s)
  {
  }

  lemma ThinnedFinalize(w: Twins, horizon: Option<Time>, id: string, n: nat, d: Decision)
    requires Sound(w.kept) && Sound(w.full)
    requires w.kept == w.full.(events := w.kept.events) && id in w.kept.sessions && id !in w.kept.tombstones
    requires Thinned(w.kept.events, w.full.events, horizon)
    ensures Thinned(Finalize(w.kept, id, n, d).0.events, Finalize(w.full, id, n, d).0.events, horizon)
  {
    hide Thinned, Stamped, EventFits, EventsOrdered, Find;
    FinalizeIsStamped(w.kept, id, n, d);
    FinalizeIsStamped(w.full, id, n, d);
    ThinnedPart(w.kept.events, w.full.events, horizon);
    ThinnedStamped(w.kept.events, w.full.events, horizon, id, n, d);
    OneNamed(w.full, id, n);
    var kept, full := Finalize(w.kept, id, n, d).1, Finalize(w.full, id, n, d).1;
    if kept == Err(EventNotFound) {
      StampedNobody(w.kept.events, id, n, d);
    } else {
      assert kept == full;
    }
  }

  lemma OneNamed(s: Store, id: string, n: nat)
    requires Sound(s)
    ensures forall e, f :: e in s.events && f in s.events && Named(e, id, n) && Named(f, id, n) ==> e == f
  {
  }

  lemma RecordAgree(w: Twins, policy: Retention, e: Event)
    requires Agree(w, policy)
    ensures Agree(NextTwins(w, policy, RecordStep(e)), policy)
  {
    hide Thinned, EventFits, EventsOrdered, Since;
    StepSound(w.kept, Some(policy), RecordStep(e));
    StepSound(w.full, None, RecordStep(e));
    var (t, r) := Record(w.kept, e);
    if r.Ok? {
      var h := Horizon(policy, w.latest);
      ThinnedAppend(w.kept.events, w.full.events, h, r.value);
      ThinnedPrune(t.events, Record(w.full, e).0.events, h, Cutoff(policy, r.value.timestamp));
    }
  }

  lemma LifecycleAgree(w: Twins, policy: Retention, step: Step)
    requires w.kept == w.full.(events := w.kept.events)
    requires step.CreateStep? || step.BindStep? || step.EndStep? || step.ExpireStep?
    ensures var v := NextTwins(w, policy, step);
            && v.kept == v.full.(events := w.kept.events)
            && v.full.events == w.full.events && v.latest == w.latest
  {
    if step.ExpireStep? {
      assert IdleIn(w.kept, step.threshold, step.now) == IdleIn(w.full, step.threshold, step.now);
    }
  }

  lemma TwinStep(w: Twins, policy: Retention, step: Step)
    requires Agree(w, policy)
    ensures Agree(NextTwins(w, policy, step), policy)
  {
    hide Sound, Thinned, Since;
    StepSound(w.kept, Some(policy), step);
    StepSound(w.full, None, step);
    match step
    case RecordStep(e) => RecordAgree(w, policy, e);
    case FinalizeStep(id, n, d) => FinalizeAgree(w, policy, id, n, d);
    case PruneStep(now) =>
      ThinnedPrune(w.kept.events, w.full.events, Horizon(policy, w.latest), Cutoff(policy, now));
    case CreateStep(_) => LifecycleAgree(w, policy, step);
    case BindStep(_, _, _) => LifecycleAgree(w, policy, step);
    case EndStep(_, _, _) => LifecycleAgree(w, policy, step);
    case ExpireStep(_, _) => LifecycleAgree(w, policy, step);
  }

  lemma {:induction false} TwinsAgree(policy: Retention, steps: seq<Step>)
    ensures Agree(RunTwins(policy, steps), policy)
  {
    if steps != [] {
      TwinsAgree(policy, steps[..|steps| - 1]);
      TwinStep(RunTwins(policy, steps[..|steps| - 1]), policy, steps[|steps| - 1]);
    }
  }

  /** Pruning is invisible to detection. After any run, timestamps in any order, a query no
      wider than the retention window and no older than the latest pruning less the grace
      gets the same ordered list from the pruned store as from the one that kept everything. */
  lemma PruningIsInvisible(policy: Retention, steps: seq<Step>, q: HorizonQuery)
    requires q.window <= policy.window
    requires var w := RunTwins(policy, steps);
             w.latest.Some? ==> q.evaluationTime >= w.latest.value - policy.grace
    ensures var w := RunTwins(policy, steps);
            Eligible(w.kept.events, q) == Eligible(w.full.events, q)
  {
    var w := RunTwins(policy, steps);
    TwinsAgree(policy, steps);
    ThinnedMatching(w.kept.events, w.full.events, Horizon(policy, w.latest), q);
  }

  lemma ThreeSteps(policy: Retention, a: Step, b: Step, c: Step)
    ensures RunTwins(policy, [a, b, c])
            == NextTwins(NextTwins(NextTwins(Twins(EMPTY_SESSIONS, EMPTY_SESSIONS, None), policy, a), policy, b), policy, c)
  {
    hide NextTwins;
    assert [a, b, c][..2] == [a, b] && [a, b][..1] == [a] && [a][..0] == [];
    assert RunTwins(policy, [a]) == NextTwins(RunTwins(policy, []), policy, a);
    assert RunTwins(policy, [a, b]) == NextTwins(RunTwins(policy, [a]), policy, b);
  }

  lemma LoneEvent(policy: Retention, now: Time, e: Event)
    requires e.sequence == 0 && e.agentSequence == 0 && 0 <= policy.window + policy.grace
    ensures var bound := NextTwins(Twins(EMPTY_SESSIONS, EMPTY_SESSIONS, None), policy, BindStep(e.sessionId, e.agentId, now));
            var w := NextTwins(bound, policy, RecordStep(e));
            w.kept.events == [e.(sequence := 1, agentSequence := 1)] == w.full.events
  {
    var f := e.(sequence := 1, agentSequence := 1);
    assert [] + [f] == [f] && [f][..0] == [];
    assert Since([f], Cutoff(policy, f.timestamp)) == [f];
    hide Since, Find, Max;
    var s := Next(EMPTY_SESSIONS, Some(policy), BindStep(e.sessionId, e.agentId, now));
    assert s.events == [] && Record(s, e).1 == Ok(f) && Record(s, e).0.events == [f];
  }

  /** The bound is sharp: for any query reaching back past what a pruning moment retains there
      is a run whose two answers differ. */
  lemma PruningVisibleFurtherBack(policy: Retention, now: Time, agent: string, window: Time, evaluationTime: Time)
    requires 0 <= window && evaluationTime - window < Cutoff(policy, now) && 0 <= policy.window + policy.grace
    ensures var q := HorizonQuery(agent, AgentScope, window, evaluationTime, 0);
            var e := Event("s", agent, "t", None, DENY, None, 0, 0, evaluationTime - window);
            var w := RunTwins(policy, [BindStep("s", agent, now), RecordStep(e), PruneStep(now)]);
            && Eligible(w.kept.events, q) == []
            && Eligible(w.full.events, q) == [e.(sequence := 1, agentSequence := 1)]
  {
    hide Record, Bind;
    var q := HorizonQuery(agent, AgentScope, window, evaluationTime, 0);
    var e := Event("s", agent, "t", None, DENY, None, 0, 0, evaluationTime - window);
    var f := e.(sequence := 1, agentSequence := 1);
    ThreeSteps(policy, BindStep("s", agent, now), RecordStep(e), PruneStep(now));
    LoneEvent(policy, now, e);
    assert [f][..0] == [];
    assert Since([f], Cutoff(policy, now)) == [];
    assert Matching([f], q) == [f] && Matching([], q) == [];
    StableSortIdentity(ScopeOrder(AgentScope), [f]);
  }

  // ---- what each call answers -----------------------------------------------------------------------------

  /** A query answers with exactly the stored events of its agent, and of its session when it asks for
      one, that come after its boundary and lie in its window. */
  lemma EligibleExactly(events: seq<Event>, q: HorizonQuery, f: Event)
    ensures f in Eligible(events, q)
            <==> && f in events && f.agentId == q.agentId && f.agentSequence > q.baseline
                 && (q.scope.SessionScope? ==> f.sessionId == q.scope.sessionId)
                 && q.evaluationTime - q.window <= f.timestamp && f.timestamp <= q.evaluationTime
  {
    hide Matching;
    MatchingMembers(events, q);
    StableSortSorts(ScopeOrder(q.scope), Matching(events, q));
    assert f in Eligible(events, q) <==> f in multiset(Eligible(events, q));
    assert f in Matching(events, q) <==> f in multiset(Matching(events, q));
  }

  /** Binding. A terminated id is refused for good and another agent's session is refused; otherwise
      the session is the agent's, started when it first was, active now, and nothing else changes. */
  lemma BindingAnswers(s: Store, id: string, agent: string, now: Time)
    ensures var (t, r) := Bind(s, id, agent, now);
            && (r == Err(SessionTerminal) <==> id in s.tombstones)
            && (r == Err(SessionBinding) <==> id !in s.tombstones && id in s.sessions && s.sessions[id].agentId != agent)
            && (r.Err? ==> t == s && r.error in {SessionTerminal, SessionBinding})
            && (r.Ok? ==>
                  && (id in s.sessions ==> s.sessions[id].agentId == agent && r.value == s.sessions[id].(lastActivityAt := now))
                  && (id !in s.sessions ==> r.value == Session(id, agent, now, now))
                  && t == s.(sessions := s.sessions[id := r.value]))
  {
  }

  /** Recording. The refusals name the session's end, absence or owner, and positions are never the
      caller's; otherwise the event takes the next number of its session and of its agent, is stored
      last, and the session is active at the event's moment. */
  lemma RecordingAnswers(s: Store, e: Event)
    ensures var (t, r) := Record(s, e);
            var terminal, active := e.sessionId in s.tombstones, e.sessionId in s.sessions;
            && (r == Err(SessionTerminal) <==> terminal)
            && (r == Err(SessionNotFound) <==> !terminal && !active)
            && (r == Err(SessionBinding) <==> !terminal && active && s.sessions[e.sessionId].agentId != e.agentId)
            && (r == Err(CallerSuppliedSequence) <==>
                  !terminal && active && s.sessions[e.sessionId].agentId == e.agentId && (e.sequence > 0 || e.agentSequence > 0))
            && (r.Err? ==> t == s && r.error in {SessionTerminal, SessionNotFound, SessionBinding, CallerSuppliedSequence})
            && (r.Ok? ==>
                  && r.value == e.(sequence := Counter(s.sessionSequences, e.sessionId) + 1,
                                   agentSequence := Counter(s.agentSequences, e.agentId) + 1)
                  && t == Store(s.sessions[e.sessionId := s.sessions[e.sessionId].(lastActivityAt := e.timestamp)], s.tombstones,
                                s.events + [r.value], s.sessionSequences[e.sessionId := r.value.sequence],
                                s.agentSequences[e.agentId := r.value.agentSequence]))
  {
  }

  /** Finalizing. A decision is set on the one event the position names, set again only to itself, and
      refused for a terminated or absent session, an absent event, or another decision. */
  lemma FinalizingAnswers(s: Store, id: string, n: nat, d: Decision, e: Event)
    requires Sound(s) && e in s.events && e.sessionId == id && e.sequence == n
    ensures var (t, r) := Finalize(s, id, n, d);
            && (r == Err(SessionTerminal) <==> id in s.tombstones)
            && (r == Err(SessionNotFound) <==> id !in s.tombstones && id !in s.sessions)
            && (r == Err(AlreadyFinalized) <==>
                  id !in s.tombstones && id in s.sessions && e.finalDecision.Some? && e.finalDecision.value != d)
            && (r.Err? ==> t == s && r.error in {SessionTerminal, SessionNotFound, AlreadyFinalized})
            && (r.Ok? ==>
                  && (forall f :: f in t.events <==> f == e.(finalDecision := Some(d)) || (f in s.events && f != e))
                  && t == s.(events := t.events) && |t.events| == |s.events|)
  {
    hide EventFits;
    var k := Find(s.events, id, n);
    var i :| 0 <= i < |s.events| && s.events[i] == e;
    assert k <= i;
    assert k < i ==> Precedes(s.events[k], s.events[i]);
    assert s.events[k] == e;
    var changed := s.events[k := e.(finalDecision := Some(d))];
    assert changed[k] == e.(finalDecision := Some(d));
    forall f | f in s.events && f != e ensures f in changed {
      var j :| 0 <= j < |s.events| && s.events[j] == f;
      assert changed[j] == f;
    }
    forall f | f in changed ensures f == changed[k] || (f in s.events && f != e) {
      var j :| 0 <= j < |changed| && changed[j] == f;
      assert j < k ==> Precedes(s.events[j], s.events[k]);
      assert k < j ==> Precedes(s.events[k], s.events[j]);
    }
  }

  /** An event that is not stored cannot be finalized. */
  lemma FinalizingNothing(s: Store, id: string, n: nat, d: Decision)
    requires forall e :: e in s.events ==> !(e.sessionId == id && e.sequence == n)
    ensures var (t, r) := Finalize(s, id, n, d);
            t == s && r == Err(if id in s.tombstones then SessionTerminal else if id !in s.sessions then SessionNotFound else EventNotFound)
  {
    assert forall k :: 0 <= k < |s.events| ==> s.events[k] in s.events;
  }

  /** Ending. Only the owner ends a session; ending it again is as good as ending it, whatever ended it
      first, and anyone else is refused. */
  lemma EndingAnswers(s: Store, id: string, agent: string, now: Time)
    requires Sound(s)
    ensures var (t, r) := End(s, id, agent, now);
            && r == (if Owner(s, id).None? then Err(SessionNotFound) else if Owner(s, id) != Some(agent) then Err(SessionBinding) else Ok(()))
            && (if r.Ok? && id in s.sessions
                then t == s.(sessions := s.sessions - {id}, tombstones := s.tombstones[id := Tombstone(id, agent, now, EXPLICIT_END)])
                else t == s)
  {
    SoundIsDisjoint(s, id);
  }

  // ---- idleness ---------------------------------------------------------------------------------------------

  /** The moment at which a step touches the session: it is created, bound by its agent, or an event is
      recorded in it. */
  function Touch(s: Store, step: Step, id: string): Option<Time> {
    match step
    case CreateStep(session) =>
      if session.sessionId == id && Create(s, session).1.Ok? then Some(session.lastActivityAt) else None
    case BindStep(named, agent, now) => if named == id && Bind(s, id, agent, now).1.Ok? then Some(now) else None
    case RecordStep(e) => if e.sessionId == id && Record(s, e).1.Ok? then Some(e.timestamp) else None
    case _ => None
  }

  /** The moment of the latest touch of a run. */
  function LastTouch(policy: Option<Retention>, steps: seq<Step>, id: string): Option<Time> {
    if steps == [] then None
    else
      var touch := Touch(Run(EMPTY_SESSIONS, policy, steps[..|steps| - 1]), steps[|steps| - 1], id);
      if touch.Some? then touch else LastTouch(policy, steps[..|steps| - 1], id)
  }

  lemma StepActivity(s: Store, policy: Option<Retention>, step: Step, id: string)
    ensures var t := Next(s, policy, step);
            id in t.sessions ==>
              if Touch(s, step, id).Some? then t.sessions[id].lastActivityAt == Touch(s, step, id).value
              else id in s.sessions && t.sessions[id].lastActivityAt == s.sessions[id].lastActivityAt
  {
    hide Since, Find;
    match step
    case CreateStep(_) =>
    case BindStep(_, _, _) =>
    case RecordStep(_) =>
    case FinalizeStep(_, _, _) =>
    case EndStep(_, _, _) =>
    case ExpireStep(_, _) =>
    case PruneStep(_) =>
  }

  lemma {:induction false} ActivityIsLastTouch(policy: Option<Retention>, steps: seq<Step>, id: string)
    ensures var s := Run(EMPTY_SESSIONS, policy, steps);
            id in s.sessions ==> LastTouch(policy, steps, id) == Some(s.sessions[id].lastActivityAt)
  {
    hide Next, Touch;
    if steps != [] {
      ActivityIsLastTouch(policy, steps[..|steps| - 1], id);
      StepActivity(Run(EMPTY_SESSIONS, policy, steps[..|steps| - 1]), policy, steps[|steps| - 1], id);
    }
  }

  /** A session expires exactly when it is active and nothing touched it for the threshold, or longer;
      it then ends for good under its owner, and every other session is left as it was. */
  lemma ExpiresIffUntouched(policy: Option<Retention>, steps: seq<Step>, threshold: Time, now: Time, id: string)
    requires threshold > 0
    ensures var s := Run(EMPTY_SESSIONS, policy, steps);
            var (t, expired) := ExpireIdle(s, threshold, now);
            var idle := id in s.sessions && LastTouch(policy, steps, id).Some? && now - LastTouch(policy, steps, id).value >= threshold;
            && expired.Ok? && (id in expired.value <==> idle)
            && (idle ==> id !in t.sessions && id in t.tombstones
                         && t.tombstones[id] == Tombstone(id, s.sessions[id].agentId, now, IDLE_TIMEOUT))
            && (!idle ==> (id in t.sessions <==> id in s.sessions) && (id in t.tombstones <==> id in s.tombstones)
                          && (id in s.sessions ==> t.sessions[id] == s.sessions[id])
                          && (id in s.tombstones ==> t.tombstones[id] == s.tombstones[id]))
            && t.events == s.events && t.sessionSequences == s.sessionSequences && t.agentSequences == s.agentSequences
  {
    hide Run, LastTouch, Sound;
    ActivityIsLastTouch(policy, steps, id);
    EmptySound();
    SessionHistory(EMPTY_SESSIONS, policy, steps);
    SoundIsDisjoint(Run(EMPTY_SESSIONS, policy, steps), id);
  }

  lemma SoundIsDisjoint(s: Store, id: string)
    requires Sound(s)
    ensures !(id in s.sessions && id in s.tombstones)
  {
    assert id in s.sessions.Keys * s.tombstones.Keys <==> id in s.sessions && id in s.tombstones;
  }
}
