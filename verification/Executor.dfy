/** app/runtime/tool_executor.py and app/runtime/capability_registry.py: the boundary between a
    grant and the code it lets run. The sandbox is an arbitrary outcome. */
module Executor {
  import opened Prelude
  import opened Binding
  import opened GrantAuthority
  import opened ExecutionEvidence

  datatype Descriptor = Descriptor(
    toolId: string,
    version: string,
    enabled: bool,
    instantiable: bool,
    implementationId: string)

  /** A capability profile; `digest` is what `compute_digest` yields for it. */
  datatype Capabilities = Capabilities(profileId: string, timeout: Time, digest: string)

  /** Unsigned caller context. An empty name claims nothing. */
  datatype Context = Context(agent: string, session: string, requestId: string)

  /** What the executor was wired with. */
  datatype Wiring = Wiring(
    tools: Option<map<(string, string), Descriptor>>,
    authority: bool,
    sandbox: bool,
    profiles: Option<map<string, Capabilities>>,
    evidence: bool)

  /** A request to execute. `receiptId` is the identifier drawn for its receipt and
      `correlation` the one drawn when the caller brings no context. */
  datatype Attempt = Attempt(
    presented: Option<(Grant, Signature)>,
    parameters: Parameters,
    context: Option<Context>,
    receiptId: string,
    correlation: string)

  datatype ErrorKind = TimedOut | Exhausted | Isolated | Interrupted | OtherError

  datatype SandboxOutcome =
    | Raised(kind: ErrorKind)
    | Returned(output: Option<string>)
    | Unsuccessful(kind: ErrorKind)

  datatype Why =
    | MissingGrant
    | NoAuthority
    | ToolNotRegistered
    | ToolDisabled
    | InvalidRequest
    | NotAuthorized(refusal: Refusal)
    | ContextMismatch
    | SandboxUnavailable
    | ProfileNotFound
    | DigestMismatch
    | NotInstantiable
    | NoImplementation
    | InvalidProvenance
    | EvidenceUnavailable

  datatype ExecutionResult =
    | Output(output: Option<string>)
    | Refused(why: Why)
    | Failed(kind: ErrorKind, evidenceLost: bool)
    | NotEstablished

  /** What crosses into the sandbox, with the receipt opened for it. */
  datatype Call = Call(
    grant: Grant,
    requested: ExecutionBinding,
    capabilities: Capabilities,
    implementationId: string,
    receipt: Option<Receipt>)

  function TokenOf(at: Attempt): Token
    requires at.presented.Some?
  {
    Signed(at.presented.value.0, at.presented.value.1)
  }

  // ---- before the claim -------------------------------------------------------------------------

  /** `execute` up to the descriptor: materialise exactly the version the grant names. */
  function Resolve(wiring: Wiring, at: Attempt): Result<Descriptor, Why> {
    if at.presented.None? then Err(MissingGrant)
    else
      var b := at.presented.value.0.binding;
      if wiring.tools.None? then Err(NoAuthority)
      else if (b.toolId, b.toolVersion) !in wiring.tools.value then Err(ToolNotRegistered)
      else if !wiring.tools.value[(b.toolId, b.toolVersion)].enabled then Err(ToolDisabled)
      else Ok(wiring.tools.value[(b.toolId, b.toolVersion)])
  }

  /** The operation the resolved descriptor would actually perform. */
  function RequestedBinding(wiring: Wiring, at: Attempt, d: Descriptor): Result<ExecutionBinding, Why> {
    if !wiring.authority then Err(NoAuthority)
    else
      var requested := FromOperation(d.toolId, d.version, at.parameters, None);
      if requested.Err? then Err(InvalidRequest) else Ok(requested.value)
  }

  /** `_require_context_agrees_with_grant` */
  predicate ContextAgrees(context: Option<Context>, g: Grant) {
    context.None?
    || ((context.value.agent == "" || context.value.agent == g.agentId)
        && (context.value.session == "" || context.value.session == g.sessionId))
  }

  /** `verify_capability_binding` */
  function BindingFault(g: Grant, c: Capabilities): Option<Why> {
    if g.profileId.None? then Some(ProfileNotFound)
    else if g.profileId.value != c.profileId then Some(DigestMismatch)
    else if g.digest.None? then Some(DigestMismatch)
    else if g.digest.value != c.digest then Some(DigestMismatch)
    else None
  }

  /** The checks between verifying a grant and claiming it. */
  function CapabilitiesFor(wiring: Wiring, at: Attempt, g: Grant): Result<Capabilities, Why> {
    if !ContextAgrees(at.context, g) then Err(ContextMismatch)
    else if !wiring.sandbox then Err(SandboxUnavailable)
    else if g.profileId.None? || g.profileId.value == "" then Err(ProfileNotFound)
    else if wiring.profiles.None? || g.profileId.value !in wiring.profiles.value then Err(ProfileNotFound)
    else
      var c := wiring.profiles.value[g.profileId.value];
      if BindingFault(g, c).Some? then Err(BindingFault(g, c).value) else Ok(c)
  }

  // ---- after the claim ----------------------------------------------------------------------------

  function RequestId(at: Attempt): string {
    if at.context.Some? then at.context.value.requestId else at.correlation
  }

  /** The refusals that remain once the grant is spent and before evidence is written. */
  function Unready(d: Descriptor, at: Attempt, g: Grant): Option<Why> {
    if !d.instantiable then Some(NotInstantiable)
    else if d.implementationId == "" then Some(NoImplementation)
    else if RequestId(at) == "" || g.agentId == "" || g.sessionId == "" || g.binding.toolId == "" || g.binding.toolVersion == ""
    then Some(InvalidProvenance)
    else None
  }

  function ReceiptFor(d: Descriptor, at: Attempt, g: Grant, c: Capabilities, startedAt: Time): Receipt {
    Receipt(at.receiptId, g.id,
            Provenance(g.sessionId, g.agentId, RequestId(at), d.toolId, g.binding.toolVersion, d.implementationId,
                       g.binding, if g.profileId.Some? then g.profileId.value else "",
                       if g.digest.Some? then g.digest.value else ""),
            c.timeout, startedAt, STARTED, Pending)
  }

  function StatusOf(outcome: SandboxOutcome): ExecutionStatus {
    if outcome.Returned? then SUCCEEDED
    else match outcome.kind
      case TimedOut => TIMEOUT
      case Interrupted => INTERRUPTED
      case Exhausted => FAILED
      case Isolated => FAILED
      case OtherError => FAILED
  }

  function CodeOf(kind: ErrorKind): string {
    match kind
    case TimedOut => "EXECUTION_TIMEOUT"
    case Exhausted => "RESOURCE_EXHAUSTED"
    case Isolated => "ISOLATION_FAILURE"
    case Interrupted => "EXECUTION_INTERRUPTED"
    case OtherError => "TOOL_EXECUTION_ERROR"
  }

  function ObservedOf(outcome: SandboxOutcome, completedAt: Time, duration: int): Outcome {
    if outcome.Returned? then Observed(completedAt, duration, None, None, outcome.output)
    else Observed(completedAt, duration, Some(CodeOf(outcome.kind)), Some(CodeOf(outcome.kind)), None)
  }

  /** The caller's result, given whether the terminal evidence was recorded. */
  function ResultOf(outcome: SandboxOutcome, recorded: bool): ExecutionResult {
    if outcome.Returned? then (if recorded then Output(outcome.output) else NotEstablished)
    else Failed(outcome.kind, !recorded)
  }

  // ---- one attempt, step by step ----------------------------------------------------------------------

  datatype Phase =
    | Waiting
    | Verified(descriptor: Descriptor, requested: ExecutionBinding)
    | Cleared(descriptor: Descriptor, requested: ExecutionBinding, capabilities: Capabilities)
    | Claimed(descriptor: Descriptor, requested: ExecutionBinding, capabilities: Capabilities)
    | Opened(call: Call)
    | Ran(call: Call, outcome: SandboxOutcome)
    | Finished(result: ExecutionResult)

  /** What the clock, the sandbox and measurement supply to a step. */
  datatype Moment = Moment(now: Time, monotonic: Time, duration: int, outcome: SandboxOutcome)

  /** The shared state an attempt works against, and the calls that reached the sandbox. */
  datatype Shared = Shared(authority: Authority, store: Store, calls: seq<Call>)

  /** The next step of an attempt. Each touches the authority or the store at most once. */
  function Advance(wiring: Wiring, bound: nat, at: Attempt, phase: Phase, s: Shared, m: Moment): (Phase, Shared) {
    match phase
    case Waiting =>
      var d := Resolve(wiring, at);
      if d.Err? then (Finished(Refused(d.error)), s)
      else
        var requested := RequestedBinding(wiring, at, d.value);
        if requested.Err? then (Finished(Refused(requested.error)), s)
        else
          var (a, refusal) := Verify(s.authority, if at.presented.Some? then TokenOf(at) else NoGrant, requested.value, m.now);
          (if refusal.Some? then Finished(Refused(NotAuthorized(refusal.value))) else Verified(d.value, requested.value),
           s.(authority := a))
    case Verified(d, requested) =>
      if at.presented.None? then (Finished(Refused(MissingGrant)), s)
      else
        var c := CapabilitiesFor(wiring, at, at.presented.value.0);
        (if c.Err? then Finished(Refused(c.error)) else Cleared(d, requested, c.value), s)
    case Cleared(d, requested, c) =>
      var (a, refusal) := Claim(s.authority, if at.presented.Some? then TokenOf(at) else NoGrant, requested, m.now);
      (if refusal.Some? then Finished(Refused(NotAuthorized(refusal.value))) else Claimed(d, requested, c),
       s.(authority := a))
    case Claimed(d, requested, c) =>
      if at.presented.None? then (Finished(Refused(MissingGrant)), s)
      else
        var g := at.presented.value.0;
        if Unready(d, at, g).Some? then (Finished(Refused(Unready(d, at, g).value)), s)
        else if !wiring.evidence then (Opened(Call(g, requested, c, d.implementationId, None)), s)
        else
          var (store, r) := Open(s.store, ReceiptFor(d, at, g, c, m.now), Some(m.monotonic));
          (if r.Err? then Finished(Refused(EvidenceUnavailable))
           else Opened(Call(g, requested, c, d.implementationId, Some(r.value))), s.(store := store))
    case Opened(call) => (Ran(call, m.outcome), s.(calls := s.calls + [call]))
    case Ran(call, outcome) =>
      if !wiring.evidence then (Finished(ResultOf(outcome, true)), s)
      else
        var (store, r) := RecordTerminal(s.store, bound, at.receiptId, StatusOf(outcome), ObservedOf(outcome, m.now, m.duration));
        (Finished(ResultOf(outcome, r.Ok?)), s.(store := store))
    case Finished(_) => (phase, s)
  }

  type Moments = (Moment, Moment, Moment)

  /** Three steps of an attempt: up to the claim when it is waiting, to its end afterwards. */
  function Thrice(wiring: Wiring, bound: nat, at: Attempt, phase: Phase, s: Shared, ms: Moments): (Phase, Shared) {
    var (p, t) := Advance(wiring, bound, at, phase, s, ms.0);
    var (q, u) := Advance(wiring, bound, at, p, t, ms.1);
    Advance(wiring, bound, at, q, u, ms.2)
  }

  /** The isolation backend: it keeps what crossed into it. */
  class Sandbox {
    var calls: seq<Call>

    constructor ()
      ensures calls == []
    {
      calls := [];
    }

    method Execute(call: Call, outcome: SandboxOutcome) returns (r: SandboxOutcome)
      modifies this
      ensures calls == old(calls) + [call] && r == outcome
    {
      calls := calls + [call];
      r := outcome;
    }
  }

  class DefaultToolExecutor {
    const tools: Option<map<(string, string), Descriptor>>
    const authority: ExecutionAuthority?
    const evidenceStore: ExecutionEvidenceService?
    const sandbox: Sandbox?
    const profiles: Option<map<string, Capabilities>>

    constructor (tools: Option<map<(string, string), Descriptor>>, authority: ExecutionAuthority?,
                 evidenceStore: ExecutionEvidenceService?, sandbox: Sandbox?, profiles: Option<map<string, Capabilities>>)
      ensures this.tools == tools && this.authority == authority && this.evidenceStore == evidenceStore
      ensures this.sandbox == sandbox && this.profiles == profiles
    {
      this.tools, this.authority, this.evidenceStore := tools, authority, evidenceStore;
      this.sandbox, this.profiles := sandbox, profiles;
    }

    function Wired(): Wiring {
      Wiring(tools, authority != null, sandbox != null, profiles, evidenceStore != null)
    }

    ghost function View(): Shared
      reads authority, evidenceStore, sandbox
    {
      Shared(if authority == null then Authority("", 1, map[], 0, map[], map[], map[]) else authority.View(),
             if evidenceStore == null then EMPTY_EVIDENCE else evidenceStore.View(),
             if sandbox == null then [] else sandbox.calls)
    }

    function Bound(): nat {
      if evidenceStore == null then 0 else evidenceStore.maxTerminalReceipts
    }

    /** `_verify_and_prepare`, for the descriptor the grant's version resolved to. */
    method VerifyAndPrepare(d: Descriptor, at: Attempt, ms: Moments) returns (r: Result<(ExecutionBinding, Capabilities), Why>)
      requires Resolve(Wired(), at) == Ok(d)
      modifies authority
      ensures Thrice(Wired(), Bound(), at, Waiting, old(View()), ms)
              == (if r.Ok? then Claimed(d, r.value.0, r.value.1) else Finished(Refused(r.error)), View())
    {
      hide Verify, Claim, FromOperation, BindingFault;
      if authority == null {
        return Err(NoAuthority);
      }
      var requested := FromOperation(d.toolId, d.version, at.parameters, None);
      if requested.Err? {
        return Err(InvalidRequest);
      }
      var refusal := authority.VerifyGrant(TokenOf(at), requested.value, ms.0.now);
      if refusal.Some? {
        return Err(NotAuthorized(refusal.value));
      }
      var g := at.presented.value.0;
      if !ContextAgrees(at.context, g) {
        return Err(ContextMismatch);
      }
      if sandbox == null {
        return Err(SandboxUnavailable);
      }
      if g.profileId.None? || g.profileId.value == "" {
        return Err(ProfileNotFound);
      }
      if profiles.None? || g.profileId.value !in profiles.value {
        return Err(ProfileNotFound);
      }
      var capabilities := profiles.value[g.profileId.value];
      var fault := BindingFault(g, capabilities);
      if fault.Some? {
        return Err(fault.value);
      }
      refusal := authority.ClaimGrant(TokenOf(at), requested.value, ms.2.now);
      if refusal.Some? {
        return Err(NotAuthorized(refusal.value));
      }
      r := Ok((requested.value, capabilities));
    }

    /** `instantiate` and `_run`. */
    method RunClaimed(d: Descriptor, at: Attempt, requested: ExecutionBinding, capabilities: Capabilities, ms: Moments)
      returns (result: ExecutionResult)
      requires at.presented.Some? && sandbox != null
      modifies evidenceStore, sandbox
      ensures Thrice(Wired(), Bound(), at, Claimed(d, requested, capabilities), old(View()), ms) == (Finished(result), View())
    {
      hide Open, RecordTerminal, ReceiptFor, Unready;
      var g := at.presented.value.0;
      var unready := Unready(d, at, g);
      if unready.Some? {
        return Refused(unready.value);
      }
      var receipt: Option<Receipt> := None;
      if evidenceStore != null {
        var r := StartEvidence(d, at, g, capabilities, ms.0);
        if r.Err? {
          return Refused(EvidenceUnavailable);
        }
        receipt := Some(r.value);
      }
      var outcome := sandbox.Execute(Call(g, requested, capabilities, d.implementationId, receipt), ms.1.outcome);
      var recorded := true;
      if evidenceStore != null {
        var r := evidenceStore.RecordTerminalReceipt(at.receiptId, StatusOf(outcome), ObservedOf(outcome, ms.2.now, ms.2.duration));
        recorded := r.Ok?;
      }
      result := ResultOf(outcome, recorded);
    }

    method StartEvidence(d: Descriptor, at: Attempt, g: Grant, capabilities: Capabilities, m: Moment)
      returns (r: Result<Receipt, EvidenceError>)
      requires evidenceStore != null
      modifies evidenceStore
      ensures (evidenceStore.View(), r)
              == Open(old(evidenceStore.View()), ReceiptFor(d, at, g, capabilities, m.now), Some(m.monotonic))
    {
      r := evidenceStore.RecordStarted(
        at.receiptId, g.id,
        Provenance(g.sessionId, g.agentId, RequestId(at), d.toolId, g.binding.toolVersion, d.implementationId, g.binding,
                   if g.profileId.Some? then g.profileId.value else "", if g.digest.Some? then g.digest.value else ""),
        capabilities.timeout, m.now, Some(m.monotonic));
    }

    /** `execute`, the production path: six steps from Waiting, with nothing in between. */
    method Execute(at: Attempt, before: Moments, after: Moments) returns (result: ExecutionResult)
      modifies authority, evidenceStore, sandbox
      ensures var (phase, s) := Thrice(Wired(), Bound(), at, Waiting, old(View()), before);
              Thrice(Wired(), Bound(), at, phase, s, after) == (Finished(result), View())
    {
      if at.presented.None? {
        return Refused(MissingGrant);
      }
      var b := at.presented.value.0.binding;
      if tools.None? {
        return Refused(NoAuthority);
      }
      if (b.toolId, b.toolVersion) !in tools.value {
        return Refused(ToolNotRegistered);
      }
      var d := tools.value[(b.toolId, b.toolVersion)];
      if !d.enabled {
        return Refused(ToolDisabled);
      }
      hide Advance;
      var prepared := VerifyAndPrepare(d, at, before);
      if prepared.Err? {
        FinishedStays(Wired(), Bound(), at, Refused(prepared.error), View(), after);
        return Refused(prepared.error);
      }
      ClearedNeedsSandbox(Wired(), Bound(), at, old(View()), before);
      result := RunClaimed(d, at, prepared.value.0, prepared.value.1, after);
    }
  }

  lemma FinishedStays(wiring: Wiring, bound: nat, at: Attempt, result: ExecutionResult, s: Shared, ms: Moments)
    ensures Thrice(wiring, bound, at, Finished(result), s, ms) == (Finished(result), s)
  {
  }

  lemma ClearedNeedsSandbox(wiring: Wiring, bound: nat, at: Attempt, s: Shared, ms: Moments)
    requires Thrice(wiring, bound, at, Waiting, s, ms).0.Claimed?
    ensures wiring.sandbox
  {
    hide Verify, Claim, FromOperation, BindingFault;
  }
}
