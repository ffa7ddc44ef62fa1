/**
 The tool gateway (go/tools.go) as many calls in flight over one store. Each call is a program counter; each
 advance is one atomic store call, a read, or the tool running. Any call may crash at any point, and any
 other client may make any store call in between.
 */
module Gateway {
  import opened Json
  import opened Text
  import opened Store
  import opened CostAttribution

  // ---------------------------------------------------------------- policy

  datatype RolePolicy = RolePolicy(
    allowTools: map<string, bool>, denyTools: map<string, bool>, allowRisk: map<string, bool>, denyRisk: map<string, bool>)

  datatype Policy = Policy(roles: map<string, RolePolicy>, defaultByRisk: map<string, string>)

  predicate Flag(m: map<string, bool>, k: string) { k in m && m[k] }

  predicate IsHighRisk(risk: string) { risk in {"high", "destructive", "sensitive", "financial_or_legal"} }

  predicate DefaultIs(p: Policy, risk: string, answer: string) { risk in p.defaultByRisk && p.defaultByRisk[risk] == answer }

  /** Fails closed: a role's explicit denial always wins, and a high-risk tool needs an explicit grant. */
  predicate CheckTool(p: Policy, role: string, tool: string, risk: string)
    ensures role in p.roles && Flag(p.roles[role].denyTools, tool) ==> !CheckTool(p, role, tool, risk)
    ensures IsHighRisk(risk) && CheckTool(p, role, tool, risk) ==>
              || (role in p.roles && (Flag(p.roles[role].allowTools, tool) || Flag(p.roles[role].allowRisk, risk)))
              || DefaultIs(p, risk, "allow")
  {
    if role in p.roles && Flag(p.roles[role].denyTools, tool) then false
    else if role in p.roles && Flag(p.roles[role].allowTools, tool) then true
    else if role in p.roles && Flag(p.roles[role].denyRisk, risk) then false
    else if role in p.roles && Flag(p.roles[role].allowRisk, risk) then true
    else if role in p.roles && (|p.roles[role].allowTools| > 0 || |p.roles[role].allowRisk| > 0) then false
    else if DefaultIs(p, risk, "allow") then true
    else if DefaultIs(p, risk, "deny") then false
    else !IsHighRisk(risk)
  }

  // ---------------------------------------------------------------- budget

  /** Go's conversion of a float to an int: towards zero. */
  function Truncate(x: real): int { if x >= 0.0 then x.Floor else -((-x).Floor) }

  /** `BeforeToolCall`: no limit, or fewer calls recorded than the limit. */
  predicate WithinBudget(d: StoreData, runId: Id, maxToolCalls: int)
  {
    maxToolCalls <= 0 || Truncate(Summarize(Costs(d, runId)).toolCalls) < maxToolCalls
  }

  // ---------------------------------------------------------------- calls in flight

  datatype ToolSpec = ToolSpec(
    name: string, riskLevel: string, sideEffect: string, idempotencyRequired: bool, approvalRequired: bool,
    sandboxRequired: bool)

  /** What a call is about. `inputOk` is the verdict of the input schema on the arguments. */
  datatype Request = Request(
    runId: Id, sessionId: Id, stepId: Id, agentRole: string, stateVersion: nat, spec: ToolSpec, requestHash: string,
    inputOk: bool)

  function IdempotencyKey(r: Request): Id { r.runId + ":" + r.stepId + ":" + r.spec.name + ":" + r.requestHash }

  predicate IsManaged(spec: ToolSpec) { spec.sideEffect != "none" || spec.idempotencyRequired }

  /** What running the tool gives: a value, with the verdict of the output schema on it, or an error. */
  datatype ToolOutcome = Produced(value: Json, outputOk: bool) | Raised

  datatype Reason =
    | InputInvalid | PermissionDenied | ApprovalNeeded | OverBudget | AwaitsVerification | InProgress | LedgerMissing
    | ToolFailed | MayRetry

  datatype CallResult = Value(value: Json) | Error(reason: Reason)

  datatype Pc =
    | Start | RejectInput | CheckPolicy | NoteDenied | AskApproval | NoteAsked | NoteRequired
    | Permit(allowed: bool) | CheckBudget | NoteOverBudget | ReserveKey
    | NoteReplay(value: Json) | CostReplay(value: Json)
    | MarkRunning | Launch | RunSandbox | NoteSandbox(outcome: ToolOutcome)
    | FailMark | FailNote | SucceedMark(value: Json) | DoneNote(value: Json) | DoneCost(value: Json)
    | Finished(result: CallResult) | Crashed

  datatype Frame = Frame(req: Request, key: Id, managed: bool, pc: Pc)

  predicate Halted(pc: Pc) { pc.Finished? || pc.Crashed? }

  datatype Config = Config(policy: Policy, maxToolCalls: int, executorConfigured: bool)

  /** The inputs of one advance: the time, an identifier in case one is drawn, and what the tool does if it runs. */
  datatype Move = Move(now: Time, drawn: Id, outcome: ToolOutcome)

  function Note(f: Frame, kind: Kind): Op
  {
    Append(f.req.runId, Draft(kind, f.req.sessionId, f.req.stepId, f.req.agentRole, f.req.stateVersion, NoPayload))
  }

  function CallCost(f: Frame): Op
  {
    RecordCost(f.req.runId, f.req.sessionId, CostRecord(f.req.stepId, "tool", f.req.spec.name, 1.0, "call"))
  }

  /** The store call an advance makes. */
  function FrameOp(f: Frame, m: Move): Op
  {
    match f.pc
    case Start => Note(f, ToolCallRequested)
    case RejectInput => Note(f, ToolCallFailed)
    case CheckPolicy => Read
    case NoteDenied => Note(f, PermissionDecided)
    case AskApproval => RequestApproval(f.key, m.drawn, f.req.runId, f.req.sessionId, f.req.stepId, f.req.spec.name)
    case NoteAsked => Note(f, PermissionDecided)
    case NoteRequired => Note(f, ApprovalRequired)
    case Permit(_) => Note(f, PermissionDecided)
    case CheckBudget => Read
    case NoteOverBudget => Note(f, BudgetCheckFailed)
    case ReserveKey => Reserve(f.key, m.drawn, f.req.runId, f.req.stepId, f.req.spec.name)
    case NoteReplay(_) => Note(f, ToolCallCompleted)
    case CostReplay(_) => CallCost(f)
    case MarkRunning => UpdateLedger(f.key, RUNNING, "", Null)
    case Launch => if f.req.spec.sandboxRequired then Note(f, SandboxStarted) else Read
    case RunSandbox => Read
    case NoteSandbox(_) => Note(f, SandboxCompleted)
    case FailMark => UpdateLedger(f.key, PENDING_VERIFICATION, "error", Null)
    case FailNote => Note(f, ToolCallFailed)
    case SucceedMark(v) => UpdateLedger(f.key, SUCCEEDED, "", v)
    case DoneNote(_) => Note(f, ToolCallCompleted)
    case DoneCost(_) => CallCost(f)
    case Finished(_) => Read
    case Crashed => Read
  }

  /** Where a call goes once its tool has run. */
  function AfterRun(f: Frame, outcome: ToolOutcome): Pc
  {
    if outcome.Raised? || !outcome.outputOk then (if f.managed then FailMark else FailNote)
    else if f.managed then SucceedMark(outcome.value) else DoneNote(outcome.value)
  }

  function AfterPolicy(cfg: Config, f: Frame, d: StoreData): Pc
  {
    var answer := CheckTool(cfg.policy, f.req.agentRole, f.req.spec.name, f.req.spec.riskLevel);
    if f.key in d.approvals then
      match d.approvals[f.key].status
      case DENIED => NoteDenied
      case APPROVED => Permit(true)
      case PENDING => Permit(answer)
    else if f.req.spec.approvalRequired then AskApproval
    else Permit(answer)
  }

  function AfterReserve(f: Frame, d: StoreData): Pc
  {
    if f.key !in d.ledger then MarkRunning
    else
      match d.ledger[f.key].status
      case SUCCEEDED => NoteReplay(d.ledger[f.key].response)
      case PENDING_VERIFICATION => Finished(Error(AwaitsVerification))
      case FAILED_NO_EFFECT => MarkRunning
      case _ => Finished(Error(InProgress))
  }

  /** The next program point, decided on the store as it was when the advance began. */
  function Next(cfg: Config, f: Frame, d: StoreData, m: Move): Pc
  {
    match f.pc
    case Start => if f.req.inputOk then CheckPolicy else RejectInput
    case RejectInput => Finished(Error(InputInvalid))
    case CheckPolicy => AfterPolicy(cfg, f, d)
    case NoteDenied => Finished(Error(PermissionDenied))
    case AskApproval => NoteAsked
    case NoteAsked => NoteRequired
    case NoteRequired => Finished(Error(ApprovalNeeded))
    case Permit(allowed) => if allowed then CheckBudget else Finished(Error(PermissionDenied))
    case CheckBudget =>
      if !WithinBudget(d, f.req.runId, cfg.maxToolCalls) then NoteOverBudget
      else if f.managed then ReserveKey else Launch
    case NoteOverBudget => Finished(Error(OverBudget))
    case ReserveKey => AfterReserve(f, d)
    case NoteReplay(v) => CostReplay(v)
    case CostReplay(v) => Finished(Value(v))
    case MarkRunning => if f.key in d.ledger then Launch else Finished(Error(LedgerMissing))
    case Launch => if f.req.spec.sandboxRequired then RunSandbox else AfterRun(f, m.outcome)
    case RunSandbox => NoteSandbox(if cfg.executorConfigured then m.outcome else Raised)
    case NoteSandbox(outcome) => AfterRun(f, outcome)
    case FailMark => FailNote
    case FailNote => Finished(Error(if f.managed then MayRetry else ToolFailed))
    case SucceedMark(v) => if f.key in d.ledger then DoneNote(v) else Finished(Error(LedgerMissing))
    case DoneNote(v) => DoneCost(v)
    case DoneCost(v) => Finished(Value(v))
    case Finished(r) => Finished(r)
    case Crashed => Crashed
  }

  /** The tool actually runs: its own function, or through the configured executor. */
  predicate Invokes(cfg: Config, f: Frame)
  {
    (f.pc.Launch? && !f.req.spec.sandboxRequired) || (f.pc.RunSandbox? && cfg.executorConfigured)
  }

  datatype Invocation = Invocation(req: Request, key: Id, managed: bool, viaExecutor: bool, outcome: ToolOutcome)

  // ---------------------------------------------------------------- the system

  /** The store, the calls ever begun, and what happened: tool runs, how often a key was declared to have had
      no effect, keys whose approval was granted, and successes other clients wrote into the ledger. */
  datatype Sys = Sys(
    world: World, frames: seq<Frame>, invocations: seq<Invocation>, noEffect: multiset<Id>, granted: set<Id>,
    written: set<(Id, Json)>)

  const INITIAL := Sys(START, [], [], multiset{}, {}, {})

  datatype Act = Begin(req: Request) | Advance(i: nat, move: Move) | Crash(i: nat) | Env(call: Call)

  ghost predicate Enabled(s: Sys, a: Act)
  {
    match a
    case Begin(req) => req.stepId in s.world.data.steps && OfClaim(s.world.data, req.runId, req.stepId)
    case Advance(i, m) => i < |s.frames| && !Halted(s.frames[i].pc) && Allowed(s.world, Call(FrameOp(s.frames[i], m), m.now))
    case Crash(i) => i < |s.frames| && !Halted(s.frames[i].pc)
    case Env(call) => Allowed(s.world, call)
  }

  function AdvanceFrame(cfg: Config, s: Sys, i: nat, m: Move): Sys
    requires i < |s.frames|
  {
    var f := s.frames[i];
    s.(world := Apply(s.world, Call(FrameOp(f, m), m.now)),
       frames := s.frames[i := f.(pc := Next(cfg, f, s.world.data, m))],
       invocations := if Invokes(cfg, f) then s.invocations + [Invocation(f.req, f.key, f.managed, f.pc.RunSandbox?, m.outcome)]
                      else s.invocations)
  }

  function NoEffectSet(d: StoreData, op: Op): multiset<Id>
  {
    if op.UpdateLedger? && op.key in d.ledger && op.ledgerStatus == FAILED_NO_EFFECT then multiset{op.key} else multiset{}
  }

  function Granted(op: Op): set<Id> { if op.Decide? && op.decision == APPROVED then {op.key} else {} }

  function Written(op: Op): set<(Id, Json)>
  {
    if op.UpdateLedger? && op.ledgerStatus == SUCCEEDED then {(op.key, op.response)} else {}
  }

  function Do(cfg: Config, s: Sys, a: Act): Sys
  {
    match a
    case Begin(req) => s.(frames := s.frames + [Frame(req, IdempotencyKey(req), IsManaged(req.spec), Start)])
    case Advance(i, m) => if i < |s.frames| then AdvanceFrame(cfg, s, i, m) else s
    case Crash(i) => if i < |s.frames| then s.(frames := s.frames[i := s.frames[i].(pc := Crashed)]) else s
    case Env(call) =>
      s.(world := Apply(s.world, call), noEffect := s.noEffect + NoEffectSet(s.world.data, call.op),
         granted := s.granted + Granted(call.op), written := s.written + Written(call.op))
  }

  function Play(cfg: Config, s: Sys, acts: seq<Act>): Sys
    decreases |acts|
  {
    if acts == [] then s else Play(cfg, Do(cfg, s, acts[0]), acts[1..])
  }

  ghost predicate Legal(cfg: Config, s: Sys, acts: seq<Act>)
    decreases |acts|
  {
    acts == [] || (Enabled(s, acts[0]) && Legal(cfg, Do(cfg, s, acts[0]), acts[1..]))
  }

  // ---------------------------------------------------------------- counting calls

  datatype Phase =
    | Armed      // holds the reservation, has not yet marked it running
    | Firing     // about to run the tool
    | LiveOnKey  // managed, neither finished nor crashed
    | Charging   // past the budget check, its cost not yet recorded
    | LiveOnRun

  predicate In(f: Frame, phase: Phase, id: Id)
  {
    match phase
    case Armed => f.managed && f.key == id && f.pc.MarkRunning?
    case Firing => f.managed && f.key == id && (f.pc.Launch? || f.pc.RunSandbox?)
    case LiveOnKey => f.managed && f.key == id && !Halted(f.pc)
    case Charging =>
      f.req.runId == id &&
      (f.pc.ReserveKey? || f.pc.NoteReplay? || f.pc.CostReplay? || f.pc.MarkRunning? || f.pc.Launch? || f.pc.RunSandbox?
       || f.pc.NoteSandbox? || f.pc.SucceedMark? || f.pc.DoneNote? || f.pc.DoneCost?)
    case LiveOnRun => f.req.runId == id && !Halted(f.pc)
  }

  function One(b: bool): nat { if b then 1 else 0 }

  function Count(frames: seq<Frame>, phase: Phase, id: Id): nat
  {
    if frames == [] then 0
    else Count(frames[..|frames| - 1], phase, id) + One(In(frames[|frames| - 1], phase, id))
  }

  lemma {:induction false} CountUpdate(frames: seq<Frame>, i: nat, f: Frame, phase: Phase, id: Id)
    requires i < |frames|
    ensures Count(frames[i := f], phase, id) + One(In(frames[i], phase, id)) == Count(frames, phase, id) + One(In(f, phase, id))
  {
    var init := frames[..|frames| - 1];
    if i == |init| {
      assert frames[i := f][..|init|] == init;
    } else {
      assert frames[i := f][..|init|] == init[i := f];
      CountUpdate(init, i, f, phase, id);
    }
  }

  lemma CountSnoc(frames: seq<Frame>, f: Frame, phase: Phase, id: Id)
    ensures Count(frames + [f], phase, id) == Count(frames, phase, id) + One(In(f, phase, id))
  {
    assert (frames + [f])[..|frames|] == frames;
  }

  lemma {:induction false} CountWithin(frames: seq<Frame>, id: Id)
    ensures Count(frames, Armed, id) + Count(frames, Firing, id) <= Count(frames, LiveOnKey, id) <= |frames|
    ensures Count(frames, Charging, id) <= Count(frames, LiveOnRun, id)
  {
    if frames != [] {
      CountWithin(frames[..|frames| - 1], id);
    }
  }

  /** Managed runs of the tool under a key. */
  function ExecCount(invocations: seq<Invocation>, key: Id): nat
  {
    if invocations == [] then 0
    else
      var last := invocations[|invocations| - 1];
      ExecCount(invocations[..|invocations| - 1], key) + One(last.managed && last.key == key)
  }

  /** Never more than `k` calls in the given phase at once. */
  ghost predicate Overlap(cfg: Config, s: Sys, acts: seq<Act>, phase: Phase, id: Id, k: nat)
    decreases |acts|
  {
    Count(s.frames, phase, id) <= k && (acts != [] ==> Overlap(cfg, Do(cfg, s, acts[0]), acts[1..], phase, id, k))
  }
}
