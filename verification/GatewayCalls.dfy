/**
 What one call of the gateway does when nothing comes in between: its result, what it leaves in the store, how often
 it ran the tool and which events it logged, told from the request and the store it began on. `Call` of the gateway
 class is such a call, so this is what that method does.
 */
module GatewayCalls {
  import opened Json
  import opened Text
  import opened Store
  import opened CostAttribution
  import opened Gateway
  import opened ToolGateways

  // ---------------------------------------------------------------- what a call leaves

  function Kinds(log: seq<Event>): seq<Kind> { seq(|log|, i requires 0 <= i < |log| => log[i].draft.kind) }

  function ApprovalAt(d: StoreData, key: Id): Option<ApprovalStatus>
  {
    if key in d.approvals then Some(d.approvals[key].status) else None
  }

  function EntryAt(d: StoreData, key: Id): Option<(LedgerStatus, Json)>
  {
    if key in d.ledger then Some((d.ledger[key].status, d.ledger[key].response)) else None
  }

  /** The events logged since, the approval and the ledger entry of the key, the costs added, the runs of the tool. */
  datatype Trace = Trace(
    events: seq<Kind>, approval: Option<ApprovalStatus>, entry: Option<(LedgerStatus, Json)>, costs: seq<CostRecord>, runs: int)

  /** The event is of the request's session and step and, but for the cost record, of its agent and state version. */
  predicate IsEventOf(r: Request, draft: Draft)
  {
    draft.sessionId == r.sessionId && draft.stepId == r.stepId
    && (draft.kind.CostRecorded? || (draft.agentRole == r.agentRole && draft.stateVersion == r.stateVersion))
  }

  ghost predicate LogsEventsOf(r: Request, before: seq<Event>, after: seq<Event>)
  {
    before <= after && forall i :: |before| <= i < |after| ==> IsEventOf(r, after[i].draft)
  }

  /** `e` is what `d` becomes with this trace of the request, and nothing else of it has changed. */
  ghost predicate Leaves(d: StoreData, e: StoreData, r: Request, trace: Trace)
  {
    var key := IdempotencyKey(r);
    && e.runs == d.runs && e.steps == d.steps
    && Kinds(Log(e, r.runId)) == Kinds(Log(d, r.runId)) + trace.events && LogsEventsOf(r, Log(d, r.runId), Log(e, r.runId))
    && Costs(e, r.runId) == Costs(d, r.runId) + trace.costs
    && ApprovalAt(e, key) == trace.approval && EntryAt(e, key) == trace.entry
    && (forall k :: k != key ==> EntryAt(e, k) == EntryAt(d, k) && ApprovalAt(e, k) == ApprovalAt(d, k))
    && (forall other :: other != r.runId ==> Log(e, other) == Log(d, other) && Costs(e, other) == Costs(d, other))
  }

  function Charge(r: Request): CostRecord { CostRecord(r.stepId, "tool", r.spec.name, 1.0, "call") }

  // ---------------------------------------------------------------- what decides

  predicate IsDenied(r: Request, d: StoreData) { ApprovalAt(d, IdempotencyKey(r)) == Some(DENIED) }

  predicate MustAsk(r: Request, d: StoreData) { r.spec.approvalRequired && ApprovalAt(d, IdempotencyKey(r)) == None }

  predicate IsPermitted(cfg: Config, r: Request, d: StoreData)
  {
    CheckTool(cfg.policy, r.agentRole, r.spec.name, r.spec.riskLevel) || ApprovalAt(d, IdempotencyKey(r)) == Some(APPROVED)
  }

  predicate Passes(cfg: Config, r: Request, d: StoreData)
  {
    r.inputOk && !IsDenied(r, d) && !MustAsk(r, d) && IsPermitted(cfg, r, d)
  }

  predicate PassesBudget(cfg: Config, r: Request, d: StoreData) { Passes(cfg, r, d) && WithinBudget(d, r.runId, cfg.maxToolCalls) }

  /** The reservation would let the call run its tool. */
  predicate IsFree(r: Request, d: StoreData)
  {
    var entry := EntryAt(d, IdempotencyKey(r));
    entry.None? || entry.value.0 == FAILED_NO_EFFECT
  }

  predicate Reaches(cfg: Config, r: Request, d: StoreData) { PassesBudget(cfg, r, d) && (IsManaged(r.spec) ==> IsFree(r, d)) }

  predicate HasExecutor(cfg: Config, r: Request) { r.spec.sandboxRequired ==> cfg.executorConfigured }

  predicate Works(cfg: Config, r: Request, outcome: ToolOutcome)
  {
    HasExecutor(cfg, r) && outcome.Produced? && outcome.outputOk
  }

  // ---------------------------------------------------------------- where a call is, and what it has left by then

  const REQUESTED := [ToolCallRequested]

  const PERMITTED := [ToolCallRequested, PermissionDecided]

  function Ran(r: Request): seq<Kind> { if r.spec.sandboxRequired then PERMITTED + [SandboxStarted, SandboxCompleted] else PERMITTED }

  function Marked(r: Request, d: StoreData, status: LedgerStatus, response: Json): Option<(LedgerStatus, Json)>
  {
    if IsManaged(r.spec) then Some((status, response)) else EntryAt(d, IdempotencyKey(r))
  }

  /** The program points a call of this request reaches on this store, the store being all its own. */
  predicate OnCourse(cfg: Config, r: Request, d: StoreData, outcome: ToolOutcome, pc: Pc)
  {
    match pc
    case Start => true
    case RejectInput => !r.inputOk
    case CheckPolicy => r.inputOk
    case NoteDenied => r.inputOk && IsDenied(r, d)
    case AskApproval => r.inputOk && MustAsk(r, d)
    case NoteAsked => r.inputOk && MustAsk(r, d)
    case NoteRequired => r.inputOk && MustAsk(r, d)
    case Permit(allowed) => r.inputOk && !IsDenied(r, d) && !MustAsk(r, d) && allowed == IsPermitted(cfg, r, d)
    case CheckBudget => Passes(cfg, r, d)
    case NoteOverBudget => Passes(cfg, r, d) && !PassesBudget(cfg, r, d)
    case ReserveKey => PassesBudget(cfg, r, d) && IsManaged(r.spec)
    case NoteReplay(v) => PassesBudget(cfg, r, d) && IsManaged(r.spec) && EntryAt(d, IdempotencyKey(r)) == Some((SUCCEEDED, v))
    case CostReplay(v) => PassesBudget(cfg, r, d) && IsManaged(r.spec) && EntryAt(d, IdempotencyKey(r)) == Some((SUCCEEDED, v))
    case MarkRunning => Reaches(cfg, r, d) && IsManaged(r.spec)
    case Launch => Reaches(cfg, r, d)
    case RunSandbox => Reaches(cfg, r, d) && r.spec.sandboxRequired
    case NoteSandbox(o) => Reaches(cfg, r, d) && r.spec.sandboxRequired && o == (if cfg.executorConfigured then outcome else Raised)
    case FailMark => Reaches(cfg, r, d) && !Works(cfg, r, outcome) && IsManaged(r.spec)
    case FailNote => Reaches(cfg, r, d) && !Works(cfg, r, outcome)
    case SucceedMark(v) => Reaches(cfg, r, d) && IsManaged(r.spec) && Works(cfg, r, outcome) && v == outcome.value
    case DoneNote(v) => Reaches(cfg, r, d) && Works(cfg, r, outcome) && v == outcome.value
    case DoneCost(v) => Reaches(cfg, r, d) && Works(cfg, r, outcome) && v == outcome.value
    case Finished(result) => result == Ending(cfg, r, d, outcome)
    case Crashed => false
  }

  function Ending(cfg: Config, r: Request, d: StoreData, outcome: ToolOutcome): CallResult
  {
    var entry := EntryAt(d, IdempotencyKey(r));
    if !r.inputOk then Error(InputInvalid)
    else if IsDenied(r, d) then Error(PermissionDenied)
    else if MustAsk(r, d) then Error(ApprovalNeeded)
    else if !IsPermitted(cfg, r, d) then Error(PermissionDenied)
    else if !PassesBudget(cfg, r, d) then Error(OverBudget)
    else if Reaches(cfg, r, d) then
      (if Works(cfg, r, outcome) then Value(outcome.value) else Error(if IsManaged(r.spec) then MayRetry else ToolFailed))
    else if entry.value.0 == SUCCEEDED then Value(entry.value.1)
    else Error(if entry.value.0 == PENDING_VERIFICATION then AwaitsVerification else InProgress)
  }

  /** What it has left when it gets there. */
  function TraceAt(cfg: Config, r: Request, d: StoreData, outcome: ToolOutcome, pc: Pc): Trace
  {
    var t := Trace(PERMITTED, ApprovalAt(d, IdempotencyKey(r)), EntryAt(d, IdempotencyKey(r)), [], 0);
    var done := t.(events := Ran(r), entry := Marked(r, d, RUNNING, Null), runs := One(HasExecutor(cfg, r)));
    match pc
    case Start => t.(events := [])
    case RejectInput => t.(events := REQUESTED)
    case CheckPolicy => t.(events := REQUESTED)
    case NoteDenied => t.(events := REQUESTED)
    case AskApproval => t.(events := REQUESTED)
    case NoteAsked => t.(events := REQUESTED, approval := Some(PENDING))
    case NoteRequired => t.(approval := Some(PENDING))
    case Permit(_) => t.(events := REQUESTED)
    case CostReplay(_) => t.(events := PERMITTED + [ToolCallCompleted])
    case MarkRunning => t.(entry := Some(if EntryAt(d, IdempotencyKey(r)).None? then (RESERVED, Null) else EntryAt(d, IdempotencyKey(r)).value))
    case Launch => t.(entry := Marked(r, d, RUNNING, Null))
    case RunSandbox => t.(events := PERMITTED + [SandboxStarted], entry := Marked(r, d, RUNNING, Null))
    case NoteSandbox(_) => done.(events := PERMITTED + [SandboxStarted])
    case FailMark => done
    case FailNote => done.(entry := Marked(r, d, PENDING_VERIFICATION, Null))
    case SucceedMark(_) => done
    case DoneNote(v) => done.(entry := Marked(r, d, SUCCEEDED, v))
    case DoneCost(v) => done.(events := Ran(r) + [ToolCallCompleted], entry := Marked(r, d, SUCCEEDED, v))
    case Finished(_) => TraceAtEnd(cfg, r, d, outcome)
    case _ => t
  }

  function TraceAtEnd(cfg: Config, r: Request, d: StoreData, outcome: ToolOutcome): Trace
  {
    var t := Trace(PERMITTED, ApprovalAt(d, IdempotencyKey(r)), EntryAt(d, IdempotencyKey(r)), [], 0);
    var done := t.(runs := One(HasExecutor(cfg, r)));
    if !r.inputOk then t.(events := [ToolCallRequested, ToolCallFailed])
    else if IsDenied(r, d) then t
    else if MustAsk(r, d) then t.(events := PERMITTED + [ApprovalRequired], approval := Some(PENDING))
    else if !IsPermitted(cfg, r, d) then t
    else if !PassesBudget(cfg, r, d) then t.(events := PERMITTED + [BudgetCheckFailed])
    else if Reaches(cfg, r, d) then
      (if Works(cfg, r, outcome)
       then done.(events := Ran(r) + [ToolCallCompleted, CostRecorded], entry := Marked(r, d, SUCCEEDED, outcome.value), costs := [Charge(r)])
       else done.(events := Ran(r) + [ToolCallFailed], entry := Marked(r, d, PENDING_VERIFICATION, Null)))
    else if EntryAt(d, IdempotencyKey(r)).value.0 == SUCCEEDED then
      t.(events := PERMITTED + [ToolCallCompleted, CostRecorded], costs := [Charge(r)])
    else t
  }

  // ---------------------------------------------------------------- one step

  /** What the step of a program point adds to the trace. */
  function Grown(r: Request, t: Trace, pc: Pc): Trace
  {
    match pc
    case Start => t.(events := t.events + [ToolCallRequested])
    case RejectInput => t.(events := t.events + [ToolCallFailed])
    case NoteDenied => t.(events := t.events + [PermissionDecided])
    case AskApproval => if t.approval.None? then t.(approval := Some(PENDING)) else t
    case NoteAsked => t.(events := t.events + [PermissionDecided])
    case NoteRequired => t.(events := t.events + [ApprovalRequired])
    case Permit(_) => t.(events := t.events + [PermissionDecided])
    case NoteOverBudget => t.(events := t.events + [BudgetCheckFailed])
    case ReserveKey => if t.entry.None? then t.(entry := Some((RESERVED, Null))) else t
    case NoteReplay(_) => t.(events := t.events + [ToolCallCompleted])
    case CostReplay(_) => t.(events := t.events + [CostRecorded], costs := t.costs + [Charge(r)])
    case MarkRunning => if t.entry.Some? then t.(entry := Some((RUNNING, Null))) else t
    case Launch => if r.spec.sandboxRequired then t.(events := t.events + [SandboxStarted]) else t
    case NoteSandbox(_) => t.(events := t.events + [SandboxCompleted])
    case FailMark => if t.entry.Some? then t.(entry := Some((PENDING_VERIFICATION, Null))) else t
    case FailNote => t.(events := t.events + [ToolCallFailed])
    case SucceedMark(v) => if t.entry.Some? then t.(entry := Some((SUCCEEDED, v))) else t
    case DoneNote(_) => t.(events := t.events + [ToolCallCompleted])
    case DoneCost(_) => t.(events := t.events + [CostRecorded], costs := t.costs + [Charge(r)])
    case _ => t
  }

  lemma Noted(d: StoreData, e: StoreData, r: Request, t: Trace, draft: Draft, now: Time)
    requires Leaves(d, e, r, t) && IsEventOf(r, draft)
    ensures Leaves(d, Emit(e, r.runId, now, [draft]), r, t.(events := t.events + [draft.kind]))
  {
    var f := Emit(e, r.runId, now, [draft]);
    assert Log(f, r.runId) == Log(e, r.runId) + [Event(|Log(e, r.runId)| + 1, now, draft)];
    assert Kinds(Log(f, r.runId)) == Kinds(Log(e, r.runId)) + [draft.kind];
  }

  function WithCost(e: StoreData, r: Request): StoreData { e.(costs := e.costs[r.runId := Costs(e, r.runId) + [Charge(r)]]) }

  lemma CostAdded(d: StoreData, e: StoreData, r: Request, t: Trace)
    requires Leaves(d, e, r, t)
    ensures Leaves(d, WithCost(e, r), r, t.(costs := t.costs + [Charge(r)]))
  {
    assert Costs(d, r.runId) + t.costs + [Charge(r)] == Costs(d, r.runId) + (t.costs + [Charge(r)]);
  }

  lemma Charged(d: StoreData, e: StoreData, r: Request, t: Trace, now: Time)
    requires Leaves(d, e, r, t)
    ensures Leaves(d, RecordCostEffect(e, r.runId, r.sessionId, Charge(r), now), r,
                   t.(events := t.events + [CostRecorded], costs := t.costs + [Charge(r)]))
  {
    CostAdded(d, e, r, t);
    Noted(d, WithCost(e, r), r, t.(costs := t.costs + [Charge(r)]),
          Plain(CostRecorded, r.sessionId, r.stepId), now);
  }

  lemma Reserved(d: StoreData, e: StoreData, r: Request, t: Trace, ledgerId: Id, runId: Id, stepId: Id, tool: string, now: Time)
    requires Leaves(d, e, r, t)
    ensures Leaves(d, Effect(e, Reserve(IdempotencyKey(r), ledgerId, runId, stepId, tool), now), r,
                   if t.entry.None? then t.(entry := Some((RESERVED, Null))) else t)
  {
  }

  lemma Updated(d: StoreData, e: StoreData, r: Request, t: Trace, status: LedgerStatus, errorType: string, response: Json, now: Time)
    requires Leaves(d, e, r, t)
    ensures Leaves(d, Effect(e, UpdateLedger(IdempotencyKey(r), status, errorType, response), now), r,
                   if t.entry.Some? then t.(entry := Some((status, response))) else t)
  {
  }

  lemma Asked(d: StoreData, e: StoreData, r: Request, t: Trace, approvalId: Id, now: Time)
    requires Leaves(d, e, r, t)
    ensures Leaves(d, Effect(e, RequestApproval(IdempotencyKey(r), approvalId, r.runId, r.sessionId, r.stepId, r.spec.name), now), r,
                   if t.approval.None? then t.(approval := Some(PENDING)) else t)
  {
  }

  /** The trace when the store call of a step is added to it. */
  predicate Adds(r: Request, t: Trace, op: Op, grown: Trace)
  {
    match op
    case Append(runId, draft) => runId == r.runId && IsEventOf(r, draft) && grown == t.(events := t.events + [draft.kind])
    case RecordCost(runId, sessionId, record) =>
      && runId == r.runId && sessionId == r.sessionId && record == Charge(r)
      && grown == t.(events := t.events + [CostRecorded], costs := t.costs + [Charge(r)])
    case Reserve(key, _, _, _, _) =>
      key == IdempotencyKey(r) && grown == if t.entry.None? then t.(entry := Some((RESERVED, Null))) else t
    case UpdateLedger(key, status, _, response) =>
      key == IdempotencyKey(r) && grown == if t.entry.Some? then t.(entry := Some((status, response))) else t
    case RequestApproval(key, _, runId, sessionId, stepId, tool) =>
      && key == IdempotencyKey(r) && runId == r.runId && sessionId == r.sessionId && stepId == r.stepId && tool == r.spec.name
      && grown == if t.approval.None? then t.(approval := Some(PENDING)) else t
    case Read => grown == t
    case _ => false
  }

  lemma StepAdds(r: Request, t: Trace, pc: Pc, m: Move)
    ensures Adds(r, t, FrameOp(FrameOf(r).(pc := pc), m), Grown(r, t, pc))
  {
  }

  lemma OpLeaves(d: StoreData, e: StoreData, r: Request, t: Trace, op: Op, now: Time, grown: Trace)
    requires Leaves(d, e, r, t) && Adds(r, t, op, grown)
    ensures Leaves(d, Effect(e, op, now), r, grown)
  {
    match op {
      case Append(_, draft) => Noted(d, e, r, t, draft, now);
      case RecordCost(_, _, _) => Charged(d, e, r, t, now);
      case Reserve(_, ledgerId, runId, stepId, tool) => Reserved(d, e, r, t, ledgerId, runId, stepId, tool, now);
      case UpdateLedger(_, status, errorType, response) => Updated(d, e, r, t, status, errorType, response, now);
      case RequestApproval(_, id, _, _, _, _) => Asked(d, e, r, t, id, now);
      case Read =>
    }
  }

  /** What a step reads of the store. */
  predicate Reads(r: Request, e: StoreData, t: Trace)
  {
    ApprovalAt(e, IdempotencyKey(r)) == t.approval && EntryAt(e, IdempotencyKey(r)) == t.entry
  }

  /** From one program point to the next. */
  ghost predicate Proceeds(cfg: Config, r: Request, d: StoreData, e: StoreData, pc: Pc, m: Move)
  {
    var t, f := TraceAt(cfg, r, d, m.outcome, pc), FrameOf(r).(pc := pc);
    && OnCourse(cfg, r, d, m.outcome, Next(cfg, f, e, m))
    && TraceAt(cfg, r, d, m.outcome, Next(cfg, f, e, m)) == Grown(r, t, pc).(runs := t.runs + One(Invokes(cfg, f)))
  }

  lemma AdmissionStep(cfg: Config, r: Request, d: StoreData, e: StoreData, pc: Pc, m: Move)
    requires OnCourse(cfg, r, d, m.outcome, pc) && Reads(r, e, TraceAt(cfg, r, d, m.outcome, pc))
    requires pc.Start? || pc.RejectInput? || pc.CheckPolicy? || pc.NoteDenied?
    ensures Proceeds(cfg, r, d, e, pc, m)
  {
  }

  lemma PermissionStep(cfg: Config, r: Request, d: StoreData, e: StoreData, pc: Pc, m: Move)
    requires OnCourse(cfg, r, d, m.outcome, pc) && Reads(r, e, TraceAt(cfg, r, d, m.outcome, pc))
    requires pc.AskApproval? || pc.NoteAsked? || pc.NoteRequired? || pc.Permit?
    ensures Proceeds(cfg, r, d, e, pc, m)
  {
  }

  lemma BudgetStep(cfg: Config, r: Request, d: StoreData, e: StoreData, pc: Pc, m: Move)
    requires OnCourse(cfg, r, d, m.outcome, pc) && Reads(r, e, TraceAt(cfg, r, d, m.outcome, pc))
    requires pc.CheckBudget? || pc.NoteOverBudget?
    requires pc.CheckBudget? ==> Costs(e, r.runId) == Costs(d, r.runId)
    ensures Proceeds(cfg, r, d, e, pc, m)
  {
  }

  lemma KeyStep(cfg: Config, r: Request, d: StoreData, e: StoreData, pc: Pc, m: Move)
    requires OnCourse(cfg, r, d, m.outcome, pc) && Reads(r, e, TraceAt(cfg, r, d, m.outcome, pc))
    requires pc.ReserveKey? || pc.MarkRunning?
    ensures Proceeds(cfg, r, d, e, pc, m)
  {
  }

  lemma ReplayStep(cfg: Config, r: Request, d: StoreData, e: StoreData, pc: Pc, m: Move)
    requires OnCourse(cfg, r, d, m.outcome, pc) && Reads(r, e, TraceAt(cfg, r, d, m.outcome, pc))
    requires pc.NoteReplay?
    ensures Proceeds(cfg, r, d, e, pc, m)
  {
  }

  lemma ReplayEnds(cfg: Config, r: Request, d: StoreData, e: StoreData, pc: Pc, m: Move)
    requires OnCourse(cfg, r, d, m.outcome, pc) && Reads(r, e, TraceAt(cfg, r, d, m.outcome, pc))
    requires pc.CostReplay?
    ensures Proceeds(cfg, r, d, e, pc, m)
  {
  }

  lemma NoStep(cfg: Config, r: Request, d: StoreData, e: StoreData, pc: Pc, m: Move)
    requires OnCourse(cfg, r, d, m.outcome, pc) && Reads(r, e, TraceAt(cfg, r, d, m.outcome, pc))
    requires pc.Finished? || pc.Crashed?
    ensures Proceeds(cfg, r, d, e, pc, m)
  {
  }

  lemma LaunchStep(cfg: Config, r: Request, d: StoreData, e: StoreData, pc: Pc, m: Move)
    requires OnCourse(cfg, r, d, m.outcome, pc) && Reads(r, e, TraceAt(cfg, r, d, m.outcome, pc))
    requires pc.Launch?
    ensures Proceeds(cfg, r, d, e, pc, m)
  {
  }

  lemma ExecutorStep(cfg: Config, r: Request, d: StoreData, e: StoreData, pc: Pc, m: Move)
    requires OnCourse(cfg, r, d, m.outcome, pc) && Reads(r, e, TraceAt(cfg, r, d, m.outcome, pc))
    requires pc.RunSandbox?
    ensures Proceeds(cfg, r, d, e, pc, m)
  {
  }

  lemma SandboxStep(cfg: Config, r: Request, d: StoreData, e: StoreData, pc: Pc, m: Move)
    requires OnCourse(cfg, r, d, m.outcome, pc) && Reads(r, e, TraceAt(cfg, r, d, m.outcome, pc))
    requires pc.NoteSandbox?
    ensures Proceeds(cfg, r, d, e, pc, m)
  {
  }

  lemma FailMarkStep(cfg: Config, r: Request, d: StoreData, e: StoreData, pc: Pc, m: Move)
    requires OnCourse(cfg, r, d, m.outcome, pc) && Reads(r, e, TraceAt(cfg, r, d, m.outcome, pc))
    requires pc.FailMark?
    ensures Proceeds(cfg, r, d, e, pc, m)
  {
  }

  lemma FailNoteStep(cfg: Config, r: Request, d: StoreData, e: StoreData, pc: Pc, m: Move)
    requires OnCourse(cfg, r, d, m.outcome, pc) && Reads(r, e, TraceAt(cfg, r, d, m.outcome, pc))
    requires pc.FailNote?
    ensures Proceeds(cfg, r, d, e, pc, m)
  {
  }

  lemma SucceedStep(cfg: Config, r: Request, d: StoreData, e: StoreData, pc: Pc, m: Move)
    requires OnCourse(cfg, r, d, m.outcome, pc) && Reads(r, e, TraceAt(cfg, r, d, m.outcome, pc))
    requires pc.SucceedMark?
    ensures Proceeds(cfg, r, d, e, pc, m)
  {
  }

  lemma DoneStep(cfg: Config, r: Request, d: StoreData, e: StoreData, pc: Pc, m: Move)
    requires OnCourse(cfg, r, d, m.outcome, pc) && Reads(r, e, TraceAt(cfg, r, d, m.outcome, pc))
    requires pc.DoneNote? || pc.DoneCost?
    ensures Proceeds(cfg, r, d, e, pc, m)
  {
  }

  lemma EveryStep(cfg: Config, r: Request, d: StoreData, e: StoreData, pc: Pc, m: Move)
    requires OnCourse(cfg, r, d, m.outcome, pc) && Reads(r, e, TraceAt(cfg, r, d, m.outcome, pc))
    requires pc.CheckBudget? ==> Costs(e, r.runId) == Costs(d, r.runId)
    ensures Proceeds(cfg, r, d, e, pc, m)
  {
    if pc.Start? || pc.RejectInput? || pc.CheckPolicy? || pc.NoteDenied? {
      AdmissionStep(cfg, r, d, e, pc, m);
    } else if pc.AskApproval? || pc.NoteAsked? || pc.NoteRequired? || pc.Permit? {
      PermissionStep(cfg, r, d, e, pc, m);
    } else if pc.CheckBudget? || pc.NoteOverBudget? {
      BudgetStep(cfg, r, d, e, pc, m);
    } else if pc.ReserveKey? || pc.MarkRunning? {
      KeyStep(cfg, r, d, e, pc, m);
    } else if pc.NoteReplay? {
      ReplayStep(cfg, r, d, e, pc, m);
    } else if pc.CostReplay? {
      ReplayEnds(cfg, r, d, e, pc, m);
    } else if pc.Finished? || pc.Crashed? {
      NoStep(cfg, r, d, e, pc, m);
    } else if pc.Launch? {
      LaunchStep(cfg, r, d, e, pc, m);
    } else if pc.RunSandbox? {
      ExecutorStep(cfg, r, d, e, pc, m);
    } else if pc.NoteSandbox? {
      SandboxStep(cfg, r, d, e, pc, m);
    } else if pc.FailMark? {
      FailMarkStep(cfg, r, d, e, pc, m);
    } else if pc.FailNote? {
      FailNoteStep(cfg, r, d, e, pc, m);
    } else if pc.SucceedMark? {
      SucceedStep(cfg, r, d, e, pc, m);
    } else {
      DoneStep(cfg, r, d, e, pc, m);
    }
  }

  // ---------------------------------------------------------------- the whole call

  /** A call run alone, somewhere on its way. */
  ghost predicate Tracks(cfg: Config, r: Request, d: StoreData, outcome: ToolOutcome, s: Solo)
  {
    && s.frame == FrameOf(r).(pc := s.frame.pc) && OnCourse(cfg, r, d, outcome, s.frame.pc)
    && Leaves(d, s.data, r, TraceAt(cfg, r, d, outcome, s.frame.pc))
    && s.invoked == TraceAt(cfg, r, d, outcome, s.frame.pc).runs
  }

  lemma MoveTracks(cfg: Config, r: Request, d: StoreData, s: Solo, m: Move)
    requires Tracks(cfg, r, d, m.outcome, s)
    ensures Tracks(cfg, r, d, m.outcome, Moved(cfg, s, m))
  {
    var t := TraceAt(cfg, r, d, m.outcome, s.frame.pc);
    assert Costs(d, r.runId) + [] == Costs(d, r.runId);
    EveryStep(cfg, r, d, s.data, s.frame.pc, m);
    StepAdds(r, t, s.frame.pc, m);
    OpLeaves(d, s.data, r, t, FrameOp(s.frame, m), m.now, Grown(r, t, s.frame.pc));
  }

  lemma BeginTracks(cfg: Config, r: Request, d: StoreData, outcome: ToolOutcome)
    ensures Tracks(cfg, r, d, outcome, Begun(r, d))
  {
  }

  lemma {:induction false} FollowTracks(cfg: Config, r: Request, d: StoreData, outcome: ToolOutcome, moves: seq<Move>)
    requires forall m :: m in moves ==> m.outcome == outcome
    ensures Tracks(cfg, r, d, outcome, Follow(cfg, Begun(r, d), moves))
  {
    if moves == [] {
      BeginTracks(cfg, r, d, outcome);
    } else {
      FollowTracks(cfg, r, d, outcome, moves[..|moves| - 1]);
      MoveTracks(cfg, r, d, Follow(cfg, Begun(r, d), moves[..|moves| - 1]), moves[|moves| - 1]);
    }
  }

  /** A call of the request, begun on `d` with the store to itself and finished. */
  ghost predicate Finishes(cfg: Config, inputs: Inputs, r: Request, d: StoreData, moves: seq<Move>, result: CallResult, e: StoreData, runs: int)
  {
    Stands(cfg, inputs, Begun(r, d), moves, Finished(result), e, runs)
  }

  lemma FinishedTracks(cfg: Config, inputs: Inputs, r: Request, d: StoreData, moves: seq<Move>, result: CallResult, e: StoreData, runs: int)
    requires Finishes(cfg, inputs, r, d, moves, result, e, runs)
    ensures result == Ending(cfg, r, d, inputs.outcome)
    ensures Leaves(d, e, r, TraceAtEnd(cfg, r, d, inputs.outcome)) && runs == TraceAtEnd(cfg, r, d, inputs.outcome).runs
  {
    FollowTracks(cfg, r, d, inputs.outcome, moves);
    assert Tracks(cfg, r, d, inputs.outcome, Follow(cfg, Begun(r, d), moves));
  }

  /** A call that is admitted, permitted, within budget and free to run its tool, and whose tool works: the caller gets
      the value, the tool ran once, a managed entry holds the value as succeeded, and one tool call is on record. */
  lemma WorkingToolSucceeds(cfg: Config, inputs: Inputs, r: Request, d: StoreData, moves: seq<Move>, result: CallResult, e: StoreData, runs: int)
    requires Finishes(cfg, inputs, r, d, moves, result, e, runs)
    requires Reaches(cfg, r, d) && HasExecutor(cfg, r) && inputs.outcome.Produced? && inputs.outcome.outputOk
    ensures result == Value(inputs.outcome.value) && runs == 1
    ensures IsManaged(r.spec) ==> EntryAt(e, IdempotencyKey(r)) == Some((SUCCEEDED, inputs.outcome.value))
    ensures !IsManaged(r.spec) ==> EntryAt(e, IdempotencyKey(r)) == EntryAt(d, IdempotencyKey(r))
    ensures Costs(e, r.runId) == Costs(d, r.runId) + [CostRecord(r.stepId, "tool", r.spec.name, 1.0, "call")]
  {
    FinishedTracks(cfg, inputs, r, d, moves, result, e, runs);
  }

  /** The same call, but the tool raises, gives a result its schema refuses, or has no sandbox to run in: nothing is
      charged, and a managed entry waits for verification, so no later call runs the tool under this key. */
  lemma FailingToolIsHeld(cfg: Config, inputs: Inputs, r: Request, d: StoreData, moves: seq<Move>, result: CallResult, e: StoreData, runs: int)
    requires Finishes(cfg, inputs, r, d, moves, result, e, runs)
    requires Reaches(cfg, r, d) && (!HasExecutor(cfg, r) || inputs.outcome.Raised? || !inputs.outcome.outputOk)
    ensures result == Error(if IsManaged(r.spec) then MayRetry else ToolFailed)
    ensures runs == if HasExecutor(cfg, r) then 1 else 0
    ensures IsManaged(r.spec) ==> EntryAt(e, IdempotencyKey(r)) == Some((PENDING_VERIFICATION, Null))
    ensures !IsManaged(r.spec) ==> EntryAt(e, IdempotencyKey(r)) == EntryAt(d, IdempotencyKey(r))
    ensures Costs(e, r.runId) == Costs(d, r.runId)
  {
    FinishedTracks(cfg, inputs, r, d, moves, result, e, runs);
    assert Costs(d, r.runId) + [] == Costs(d, r.runId);
  }

  /** What such a call logs: that it was requested and permitted, the sandbox if there was one, and how it ended. */
  lemma RunningCallIsLogged(cfg: Config, inputs: Inputs, r: Request, d: StoreData, moves: seq<Move>, result: CallResult, e: StoreData, runs: int)
    requires Finishes(cfg, inputs, r, d, moves, result, e, runs) && Reaches(cfg, r, d)
    ensures Kinds(Log(e, r.runId)) == Kinds(Log(d, r.runId)) + TrailOf(r, result)
  {
    FinishedTracks(cfg, inputs, r, d, moves, result, e, runs);
    TrailIsTrace(cfg, r, d, inputs.outcome);
  }

  /** Whatever becomes of a call, it only adds to the log of its run, events of its own session and step that carry the
      role of its agent, but for the cost record, which carries none. */
  lemma EventsAreOfTheRequest(cfg: Config, inputs: Inputs, r: Request, d: StoreData, moves: seq<Move>, result: CallResult, e: StoreData, runs: int)
    requires Finishes(cfg, inputs, r, d, moves, result, e, runs)
    ensures LogsEventsOf(r, Log(d, r.runId), Log(e, r.runId))
    ensures forall other :: other != r.runId ==> Log(e, other) == Log(d, other)
    ensures e.runs == d.runs && e.steps == d.steps
  {
    FinishedTracks(cfg, inputs, r, d, moves, result, e, runs);
  }

  /** A tool that has side effects, or asks for idempotency, never runs without an entry under its key; any other tool
      never touches the ledger. */
  lemma SideEffectsAreReserved(cfg: Config, inputs: Inputs, r: Request, d: StoreData, moves: seq<Move>, result: CallResult, e: StoreData, runs: int)
    requires Finishes(cfg, inputs, r, d, moves, result, e, runs)
    ensures runs > 0 && (r.spec.sideEffect != "none" || r.spec.idempotencyRequired) ==>
              EntryAt(e, IdempotencyKey(r)) == Some(if result.Value? then (SUCCEEDED, result.value) else (PENDING_VERIFICATION, Null))
    ensures r.spec.sideEffect == "none" && !r.spec.idempotencyRequired ==> forall k :: EntryAt(e, k) == EntryAt(d, k)
  {
    FinishedTracks(cfg, inputs, r, d, moves, result, e, runs);
  }

  function TrailOf(r: Request, result: CallResult): seq<Kind>
  {
    [ToolCallRequested, PermissionDecided] + (if r.spec.sandboxRequired then [SandboxStarted, SandboxCompleted] else [])
    + if result.Value? then [ToolCallCompleted, CostRecorded] else [ToolCallFailed]
  }

  lemma TrailIsTrace(cfg: Config, r: Request, d: StoreData, outcome: ToolOutcome)
    requires Reaches(cfg, r, d)
    ensures TraceAtEnd(cfg, r, d, outcome).events == TrailOf(r, Ending(cfg, r, d, outcome))
  {
  }

  /** A reserved entry answers the call: a success is replayed and charged, anything unresolved is refused, and the
      tool does not run. */
  lemma TakenKeyAnswers(cfg: Config, inputs: Inputs, r: Request, d: StoreData, moves: seq<Move>, result: CallResult, e: StoreData, runs: int)
    requires Finishes(cfg, inputs, r, d, moves, result, e, runs)
    requires PassesBudget(cfg, r, d) && IsManaged(r.spec) && !IsFree(r, d)
    ensures runs == 0 && EntryAt(e, IdempotencyKey(r)) == EntryAt(d, IdempotencyKey(r))
    ensures var (status, response) := EntryAt(d, IdempotencyKey(r)).value;
            && (status == SUCCEEDED ==> result == Value(response) && Costs(e, r.runId) == Costs(d, r.runId) + [Charge(r)])
            && (status == PENDING_VERIFICATION ==> result == Error(AwaitsVerification))
            && (status != SUCCEEDED && status != PENDING_VERIFICATION ==> result == Error(InProgress))
            && (status != SUCCEEDED ==> Costs(e, r.runId) == Costs(d, r.runId))
  {
    FinishedTracks(cfg, inputs, r, d, moves, result, e, runs);
    assert Costs(d, r.runId) + [] == Costs(d, r.runId);
  }

  /** Why a call is turned away before it reaches its key, in this order: bad input, an approval denied, an approval
      still to be asked for, a policy that does not allow it and no approval, a spent budget. The tool does not run,
      nothing is charged, and neither the ledger nor any approval changes, but for the request that is opened. */
  lemma RefusedCallDoesNothing(cfg: Config, inputs: Inputs, r: Request, d: StoreData, moves: seq<Move>, result: CallResult, e: StoreData, runs: int)
    requires Finishes(cfg, inputs, r, d, moves, result, e, runs) && !PassesBudget(cfg, r, d)
    ensures runs == 0 && Costs(e, r.runId) == Costs(d, r.runId) && EntryAt(e, IdempotencyKey(r)) == EntryAt(d, IdempotencyKey(r))
    ensures result == Error(
              if !r.inputOk then InputInvalid
              else if ApprovalAt(d, IdempotencyKey(r)) == Some(DENIED) then PermissionDenied
              else if ApprovalAt(d, IdempotencyKey(r)) == None && r.spec.approvalRequired then ApprovalNeeded
              else if ApprovalAt(d, IdempotencyKey(r)) != Some(APPROVED)
                      && !CheckTool(cfg.policy, r.agentRole, r.spec.name, r.spec.riskLevel) then PermissionDenied
              else OverBudget)
    ensures ApprovalAt(e, IdempotencyKey(r)) == if result == Error(ApprovalNeeded) then Some(PENDING) else ApprovalAt(d, IdempotencyKey(r))
  {
    FinishedTracks(cfg, inputs, r, d, moves, result, e, runs);
    assert Costs(d, r.runId) + [] == Costs(d, r.runId);
  }

  /** Calling again after a success gives the same value, whatever the tool would do now, without running it. */
  lemma SecondCallReplays(cfg: Config, inputs: Inputs, r: Request, d: StoreData, moves: seq<Move>, result: CallResult, e: StoreData, runs: int,
                          again: Inputs, moves': seq<Move>, result': CallResult, e': StoreData, runs': int)
    requires Finishes(cfg, inputs, r, d, moves, result, e, runs) && Finishes(cfg, again, r, e, moves', result', e', runs')
    requires Reaches(cfg, r, d) && IsManaged(r.spec) && HasExecutor(cfg, r) && inputs.outcome.Produced? && inputs.outcome.outputOk
    requires WithinBudget(e, r.runId, cfg.maxToolCalls)
    ensures result' == result == Value(inputs.outcome.value) && runs + runs' == 1
  {
    FinishedTracks(cfg, inputs, r, d, moves, result, e, runs);
    TakenKeyAnswers(cfg, again, r, e, moves', result', e', runs');
  }

  /** Calling again after a failure never runs the tool again. */
  lemma SecondCallWaits(cfg: Config, inputs: Inputs, r: Request, d: StoreData, moves: seq<Move>, result: CallResult, e: StoreData, runs: int,
                        again: Inputs, moves': seq<Move>, result': CallResult, e': StoreData, runs': int)
    requires Finishes(cfg, inputs, r, d, moves, result, e, runs) && Finishes(cfg, again, r, e, moves', result', e', runs')
    requires Reaches(cfg, r, d) && IsManaged(r.spec) && (!HasExecutor(cfg, r) || inputs.outcome.Raised? || !inputs.outcome.outputOk)
    ensures result' == Error(AwaitsVerification) && runs' == 0
  {
    FinishedTracks(cfg, inputs, r, d, moves, result, e, runs);
    assert Costs(d, r.runId) + [] == Costs(d, r.runId);
    TakenKeyAnswers(cfg, again, r, e, moves', result', e', runs');
  }
}
