/**
 What the durable store holds and what each of its methods does to it (go/store.go, go/types.go).
 Every method runs under one mutex, so it is one atomic effect on `StoreData`. The clock and the
 identifiers drawn from `newID` are inputs. Time is in nanoseconds, the unit the clock is read in.
 */
module Store {
  import opened Json
  import opened Text

  type Id = string
  type Time = int

  const NANOS_PER_SECOND := 1_000_000_000

  datatype Status = Pending | Running | RetryScheduled | WaitingHuman | Completed | Failed | Cancelled

  predicate Terminal(s: Status) { s.Completed? || s.Failed? || s.Cancelled? }

  predicate Runnable(s: Status) { s.Pending? || s.RetryScheduled? }

  datatype Run = Run(
    sessionId: Id, status: Status, state: Object, stateVersion: nat, createdAt: Time, updatedAt: Time)

  datatype Step = Step(
    runId: Id, sessionId: Id, status: Status, owner: Id, leaseToken: Id, leaseUntil: Time, attempt: nat,
    stateVersion: nat, checkpointId: string, lastErrorType: string, lastError: string,
    cancelledAt: Time, createdAt: Time, updatedAt: Time)

  /** Event types. `Custom` is any type the store itself never writes. */
  datatype Kind =
    | RunCreated | StepCreated | StepClaimed | LeaseHeartbeat | LeaseExpired | StepRetryScheduled
    | RunCancelRequested | StepCancelled | RunCancelled | StatePatchCommitted | StepCompleted
    | SystemPatchApplied | StepWaitingHuman | FailureClassified | ErrorRaised | StepFailed
    | ApprovalDecided | CostRecorded | StateCommitted | ToolCallRequested | ToolCallCompleted | ToolCallFailed
    | PermissionDecided | ApprovalRequired | BudgetCheckFailed | SandboxStarted | SandboxCompleted
    | ModelCallFailed | Custom(name: string)

  datatype Payload = NoPayload | InitialState(state: Object) | Patch(patch: Object, version: nat) | Fields(fields: Object)

  /** The input of `AppendEvent`, without the run it goes to. */
  datatype Draft = Draft(kind: Kind, sessionId: Id, stepId: Id, agentRole: string, stateVersion: nat, payload: Payload)

  datatype Event = Event(seqNo: nat, at: Time, draft: Draft)

  datatype LedgerStatus =
    | RESERVED | RUNNING | SUCCEEDED | PENDING_VERIFICATION | FAILED_NO_EFFECT
    | COMPENSATED | FAILED | ERROR | Unlisted(name: string)

  datatype LedgerEntry = LedgerEntry(
    ledgerId: Id, runId: Id, stepId: Id, toolName: string, status: LedgerStatus,
    errorType: string, response: Json, createdAt: Time, updatedAt: Time)

  datatype ApprovalStatus = PENDING | APPROVED | DENIED

  datatype Approval = Approval(
    approvalId: Id, runId: Id, sessionId: Id, stepId: Id, toolName: string, status: ApprovalStatus,
    approvedBy: string, decisionReason: string, createdAt: Time, updatedAt: Time)

  datatype CostRecord = CostRecord(stepId: Id, category: string, name: string, amount: real, unitName: string)

  datatype StoreData = StoreData(
    runs: map<Id, Run>, steps: map<Id, Step>, events: map<Id, seq<Event>>,
    ledger: map<Id, LedgerEntry>, approvals: map<Id, Approval>, costs: map<Id, seq<CostRecord>>)

  const EMPTY := StoreData(map[], map[], map[], map[], map[], map[])

  datatype Failure =
    | RunNotFound | StepNotFound | StaleLease | ExpiredLease | VersionConflict | LedgerNotFound | ApprovalNotFound
    | NoRunnableStep

  datatype Outcome<+T> = Ok(value: T) | Err(error: Failure)

  // ---------------------------------------------------------------- the event log

  function Log(d: StoreData, runId: Id): seq<Event>
  {
    if runId in d.events then d.events[runId] else []
  }

  function Costs(d: StoreData, runId: Id): seq<CostRecord>
  {
    if runId in d.costs then d.costs[runId] else []
  }

  /** `drafts` as they are stored after `n` earlier events. */
  function Numbered(n: nat, now: Time, drafts: seq<Draft>): (r: seq<Event>)
    ensures |r| == |drafts|
    ensures forall i :: 0 <= i < |r| ==> r[i] == Event(n + i + 1, now, drafts[i])
  {
    seq(|drafts|, i requires 0 <= i < |drafts| => Event(n + i + 1, now, drafts[i]))
  }

  function Emit(d: StoreData, runId: Id, now: Time, drafts: seq<Draft>): StoreData
  {
    d.(events := d.events[runId := Log(d, runId) + Numbered(|Log(d, runId)|, now, drafts)])
  }

  /** A plain event of the store itself: no role, no version, no modelled payload. */
  function Plain(kind: Kind, sessionId: Id, stepId: Id): Draft
  {
    Draft(kind, sessionId, stepId, "", 0, NoPayload)
  }

  // ---------------------------------------------------------------- runs and steps

  function NewStep(runId: Id, sessionId: Id, version: nat, now: Time): Step
  {
    Step(runId, sessionId, Pending, "", "", 0, 0, version, "", "", "", 0, now, now)
  }

  function CreateRunEffect(d: StoreData, runId: Id, stepId: Id, sessionId: Id, initial: Object, now: Time): StoreData
  {
    Emit(d.(runs := d.runs[runId := Run(sessionId, Pending, initial, 0, now, now)],
            steps := d.steps[stepId := NewStep(runId, sessionId, 0, now)]),
         runId, now,
         [Draft(RunCreated, sessionId, "", "", 0, InitialState(initial)), Plain(StepCreated, sessionId, stepId)])
  }

  function CreateExternalStepEffect(d: StoreData, runId: Id, stepId: Id, now: Time): StoreData
  {
    if runId !in d.runs then d
    else
      var run := d.runs[runId];
      Emit(d.(steps := d.steps[stepId := NewStep(runId, run.sessionId, run.stateVersion, now)],
              runs := d.runs[runId := run.(status := Pending, updatedAt := now)]),
           runId, now, [Plain(StepCreated, run.sessionId, stepId).(stateVersion := run.stateVersion)])
  }

  /** A run a map lookup would return: the zero record when the key is missing. */
  function RunOrZero(d: StoreData, runId: Id): Run
  {
    if runId in d.runs then d.runs[runId] else Run("", Pending, map[], 0, 0, 0)
  }

  predicate Claimable(d: StoreData, filter: Id, stepId: Id)
  {
    && stepId in d.steps
    && (filter == "" || d.steps[stepId].runId == filter)
    && Runnable(d.steps[stepId].status)
  }

  /** Claim order: oldest step first, identifiers break ties. */
  predicate Before(d: StoreData, a: Id, b: Id)
    requires a in d.steps && b in d.steps
  {
    d.steps[a].createdAt < d.steps[b].createdAt || (d.steps[a].createdAt == d.steps[b].createdAt && Less(a, b))
  }

  ghost predicate IsNextStep(d: StoreData, filter: Id, stepId: Id)
  {
    && Claimable(d, filter, stepId)
    && forall other :: Claimable(d, filter, other) && other != stepId ==> Before(d, stepId, other)
  }

  /** The store ranges over its step map in no fixed order; the step it claims does not depend on that. */
  lemma NextStepIsUnique(d: StoreData, filter: Id, a: Id, b: Id)
    requires IsNextStep(d, filter, a) && IsNextStep(d, filter, b)
    ensures a == b
  {
    LessTrichotomy(a, b);
  }

  function ClaimStepEffect(d: StoreData, worker: Id, stepId: Id, token: Id, leaseSeconds: nat, now: Time): StoreData
  {
    if stepId !in d.steps then d
    else
      var step := d.steps[stepId];
      Emit(d.(steps := d.steps[stepId := step.(status := Running, owner := worker, leaseToken := token,
                                               leaseUntil := now + leaseSeconds * NANOS_PER_SECOND,
                                               attempt := step.attempt + 1, updatedAt := now)],
              runs := d.runs[step.runId := RunOrZero(d, step.runId).(status := Running, updatedAt := now)]),
           step.runId, now, [Plain(StepClaimed, step.sessionId, stepId)])
  }

  function LeaseCheck(d: StoreData, stepId: Id, token: Id, now: Time): Outcome<Step>
  {
    if stepId !in d.steps then Err(StepNotFound)
    else if !d.steps[stepId].status.Running? || d.steps[stepId].leaseToken != token then Err(StaleLease)
    else if d.steps[stepId].leaseUntil != 0 && d.steps[stepId].leaseUntil < now then Err(ExpiredLease)
    else Ok(d.steps[stepId])
  }

  function HeartbeatEffect(d: StoreData, stepId: Id, token: Id, leaseSeconds: nat, now: Time): StoreData
  {
    match LeaseCheck(d, stepId, token, now)
    case Err(_) => d
    case Ok(step) =>
      Emit(d.(steps := d.steps[stepId := step.(leaseUntil := now + leaseSeconds * NANOS_PER_SECOND, updatedAt := now)]),
           step.runId, now, [Plain(LeaseHeartbeat, step.sessionId, stepId)])
  }

  /** The lease fields a step loses whenever it stops running. */
  function Unleased(step: Step, status: Status, now: Time): Step
  {
    step.(status := status, owner := "", leaseToken := "", leaseUntil := 0, updatedAt := now)
  }

  predicate Expired(step: Step, now: Time)
  {
    step.status.Running? && step.leaseUntil != 0 && step.leaseUntil < now
  }

  function RecoverOne(d: StoreData, stepId: Id, now: Time): (r: StoreData)
    ensures r.ledger == d.ledger && r.approvals == d.approvals && r.costs == d.costs
  {
    if stepId !in d.steps || !Expired(d.steps[stepId], now) then d
    else
      var step := d.steps[stepId];
      Emit(d.(steps := d.steps[stepId := Unleased(step, RetryScheduled, now)],
              runs := d.runs[step.runId := RunOrZero(d, step.runId).(status := RetryScheduled, updatedAt := now)]),
           step.runId, now,
           [Plain(LeaseExpired, step.sessionId, stepId), Plain(StepRetryScheduled, step.sessionId, stepId)])
  }

  /** The recovery loop over the first steps of the sorted list. */
  function RecoverEffect(d: StoreData, ids: seq<Id>, now: Time): (r: StoreData)
    ensures r.ledger == d.ledger && r.approvals == d.approvals && r.costs == d.costs
  {
    if ids == [] then d else RecoverOne(RecoverEffect(d, ids[..|ids| - 1], now), ids[|ids| - 1], now)
  }

  predicate Cancellable(d: StoreData, runId: Id, stepId: Id)
  {
    stepId in d.steps && d.steps[stepId].runId == runId && !Terminal(d.steps[stepId].status)
  }

  function CancelOne(d: StoreData, runId: Id, stepId: Id, now: Time): (r: StoreData)
    ensures r.ledger == d.ledger && r.approvals == d.approvals && r.costs == d.costs && r.runs == d.runs
  {
    if !Cancellable(d, runId, stepId) then d
    else
      var step := d.steps[stepId];
      Emit(d.(steps := d.steps[stepId := Unleased(step, Cancelled, now).(cancelledAt := now)]),
           runId, now, [Plain(StepCancelled, step.sessionId, stepId)])
  }

  function CancelSteps(d: StoreData, runId: Id, ids: seq<Id>, now: Time): (r: StoreData)
    ensures r.ledger == d.ledger && r.approvals == d.approvals && r.costs == d.costs && r.runs == d.runs
  {
    if ids == [] then d else CancelOne(CancelSteps(d, runId, ids[..|ids| - 1], now), runId, ids[|ids| - 1], now)
  }

  function CancelRunEffect(d: StoreData, runId: Id, ids: seq<Id>, now: Time): StoreData
  {
    if runId !in d.runs || Terminal(d.runs[runId].status) then d
    else
      var run := d.runs[runId];
      var asked := Emit(d, runId, now, [Plain(RunCancelRequested, run.sessionId, "")]);
      var swept := CancelSteps(asked, runId, ids, now);
      Emit(swept.(runs := swept.runs[runId := run.(status := Cancelled, updatedAt := now)]),
           runId, now, [Plain(RunCancelled, run.sessionId, "")])
  }

  function CommitCheck(d: StoreData, runId: Id, stepId: Id, token: Id, base: nat, now: Time): Outcome<nat>
  {
    match LeaseCheck(d, stepId, token, now)
    case Err(e) => Err(e)
    case Ok(_) =>
      if runId !in d.runs then Err(RunNotFound)
      else if d.runs[runId].stateVersion != base then Err(VersionConflict)
      else Ok(base + 1)
  }

  function CommitEffect(d: StoreData, runId: Id, stepId: Id, token: Id, base: nat, patch: Object,
                        checkpoint: string, now: Time): StoreData
  {
    if CommitCheck(d, runId, stepId, token, base, now).Err? then d
    else
      var run, step := d.runs[runId], d.steps[stepId];
      var version := base + 1;
      Emit(d.(runs := d.runs[runId := run.(state := MergePatch(run.state, Obj(patch)), stateVersion := version,
                                           status := Completed, updatedAt := now)],
              steps := d.steps[stepId := step.(status := Completed, stateVersion := version,
                                               checkpointId := checkpoint, updatedAt := now)]),
           runId, now,
           [Draft(StatePatchCommitted, step.sessionId, stepId, "", version, Patch(patch, version)),
            Plain(StepCompleted, step.sessionId, stepId).(stateVersion := version)])
  }

  function SystemPatchEffect(d: StoreData, runId: Id, patch: Object, now: Time): StoreData
  {
    if runId !in d.runs then d
    else
      var run := d.runs[runId];
      var version := run.stateVersion + 1;
      Emit(d.(runs := d.runs[runId := run.(state := MergePatch(run.state, Obj(patch)), stateVersion := version,
                                           updatedAt := now)]),
           runId, now, [Draft(SystemPatchApplied, run.sessionId, "", "", version, Patch(patch, version))])
  }

  /** `MarkWaitingHuman`, `MarkRetry` and `MarkFailed`: no lease token and no status guard. */
  function MarkEffect(d: StoreData, runId: Id, stepId: Id, status: Status, errorType: string, message: string,
                      now: Time): StoreData
  {
    if stepId !in d.steps then d
    else
      var step := d.steps[stepId];
      Emit(d.(steps := d.steps[stepId := Unleased(step, status, now).(lastErrorType := errorType, lastError := message)],
              runs := d.runs[runId := RunOrZero(d, runId).(status := status, updatedAt := now)]),
           runId, now,
           if status.WaitingHuman? then [Plain(StepWaitingHuman, step.sessionId, stepId)]
           else [Plain(FailureClassified, step.sessionId, stepId), Plain(ErrorRaised, step.sessionId, stepId),
                 Plain(if status.RetryScheduled? then StepRetryScheduled else StepFailed, step.sessionId, stepId)])
  }

  // ---------------------------------------------------------------- ledger, approvals, costs

  function ReserveEffect(d: StoreData, key: Id, entry: LedgerEntry): StoreData
  {
    if key in d.ledger then d else d.(ledger := d.ledger[key := entry])
  }

  function UpdateLedgerEffect(d: StoreData, key: Id, status: LedgerStatus, errorType: string, response: Json,
                              now: Time): StoreData
  {
    if key !in d.ledger then d
    else d.(ledger := d.ledger[key := d.ledger[key].(status := status, errorType := errorType, response := response,
                                                     updatedAt := now)])
  }

  function RequestApprovalEffect(d: StoreData, key: Id, approval: Approval): StoreData
  {
    if key in d.approvals then d else d.(approvals := d.approvals[key := approval])
  }

  /** The search of `decideApproval`: the empty key counts as not found. */
  predicate HoldsApproval(d: StoreData, approvalId: Id, key: Id)
  {
    key in d.approvals && key != "" && d.approvals[key].approvalId == approvalId
  }

  /** Recording a decision, before the waiting step is released. */
  function NoteDecision(d: StoreData, key: Id, status: ApprovalStatus, approver: string, reason: string,
                        now: Time): StoreData
    requires key in d.approvals
  {
    var approval := d.approvals[key].(status := status, approvedBy := approver, decisionReason := reason, updatedAt := now);
    Emit(d.(approvals := d.approvals[key := approval]), approval.runId, now,
         [Plain(ApprovalDecided, approval.sessionId, approval.stepId)])
  }

  /** An approved step goes back to pending, a denied one fails; only a step still waiting is touched. */
  function ReleaseStep(d: StoreData, approval: Approval, now: Time): StoreData
  {
    if approval.stepId !in d.steps || !d.steps[approval.stepId].status.WaitingHuman? || approval.status.PENDING? then d
    else
      var step := d.steps[approval.stepId];
      var run := RunOrZero(d, approval.runId);
      if approval.status.APPROVED? then
        Emit(d.(steps := d.steps[approval.stepId := Unleased(step, Pending, now)],
                runs := d.runs[approval.runId := run.(status := Pending, updatedAt := now)]),
             approval.runId, now, [Plain(StepRetryScheduled, approval.sessionId, approval.stepId)])
      else
        Emit(d.(steps := d.steps[approval.stepId := Unleased(step, Failed, now).(lastErrorType := "ApprovalDenied", lastError := approval.decisionReason)],
                runs := d.runs[approval.runId := run.(status := Failed, updatedAt := now)]),
             approval.runId, now,
             [Plain(FailureClassified, approval.sessionId, approval.stepId),
              Plain(StepFailed, approval.sessionId, approval.stepId)])
  }

  function DecideEffect(d: StoreData, key: Id, status: ApprovalStatus, approver: string, reason: string,
                        now: Time): StoreData
  {
    if key !in d.approvals then d
    else
      var noted := NoteDecision(d, key, status, approver, reason, now);
      ReleaseStep(noted, noted.approvals[key], now)
  }

  function RecordCostEffect(d: StoreData, runId: Id, sessionId: Id, record: CostRecord, now: Time): StoreData
  {
    Emit(d.(costs := d.costs[runId := Costs(d, runId) + [record]]), runId, now,
         [Plain(CostRecorded, sessionId, record.stepId)])
  }

  // ---------------------------------------------------------------- calls

  /** One store call. Identifiers drawn by the store, the step a claim picks and the sorted identifiers a
      sweep visits are part of the call; `Allowed` says which ones the store could have drawn. */
  datatype Op =
    | CreateRun(runId: Id, stepId: Id, sessionId: Id, initial: Object)
    | CreateExternalStep(runId: Id, stepId: Id)
    | ClaimStep(worker: Id, filter: Id, stepId: Id, token: Id, leaseSeconds: nat)
    | Heartbeat(stepId: Id, token: Id, leaseSeconds: nat)
    | RecoverExpired(ids: seq<Id>)
    | CancelRun(runId: Id, ids: seq<Id>)
    | Commit(runId: Id, stepId: Id, token: Id, base: nat, patch: Object, checkpoint: string)
    | SystemPatch(runId: Id, patch: Object)
    | Mark(runId: Id, stepId: Id, status: Status, errorType: string, message: string)
    | Append(runId: Id, draft: Draft)
    | Reserve(key: Id, ledgerId: Id, runId: Id, stepId: Id, toolName: string)
    | UpdateLedger(key: Id, ledgerStatus: LedgerStatus, errorType: string, response: Json)
    | RequestApproval(key: Id, approvalId: Id, runId: Id, sessionId: Id, stepId: Id, toolName: string)
    | Decide(approvalId: Id, key: Id, decision: ApprovalStatus, approver: string, reason: string)
    | RecordCost(runId: Id, sessionId: Id, record: CostRecord)
    | Read

  datatype Call = Call(op: Op, now: Time)

  function Effect(d: StoreData, op: Op, now: Time): StoreData
  {
    match op
    case CreateRun(runId, stepId, sessionId, initial) => CreateRunEffect(d, runId, stepId, sessionId, initial, now)
    case CreateExternalStep(runId, stepId) => CreateExternalStepEffect(d, runId, stepId, now)
    case ClaimStep(worker, _, stepId, token, leaseSeconds) => ClaimStepEffect(d, worker, stepId, token, leaseSeconds, now)
    case Heartbeat(stepId, token, leaseSeconds) => HeartbeatEffect(d, stepId, token, leaseSeconds, now)
    case RecoverExpired(ids) => RecoverEffect(d, ids, now)
    case CancelRun(runId, ids) => CancelRunEffect(d, runId, ids, now)
    case Commit(runId, stepId, token, base, patch, checkpoint) =>
      CommitEffect(d, runId, stepId, token, base, patch, checkpoint, now)
    case SystemPatch(runId, patch) => SystemPatchEffect(d, runId, patch, now)
    case Mark(runId, stepId, status, errorType, message) => MarkEffect(d, runId, stepId, status, errorType, message, now)
    case Append(runId, draft) => Emit(d, runId, now, [draft])
    case Reserve(key, ledgerId, runId, stepId, toolName) =>
      ReserveEffect(d, key, LedgerEntry(ledgerId, runId, stepId, toolName, RESERVED, "", Null, now, now))
    case UpdateLedger(key, status, errorType, response) => UpdateLedgerEffect(d, key, status, errorType, response, now)
    case RequestApproval(key, approvalId, runId, sessionId, stepId, toolName) =>
      RequestApprovalEffect(d, key, Approval(approvalId, runId, sessionId, stepId, toolName, PENDING, "", "", now, now))
    case Decide(_, key, decision, approver, reason) => DecideEffect(d, key, decision, approver, reason, now)
    case RecordCost(runId, sessionId, record) => RecordCostEffect(d, runId, sessionId, record, now)
    case Read => d
  }

  /** The store, every identifier drawn by it or named to it so far, and the latest time it has read. */
  datatype World = World(data: StoreData, seen: set<Id>, clock: Time)

  const START := World(EMPTY, {}, 0)

  /** Identifiers a call draws with `newID`. */
  function Drawn(op: Op): set<Id>
  {
    match op
    case CreateRun(runId, stepId, _, _) => {runId, stepId}
    case CreateExternalStep(_, stepId) => {stepId}
    case ClaimStep(_, _, _, token, _) => {token}
    case Reserve(_, ledgerId, _, _, _) => {ledgerId}
    case RequestApproval(_, approvalId, _, _, _, _) => {approvalId}
    case _ => {}
  }

  /** Identifiers the caller names in the places where drawn identifiers are looked up. */
  function Named(op: Op): set<Id>
  {
    match op
    case Heartbeat(stepId, token, _) => {stepId, token}
    case Commit(runId, stepId, token, _, _, _) => {runId, stepId, token}
    case Append(runId, _) => {runId}
    case RecordCost(runId, _, _) => {runId}
    case _ => {}
  }

  function Apply(w: World, call: Call): World
  {
    World(Effect(w.data, call.op, call.now), w.seen + Drawn(call.op) + Named(call.op), call.now)
  }

  /** A run or step pair as a claim hands it out: the step belongs to the run. */
  predicate OfClaim(d: StoreData, runId: Id, stepId: Id)
  {
    stepId in d.steps ==> d.steps[stepId].runId == runId
  }

  predicate StoreOwned(kind: Kind)
  {
    kind.RunCreated? || kind.StatePatchCommitted? || kind.SystemPatchApplied? || kind.StateCommitted?
  }

  /** The assumptions under which calls are made: drawn identifiers are new, distinct and not empty, time does
      not run backwards, run and step come from the same claim, and callers do not forge the events that
      carry state. */
  ghost predicate Allowed(w: World, call: Call)
  {
    && 0 < call.now && w.clock <= call.now
    && Drawn(call.op) !! w.seen && "" !in Drawn(call.op)
    && match call.op
       case CreateRun(runId, stepId, _, _) => runId != stepId
       case ClaimStep(_, filter, stepId, _, _) => IsNextStep(w.data, filter, stepId)
       case RecoverExpired(ids) => IsSorted(ids, w.data.steps.Keys)
       case CancelRun(_, ids) => IsSorted(ids, w.data.steps.Keys)
       case Commit(runId, stepId, _, _, _, _) => OfClaim(w.data, runId, stepId)
       case Mark(runId, stepId, status, _, _) =>
         OfClaim(w.data, runId, stepId) && (status.WaitingHuman? || status.RetryScheduled? || status.Failed?)
       case Append(_, draft) => !StoreOwned(draft.kind)
       case RequestApproval(_, _, runId, _, stepId, _) => stepId in w.data.steps && OfClaim(w.data, runId, stepId)
       case Decide(approvalId, key, decision, _, _) => HoldsApproval(w.data, approvalId, key) && !decision.PENDING?
       case _ => true
  }

  function Exec(w: World, calls: seq<Call>): World
    decreases |calls|
  {
    if calls == [] then w else Exec(Apply(w, calls[0]), calls[1..])
  }

  ghost predicate AllowedAll(w: World, calls: seq<Call>)
    decreases |calls|
  {
    calls == [] || (Allowed(w, calls[0]) && AllowedAll(Apply(w, calls[0]), calls[1..]))
  }
}
