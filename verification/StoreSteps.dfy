/** Every store call, taken one at a time, keeps the invariant; so does every sequence of calls. */
module StoreSteps {
  import opened Json
  import opened Text
  import opened Store
  import opened StoreInvariant

  ghost predicate QuietDrafts(drafts: seq<Draft>)
  {
    forall i :: 0 <= i < |drafts| ==> !StoreOwned(drafts[i].kind)
  }

  lemma EmitQuiet(d: StoreData, runId: Id, now: Time, drafts: seq<Draft>)
    requires QuietDrafts(drafts)
    ensures forall r :: QuietLog(Log(d, r), Log(Emit(d, runId, now, drafts), r))
    ensures Emit(d, runId, now, drafts).events.Keys == d.events.Keys + {runId}
  {
  }

  /** Rewriting one step and one run without touching state, then logging, is quiet. */
  lemma TouchQuiet(d: StoreData, m: StoreData, e: StoreData, runId: Id, now: Time, drafts: seq<Draft>, extra: set<Id>)
    requires m.events == d.events && e == Emit(m, runId, now, drafts) && QuietDrafts(drafts)
    requires runId in d.runs.Keys + extra
    requires m.runs.Keys == d.runs.Keys && m.steps.Keys == d.steps.Keys
    requires forall r :: r in d.runs ==> m.runs[r].state == d.runs[r].state && m.runs[r].stateVersion == d.runs[r].stateVersion
    requires forall s :: s in d.steps ==> QuietStep(d.steps[s], m.steps[s])
    ensures Quiet(d, e, extra)
  {
    EmitQuiet(m, runId, now, drafts);
    assert forall r :: Log(m, r) == Log(d, r);
  }

  lemma UntouchedQuiet(d: StoreData, e: StoreData, extra: set<Id>)
    requires e.runs == d.runs && e.steps == d.steps && e.events == d.events
    ensures Quiet(d, e, extra)
  {
    assert forall r :: Log(e, r) == Log(d, r);
  }

  ghost predicate Rooted(d: StoreData)
  {
    forall s :: s in d.steps ==> d.steps[s].runId in d.runs
  }

  lemma RecoverOneQuiet(d: StoreData, stepId: Id, now: Time, extra: set<Id>)
    requires Rooted(d)
    ensures Quiet(d, RecoverOne(d, stepId, now), extra)
  {
    if stepId in d.steps && Expired(d.steps[stepId], now) {
      var step := d.steps[stepId];
      var m := d.(steps := d.steps[stepId := Unleased(step, RetryScheduled, now)],
                  runs := d.runs[step.runId := RunOrZero(d, step.runId).(status := RetryScheduled, updatedAt := now)]);
      TouchQuiet(d, m, RecoverOne(d, stepId, now), step.runId, now,
                 [Plain(LeaseExpired, step.sessionId, stepId), Plain(StepRetryScheduled, step.sessionId, stepId)], extra);
    }
  }

  lemma QuietKeepsRooted(d: StoreData, e: StoreData, extra: set<Id>)
    requires Rooted(d) && Quiet(d, e, extra)
    ensures Rooted(e)
  {
    forall s | s in e.steps ensures e.steps[s].runId in e.runs {
      assert QuietStep(d.steps[s], e.steps[s]);
    }
  }

  lemma {:induction false} RecoverQuiet(d: StoreData, ids: seq<Id>, now: Time, extra: set<Id>)
    requires Rooted(d)
    ensures Quiet(d, RecoverEffect(d, ids, now), extra)
  {
    if ids != [] {
      var m := RecoverEffect(d, ids[..|ids| - 1], now);
      RecoverQuiet(d, ids[..|ids| - 1], now, extra);
      QuietKeepsRooted(d, m, extra);
      RecoverOneQuiet(m, ids[|ids| - 1], now, extra);
      QuietTransitive(d, m, RecoverEffect(d, ids, now), extra);
    }
  }

  lemma CancelOneQuiet(d: StoreData, runId: Id, stepId: Id, now: Time, extra: set<Id>)
    requires Rooted(d)
    ensures Quiet(d, CancelOne(d, runId, stepId, now), extra)
  {
    if Cancellable(d, runId, stepId) {
      var step := d.steps[stepId];
      var m := d.(steps := d.steps[stepId := Unleased(step, Cancelled, now).(cancelledAt := now)]);
      TouchQuiet(d, m, CancelOne(d, runId, stepId, now), runId, now, [Plain(StepCancelled, step.sessionId, stepId)], extra);
    }
  }

  lemma {:induction false} CancelStepsQuiet(d: StoreData, runId: Id, ids: seq<Id>, now: Time, extra: set<Id>)
    requires Rooted(d)
    ensures Quiet(d, CancelSteps(d, runId, ids, now), extra)
  {
    if ids != [] {
      var m := CancelSteps(d, runId, ids[..|ids| - 1], now);
      CancelStepsQuiet(d, runId, ids[..|ids| - 1], now, extra);
      QuietKeepsRooted(d, m, extra);
      CancelOneQuiet(m, runId, ids[|ids| - 1], now, extra);
      QuietTransitive(d, m, CancelSteps(d, runId, ids, now), extra);
    }
  }

  lemma CancelRunQuiet(d: StoreData, runId: Id, ids: seq<Id>, now: Time, extra: set<Id>)
    requires Rooted(d)
    ensures Quiet(d, CancelRunEffect(d, runId, ids, now), extra)
  {
    if runId in d.runs && !Terminal(d.runs[runId].status) {
      var run := d.runs[runId];
      var asked := Emit(d, runId, now, [Plain(RunCancelRequested, run.sessionId, "")]);
      TouchQuiet(d, d, asked, runId, now, [Plain(RunCancelRequested, run.sessionId, "")], extra);
      var swept := CancelSteps(asked, runId, ids, now);
      CancelStepsQuiet(asked, runId, ids, now, extra);
      QuietTransitive(d, asked, swept, extra);
      assert swept.runs == d.runs;
      CloseRunQuiet(swept, runId, now, extra);
      QuietTransitive(d, swept, CancelRunEffect(d, runId, ids, now), extra);
    }
  }

  /** The end of a cancellation: the run's own status and event. */
  lemma CloseRunQuiet(d: StoreData, runId: Id, now: Time, extra: set<Id>)
    requires runId in d.runs
    ensures var run := d.runs[runId];
            Quiet(d, Emit(d.(runs := d.runs[runId := run.(status := Cancelled, updatedAt := now)]), runId, now,
                          [Plain(RunCancelled, run.sessionId, "")]), extra)
  {
    var run := d.runs[runId];
    var m := d.(runs := d.runs[runId := run.(status := Cancelled, updatedAt := now)]);
    TouchQuiet(d, m, Emit(m, runId, now, [Plain(RunCancelled, run.sessionId, "")]), runId, now,
               [Plain(RunCancelled, run.sessionId, "")], extra);
  }

  lemma MarkQuiet(d: StoreData, runId: Id, stepId: Id, status: Status, errorType: string, message: string, now: Time, extra: set<Id>)
    requires Rooted(d) && OfClaim(d, runId, stepId)
    requires status.WaitingHuman? || status.RetryScheduled? || status.Failed?
    ensures Quiet(d, MarkEffect(d, runId, stepId, status, errorType, message, now), extra)
  {
    if stepId in d.steps {
      var step := d.steps[stepId];
      var m := d.(steps := d.steps[stepId := Unleased(step, status, now).(lastErrorType := errorType, lastError := message)],
                  runs := d.runs[runId := RunOrZero(d, runId).(status := status, updatedAt := now)]);
      var drafts :=
        if status.WaitingHuman? then [Plain(StepWaitingHuman, step.sessionId, stepId)]
        else [Plain(FailureClassified, step.sessionId, stepId), Plain(ErrorRaised, step.sessionId, stepId),
              Plain(if status.RetryScheduled? then StepRetryScheduled else StepFailed, step.sessionId, stepId)];
      TouchQuiet(d, m, MarkEffect(d, runId, stepId, status, errorType, message, now), runId, now, drafts, extra);
    }
  }

  lemma ReleaseStepQuiet(d: StoreData, approval: Approval, now: Time, extra: set<Id>)
    requires Rooted(d) && OfClaim(d, approval.runId, approval.stepId)
    ensures Quiet(d, ReleaseStep(d, approval, now), extra)
    ensures ReleaseStep(d, approval, now).approvals == d.approvals
  {
    if approval.stepId in d.steps && d.steps[approval.stepId].status.WaitingHuman? && !approval.status.PENDING? {
      var step := d.steps[approval.stepId];
      var moved := if approval.status.APPROVED? then Unleased(step, Pending, now)
                   else Unleased(step, Failed, now).(lastErrorType := "ApprovalDenied", lastError := approval.decisionReason);
      var m := d.(steps := d.steps[approval.stepId := moved],
                  runs := d.runs[approval.runId := RunOrZero(d, approval.runId).(status := moved.status, updatedAt := now)]);
      var drafts := if approval.status.APPROVED? then [Plain(StepRetryScheduled, approval.sessionId, approval.stepId)]
                    else [Plain(FailureClassified, approval.sessionId, approval.stepId), Plain(StepFailed, approval.sessionId, approval.stepId)];
      TouchQuiet(d, m, ReleaseStep(d, approval, now), approval.runId, now, drafts, extra);
    }
  }

  lemma NoteDecisionQuiet(d: StoreData, key: Id, status: ApprovalStatus, approver: string, reason: string, now: Time, extra: set<Id>)
    requires Rooted(d) && ApprovalsBelong(d, d.approvals) && key in d.approvals
    ensures Quiet(d, NoteDecision(d, key, status, approver, reason, now), extra)
    ensures ApprovalsBelong(d, NoteDecision(d, key, status, approver, reason, now).approvals)
  {
    var approval := d.approvals[key].(status := status, approvedBy := approver, decisionReason := reason, updatedAt := now);
    var m := d.(approvals := d.approvals[key := approval]);
    TouchQuiet(d, m, NoteDecision(d, key, status, approver, reason, now), approval.runId, now,
               [Plain(ApprovalDecided, approval.sessionId, approval.stepId)], extra);
  }

  lemma DecideQuiet(d: StoreData, key: Id, status: ApprovalStatus, approver: string, reason: string, now: Time, extra: set<Id>)
    requires Rooted(d) && ApprovalsBelong(d, d.approvals)
    ensures Quiet(d, DecideEffect(d, key, status, approver, reason, now), extra)
    ensures ApprovalsBelong(d, DecideEffect(d, key, status, approver, reason, now).approvals)
  {
    if key in d.approvals {
      var noted := NoteDecision(d, key, status, approver, reason, now);
      NoteDecisionQuiet(d, key, status, approver, reason, now, extra);
      QuietKeepsRooted(d, noted, extra);
      assert noted.steps == d.steps;
      ReleaseStepQuiet(noted, noted.approvals[key], now, extra);
      QuietTransitive(d, noted, DecideEffect(d, key, status, approver, reason, now), extra);
    }
  }

  /** Calls that neither create a run or step, hand out a lease, nor write state. */
  predicate IsQuiet(op: Op)
  {
    !op.CreateRun? && !op.CreateExternalStep? && !op.ClaimStep? && !op.Heartbeat? && !op.Commit? && !op.SystemPatch?
  }

  predicate IsSweep(op: Op) { op.RecoverExpired? || op.CancelRun? || op.Mark? || op.Decide? }

  lemma QuietSweep(w: World, call: Call)
    requires Rooted(w.data) && ApprovalsBelong(w.data, w.data.approvals) && Allowed(w, call) && IsSweep(call.op)
    ensures Quiet(w.data, Effect(w.data, call.op, call.now), Named(call.op))
    ensures ApprovalsBelong(w.data, Effect(w.data, call.op, call.now).approvals)
  {
    var d, now, extra := w.data, call.now, Named(call.op);
    match call.op
    case RecoverExpired(ids) => RecoverQuiet(d, ids, now, extra);
    case CancelRun(runId, ids) => CancelRunQuiet(d, runId, ids, now, extra);
    case Mark(runId, stepId, status, errorType, message) => MarkQuiet(d, runId, stepId, status, errorType, message, now, extra);
    case Decide(_, key, decision, approver, reason) => DecideQuiet(d, key, decision, approver, reason, now, extra);
    case _ =>
  }

  lemma CostQuiet(d: StoreData, runId: Id, sessionId: Id, record: CostRecord, now: Time, extra: set<Id>)
    requires runId in extra
    ensures Quiet(d, RecordCostEffect(d, runId, sessionId, record, now), extra)
  {
    TouchQuiet(d, d.(costs := d.costs[runId := Costs(d, runId) + [record]]), RecordCostEffect(d, runId, sessionId, record, now),
               runId, now, [Plain(CostRecorded, sessionId, record.stepId)], extra);
  }

  lemma ApprovalsBelongAfterRequest(d: StoreData, key: Id, approval: Approval)
    requires ApprovalsBelong(d, d.approvals) && approval.stepId in d.steps && d.steps[approval.stepId].runId == approval.runId
    ensures ApprovalsBelong(d, RequestApprovalEffect(d, key, approval).approvals)
  {
  }

  predicate IsTable(op: Op) { op.Reserve? || op.UpdateLedger? || op.RequestApproval? || op.Read? }

  /** Ledger and approval calls write their own tables only. */
  lemma QuietTable(d: StoreData, op: Op, now: Time)
    requires IsTable(op)
    ensures var e := Effect(d, op, now); e.runs == d.runs && e.steps == d.steps && e.events == d.events
  {
  }

  lemma QuietRecord(w: World, call: Call)
    requires Rooted(w.data) && ApprovalsBelong(w.data, w.data.approvals) && Allowed(w, call)
    requires IsQuiet(call.op) && !IsSweep(call.op)
    ensures Quiet(w.data, Effect(w.data, call.op, call.now), Named(call.op))
    ensures ApprovalsBelong(w.data, Effect(w.data, call.op, call.now).approvals)
  {
    var d, now, extra := w.data, call.now, Named(call.op);
    if IsTable(call.op) {
      QuietTable(d, call.op, now);
      UntouchedQuiet(d, Effect(d, call.op, now), extra);
    }
    match call.op
    case Append(runId, draft) => TouchQuiet(d, d, Emit(d, runId, now, [draft]), runId, now, [draft], extra);
    case RecordCost(runId, sessionId, record) => CostQuiet(d, runId, sessionId, record, now, extra);
    case RequestApproval(key, approvalId, runId, sessionId, stepId, toolName) =>
      ApprovalsBelongAfterRequest(d, key, Approval(approvalId, runId, sessionId, stepId, toolName, PENDING, "", "", now, now));
    case _ =>
  }

  // ---------------------------------------------------------------- new runs, new steps, leases, patches

  lemma {:induction false} NoCommitOf(log: seq<Event>, stepId: Id)
    requires forall i :: 0 <= i < |log| && log[i].draft.kind.StatePatchCommitted? ==> log[i].draft.stepId != stepId
    ensures CommitCount(log, stepId) == 0
  {
    if log != [] {
      NoCommitOf(log[..|log| - 1], stepId);
    }
  }

  lemma SameLogs(w: World, w': World)
    requires LogsFaithful(w.data) && CommitsKnown(w)
    requires w'.data.runs == w.data.runs && w'.data.events == w.data.events && w.seen <= w'.seen
    ensures LogsFaithful(w'.data) && CommitsKnown(w')
  {
    assert forall r :: Log(w'.data, r) == Log(w.data, r);
  }

  lemma StepChangeKeepsCommits(d: StoreData, e: StoreData, stepId: Id, step: Step)
    requires CommitsBounded(d) && e == d.(steps := d.steps[stepId := step])
    requires if stepId in d.steps then step.runId == d.steps[stepId].runId && Spare(d.steps[stepId]) <= Spare(step)
             else CommitCount(Log(d, step.runId), stepId) <= Spare(step)
    ensures CommitsBounded(e)
  {
    assert forall r :: Log(e, r) == Log(d, r);
  }

  lemma AddStepKeepsInv(w: World, stepId: Id, step: Step, w': World)
    requires Inv(w) && stepId !in w.seen && stepId in w'.seen && w.seen <= w'.seen
    requires step.runId in w.data.runs && step.leaseToken == "" && !step.status.Running? && step.attempt == 0
    requires w'.data == w.data.(steps := w.data.steps[stepId := step])
    ensures Inv(w')
  {
    SameLogs(w, w');
    assert stepId !in w.data.steps;
    assert CommitsFrom(Log(w.data, step.runId), w.seen);
    NoCommitOf(Log(w.data, step.runId), stepId);
    StepChangeKeepsCommits(w.data, w'.data, stepId, step);
    AddStepKeepsShape(w, stepId, step, w');
  }

  lemma AddStepKeepsShape(w: World, stepId: Id, step: Step, w': World)
    requires StepsBelong(w) && LeasesOk(w) && stepId !in w.data.steps && stepId in w'.seen && w.seen <= w'.seen
    requires step.runId in w.data.runs && step.leaseToken == "" && !step.status.Running?
    requires w'.data == w.data.(steps := w.data.steps[stepId := step])
    ensures StepsBelong(w') && LeasesOk(w')
  {
  }

  lemma LeaseKeepsInv(w: World, stepId: Id, step: Step, w': World)
    requires Inv(w) && stepId in w.data.steps && w.seen <= w'.seen
    requires step.runId == w.data.steps[stepId].runId && Spare(w.data.steps[stepId]) <= Spare(step)
    requires step.leaseToken != "" && step.leaseToken !in w.seen && step.leaseToken in w'.seen && step.leaseUntil > 0
    requires w'.data == w.data.(steps := w.data.steps[stepId := step])
    ensures Inv(w')
  {
    SameLogs(w, w');
    StepChangeKeepsCommits(w.data, w'.data, stepId, step);
    LeaseKeepsShape(w, stepId, step, w');
  }

  lemma LeaseKeepsShape(w: World, stepId: Id, step: Step, w': World)
    requires StepsBelong(w) && LeasesOk(w) && stepId in w.data.steps && w.seen <= w'.seen
    requires step.runId == w.data.steps[stepId].runId
    requires step.leaseToken != "" && step.leaseToken !in w.seen && step.leaseToken in w'.seen && step.leaseUntil > 0
    requires w'.data == w.data.(steps := w.data.steps[stepId := step])
    ensures StepsBelong(w') && LeasesOk(w')
  {
    forall s | s in w'.data.steps ensures LeaseOk(w', w'.data.steps[s]) {
      assert LeaseOk(w, w.data.steps[s]);
    }
    forall s, t | s in w'.data.steps && t in w'.data.steps && w'.data.steps[s].leaseToken == w'.data.steps[t].leaseToken != ""
      ensures s == t
    {
      assert LeaseOk(w, w.data.steps[s]) && LeaseOk(w, w.data.steps[t]);
    }
  }

  lemma CreateExternalStepKeepsInv(w: World, call: Call)
    requires Inv(w) && Allowed(w, call) && call.op.CreateExternalStep?
    ensures Inv(Apply(w, call))
  {
    var d, now, runId, stepId := w.data, call.now, call.op.runId, call.op.stepId;
    var w' := Apply(w, call);
    if runId !in d.runs {
      UntouchedQuiet(d, d, {});
      QuietKeepsInv(w, w', {});
    } else {
      var run := d.runs[runId];
      var m := d.(runs := d.runs[runId := run.(status := Pending, updatedAt := now)]);
      var drafts := [Plain(StepCreated, run.sessionId, stepId).(stateVersion := run.stateVersion)];
      var quiet := w.(data := Emit(m, runId, now, drafts));
      TouchQuiet(d, m, quiet.data, runId, now, drafts, {});
      QuietKeepsInv(w, quiet, {});
      AddStepKeepsInv(quiet, stepId, NewStep(runId, run.sessionId, run.stateVersion, now), w');
    }
  }

  /** A claim is a quiet move followed by the hand-out of the lease. */
  function Leased(step: Step, worker: Id, token: Id, leaseSeconds: nat, now: Time): Step
  {
    step.(status := Running, owner := worker, leaseToken := token, leaseUntil := now + leaseSeconds * NANOS_PER_SECOND,
          attempt := step.attempt + 1, updatedAt := now)
  }

  lemma ClaimParts(d: StoreData, worker: Id, stepId: Id, token: Id, leaseSeconds: nat, now: Time) returns (quiet: StoreData)
    requires Rooted(d) && stepId in d.steps
    ensures Quiet(d, quiet, {}) && quiet.steps == d.steps && quiet.approvals == d.approvals
    ensures ClaimStepEffect(d, worker, stepId, token, leaseSeconds, now) ==
            quiet.(steps := d.steps[stepId := Leased(d.steps[stepId], worker, token, leaseSeconds, now)])
  {
    var step := d.steps[stepId];
    var m := d.(runs := d.runs[step.runId := RunOrZero(d, step.runId).(status := Running, updatedAt := now)]);
    var drafts := [Plain(StepClaimed, step.sessionId, stepId)];
    quiet := Emit(m, step.runId, now, drafts);
    TouchQuiet(d, m, quiet, step.runId, now, drafts, {});
  }

  lemma ClaimKeepsInv(w: World, call: Call)
    requires Inv(w) && Allowed(w, call) && call.op.ClaimStep?
    ensures Inv(Apply(w, call))
  {
    var ClaimStep(worker, filter, stepId, token, leaseSeconds) := call.op;
    assert Claimable(w.data, filter, stepId);
    LeaseOutKeepsInv(w, worker, stepId, token, leaseSeconds, call.now, Apply(w, call));
  }

  lemma LeaseOutKeepsInv(w: World, worker: Id, stepId: Id, token: Id, leaseSeconds: nat, now: Time, w': World)
    requires Inv(w) && stepId in w.data.steps && Runnable(w.data.steps[stepId].status) && 0 < now
    requires token != "" && token !in w.seen && w.seen + {token} <= w'.seen
    requires w'.data == ClaimStepEffect(w.data, worker, stepId, token, leaseSeconds, now)
    ensures Inv(w')
  {
    var quiet := ClaimParts(w.data, worker, stepId, token, leaseSeconds, now);
    QuietKeepsInv(w, w.(data := quiet), {});
    LeaseKeepsInv(w.(data := quiet), stepId, Leased(w.data.steps[stepId], worker, token, leaseSeconds, now), w');
  }

  lemma HeartbeatParts(d: StoreData, stepId: Id, token: Id, leaseSeconds: nat, now: Time) returns (quiet: StoreData)
    requires Rooted(d) && LeaseCheck(d, stepId, token, now).Ok?
    ensures Quiet(d, quiet, {}) && quiet.steps == d.steps && quiet.approvals == d.approvals
    ensures HeartbeatEffect(d, stepId, token, leaseSeconds, now) ==
            quiet.(steps := d.steps[stepId := d.steps[stepId].(leaseUntil := now + leaseSeconds * NANOS_PER_SECOND, updatedAt := now)])
  {
    var step := d.steps[stepId];
    var drafts := [Plain(LeaseHeartbeat, step.sessionId, stepId)];
    quiet := Emit(d, step.runId, now, drafts);
    TouchQuiet(d, d, quiet, step.runId, now, drafts, {});
  }

  lemma RenewKeepsInv(w: World, stepId: Id, step: Step, w': World)
    requires Inv(w) && stepId in w.data.steps && w.seen <= w'.seen
    requires step == w.data.steps[stepId].(leaseUntil := step.leaseUntil, updatedAt := step.updatedAt) && step.leaseUntil > 0
    requires w'.data == w.data.(steps := w.data.steps[stepId := step])
    ensures Inv(w')
  {
    SameLogs(w, w');
    StepChangeKeepsCommits(w.data, w'.data, stepId, step);
    RenewKeepsShape(w, stepId, step, w');
  }

  lemma RenewKeepsShape(w: World, stepId: Id, step: Step, w': World)
    requires StepsBelong(w) && LeasesOk(w) && stepId in w.data.steps && w.seen <= w'.seen
    requires step == w.data.steps[stepId].(leaseUntil := step.leaseUntil, updatedAt := step.updatedAt) && step.leaseUntil > 0
    requires w'.data == w.data.(steps := w.data.steps[stepId := step])
    ensures StepsBelong(w') && LeasesOk(w')
  {
    forall s | s in w'.data.steps ensures LeaseOk(w', w'.data.steps[s]) {
      assert LeaseOk(w, w.data.steps[s]);
    }
  }

  lemma HeartbeatKeepsInv(w: World, call: Call)
    requires Inv(w) && Allowed(w, call) && call.op.Heartbeat?
    ensures Inv(Apply(w, call))
  {
    var Heartbeat(stepId, token, leaseSeconds) := call.op;
    var w' := Apply(w, call);
    if LeaseCheck(w.data, stepId, token, call.now).Err? {
      UntouchedQuiet(w.data, w'.data, {});
      QuietKeepsInv(w, w', {});
    } else {
      RenewedKeepsInv(w, stepId, token, leaseSeconds, call.now, w');
    }
  }

  lemma RenewedKeepsInv(w: World, stepId: Id, token: Id, leaseSeconds: nat, now: Time, w': World)
    requires Inv(w) && LeaseCheck(w.data, stepId, token, now).Ok? && 0 < now && w.seen <= w'.seen
    requires w'.data == HeartbeatEffect(w.data, stepId, token, leaseSeconds, now)
    ensures Inv(w')
  {
    var quiet := HeartbeatParts(w.data, stepId, token, leaseSeconds, now);
    QuietKeepsInv(w, w.(data := quiet), {});
    var step := w.data.steps[stepId].(leaseUntil := now + leaseSeconds * NANOS_PER_SECOND, updatedAt := now);
    RenewKeepsInv(w.(data := quiet), stepId, step, w');
  }

  lemma PatchKeepsFaithful(run: Run, run': Run, log: seq<Event>, e: Event)
    requires Faithful(run, log) && IsPatch(e) && !e.draft.kind.RunCreated?
    requires e.seqNo == |log| + 1
    requires e.draft.payload.version == e.draft.stateVersion == run.stateVersion + 1 == run'.stateVersion
    requires run'.state == MergePatch(run.state, Obj(e.draft.payload.patch))
    ensures Faithful(run', log + [e])
  {
    var all := log + [e];
    assert all[..|all| - 1] == log;
    forall i | 0 <= i < |all| && IsPatch(all[i])
      ensures all[i].draft.payload.version == all[i].draft.stateVersion == PatchCount(all[..i + 1])
    {
      if i < |log| {
        assert all[..i + 1] == log[..i + 1];
      } else {
        assert all[..i + 1] == all;
      }
    }
  }

  /** The shape commit and system patch share: one run takes a patch, its log gets the patch event and then
      `rest`, and at most one step of that run changes. */
  ghost predicate Patched(d: StoreData, e: StoreData, runId: Id, now: Time, patch: Draft, rest: seq<Draft>)
  {
    && runId in d.runs && e.runs.Keys == d.runs.Keys && e.events == Emit(d, runId, now, [patch] + rest).events
    && (forall r :: r in d.runs && r != runId ==> e.runs[r] == d.runs[r])
    && (patch.kind.StatePatchCommitted? || patch.kind.SystemPatchApplied?) && patch.payload.Patch? && QuietDrafts(rest)
    && patch.payload.version == patch.stateVersion == d.runs[runId].stateVersion + 1 == e.runs[runId].stateVersion
    && e.runs[runId].state == MergePatch(d.runs[runId].state, Obj(patch.payload.patch))
  }

  function PatchEvent(d: StoreData, runId: Id, now: Time, patch: Draft): Event
  {
    Event(|Log(d, runId)| + 1, now, patch)
  }

  lemma PatchedLog(d: StoreData, e: StoreData, runId: Id, now: Time, patch: Draft, rest: seq<Draft>)
    requires Patched(d, e, runId, now, patch, rest)
    ensures forall r :: r != runId ==> Log(e, r) == Log(d, r)
    ensures QuietLog(Log(d, runId) + [PatchEvent(d, runId, now, patch)], Log(e, runId))
  {
    var drafts := [patch] + rest;
    assert Log(e, runId) == Log(d, runId) + Numbered(|Log(d, runId)|, now, drafts);
    forall i | |Log(d, runId)| + 1 <= i < |Log(e, runId)|
      ensures Log(e, runId)[i].seqNo == i + 1 && !StoreOwned(Log(e, runId)[i].draft.kind)
    {
      assert Log(e, runId)[i].draft == rest[i - |Log(d, runId)| - 1];
    }
  }

  lemma PatchedKeepsLogs(d: StoreData, e: StoreData, runId: Id, now: Time, patch: Draft, rest: seq<Draft>)
    requires LogsFaithful(d) && Patched(d, e, runId, now, patch, rest)
    ensures LogsFaithful(e)
  {
    PatchedLog(d, e, runId, now, patch, rest);
    var pe := PatchEvent(d, runId, now, patch);
    forall r | r in e.runs ensures Faithful(e.runs[r], Log(e, r)) {
      assert Faithful(d.runs[r], Log(d, r));
      if r == runId {
        PatchKeepsFaithful(d.runs[r], e.runs[r], Log(d, r), pe);
        QuietLogKeepsFaithful(e.runs[r], e.runs[r], Log(d, r) + [pe], Log(e, r));
      }
    }
  }

  /** What a patch may do to the steps: the step that commits gives up its lease, the others stay. */
  ghost predicate StepsCommitted(d: StoreData, e: StoreData, patch: Draft)
  {
    && e.steps.Keys == d.steps.Keys && e.approvals == d.approvals
    && forall s :: s in d.steps ==>
         if patch.kind.StatePatchCommitted? && s == patch.stepId
         then d.steps[s].status.Running? && e.steps[s].status.Completed? && e.steps[s].attempt == d.steps[s].attempt
              && e.steps[s].runId == d.steps[s].runId && e.steps[s].leaseToken == d.steps[s].leaseToken
         else e.steps[s] == d.steps[s]
  }

  lemma PatchedKeepsCommits(d: StoreData, e: StoreData, runId: Id, now: Time, patch: Draft, rest: seq<Draft>)
    requires CommitsBounded(d) && Patched(d, e, runId, now, patch, rest) && StepsCommitted(d, e, patch)
    ensures CommitsBounded(e)
  {
    PatchedLog(d, e, runId, now, patch, rest);
    var grown := Log(d, runId) + [PatchEvent(d, runId, now, patch)];
    assert grown[..|grown| - 1] == Log(d, runId);
    forall s | s in e.steps ensures CommitCount(Log(e, e.steps[s].runId), s) <= Spare(e.steps[s]) {
      if d.steps[s].runId == runId {
        QuietLogKeepsReadings(grown, Log(e, runId), s);
      }
    }
  }

  lemma PatchedKeepsCommitsKnown(w: World, w': World, runId: Id, now: Time, patch: Draft, rest: seq<Draft>)
    requires CommitsKnown(w) && Patched(w.data, w'.data, runId, now, patch, rest) && w.seen <= w'.seen
    requires patch.kind.StatePatchCommitted? ==> patch.stepId in w'.seen
    ensures CommitsKnown(w')
  {
    var d, e := w.data, w'.data;
    PatchedLog(d, e, runId, now, patch, rest);
    forall r | r in e.runs ensures CommitsFrom(Log(e, r), w'.seen) {
      assert CommitsFrom(Log(d, r), w.seen);
      if r == runId {
        var grown := Log(d, runId) + [PatchEvent(d, runId, now, patch)];
        QuietLogKeepsCommitsFrom(grown, Log(e, r), w'.seen, w'.seen);
      }
    }
  }

  lemma PatchedKeepsShape(w: World, w': World, runId: Id, now: Time, patch: Draft, rest: seq<Draft>)
    requires StepsBelong(w) && LeasesOk(w) && w.seen <= w'.seen
    requires Patched(w.data, w'.data, runId, now, patch, rest) && StepsCommitted(w.data, w'.data, patch)
    ensures StepsBelong(w') && LeasesOk(w')
  {
    assert w'.data.events.Keys == w.data.events.Keys + {runId};
    forall s | s in w'.data.steps ensures LeaseOk(w', w'.data.steps[s]) {
      assert LeaseOk(w, w.data.steps[s]);
    }
  }

  lemma PatchedKeepsInv(w: World, w': World, runId: Id, now: Time, patch: Draft, rest: seq<Draft>)
    requires Inv(w) && Patched(w.data, w'.data, runId, now, patch, rest) && StepsCommitted(w.data, w'.data, patch)
    requires patch.kind.StatePatchCommitted? ==> patch.stepId in w.data.steps
    requires w.seen <= w'.seen
    ensures Inv(w')
  {
    PatchedKeepsLogs(w.data, w'.data, runId, now, patch, rest);
    PatchedKeepsCommits(w.data, w'.data, runId, now, patch, rest);
    PatchedKeepsCommitsKnown(w, w', runId, now, patch, rest);
    PatchedKeepsShape(w, w', runId, now, patch, rest);
  }

  lemma CommitShape(d: StoreData, runId: Id, stepId: Id, token: Id, base: nat, patch: Object, checkpoint: string, now: Time)
    returns (first: Draft, rest: seq<Draft>)
    requires CommitCheck(d, runId, stepId, token, base, now).Ok?
    ensures Patched(d, CommitEffect(d, runId, stepId, token, base, patch, checkpoint, now), runId, now, first, rest)
    ensures StepsCommitted(d, CommitEffect(d, runId, stepId, token, base, patch, checkpoint, now), first)
    ensures first.stepId == stepId && first.kind.StatePatchCommitted?
  {
    var step := d.steps[stepId];
    first := Draft(StatePatchCommitted, step.sessionId, stepId, "", base + 1, Patch(patch, base + 1));
    rest := [Plain(StepCompleted, step.sessionId, stepId).(stateVersion := base + 1)];
    assert [first] + rest == [first, rest[0]];
  }

  lemma CommitKeepsInv(w: World, call: Call)
    requires Inv(w) && Allowed(w, call) && call.op.Commit?
    ensures Inv(Apply(w, call))
  {
    var Commit(runId, stepId, token, base, patch, checkpoint) := call.op;
    var w' := Apply(w, call);
    if CommitCheck(w.data, runId, stepId, token, base, call.now).Err? {
      UntouchedQuiet(w.data, w'.data, {});
      QuietKeepsInv(w, w', {});
    } else {
      var first, rest := CommitShape(w.data, runId, stepId, token, base, patch, checkpoint, call.now);
      PatchedKeepsInv(w, w', runId, call.now, first, rest);
    }
  }

  lemma SystemPatchShape(d: StoreData, runId: Id, patch: Object, now: Time) returns (first: Draft)
    requires runId in d.runs
    ensures Patched(d, SystemPatchEffect(d, runId, patch, now), runId, now, first, [])
    ensures StepsCommitted(d, SystemPatchEffect(d, runId, patch, now), first)
    ensures first.kind.SystemPatchApplied?
  {
    var version := d.runs[runId].stateVersion + 1;
    first := Draft(SystemPatchApplied, d.runs[runId].sessionId, "", "", version, Patch(patch, version));
    assert [first] + [] == [first];
  }

  lemma SystemPatchKeepsInv(w: World, call: Call)
    requires Inv(w) && Allowed(w, call) && call.op.SystemPatch?
    ensures Inv(Apply(w, call))
  {
    var SystemPatch(runId, patch) := call.op;
    var w' := Apply(w, call);
    if runId !in w.data.runs {
      UntouchedQuiet(w.data, w'.data, {});
      QuietKeepsInv(w, w', {});
    } else {
      var first := SystemPatchShape(w.data, runId, patch, call.now);
      PatchedKeepsInv(w, w', runId, call.now, first, []);
    }
  }

  lemma NewLogFaithful(run: Run, log: seq<Event>, now: Time, sessionId: Id, stepId: Id)
    requires run.stateVersion == 0
    requires log == Numbered(0, now, [Draft(RunCreated, sessionId, "", "", 0, InitialState(run.state)), Plain(StepCreated, sessionId, stepId)])
    ensures Faithful(run, log)
  {
    assert log[..1][..0] == [];
    assert log[..1][0] == log[0] && !IsPatch(log[0]) && !IsPatch(log[1]);
    assert Fold(log[..1]) == run.state && PatchCount(log[..1]) == 0;
  }

  lemma CreateRunKeepsInv(w: World, call: Call)
    requires Inv(w) && Allowed(w, call) && call.op.CreateRun?
    ensures Inv(Apply(w, call))
  {
    var d, now := w.data, call.now;
    var CreateRun(runId, stepId, sessionId, initial) := call.op;
    var w' := Apply(w, call);
    var run := Run(sessionId, Pending, initial, 0, now, now);
    var drafts := [Draft(RunCreated, sessionId, "", "", 0, InitialState(initial)), Plain(StepCreated, sessionId, stepId)];
    var mid := World(Emit(d.(runs := d.runs[runId := run]), runId, now, drafts), w.seen + {runId}, now);
    assert runId !in d.runs && runId !in d.events;
    assert Log(d, runId) == [];
    assert Log(mid.data, runId) == Numbered(0, now, drafts);
    NewLogFaithful(run, Log(mid.data, runId), now, sessionId, stepId);
    assert forall r :: r != runId ==> Log(mid.data, r) == Log(d, r);
    MidCreateShape(w, mid, runId);
    MidCreateLogs(w, mid, runId);
    AddStepKeepsInv(mid, stepId, NewStep(runId, sessionId, 0, now), w');
  }

  /** A store to which only a run with its log has been added. */
  ghost predicate RunAdded(w: World, mid: World, runId: Id)
  {
    && runId !in w.seen && mid.seen == w.seen + {runId}
    && mid.data.steps == w.data.steps && mid.data.approvals == w.data.approvals
    && mid.data.runs.Keys == w.data.runs.Keys + {runId} && mid.data.events.Keys <= mid.seen
    && (forall r :: r != runId ==> Log(mid.data, r) == Log(w.data, r))
    && (forall r :: r in w.data.runs ==> mid.data.runs[r] == w.data.runs[r])
  }

  lemma MidCreateShape(w: World, mid: World, runId: Id)
    requires StepsBelong(w) && LeasesOk(w) && CommitsBounded(w.data) && RunAdded(w, mid, runId)
    ensures StepsBelong(mid) && LeasesOk(mid) && CommitsBounded(mid.data)
  {
    forall s | s in w.data.steps ensures CommitCount(Log(mid.data, w.data.steps[s].runId), s) <= Spare(w.data.steps[s]) {
      assert w.data.steps[s].runId != runId;
    }
  }

  lemma MidCreateLogs(w: World, mid: World, runId: Id)
    requires LogsFaithful(w.data) && CommitsKnown(w) && RunAdded(w, mid, runId) && runId !in w.data.runs
    requires Faithful(mid.data.runs[runId], Log(mid.data, runId))
    requires forall i :: 0 <= i < |Log(mid.data, runId)| ==> !Log(mid.data, runId)[i].draft.kind.StatePatchCommitted?
    ensures LogsFaithful(mid.data) && CommitsKnown(mid)
  {
    forall r | r in mid.data.runs ensures Faithful(mid.data.runs[r], Log(mid.data, r)) && CommitsFrom(Log(mid.data, r), mid.seen) {
      if r != runId {
        assert CommitsFrom(Log(w.data, r), w.seen);
      }
    }
  }

  /** One call. */
  lemma CallKeepsInv(w: World, call: Call)
    requires Inv(w) && Allowed(w, call)
    ensures Inv(Apply(w, call))
  {
    if call.op.CreateRun? {
      CreateRunKeepsInv(w, call);
    } else if call.op.CreateExternalStep? {
      CreateExternalStepKeepsInv(w, call);
    } else if call.op.ClaimStep? {
      ClaimKeepsInv(w, call);
    } else if call.op.Heartbeat? {
      HeartbeatKeepsInv(w, call);
    } else if call.op.Commit? {
      CommitKeepsInv(w, call);
    } else if call.op.SystemPatch? {
      SystemPatchKeepsInv(w, call);
    } else {
      if IsSweep(call.op) { QuietSweep(w, call); } else { QuietRecord(w, call); }
      QuietKeepsInv(w, Apply(w, call), Named(call.op));
    }
  }

  /** Any sequence of calls. */
  lemma {:induction false} CallsKeepInv(w: World, calls: seq<Call>)
    requires Inv(w) && AllowedAll(w, calls)
    ensures Inv(Exec(w, calls))
    decreases |calls|
  {
    if calls != [] {
      CallKeepsInv(w, calls[0]);
      CallsKeepInv(Apply(w, calls[0]), calls[1..]);
    }
  }

  /** In every reachable store each run's log is faithful to the run. */
  lemma ReachableStoreIsFoldOfLog(calls: seq<Call>, runId: Id)
    requires AllowedAll(START, calls) && runId in Exec(START, calls).data.runs
    ensures var d := Exec(START, calls).data; Faithful(d.runs[runId], Log(d, runId))
  {
    CallsKeepInv(START, calls);
  }
}
