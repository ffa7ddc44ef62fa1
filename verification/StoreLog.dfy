/** The log as an audit trail: it tells the status of every step. */
module StoreLog {
  import opened Json
  import opened Text
  import opened Store
  import opened StoreInvariant
  import opened StoreSteps

  predicate IsMove(kind: Kind)
  {
    kind.StepCreated? || kind.StepClaimed? || kind.StepRetryScheduled? || kind.StepWaitingHuman? || kind.StepCompleted?
    || kind.StepFailed? || kind.StepCancelled?
  }

  /** The statuses an event of this kind leaves its step in. */
  predicate Tells(kind: Kind, status: Status)
  {
    match kind
    case StepCreated => status == Pending
    case StepClaimed => status == Running
    case StepRetryScheduled => status == RetryScheduled || status == Pending
    case StepWaitingHuman => status == WaitingHuman
    case StepCompleted => status == Completed
    case StepFailed => status == Failed
    case StepCancelled => status == Cancelled
    case _ => false
  }

  /** The last such event of the step among some drafts, and in a log. */
  function MoveAmong(drafts: seq<Draft>, s: Id): Option<Kind>
  {
    if drafts == [] then None
    else
      var last := drafts[|drafts| - 1];
      if IsMove(last.kind) && last.stepId == s then Some(last.kind) else MoveAmong(drafts[..|drafts| - 1], s)
  }

  function Drafts(log: seq<Event>): seq<Draft> { seq(|log|, i requires 0 <= i < |log| => log[i].draft) }

  function LastMove(log: seq<Event>, s: Id): Option<Kind> { MoveAmong(Drafts(log), s) }

  lemma {:induction false} MoveAppends(a: seq<Draft>, b: seq<Draft>, s: Id)
    ensures MoveAmong(a + b, s) == if MoveAmong(b, s).Some? then MoveAmong(b, s) else MoveAmong(a, s)
  {
    if b == [] {
      assert a + b == a;
    } else {
      assert (a + b)[..|a + b| - 1] == a + b[..|b| - 1];
      MoveAppends(a, b[..|b| - 1], s);
    }
  }

  lemma EmitMoves(d: StoreData, runId: Id, now: Time, drafts: seq<Draft>, r: Id, s: Id)
    ensures LastMove(Log(Emit(d, runId, now, drafts), r), s) ==
            if r == runId && MoveAmong(drafts, s).Some? then MoveAmong(drafts, s) else LastMove(Log(d, r), s)
  {
    if r == runId {
      assert Drafts(Log(Emit(d, runId, now, drafts), r)) == Drafts(Log(d, r)) + drafts;
      MoveAppends(Drafts(Log(d, r)), drafts, s);
    }
  }

  /** The last move logged for the step is one that leaves it in the status it has. */
  predicate IsTold(d: StoreData, s: Id)
    requires s in d.steps
  {
    var last := LastMove(Log(d, d.steps[s].runId), s);
    last.Some? && Tells(last.value, d.steps[s].status)
  }

  ghost predicate AllTold(d: StoreData) { forall s :: s in d.steps ==> IsTold(d, s) }

  /** The same events, and these drafts logged to the run. */
  predicate Logs(d: StoreData, e: StoreData, runId: Id, now: Time, drafts: seq<Draft>)
  {
    e.events == Emit(d, runId, now, drafts).events
  }

  /** Nothing is logged for the step, which has kept its run and status. */
  lemma StillTold(d: StoreData, e: StoreData, runId: Id, now: Time, drafts: seq<Draft>, s: Id)
    requires s in d.steps && IsTold(d, s) && Logs(d, e, runId, now, drafts) && MoveAmong(drafts, s) == None
    requires s in e.steps && e.steps[s].runId == d.steps[s].runId && e.steps[s].status == d.steps[s].status
    ensures IsTold(e, s)
  {
    EmitMoves(d, runId, now, drafts, d.steps[s].runId, s);
    assert Log(e, d.steps[s].runId) == Log(Emit(d, runId, now, drafts), d.steps[s].runId);
  }

  /** A move is logged to the step's own run. */
  lemma NowTold(d: StoreData, e: StoreData, runId: Id, now: Time, drafts: seq<Draft>, s: Id)
    requires Logs(d, e, runId, now, drafts) && s in e.steps && e.steps[s].runId == runId
    requires MoveAmong(drafts, s).Some? && Tells(MoveAmong(drafts, s).value, e.steps[s].status)
    ensures IsTold(e, s)
  {
    EmitMoves(d, runId, now, drafts, runId, s);
    assert Log(e, runId) == Log(Emit(d, runId, now, drafts), runId);
  }

  /** The last draft is a move of step `t` that tells its new status, no draft moves another step, and no other step
      has changed. */
  lemma OneMoves(d: StoreData, e: StoreData, runId: Id, now: Time, drafts: seq<Draft>, t: Id)
    requires AllTold(d) && Logs(d, e, runId, now, drafts) && t in e.steps && e.steps[t].runId == runId && drafts != []
    requires var last := drafts[|drafts| - 1]; IsMove(last.kind) && last.stepId == t && Tells(last.kind, e.steps[t].status)
    requires forall i :: 0 <= i < |drafts| && IsMove(drafts[i].kind) ==> drafts[i].stepId == t
    requires forall s :: s in e.steps && s != t ==> s in d.steps && e.steps[s] == d.steps[s]
    ensures AllTold(e)
  {
    forall s | s in e.steps ensures IsTold(e, s) {
      if s == t {
        NowTold(d, e, runId, now, drafts, s);
      } else {
        NoMoveAmong(drafts, s);
        StillTold(d, e, runId, now, drafts, s);
      }
    }
  }

  lemma NoneMoves(d: StoreData, e: StoreData, runId: Id, now: Time, drafts: seq<Draft>)
    requires AllTold(d) && Logs(d, e, runId, now, drafts) && e.steps.Keys == d.steps.Keys
    requires forall s :: s in d.steps ==> e.steps[s].runId == d.steps[s].runId && e.steps[s].status == d.steps[s].status
    requires forall i :: 0 <= i < |drafts| ==> !IsMove(drafts[i].kind)
    ensures AllTold(e)
  {
    forall s | s in e.steps ensures IsTold(e, s) {
      NoMoveAmong(drafts, s);
      StillTold(d, e, runId, now, drafts, s);
    }
  }

  lemma {:induction false} NoMoveAmong(drafts: seq<Draft>, s: Id)
    requires forall i :: 0 <= i < |drafts| && IsMove(drafts[i].kind) ==> drafts[i].stepId != s
    ensures MoveAmong(drafts, s) == None
  {
    if drafts != [] {
      NoMoveAmong(drafts[..|drafts| - 1], s);
    }
  }

  // ---------------------------------------------------------------- call by call

  lemma RecoverOneTells(d: StoreData, stepId: Id, now: Time)
    requires AllTold(d)
    ensures AllTold(RecoverOne(d, stepId, now))
  {
    if stepId in d.steps && Expired(d.steps[stepId], now) {
      var step := d.steps[stepId];
      OneMoves(d, RecoverOne(d, stepId, now), step.runId, now,
               [Plain(LeaseExpired, step.sessionId, stepId), Plain(StepRetryScheduled, step.sessionId, stepId)], stepId);
    }
  }

  lemma {:induction false} RecoverTells(d: StoreData, ids: seq<Id>, now: Time)
    requires AllTold(d)
    ensures AllTold(RecoverEffect(d, ids, now))
  {
    if ids != [] {
      RecoverTells(d, ids[..|ids| - 1], now);
      RecoverOneTells(RecoverEffect(d, ids[..|ids| - 1], now), ids[|ids| - 1], now);
    }
  }

  lemma CancelOneTells(d: StoreData, runId: Id, stepId: Id, now: Time)
    requires AllTold(d)
    ensures AllTold(CancelOne(d, runId, stepId, now))
  {
    if Cancellable(d, runId, stepId) {
      OneMoves(d, CancelOne(d, runId, stepId, now), runId, now, [Plain(StepCancelled, d.steps[stepId].sessionId, stepId)], stepId);
    }
  }

  lemma {:induction false} CancelStepsTell(d: StoreData, runId: Id, ids: seq<Id>, now: Time)
    requires AllTold(d)
    ensures AllTold(CancelSteps(d, runId, ids, now))
  {
    if ids != [] {
      CancelStepsTell(d, runId, ids[..|ids| - 1], now);
      CancelOneTells(CancelSteps(d, runId, ids[..|ids| - 1], now), runId, ids[|ids| - 1], now);
    }
  }

  lemma CancelRunTells(d: StoreData, runId: Id, ids: seq<Id>, now: Time)
    requires AllTold(d)
    ensures AllTold(CancelRunEffect(d, runId, ids, now))
  {
    if runId in d.runs && !Terminal(d.runs[runId].status) {
      var session := d.runs[runId].sessionId;
      var asked := Emit(d, runId, now, [Plain(RunCancelRequested, session, "")]);
      NoneMoves(d, asked, runId, now, [Plain(RunCancelRequested, session, "")]);
      CancelStepsTell(asked, runId, ids, now);
      NoneMoves(CancelSteps(asked, runId, ids, now), CancelRunEffect(d, runId, ids, now), runId, now, [Plain(RunCancelled, session, "")]);
    }
  }

  lemma CreateTells(d: StoreData, op: Op, now: Time)
    requires AllTold(d) && (op.CreateRun? || op.CreateExternalStep?)
    ensures AllTold(Effect(d, op, now))
  {
    if op.CreateRun? {
      OneMoves(d, Effect(d, op, now), op.runId, now,
               [Draft(RunCreated, op.sessionId, "", "", 0, InitialState(op.initial)), Plain(StepCreated, op.sessionId, op.stepId)], op.stepId);
    } else if op.runId in d.runs {
      var run := d.runs[op.runId];
      OneMoves(d, Effect(d, op, now), op.runId, now,
               [Plain(StepCreated, run.sessionId, op.stepId).(stateVersion := run.stateVersion)], op.stepId);
    }
  }

  lemma ClaimTells(d: StoreData, worker: Id, stepId: Id, token: Id, leaseSeconds: nat, now: Time)
    requires AllTold(d)
    ensures AllTold(ClaimStepEffect(d, worker, stepId, token, leaseSeconds, now))
  {
    if stepId in d.steps {
      var step := d.steps[stepId];
      OneMoves(d, ClaimStepEffect(d, worker, stepId, token, leaseSeconds, now), step.runId, now,
               [Plain(StepClaimed, step.sessionId, stepId)], stepId);
    }
  }

  lemma HeartbeatTells(d: StoreData, stepId: Id, token: Id, leaseSeconds: nat, now: Time)
    requires AllTold(d)
    ensures AllTold(HeartbeatEffect(d, stepId, token, leaseSeconds, now))
  {
    if LeaseCheck(d, stepId, token, now).Ok? {
      var step := d.steps[stepId];
      NoneMoves(d, HeartbeatEffect(d, stepId, token, leaseSeconds, now), step.runId, now, [Plain(LeaseHeartbeat, step.sessionId, stepId)]);
    }
  }

  lemma CommitTells(d: StoreData, runId: Id, stepId: Id, token: Id, base: nat, patch: Object, checkpoint: string, now: Time)
    requires AllTold(d) && OfClaim(d, runId, stepId)
    ensures AllTold(CommitEffect(d, runId, stepId, token, base, patch, checkpoint, now))
  {
    if CommitCheck(d, runId, stepId, token, base, now).Ok? {
      var session := d.steps[stepId].sessionId;
      OneMoves(d, CommitEffect(d, runId, stepId, token, base, patch, checkpoint, now), runId, now,
               [Draft(StatePatchCommitted, session, stepId, "", base + 1, Patch(patch, base + 1)),
                Plain(StepCompleted, session, stepId).(stateVersion := base + 1)], stepId);
    }
  }

  lemma SystemPatchParts(d: StoreData, runId: Id, patch: Object, now: Time)
    requires runId in d.runs
    ensures var run, e := d.runs[runId], SystemPatchEffect(d, runId, patch, now);
            && e.steps == d.steps
            && Logs(d, e, runId, now, [Draft(SystemPatchApplied, run.sessionId, "", "", run.stateVersion + 1, Patch(patch, run.stateVersion + 1))])
  {
  }

  lemma SystemPatchTells(d: StoreData, runId: Id, patch: Object, now: Time)
    requires AllTold(d)
    ensures AllTold(SystemPatchEffect(d, runId, patch, now))
  {
    if runId in d.runs {
      var run, e := d.runs[runId], SystemPatchEffect(d, runId, patch, now);
      SystemPatchParts(d, runId, patch, now);
      NoneMoves(d, e, runId, now, [Draft(SystemPatchApplied, run.sessionId, "", "", run.stateVersion + 1, Patch(patch, run.stateVersion + 1))]);
    }
  }

  function MarkDrafts(status: Status, session: Id, stepId: Id): seq<Draft>
  {
    if status.WaitingHuman? then [Plain(StepWaitingHuman, session, stepId)]
    else [Plain(FailureClassified, session, stepId), Plain(ErrorRaised, session, stepId),
          Plain(if status.RetryScheduled? then StepRetryScheduled else StepFailed, session, stepId)]
  }

  lemma MarkParts(d: StoreData, runId: Id, stepId: Id, status: Status, errorType: string, message: string, now: Time)
    requires stepId in d.steps
    ensures var e := MarkEffect(d, runId, stepId, status, errorType, message, now);
            && stepId in e.steps && e.steps[stepId].runId == d.steps[stepId].runId && e.steps[stepId].status == status
            && (forall s :: s in e.steps && s != stepId ==> s in d.steps && e.steps[s] == d.steps[s])
            && Logs(d, e, runId, now, MarkDrafts(status, d.steps[stepId].sessionId, stepId))
  {
  }

  lemma MarkTells(d: StoreData, runId: Id, stepId: Id, status: Status, errorType: string, message: string, now: Time)
    requires AllTold(d) && OfClaim(d, runId, stepId) && (status.WaitingHuman? || status.RetryScheduled? || status.Failed?)
    ensures AllTold(MarkEffect(d, runId, stepId, status, errorType, message, now))
  {
    if stepId in d.steps {
      MarkParts(d, runId, stepId, status, errorType, message, now);
      OneMoves(d, MarkEffect(d, runId, stepId, status, errorType, message, now), runId, now,
               MarkDrafts(status, d.steps[stepId].sessionId, stepId), stepId);
    }
  }

  lemma DecideTells(d: StoreData, key: Id, decision: ApprovalStatus, approver: string, reason: string, now: Time)
    requires AllTold(d) && ApprovalsBelong(d, d.approvals)
    ensures AllTold(DecideEffect(d, key, decision, approver, reason, now))
  {
    if key in d.approvals {
      var noted := NoteDecision(d, key, decision, approver, reason, now);
      var approval := noted.approvals[key];
      NoneMoves(d, noted, approval.runId, now, [Plain(ApprovalDecided, approval.sessionId, approval.stepId)]);
      ReleaseTells(noted, approval, now);
    }
  }

  predicate Waits(d: StoreData, approval: Approval)
  {
    OfClaim(d, approval.runId, approval.stepId) && approval.stepId in d.steps && d.steps[approval.stepId].status.WaitingHuman?
  }

  lemma ApproveTells(d: StoreData, approval: Approval, now: Time)
    requires AllTold(d) && Waits(d, approval) && approval.status.APPROVED?
    ensures AllTold(ReleaseStep(d, approval, now))
  {
    OneMoves(d, ReleaseStep(d, approval, now), approval.runId, now,
             [Plain(StepRetryScheduled, approval.sessionId, approval.stepId)], approval.stepId);
  }

  lemma DenyTells(d: StoreData, approval: Approval, now: Time)
    requires AllTold(d) && Waits(d, approval) && approval.status.DENIED?
    ensures AllTold(ReleaseStep(d, approval, now))
  {
    OneMoves(d, ReleaseStep(d, approval, now), approval.runId, now,
             [Plain(FailureClassified, approval.sessionId, approval.stepId),
              Plain(StepFailed, approval.sessionId, approval.stepId)], approval.stepId);
  }

  lemma ReleaseTells(d: StoreData, approval: Approval, now: Time)
    requires AllTold(d) && OfClaim(d, approval.runId, approval.stepId)
    ensures AllTold(ReleaseStep(d, approval, now))
  {
    if Waits(d, approval) {
      if approval.status.APPROVED? {
        ApproveTells(d, approval, now);
      } else if approval.status.DENIED? {
        DenyTells(d, approval, now);
      }
    }
  }

  /** Clients append no events of their own that move steps. */
  predicate ForgesNoMove(call: Call) { call.op.Append? ==> !IsMove(call.op.draft.kind) }

  lemma RecordTells(d: StoreData, op: Op, now: Time)
    requires AllTold(d) && ForgesNoMove(Call(op, now))
    requires op.Append? || op.Reserve? || op.UpdateLedger? || op.RequestApproval? || op.RecordCost? || op.Read?
    ensures AllTold(Effect(d, op, now))
  {
    match op
    case Append(runId, draft) => NoneMoves(d, Effect(d, op, now), runId, now, [draft]);
    case RecordCost(runId, sessionId, record) =>
      NoneMoves(d, Effect(d, op, now), runId, now, [Plain(CostRecorded, sessionId, record.stepId)]);
    case _ => SameIsTold(d, Effect(d, op, now));
  }

  lemma SameIsTold(d: StoreData, e: StoreData)
    requires AllTold(d) && e.steps == d.steps && e.events == d.events
    ensures AllTold(e)
  {
    forall s | s in e.steps ensures IsTold(e, s) {
      assert IsTold(d, s) && Log(e, d.steps[s].runId) == Log(d, d.steps[s].runId);
    }
  }

  lemma CallKeepsTold(w: World, call: Call)
    requires StepsBelong(w) && Allowed(w, call) && AllTold(w.data) && ForgesNoMove(call)
    ensures AllTold(Apply(w, call).data)
  {
    var d, now := w.data, call.now;
    match call.op {
      case CreateRun(_, _, _, _) => CreateTells(d, call.op, now);
      case CreateExternalStep(_, _) => CreateTells(d, call.op, now);
      case ClaimStep(worker, _, stepId, token, leaseSeconds) => ClaimTells(d, worker, stepId, token, leaseSeconds, now);
      case Heartbeat(stepId, token, leaseSeconds) => HeartbeatTells(d, stepId, token, leaseSeconds, now);
      case RecoverExpired(ids) => RecoverTells(d, ids, now);
      case CancelRun(runId, ids) => CancelRunTells(d, runId, ids, now);
      case Commit(runId, stepId, token, base, patch, checkpoint) => CommitTells(d, runId, stepId, token, base, patch, checkpoint, now);
      case SystemPatch(runId, patch) => SystemPatchTells(d, runId, patch, now);
      case Mark(runId, stepId, status, errorType, message) => MarkTells(d, runId, stepId, status, errorType, message, now);
      case Decide(_, key, decision, approver, reason) => DecideTells(d, key, decision, approver, reason, now);
      case _ => RecordTells(d, call.op, now);
    }
  }

  lemma {:induction false} CallsKeepTold(w: World, calls: seq<Call>)
    requires Inv(w) && AllowedAll(w, calls) && AllTold(w.data) && forall c :: c in calls ==> ForgesNoMove(c)
    ensures AllTold(Exec(w, calls).data)
    decreases |calls|
  {
    if calls != [] {
      assert calls[0] in calls;
      CallKeepsTold(w, calls[0]);
      CallKeepsInv(w, calls[0]);
      CallsKeepTold(Apply(w, calls[0]), calls[1..]);
    }
  }

  /** In every reachable store, the last event of a step that moves steps tells the status the step is in: created means
      pending, claimed running, retry scheduled claimable, and each of the others its own status. */
  lemma LogTellsTheStatus(calls: seq<Call>, s: Id)
    requires AllowedAll(START, calls) && (forall c :: c in calls ==> ForgesNoMove(c)) && s in Exec(START, calls).data.steps
    ensures var d := Exec(START, calls).data;
            var last := LastMove(Log(d, d.steps[s].runId), s);
            last.Some? && Tells(last.value, d.steps[s].status)
  {
    CallsKeepTold(START, calls);
    assert IsTold(Exec(START, calls).data, s);
  }
}
