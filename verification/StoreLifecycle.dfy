/** The life of a step and of its run: created claimable, claimed once per attempt, and moved by each call as its name
    says. */
module StoreLifecycle {
  import opened Json
  import opened Text
  import opened Store
  import opened StoreInvariant
  import opened StoreSteps
  import opened StoreRuns

  // ---------------------------------------------------------------- created

  /** Nobody holds a lease on the step, and it can be claimed for its run and for any. */
  ghost predicate ReadyToClaim(d: StoreData, runId: Id, stepId: Id)
  {
    && (forall filter :: Claimable(d, filter, stepId) <==> filter == "" || filter == runId)
    && (forall token, now :: LeaseCheck(d, stepId, token, now) == Err(StaleLease))
  }

  /** A run is created with its initial state at version 0, and with one step, which can be claimed. */
  lemma CreatedStepIsClaimable(w: World, call: Call)
    requires Allowed(w, call) && call.op.CreateRun?
    ensures var CreateRun(runId, stepId, sessionId, initial), e := call.op, Apply(w, call).data;
            && ReadyToClaim(e, runId, stepId) && e.steps[stepId].attempt == 0 && e.steps[stepId].stateVersion == 0
            && runId in e.runs && e.runs[runId].status == Pending && e.runs[runId].sessionId == sessionId
            && e.runs[runId].state == initial && e.runs[runId].stateVersion == 0
  {
  }

  /** So can a step added later; it starts from the run's version and puts the run back to pending. */
  lemma ExternalStepIsClaimable(w: World, call: Call)
    requires Allowed(w, call) && call.op.CreateExternalStep? && call.op.runId in w.data.runs
    ensures var CreateExternalStep(runId, stepId), e := call.op, Apply(w, call).data;
            && ReadyToClaim(e, runId, stepId) && e.steps[stepId].attempt == 0
            && e.steps[stepId].stateVersion == w.data.runs[runId].stateVersion
            && e.runs[runId] == w.data.runs[runId].(status := Pending, updatedAt := call.now)
  {
  }

  /** In a store that held no step, the first step created is the one a claim picks, and the only one. */
  lemma FirstStepIsPicked(w: World, call: Call, filter: Id, s: Id)
    requires Allowed(w, call) && call.op.CreateRun? && w.data.steps == map[]
    ensures IsNextStep(Apply(w, call).data, filter, s) <==> s == call.op.stepId && (filter == "" || filter == call.op.runId)
  {
    CreatedStepIsClaimable(w, call);
    assert Apply(w, call).data.steps.Keys == {call.op.stepId};
  }

  /** The step a claim takes was created no later than any other it could take, and where two were created at once its
      identifier comes first: at the first character where they differ it has the smaller one, or it is a prefix. */
  lemma OldestStepIsPicked(d: StoreData, filter: Id, s: Id, other: Id)
    requires IsNextStep(d, filter, s) && Claimable(d, filter, other) && other != s
    ensures d.steps[s].createdAt <= d.steps[other].createdAt
    ensures d.steps[s].createdAt == d.steps[other].createdAt ==>
              exists n :: 0 <= n <= |s| && n <= |other| && s[..n] == other[..n]
                          && (n == |s| < |other| || (n < |s| && n < |other| && s[n] < other[n]))
  {
    if d.steps[s].createdAt == d.steps[other].createdAt {
      var n := LessAt(s, other);
      assert s[..n] == other[..n];
    }
  }

  // ---------------------------------------------------------------- claimed

  /** A claim gives the step to the worker under its token and starts one more attempt; its run is running. */
  lemma ClaimTakesTheStep(w: World, call: Call, s: Id)
    requires Allowed(w, call) && call.op.ClaimStep? && s in w.data.steps
    ensures var ClaimStep(worker, _, stepId, token, _), d, e := call.op, w.data, Apply(w, call).data;
            && stepId in d.steps && s in e.steps
            && d.steps[stepId].runId in e.runs && e.runs[d.steps[stepId].runId].status == Running
            && (if s == stepId then
                  && e.steps[s].status == Running && e.steps[s].owner == worker && e.steps[s].leaseToken == token
                  && e.steps[s].attempt == d.steps[s].attempt + 1
                else e.steps[s] == d.steps[s])
  {
    assert Claimable(w.data, call.op.filter, call.op.stepId);
  }

  // ---------------------------------------------------------------- committed

  /** A commit that passes its checks completes the step on the next version under its checkpoint and gives the run that
      version; a commit that does not pass changes nothing. */
  lemma CommitCompletesTheStep(w: World, call: Call)
    requires Allowed(w, call) && call.op.Commit?
    ensures var Commit(runId, stepId, token, base, _, checkpoint), d, e := call.op, w.data, Apply(w, call).data;
            if CommitCheck(d, runId, stepId, token, base, call.now).Ok? then
              && stepId in e.steps && e.steps[stepId].status == Completed && e.steps[stepId].stateVersion == base + 1
              && e.steps[stepId].checkpointId == checkpoint
              && runId in e.runs && e.runs[runId].status == Completed && e.runs[runId].stateVersion == base + 1
              && (forall s :: s in d.steps && s != stepId ==> s in e.steps && e.steps[s] == d.steps[s])
            else e == d
  {
  }

  // ---------------------------------------------------------------- what every call keeps of a step and of a run

  /** A step that is neither at work nor complete is nobody's. */
  predicate IsReleased(step: Step)
  {
    step.status.Running? || step.status.Completed? || (step.owner == "" && step.leaseToken == "" && step.leaseUntil == 0)
  }

  predicate KeepsStep(a: Step, b: Step, now: Time, claimed: bool)
  {
    && b.runId == a.runId && b.sessionId == a.sessionId && b.createdAt == a.createdAt
    && (b != a ==> b.updatedAt == now) && (IsReleased(a) ==> IsReleased(b))
    && b.attempt == a.attempt + if claimed then 1 else 0
  }

  predicate KeepsRun(a: Run, b: Run, now: Time)
  {
    b.sessionId == a.sessionId && b.createdAt == a.createdAt && (b != a ==> b.updatedAt == now)
  }

  predicate Claims(call: Call, s: Id) { call.op.ClaimStep? && call.op.stepId == s }

  lemma DecisionKeepsStep(d: StoreData, key: Id, decision: ApprovalStatus, approver: string, reason: string, now: Time, s: Id)
    requires s in d.steps
    ensures var e := DecideEffect(d, key, decision, approver, reason, now); s in e.steps && KeepsStep(d.steps[s], e.steps[s], now, false)
  {
  }

  lemma SweepKeepsStep(w: World, call: Call, s: Id)
    requires IsSweep(call.op) && Allowed(w, call) && s in w.data.steps
    ensures s in Apply(w, call).data.steps && KeepsStep(w.data.steps[s], Apply(w, call).data.steps[s], call.now, false)
  {
    match call.op
    case RecoverExpired(ids) => RecoveryOfEachStep(w.data, ids, call.now, s);
    case CancelRun(runId, ids) =>
      if runId in w.data.runs && !Terminal(w.data.runs[runId].status) {
        var asked := Emit(w.data, runId, call.now, [Plain(RunCancelRequested, w.data.runs[runId].sessionId, "")]);
        CancelOfEachStep(asked, runId, ids, call.now, s);
      }
    case Decide(_, key, decision, approver, reason) => DecisionKeepsStep(w.data, key, decision, approver, reason, call.now, s);
    case Mark(_, _, _, _, _) =>
  }

  predicate IsRecord(op: Op)
  {
    op.SystemPatch? || op.Append? || op.Reserve? || op.UpdateLedger? || op.RequestApproval? || op.RecordCost? || op.Read?
  }

  lemma RecordsLeaveSteps(d: StoreData, op: Op, now: Time)
    requires IsRecord(op)
    ensures Effect(d, op, now).steps == d.steps
  {
  }

  lemma CommitKeepsStep(d: StoreData, op: Op, now: Time, s: Id)
    requires op.Commit? && s in d.steps
    ensures s in Effect(d, op, now).steps && KeepsStep(d.steps[s], Effect(d, op, now).steps[s], now, false)
  {
  }

  lemma LeaseKeepsStep(w: World, call: Call, s: Id)
    requires (call.op.ClaimStep? || call.op.Heartbeat?) && s in w.data.steps
    ensures s in Apply(w, call).data.steps && KeepsStep(w.data.steps[s], Apply(w, call).data.steps[s], call.now, Claims(call, s))
  {
  }

  lemma CreationKeepsStep(w: World, call: Call, s: Id)
    requires (call.op.CreateRun? || call.op.CreateExternalStep?) && StepsBelong(w) && Allowed(w, call) && s in w.data.steps
    ensures s in Apply(w, call).data.steps && KeepsStep(w.data.steps[s], Apply(w, call).data.steps[s], call.now, Claims(call, s))
  {
  }

  /** Whatever a call does to a step, the step keeps its run, its session and its time of creation, is stamped with the
      time of the call if it changed, is released if it stops working without being complete, and has one attempt more
      only if it is claimed. */
  lemma CallKeepsStep(w: World, call: Call, s: Id)
    requires StepsBelong(w) && Allowed(w, call) && s in w.data.steps
    ensures s in Apply(w, call).data.steps && KeepsStep(w.data.steps[s], Apply(w, call).data.steps[s], call.now, Claims(call, s))
  {
    if IsSweep(call.op) {
      SweepKeepsStep(w, call, s);
    } else if IsRecord(call.op) {
      RecordsLeaveSteps(w.data, call.op, call.now);
    } else if call.op.Commit? {
      CommitKeepsStep(w.data, call.op, call.now, s);
    } else if call.op.ClaimStep? || call.op.Heartbeat? {
      LeaseKeepsStep(w, call, s);
    } else {
      CreationKeepsStep(w, call, s);
    }
  }

  lemma {:induction false} RecoveryKeepsRun(d: StoreData, ids: seq<Id>, now: Time, r: Id)
    requires r in d.runs
    ensures r in RecoverEffect(d, ids, now).runs && KeepsRun(d.runs[r], RecoverEffect(d, ids, now).runs[r], now)
  {
    if ids != [] {
      RecoveryKeepsRun(d, ids[..|ids| - 1], now, r);
    }
  }

  lemma DecisionKeepsRun(d: StoreData, key: Id, decision: ApprovalStatus, approver: string, reason: string, now: Time, r: Id)
    requires r in d.runs
    ensures var e := DecideEffect(d, key, decision, approver, reason, now); r in e.runs && KeepsRun(d.runs[r], e.runs[r], now)
  {
  }

  lemma CancellationKeepsRun(d: StoreData, runId: Id, ids: seq<Id>, now: Time, r: Id)
    requires r in d.runs
    ensures r in CancelRunEffect(d, runId, ids, now).runs && KeepsRun(d.runs[r], CancelRunEffect(d, runId, ids, now).runs[r], now)
  {
  }

  lemma PatchKeepsRun(d: StoreData, op: Op, now: Time, r: Id)
    requires r in d.runs && (op.Commit? || op.SystemPatch?)
    ensures r in Effect(d, op, now).runs && KeepsRun(d.runs[r], Effect(d, op, now).runs[r], now)
  {
  }

  lemma OthersKeepRun(w: World, call: Call, r: Id)
    requires StepsBelong(w) && Allowed(w, call) && r in w.data.runs
    requires call.op.CreateRun? || call.op.CreateExternalStep? || call.op.ClaimStep? || call.op.Heartbeat? || call.op.Mark?
    ensures r in Apply(w, call).data.runs && KeepsRun(w.data.runs[r], Apply(w, call).data.runs[r], call.now)
  {
    if call.op.ClaimStep? {
      assert Claimable(w.data, call.op.filter, call.op.stepId);
    }
  }

  lemma CallKeepsRun(w: World, call: Call, r: Id)
    requires StepsBelong(w) && Allowed(w, call) && r in w.data.runs
    ensures r in Apply(w, call).data.runs && KeepsRun(w.data.runs[r], Apply(w, call).data.runs[r], call.now)
  {
    match call.op {
      case RecoverExpired(ids) => RecoveryKeepsRun(w.data, ids, call.now, r);
      case Decide(_, key, decision, approver, reason) => DecisionKeepsRun(w.data, key, decision, approver, reason, call.now, r);
      case CancelRun(runId, ids) => CancellationKeepsRun(w.data, runId, ids, call.now, r);
      case Commit(_, _, _, _, _, _) => PatchKeepsRun(w.data, call.op, call.now, r);
      case SystemPatch(_, _) => PatchKeepsRun(w.data, call.op, call.now, r);
      case _ => if IsRecord(call.op) { RecordsLeaveRuns(w.data, call.op, call.now); } else { OthersKeepRun(w, call, r); }
    }
  }

  /** Every step is released unless it is at work or complete, and belongs to the session of its run. */
  ghost predicate StepsKept(d: StoreData)
  {
    forall s :: s in d.steps ==>
      IsReleased(d.steps[s]) && d.steps[s].runId in d.runs && d.steps[s].sessionId == d.runs[d.steps[s].runId].sessionId
  }

  lemma NewStepIsKept(w: World, call: Call, s: Id)
    requires StepsBelong(w) && Allowed(w, call) && s in NewSteps(w.data, call.op)
    ensures var e := Apply(w, call).data;
            && s in e.steps && IsReleased(e.steps[s]) && e.steps[s].attempt == 0 && e.steps[s].createdAt == e.steps[s].updatedAt == call.now
            && e.steps[s].runId in e.runs && e.steps[s].sessionId == e.runs[e.steps[s].runId].sessionId
  {
  }

  lemma CallKeepsStepsKept(w: World, call: Call)
    requires StepsBelong(w) && Allowed(w, call) && StepsKept(w.data)
    ensures StepsKept(Apply(w, call).data)
  {
    var d, e := w.data, Apply(w, call).data;
    StepNames(w, call);
    forall s | s in e.steps
      ensures IsReleased(e.steps[s]) && e.steps[s].runId in e.runs && e.steps[s].sessionId == e.runs[e.steps[s].runId].sessionId
    {
      if s in d.steps {
        CallKeepsStep(w, call, s);
        CallKeepsRun(w, call, d.steps[s].runId);
      } else {
        NewStepIsKept(w, call, s);
      }
    }
  }

  lemma {:induction false} CallsKeepStepsKept(w: World, calls: seq<Call>)
    requires Inv(w) && AllowedAll(w, calls) && StepsKept(w.data)
    ensures StepsKept(Exec(w, calls).data)
    decreases |calls|
  {
    if calls != [] {
      CallKeepsStepsKept(w, calls[0]);
      CallKeepsInv(w, calls[0]);
      CallsKeepStepsKept(Apply(w, calls[0]), calls[1..]);
    }
  }

  /** In every reachable store: no owner, lease or token is left on a step that is neither at work nor complete, and each
      step is of its run's session. */
  lemma ReachableStepsAreReleased(calls: seq<Call>, s: Id)
    requires AllowedAll(START, calls) && s in Exec(START, calls).data.steps
    ensures var d := Exec(START, calls).data;
            && (d.steps[s].status.Running? || d.steps[s].status.Completed?
                || (d.steps[s].owner == "" && d.steps[s].leaseToken == "" && d.steps[s].leaseUntil == 0))
            && d.steps[s].runId in d.runs && d.steps[s].sessionId == d.runs[d.steps[s].runId].sessionId
  {
    CallsKeepStepsKept(START, calls);
  }

  // ---------------------------------------------------------------- attempts

  /** Claims of the step among some calls. */
  function ClaimsOf(calls: seq<Call>, s: Id): nat
  {
    if calls == [] then 0 else (if Claims(calls[0], s) then 1 else 0) + ClaimsOf(calls[1..], s)
  }

  function AttemptOf(d: StoreData, s: Id): nat { if s in d.steps then d.steps[s].attempt else 0 }

  lemma OnlyClaimsCount(w: World, call: Call, s: Id)
    requires StepsBelong(w) && Allowed(w, call)
    ensures AttemptOf(Apply(w, call).data, s) == AttemptOf(w.data, s) + if Claims(call, s) then 1 else 0
  {
    StepNames(w, call);
    if s in w.data.steps {
      CallKeepsStep(w, call, s);
    } else if s in NewSteps(w.data, call.op) {
      NewStepIsKept(w, call, s);
    } else if call.op.ClaimStep? {
      assert Claimable(w.data, call.op.filter, call.op.stepId);
    }
  }

  lemma {:induction false} AttemptsGrow(w: World, calls: seq<Call>, s: Id)
    requires Inv(w) && AllowedAll(w, calls)
    ensures AttemptOf(Exec(w, calls).data, s) == AttemptOf(w.data, s) + ClaimsOf(calls, s)
    decreases |calls|
  {
    if calls != [] {
      OnlyClaimsCount(w, calls[0], s);
      CallKeepsInv(w, calls[0]);
      AttemptsGrow(Apply(w, calls[0]), calls[1..], s);
    }
  }

  /** In every reachable store the attempts of a step are the claims made of it. */
  lemma AttemptsCountClaims(calls: seq<Call>, s: Id)
    requires AllowedAll(START, calls) && s in Exec(START, calls).data.steps
    ensures Exec(START, calls).data.steps[s].attempt == ClaimsOf(calls, s)
  {
    AttemptsGrow(START, calls, s);
  }

  // ---------------------------------------------------------------- the run's own status

  lemma {:induction false} RecoveryOfRun(d: StoreData, ids: seq<Id>, now: Time, r: Id)
    requires r in d.runs
    ensures var e := RecoverEffect(d, ids, now);
            && r in e.runs
            && e.runs[r].status == if exists s :: s in ids && s in d.steps && d.steps[s].runId == r && Expired(d.steps[s], now)
                                   then RetryScheduled else d.runs[r].status
  {
    if ids != [] {
      var init, last := ids[..|ids| - 1], ids[|ids| - 1];
      assert ids == init + [last];
      RecoveryOfRun(d, init, now, r);
      if last in d.steps {
        RecoveryOfEachStep(d, init, now, last);
      } else {
        RecoveryKeepsStepNames(d, init, now);
      }
    }
  }

  lemma {:induction false} RecoveryKeepsStepNames(d: StoreData, ids: seq<Id>, now: Time)
    ensures RecoverEffect(d, ids, now).steps.Keys == d.steps.Keys
  {
    if ids != [] {
      RecoveryKeepsStepNames(d, ids[..|ids| - 1], now);
    }
  }

  /** The step waits for the decision. */
  predicate Awaits(d: StoreData, key: Id, r: Id)
  {
    && key in d.approvals && d.approvals[key].runId == r
    && d.approvals[key].stepId in d.steps && d.steps[d.approvals[key].stepId].status.WaitingHuman?
  }

  lemma DecisionOfRun(d: StoreData, key: Id, decision: ApprovalStatus, approver: string, reason: string, now: Time, r: Id)
    requires r in d.runs && !decision.PENDING?
    ensures var e := DecideEffect(d, key, decision, approver, reason, now);
            && r in e.runs
            && e.runs[r].status == if Awaits(d, key, r) then (if decision.APPROVED? then Pending else Failed) else d.runs[r].status
  {
  }

  lemma CancellationOfRun(d: StoreData, runId: Id, ids: seq<Id>, now: Time, r: Id)
    requires r in d.runs
    ensures var e := CancelRunEffect(d, runId, ids, now);
            && r in e.runs
            && e.runs[r].status == if r == runId && !Terminal(d.runs[r].status) then Cancelled else d.runs[r].status
  {
  }

  lemma PatchOfRun(d: StoreData, op: Op, now: Time, r: Id)
    requires r in d.runs && (op.Commit? || op.SystemPatch?)
    ensures var e := Effect(d, op, now);
            && r in e.runs
            && e.runs[r].status == if op.Commit? && op.runId == r && CommitCheck(d, r, op.stepId, op.token, op.base, now).Ok?
                                   then Completed else d.runs[r].status
  {
  }

  lemma RecordsLeaveRuns(d: StoreData, op: Op, now: Time)
    requires IsRecord(op) && !op.SystemPatch?
    ensures Effect(d, op, now).runs == d.runs
  {
  }

  lemma CreationOfRun(w: World, call: Call, r: Id)
    requires r in w.data.runs && r in w.seen && Allowed(w, call) && (call.op.CreateRun? || call.op.CreateExternalStep? || call.op.Heartbeat?)
    ensures var d, e := w.data, Apply(w, call).data;
            && r in e.runs
            && e.runs[r].status == if call.op.CreateExternalStep? && call.op.runId == r then Pending else d.runs[r].status
  {
  }

  /** Which calls move the status of a run, and to what. No other call does. */
  lemma RunStatusMoves(w: World, call: Call, r: Id)
    requires StepsBelong(w) && Allowed(w, call) && r in w.data.runs
    ensures var d, e := w.data, Apply(w, call).data;
            && r in e.runs
            && e.runs[r].status ==
               match call.op
               case CreateExternalStep(runId, _) => (if runId == r then Pending else d.runs[r].status)
               case ClaimStep(_, _, stepId, _, _) => (if stepId in d.steps && d.steps[stepId].runId == r then Running else d.runs[r].status)
               case RecoverExpired(ids) =>
                 (if exists s :: s in ids && s in d.steps && d.steps[s].runId == r && Expired(d.steps[s], call.now)
                  then RetryScheduled else d.runs[r].status)
               case CancelRun(runId, _) => (if runId == r && !Terminal(d.runs[r].status) then Cancelled else d.runs[r].status)
               case Commit(runId, stepId, token, base, _, _) =>
                 (if runId == r && CommitCheck(d, r, stepId, token, base, call.now).Ok? then Completed else d.runs[r].status)
               case Mark(runId, stepId, status, _, _) => (if runId == r && stepId in d.steps then status else d.runs[r].status)
               case Decide(_, key, decision, _, _) =>
                 (if Awaits(d, key, r) then (if decision.APPROVED? then Pending else Failed) else d.runs[r].status)
               case _ => d.runs[r].status
  {
    match call.op {
      case RecoverExpired(ids) => RecoveryOfRun(w.data, ids, call.now, r);
      case Decide(_, key, decision, approver, reason) => DecisionOfRun(w.data, key, decision, approver, reason, call.now, r);
      case CancelRun(runId, ids) => CancellationOfRun(w.data, runId, ids, call.now, r);
      case Commit(_, _, _, _, _, _) => PatchOfRun(w.data, call.op, call.now, r);
      case SystemPatch(_, _) => PatchOfRun(w.data, call.op, call.now, r);
      case ClaimStep(_, filter, stepId, _, _) => assert Claimable(w.data, filter, stepId);
      case Mark(_, _, _, _, _) =>
      case _ => if IsRecord(call.op) { RecordsLeaveRuns(w.data, call.op, call.now); } else { CreationOfRun(w, call, r); }
    }
  }
}
