/** Guarantees over whole runs of the store: state and log, lease fencing, commits, cancellation. */
module StoreRuns {
  import opened Json
  import opened Text
  import opened Store
  import opened StoreInvariant
  import opened StoreSteps

  // ---------------------------------------------------------------- state and log

  /** A run only ever moves forward: its log is append-only, its version never drops, and its state changes
      only together with the version. */
  ghost predicate Forward(d: StoreData, e: StoreData, r: Id)
  {
    && r in d.runs && r in e.runs
    && Log(d, r) <= Log(e, r)
    && d.runs[r].stateVersion <= e.runs[r].stateVersion
    && (d.runs[r].stateVersion == e.runs[r].stateVersion ==> d.runs[r].state == e.runs[r].state)
  }

  lemma QuietIsForward(d: StoreData, e: StoreData, extra: set<Id>, r: Id)
    requires Quiet(d, e, extra) && r in d.runs
    ensures Forward(d, e, r)
  {
    assert QuietLog(Log(d, r), Log(e, r));
  }

  lemma PatchedIsForward(d: StoreData, e: StoreData, runId: Id, now: Time, patch: Draft, rest: seq<Draft>, r: Id)
    requires Patched(d, e, runId, now, patch, rest) && r in d.runs
    ensures Forward(d, e, r)
  {
    PatchedLog(d, e, runId, now, patch, rest);
  }

  lemma LeaseCallIsForward(w: World, call: Call, r: Id)
    requires StepsBelong(w) && Allowed(w, call) && r in w.data.runs
    requires call.op.ClaimStep? || call.op.Heartbeat?
    ensures Forward(w.data, Effect(w.data, call.op, call.now), r)
  {
    if call.op.ClaimStep? {
      var ClaimStep(worker, filter, stepId, token, leaseSeconds) := call.op;
      assert Claimable(w.data, filter, stepId);
      var quiet := ClaimParts(w.data, worker, stepId, token, leaseSeconds, call.now);
      QuietIsForward(w.data, quiet, {}, r);
    } else if LeaseCheck(w.data, call.op.stepId, call.op.token, call.now).Ok? {
      var quiet := HeartbeatParts(w.data, call.op.stepId, call.op.token, call.op.leaseSeconds, call.now);
      QuietIsForward(w.data, quiet, {}, r);
    }
  }

  lemma PatchCallIsForward(w: World, call: Call, r: Id)
    requires r in w.data.runs && (call.op.Commit? || call.op.SystemPatch?)
    ensures Forward(w.data, Effect(w.data, call.op, call.now), r)
  {
    var d, now := w.data, call.now;
    if call.op.Commit? {
      var Commit(runId, stepId, token, base, patch, checkpoint) := call.op;
      if CommitCheck(d, runId, stepId, token, base, now).Ok? {
        var first, rest := CommitShape(d, runId, stepId, token, base, patch, checkpoint, now);
        PatchedIsForward(d, Effect(d, call.op, now), runId, now, first, rest, r);
      }
    } else if call.op.runId in d.runs {
      var first := SystemPatchShape(d, call.op.runId, call.op.patch, now);
      PatchedIsForward(d, Effect(d, call.op, now), call.op.runId, now, first, [], r);
    }
  }

  lemma CallIsForward(w: World, call: Call, r: Id)
    requires StepsBelong(w) && Allowed(w, call) && r in w.data.runs
    ensures Forward(w.data, Apply(w, call).data, r)
  {
    if call.op.ClaimStep? || call.op.Heartbeat? {
      LeaseCallIsForward(w, call, r);
    } else if call.op.Commit? || call.op.SystemPatch? {
      PatchCallIsForward(w, call, r);
    } else if call.op.CreateRun? || call.op.CreateExternalStep? {
      assert call.op.CreateRun? ==> r != call.op.runId;
    } else {
      if IsSweep(call.op) { QuietSweep(w, call); } else { QuietRecord(w, call); }
      QuietIsForward(w.data, Apply(w, call).data, Named(call.op), r);
    }
  }

  lemma {:induction false} RunsMoveForward(w: World, calls: seq<Call>, r: Id)
    requires Inv(w) && AllowedAll(w, calls) && r in w.data.runs
    ensures Forward(w.data, Exec(w, calls).data, r)
    decreases |calls|
  {
    if calls != [] {
      CallIsForward(w, calls[0], r);
      CallKeepsInv(w, calls[0]);
      RunsMoveForward(Apply(w, calls[0]), calls[1..], r);
    }
  }

  /** The loop of a runner: it loads state and version, works while other calls happen, then commits on the
      version it loaded. A commit that succeeds builds on exactly the state that was loaded. */
  lemma CommitBuildsOnLoadedState(w: World, calls: seq<Call>, runId: Id, stepId: Id, token: Id, patch: Object,
                                  checkpoint: string, now: Time)
    requires Inv(w) && AllowedAll(w, calls) && runId in w.data.runs
    requires CommitCheck(Exec(w, calls).data, runId, stepId, token, w.data.runs[runId].stateVersion, now).Ok?
    ensures var loaded := w.data.runs[runId];
            var after := CommitEffect(Exec(w, calls).data, runId, stepId, token, loaded.stateVersion, patch, checkpoint, now).runs[runId];
            after.state == MergePatch(loaded.state, Obj(patch)) && after.stateVersion == loaded.stateVersion + 1
  {
    RunsMoveForward(w, calls, runId);
  }

  lemma PassedVersionIsRefused(w: World, calls: seq<Call>, runId: Id, base: nat, stepId: Id, token: Id, now: Time)
    requires Inv(w) && AllowedAll(w, calls) && runId in w.data.runs && base < w.data.runs[runId].stateVersion
    ensures CommitCheck(Exec(w, calls).data, runId, stepId, token, base, now).Err?
  {
    RunsMoveForward(w, calls, runId);
  }

  /** At most one commit succeeds per base version: after one, the same base is refused for good. */
  lemma BaseVersionCommitsOnce(w: World, call: Call, calls: seq<Call>, stepId: Id, token: Id, now: Time)
    requires Inv(w) && Allowed(w, call) && AllowedAll(Apply(w, call), calls) && call.op.Commit?
    requires CommitCheck(w.data, call.op.runId, call.op.stepId, call.op.token, call.op.base, call.now).Ok?
    ensures CommitCheck(Exec(Apply(w, call), calls).data, call.op.runId, stepId, token, call.op.base, now).Err?
  {
    var Commit(runId, sid, tok, base, patch, checkpoint) := call.op;
    CallKeepsInv(w, call);
    var first, rest := CommitShape(w.data, runId, sid, tok, base, patch, checkpoint, call.now);
    PassedVersionIsRefused(Apply(w, call), calls, runId, base, stepId, token, now);
  }

  lemma {:induction false} PatchCountGrows(log: seq<Event>, i: nat, j: nat)
    requires i <= j <= |log|
    ensures PatchCount(log[..i]) <= PatchCount(log[..j])
    decreases j
  {
    if i < j {
      assert log[..j][..j - 1] == log[..j - 1];
      PatchCountGrows(log, i, j - 1);
    }
  }

  /** The patches of a faithful log carry the versions 1, 2, ..., one patch each, in log order. */
  lemma PatchVersionsInOrder(run: Run, log: seq<Event>, i: nat, j: nat)
    requires Faithful(run, log) && i < j < |log| && IsPatch(log[i]) && IsPatch(log[j])
    ensures 1 <= log[i].draft.payload.version < log[j].draft.payload.version <= run.stateVersion
  {
    assert log[..i + 1][..i] == log[..i] && log[..j + 1][..j] == log[..j];
    PatchCountGrows(log, i + 1, j);
    PatchCountGrows(log, j + 1, |log|);
    assert log[..|log|] == log;
  }

  lemma {:induction false} EveryVersionIsLogged(run: Run, log: seq<Event>, v: nat) returns (i: nat)
    requires Faithful(run, log) && 1 <= v <= run.stateVersion
    ensures i < |log| && IsPatch(log[i]) && log[i].draft.payload.version == v
  {
    assert log[..|log|] == log;
    i := FindVersion(log, |log|, v);
  }

  lemma {:induction false} FindVersion(log: seq<Event>, n: nat, v: nat) returns (i: nat)
    requires n <= |log| && 1 <= v <= PatchCount(log[..n])
    requires forall k :: 0 <= k < |log| && IsPatch(log[k]) ==> log[k].draft.payload.version == PatchCount(log[..k + 1])
    ensures i < n && IsPatch(log[i]) && log[i].draft.payload.version == v
    decreases n
  {
    assert log[..n][..n - 1] == log[..n - 1];
    if PatchCount(log[..n - 1]) >= v {
      i := FindVersion(log, n - 1, v);
    } else {
      i := n - 1;
    }
  }

  // ---------------------------------------------------------------- fencing

  /** A token the store has seen that it would refuse for this step now. */
  predicate Dead(w: World, stepId: Id, token: Id)
  {
    token in w.seen && LeaseCheck(w.data, stepId, token, w.clock).Err?
  }

  /** Whoever still holds the lease after a call held it before, unexpired. */
  ghost predicate NoNewHolder(w: World, e: StoreData, stepId: Id, token: Id)
  {
    stepId in e.steps && e.steps[stepId].status.Running? && e.steps[stepId].leaseToken == token ==>
      && stepId in w.data.steps && w.data.steps[stepId].status.Running? && w.data.steps[stepId].leaseToken == token
      && (e.steps[stepId].leaseUntil == w.data.steps[stepId].leaseUntil || LeaseCheck(w.data, stepId, token, w.clock).Ok?)
  }

  lemma QuietGivesNoLease(w: World, e: StoreData, extra: set<Id>, stepId: Id, token: Id)
    requires Quiet(w.data, e, extra)
    ensures NoNewHolder(w, e, stepId, token)
  {
    if stepId in e.steps {
      assert QuietStep(w.data.steps[stepId], e.steps[stepId]);
    }
  }

  lemma CallGivesNoOldLease(w: World, call: Call, stepId: Id, token: Id)
    requires StepsBelong(w) && Allowed(w, call) && token in w.seen
    ensures NoNewHolder(w, Apply(w, call).data, stepId, token)
  {
    if IsQuiet(call.op) {
      if IsSweep(call.op) { QuietSweep(w, call); } else { QuietRecord(w, call); }
      QuietGivesNoLease(w, Apply(w, call).data, Named(call.op), stepId, token);
    }
  }

  lemma CallKeepsDead(w: World, call: Call, stepId: Id, token: Id)
    requires StepsBelong(w) && Allowed(w, call) && Dead(w, stepId, token)
    ensures Dead(Apply(w, call), stepId, token)
  {
    CallGivesNoOldLease(w, call, stepId, token);
  }

  /** Once a lease token is refused for a step it is refused forever, at every later instant. */
  lemma {:induction false} RefusedForever(w: World, calls: seq<Call>, stepId: Id, token: Id, later: Time)
    requires Inv(w) && AllowedAll(w, calls) && Dead(w, stepId, token)
    requires Exec(w, calls).clock <= later
    ensures Dead(Exec(w, calls), stepId, token) && LeaseCheck(Exec(w, calls).data, stepId, token, later).Err?
    decreases |calls|
  {
    if calls != [] {
      CallKeepsDead(w, calls[0], stepId, token);
      CallKeepsInv(w, calls[0]);
      RefusedForever(Apply(w, calls[0]), calls[1..], stepId, token, later);
    }
  }

  /** Every refusal a heartbeat or a commit reports is final in this sense. */
  lemma RefusalKillsToken(w: World, call: Call)
    requires Inv(w) && Allowed(w, call) && (call.op.Heartbeat? || call.op.Commit?)
    requires LeaseCheck(w.data, call.op.stepId, call.op.token, call.now).Err?
    ensures Dead(Apply(w, call), call.op.stepId, call.op.token)
  {
  }

  function CommitsWith(w: World, calls: seq<Call>, token: Id): nat
    decreases |calls|
  {
    if calls == [] then 0
    else
      (if calls[0].op.Commit? && calls[0].op.token == token &&
          CommitCheck(w.data, calls[0].op.runId, calls[0].op.stepId, token, calls[0].op.base, calls[0].now).Ok? then 1 else 0)
      + CommitsWith(Apply(w, calls[0]), calls[1..], token)
  }

  ghost predicate DeadEverywhere(w: World, token: Id) { forall s :: Dead(w, s, token) }

  lemma CallKeepsDeadEverywhere(w: World, call: Call, token: Id)
    requires StepsBelong(w) && Allowed(w, call) && DeadEverywhere(w, token)
    ensures DeadEverywhere(Apply(w, call), token)
  {
    forall s ensures Dead(Apply(w, call), s, token) {
      assert Dead(w, s, token);
      CallKeepsDead(w, call, s, token);
    }
  }

  lemma DeadTokenIsRefused(w: World, call: Call, token: Id)
    requires DeadEverywhere(w, token) && w.clock <= call.now && call.op.Commit?
    ensures CommitCheck(w.data, call.op.runId, call.op.stepId, token, call.op.base, call.now).Err?
  {
    assert Dead(w, call.op.stepId, token);
  }

  lemma {:induction false} DeadTokenNeverCommits(w: World, calls: seq<Call>, token: Id)
    requires Inv(w) && AllowedAll(w, calls) && DeadEverywhere(w, token)
    ensures CommitsWith(w, calls, token) == 0
    decreases |calls|
  {
    if calls != [] {
      CallKeepsDeadEverywhere(w, calls[0], token);
      CallKeepsInv(w, calls[0]);
      if calls[0].op.Commit? { DeadTokenIsRefused(w, calls[0], token); }
      DeadTokenNeverCommits(Apply(w, calls[0]), calls[1..], token);
    }
  }

  lemma CommitKillsToken(w: World, call: Call, s: Id)
    requires StepsBelong(w) && LeasesOk(w) && call.op.Commit?
    requires CommitCheck(w.data, call.op.runId, call.op.stepId, call.op.token, call.op.base, call.now).Ok?
    ensures Dead(Apply(w, call), s, call.op.token)
  {
    var Commit(runId, stepId, token, base, patch, checkpoint) := call.op;
    var first, rest := CommitShape(w.data, runId, stepId, token, base, patch, checkpoint, call.now);
    assert LeaseOk(w, w.data.steps[stepId]);
  }

  /** Each lease token yields at most one successful commit, over any run of the store. */
  lemma {:induction false} TokenCommitsAtMostOnce(w: World, calls: seq<Call>, token: Id)
    requires Inv(w) && AllowedAll(w, calls)
    ensures CommitsWith(w, calls, token) <= 1
    decreases |calls|
  {
    if calls != [] {
      var call := calls[0];
      CallKeepsInv(w, call);
      if call.op.Commit? && call.op.token == token &&
         CommitCheck(w.data, call.op.runId, call.op.stepId, token, call.op.base, call.now).Ok?
      {
        forall s ensures Dead(Apply(w, call), s, token) { CommitKillsToken(w, call, s); }
        DeadTokenNeverCommits(Apply(w, call), calls[1..], token);
      } else {
        TokenCommitsAtMostOnce(Apply(w, call), calls[1..], token);
      }
    }
  }

  /** The commits logged for a step never exceed the attempts made at it. */
  lemma CommitsNeverExceedAttempts(calls: seq<Call>, stepId: Id)
    requires AllowedAll(START, calls) && stepId in Exec(START, calls).data.steps
    ensures var d := Exec(START, calls).data;
            CommitCount(Log(d, d.steps[stepId].runId), stepId) <= d.steps[stepId].attempt
  {
    CallsKeepInv(START, calls);
  }

  // ---------------------------------------------------------------- recovery

  /** Recovery changes exactly the expired steps it visits, and each of them as a released step. */
  lemma {:induction false} RecoveryOfEachStep(d: StoreData, ids: seq<Id>, now: Time, s: Id)
    requires s in d.steps
    ensures var e := RecoverEffect(d, ids, now);
            && e.steps.Keys == d.steps.Keys
            && e.steps[s] == if s in ids && Expired(d.steps[s], now) then Unleased(d.steps[s], RetryScheduled, now) else d.steps[s]
  {
    if ids != [] {
      var init := ids[..|ids| - 1];
      assert ids == init + [ids[|ids| - 1]];
      RecoveryOfEachStep(d, init, now, s);
    }
  }

  ghost function ExpiredAmong(d: StoreData, ids: seq<Id>, now: Time): set<Id>
  {
    set s | s in ids && s in d.steps && Expired(d.steps[s], now)
  }

  lemma ExpiredAmongGrows(d: StoreData, init: seq<Id>, last: Id, now: Time)
    requires last !in init
    ensures |ExpiredAmong(d, init + [last], now)| ==
            |ExpiredAmong(d, init, now)| + if last in d.steps && Expired(d.steps[last], now) then 1 else 0
  {
    var before, after := ExpiredAmong(d, init, now), ExpiredAmong(d, init + [last], now);
    if last in d.steps && Expired(d.steps[last], now) {
      assert after == before + {last};
    } else {
      assert after == before;
    }
  }

  /** A lease is good for exactly the seconds it was asked for, from the instant it was handed out or renewed. */
  lemma LeaseWindow(w: World, call: Call, later: Time)
    requires Allowed(w, call)
    requires call.op.ClaimStep? || (call.op.Heartbeat? && LeaseCheck(w.data, call.op.stepId, call.op.token, call.now).Ok?)
    ensures LeaseCheck(Apply(w, call).data, call.op.stepId, call.op.token, later).Ok? <==>
            later <= call.now + call.op.leaseSeconds * NANOS_PER_SECOND
  {
    if call.op.ClaimStep? {
      assert Claimable(w.data, call.op.filter, call.op.stepId);
    }
  }

  /** Recovery never takes a lease that validation would accept at the same instant. */
  lemma {:induction false} RecoverySparesValidLeases(d: StoreData, ids: seq<Id>, now: Time, s: Id, token: Id)
    requires LeaseCheck(d, s, token, now).Ok?
    ensures LeaseCheck(RecoverEffect(d, ids, now), s, token, now) == LeaseCheck(d, s, token, now)
  {
    RecoveryOfEachStep(d, ids, now, s);
  }

  // ---------------------------------------------------------------- decisions and marks

  /** A decision frees exactly the step that waits for it: approved it can be claimed, denied it has failed, and
      either way no lease on it is valid. Every other step is as it was. */
  lemma DecisionFreesItsStep(d: StoreData, key: Id, decision: ApprovalStatus, approver: string, reason: string, now: Time, s: Id)
    requires key in d.approvals && s in d.steps && !decision.PENDING?
    ensures var e := DecideEffect(d, key, decision, approver, reason, now);
            && key in e.approvals && e.approvals[key].status == decision
            && e.approvals[key].approvedBy == approver && e.approvals[key].decisionReason == reason
            && s in e.steps
            && (if s == d.approvals[key].stepId && d.steps[s].status.WaitingHuman? then
                  && (decision.APPROVED? ==> Claimable(e, d.steps[s].runId, s))
                  && (decision.DENIED? ==> e.steps[s].status.Failed? && e.steps[s].lastError == reason)
                  && forall token, later :: LeaseCheck(e, s, token, later).Err?
                else e.steps[s] == d.steps[s])
  {
  }

  /** A mark takes the lease away whoever holds it, puts the step in the status it names, and touches no other step. */
  lemma MarkTakesTheLease(d: StoreData, runId: Id, stepId: Id, status: Status, errorType: string, message: string, now: Time, s: Id)
    requires stepId in d.steps && s in d.steps && !status.Running?
    ensures var e := MarkEffect(d, runId, stepId, status, errorType, message, now);
            && s in e.steps
            && (if s == stepId then
                  && e.steps[s].status == status && e.steps[s].attempt == d.steps[s].attempt
                  && e.steps[s].lastErrorType == errorType && e.steps[s].lastError == message
                  && (Claimable(e, d.steps[s].runId, s) <==> status.RetryScheduled? || status.Pending?)
                  && forall token, later :: LeaseCheck(e, s, token, later).Err?
                else e.steps[s] == d.steps[s])
  {
  }

  // ---------------------------------------------------------------- cancellation

  lemma {:induction false} CancelOfEachStep(d: StoreData, runId: Id, ids: seq<Id>, now: Time, s: Id)
    requires s in d.steps
    ensures var e := CancelSteps(d, runId, ids, now);
            && e.steps.Keys == d.steps.Keys
            && e.steps[s] == if s in ids && Cancellable(d, runId, s) then Unleased(d.steps[s], Cancelled, now).(cancelledAt := now)
                             else d.steps[s]
  {
    if ids != [] {
      var init := ids[..|ids| - 1];
      assert ids == init + [ids[|ids| - 1]];
      CancelOfEachStep(d, runId, init, now, s);
    }
  }

  function CancelEvents(log: seq<Event>): nat
  {
    if log == [] then 0 else CancelEvents(log[..|log| - 1]) + if log[|log| - 1].draft.kind.StepCancelled? then 1 else 0
  }

  ghost function ToCancel(d: StoreData, runId: Id): set<Id>
  {
    set s | s in d.steps && Cancellable(d, runId, s)
  }

  ghost function CancelAmong(d: StoreData, runId: Id, ids: seq<Id>): set<Id>
  {
    set s | s in ids && Cancellable(d, runId, s)
  }

  lemma CancelAmongGrows(d: StoreData, runId: Id, init: seq<Id>, last: Id)
    requires last !in init
    ensures |CancelAmong(d, runId, init + [last])| == |CancelAmong(d, runId, init)| + if Cancellable(d, runId, last) then 1 else 0
  {
    var before, after := CancelAmong(d, runId, init), CancelAmong(d, runId, init + [last]);
    if Cancellable(d, runId, last) {
      assert after == before + {last};
    } else {
      assert after == before;
    }
  }

  lemma {:induction false} CancelLogsEachStep(d: StoreData, runId: Id, ids: seq<Id>, now: Time)
    requires forall i, j :: 0 <= i < j < |ids| ==> ids[i] != ids[j]
    ensures CancelEvents(Log(CancelSteps(d, runId, ids, now), runId)) ==
            CancelEvents(Log(d, runId)) + |CancelAmong(d, runId, ids)|
  {
    if ids == [] {
      assert CancelAmong(d, runId, ids) == {};
    } else {
      var init, last := ids[..|ids| - 1], ids[|ids| - 1];
      assert ids == init + [last];
      CancelLogsEachStep(d, runId, init, now);
      CancelAmongGrows(d, runId, init, last);
      var m := CancelSteps(d, runId, init, now);
      CancelKeepsStepNames(d, runId, init, now);
      if last in d.steps { CancelOfEachStep(d, runId, init, now, last); }
      CancelOneLogs(m, runId, last, now);
    }
  }

  lemma CancelOneLogs(d: StoreData, runId: Id, stepId: Id, now: Time)
    ensures CancelEvents(Log(CancelOne(d, runId, stepId, now), runId)) ==
            CancelEvents(Log(d, runId)) + if Cancellable(d, runId, stepId) then 1 else 0
  {
    if Cancellable(d, runId, stepId) {
      var log := Log(CancelOne(d, runId, stepId, now), runId);
      assert log[..|log| - 1] == Log(d, runId);
    }
  }

  lemma {:induction false} CancelKeepsStepNames(d: StoreData, runId: Id, ids: seq<Id>, now: Time)
    ensures CancelSteps(d, runId, ids, now).steps.Keys == d.steps.Keys
  {
    if ids != [] {
      CancelKeepsStepNames(d, runId, ids[..|ids| - 1], now);
    }
  }

  /** Every step of the run has reached a terminal status. */
  ghost predicate Sealed(d: StoreData, runId: Id)
  {
    forall s :: s in d.steps && d.steps[s].runId == runId ==> Terminal(d.steps[s].status)
  }

  /** Cancelling a live run seals it, touches no step of another run, and logs one `step_cancelled` per step changed. */
  lemma CancelIsComplete(d: StoreData, runId: Id, ids: seq<Id>, now: Time)
    requires runId in d.runs && !Terminal(d.runs[runId].status) && IsSorted(ids, d.steps.Keys)
    ensures var e := CancelRunEffect(d, runId, ids, now);
            && Sealed(e, runId) && e.runs[runId].status == Cancelled && e.steps.Keys == d.steps.Keys
            && (forall s :: s in d.steps ==> (e.steps[s] != d.steps[s] <==> s in ToCancel(d, runId)))
            && (forall s :: s in ToCancel(d, runId) ==> e.steps[s].status == Cancelled && e.steps[s].cancelledAt == now)
            && CancelEvents(Log(e, runId)) == CancelEvents(Log(d, runId)) + |ToCancel(d, runId)|
  {
    var asked := Emit(d, runId, now, [Plain(RunCancelRequested, d.runs[runId].sessionId, "")]);
    var e := CancelRunEffect(d, runId, ids, now);
    CancelKeepsStepNames(asked, runId, ids, now);
    forall s | s in d.steps
      ensures e.steps[s] == if Cancellable(d, runId, s) then Unleased(d.steps[s], Cancelled, now).(cancelledAt := now) else d.steps[s]
    {
      CancelOfEachStep(asked, runId, ids, now, s);
    }
    CancelLogsAll(d, runId, ids, now);
  }

  lemma CancelLogsAll(d: StoreData, runId: Id, ids: seq<Id>, now: Time)
    requires runId in d.runs && !Terminal(d.runs[runId].status) && IsSorted(ids, d.steps.Keys)
    ensures CancelEvents(Log(CancelRunEffect(d, runId, ids, now), runId)) == CancelEvents(Log(d, runId)) + |ToCancel(d, runId)|
  {
    var asked := Emit(d, runId, now, [Plain(RunCancelRequested, d.runs[runId].sessionId, "")]);
    var swept := CancelSteps(asked, runId, ids, now);
    var e := CancelRunEffect(d, runId, ids, now);
    SortedHasNoDuplicates(ids, d.steps.Keys);
    CancelLogsEachStep(asked, runId, ids, now);
    assert CancelAmong(asked, runId, ids) == ToCancel(d, runId);
    assert Log(asked, runId)[..|Log(asked, runId)| - 1] == Log(d, runId);
    assert Log(e, runId)[..|Log(e, runId)| - 1] == Log(swept, runId);
  }

  /** The calls that take a sealed run back to work: a mark that is not a failure on one of its steps, or a new
      step for it. Both are visible before the call is made. */
  predicate Reopens(d: StoreData, op: Op, r: Id)
  {
    || (op.Mark? && op.stepId in d.steps && d.steps[op.stepId].runId == r && !Terminal(op.status))
    || (op.CreateExternalStep? && op.runId == r)
  }

  lemma CancelRunOfEachStep(d: StoreData, runId: Id, ids: seq<Id>, now: Time, s: Id)
    requires s in d.steps && Terminal(d.steps[s].status)
    ensures s in CancelRunEffect(d, runId, ids, now).steps && CancelRunEffect(d, runId, ids, now).steps[s] == d.steps[s]
    ensures CancelRunEffect(d, runId, ids, now).steps.Keys == d.steps.Keys
  {
    if runId in d.runs && !Terminal(d.runs[runId].status) {
      var asked := Emit(d, runId, now, [Plain(RunCancelRequested, d.runs[runId].sessionId, "")]);
      CancelOfEachStep(asked, runId, ids, now, s);
    }
  }

  lemma TerminalStepStaysInDecide(d: StoreData, key: Id, decision: ApprovalStatus, approver: string, reason: string, now: Time, s: Id)
    requires s in d.steps && Terminal(d.steps[s].status)
    ensures var e := DecideEffect(d, key, decision, approver, reason, now); s in e.steps && e.steps[s] == d.steps[s]
  {
  }

  lemma TerminalStepStaysInSweep(w: World, call: Call, s: Id)
    requires StepsBelong(w) && IsSweep(call.op) && !call.op.Mark? && s in w.data.steps && Terminal(w.data.steps[s].status)
    ensures var e := Effect(w.data, call.op, call.now); s in e.steps && e.steps[s] == w.data.steps[s]
  {
    match call.op
    case RecoverExpired(ids) => RecoveryOfEachStep(w.data, ids, call.now, s);
    case CancelRun(runId, ids) => CancelRunOfEachStep(w.data, runId, ids, call.now, s);
    case Decide(_, key, decision, approver, reason) => TerminalStepStaysInDecide(w.data, key, decision, approver, reason, call.now, s);
    case _ =>
  }

  lemma TerminalStepStaysInPatch(d: StoreData, op: Op, now: Time, s: Id)
    requires (op.Commit? || op.SystemPatch?) && s in d.steps && Terminal(d.steps[s].status)
    ensures var e := Effect(d, op, now); s in e.steps && e.steps[s] == d.steps[s]
  {
    if op.Commit? && CommitCheck(d, op.runId, op.stepId, op.token, op.base, now).Ok? {
      var first, rest := CommitShape(d, op.runId, op.stepId, op.token, op.base, op.patch, op.checkpoint, now);
    }
  }

  lemma TerminalStepStays(w: World, call: Call, s: Id)
    requires StepsBelong(w) && Allowed(w, call) && !call.op.Mark? && s in w.data.steps && Terminal(w.data.steps[s].status)
    ensures var e := Effect(w.data, call.op, call.now); s in e.steps && e.steps[s] == w.data.steps[s]
  {
    if IsSweep(call.op) {
      TerminalStepStaysInSweep(w, call, s);
    } else if call.op.Commit? || call.op.SystemPatch? {
      TerminalStepStaysInPatch(w.data, call.op, call.now, s);
    } else {
      TerminalStepStaysOtherwise(w, call, s);
    }
  }

  /** Claims and renewals pick live steps, new steps are new, and records touch no step. */
  lemma TerminalStepStaysOtherwise(w: World, call: Call, s: Id)
    requires w.data.steps.Keys <= w.seen && Allowed(w, call) && s in w.data.steps && Terminal(w.data.steps[s].status)
    requires !IsSweep(call.op) && !call.op.Commit? && !call.op.SystemPatch?
    ensures var e := Effect(w.data, call.op, call.now); s in e.steps && e.steps[s] == w.data.steps[s]
  {
    if call.op.ClaimStep? {
      assert Claimable(w.data, call.op.filter, call.op.stepId);
    }
  }

  function NewSteps(d: StoreData, op: Op): set<Id>
  {
    if op.CreateRun? || (op.CreateExternalStep? && op.runId in d.runs) then {op.stepId} else {}
  }

  lemma StepNames(w: World, call: Call)
    requires StepsBelong(w) && Allowed(w, call)
    ensures Effect(w.data, call.op, call.now).steps.Keys == w.data.steps.Keys + NewSteps(w.data, call.op)
  {
    if IsQuiet(call.op) {
      if IsSweep(call.op) { QuietSweep(w, call); } else { QuietRecord(w, call); }
    } else if call.op.ClaimStep? {
      assert Claimable(w.data, call.op.filter, call.op.stepId);
    }
  }

  lemma NoStepJoins(w: World, call: Call, r: Id, s: Id)
    requires StepsBelong(w) && Allowed(w, call) && !Reopens(w.data, call.op, r) && r in w.data.runs
    requires s in Apply(w, call).data.steps && s !in w.data.steps
    ensures Apply(w, call).data.steps[s].runId != r
  {
    StepNames(w, call);
  }

  lemma StepsKeepTheirRun(w: World, call: Call, s: Id)
    requires StepsBelong(w) && Allowed(w, call) && s in w.data.steps
    ensures s in Apply(w, call).data.steps && Apply(w, call).data.steps[s].runId == w.data.steps[s].runId
  {
    if IsQuiet(call.op) {
      if IsSweep(call.op) { QuietSweep(w, call); } else { QuietRecord(w, call); }
      assert QuietStep(w.data.steps[s], Apply(w, call).data.steps[s]);
    }
  }

  lemma TerminalStaysTerminal(w: World, call: Call, r: Id, s: Id)
    requires StepsBelong(w) && Allowed(w, call) && !Reopens(w.data, call.op, r)
    requires s in w.data.steps && w.data.steps[s].runId == r && Terminal(w.data.steps[s].status)
    ensures s in Apply(w, call).data.steps && Terminal(Apply(w, call).data.steps[s].status)
  {
    if !call.op.Mark? {
      TerminalStepStays(w, call, s);
    }
  }

  lemma CallKeepsSealed(w: World, call: Call, r: Id)
    requires StepsBelong(w) && Allowed(w, call) && !Reopens(w.data, call.op, r) && r in w.data.runs && Sealed(w.data, r)
    ensures Sealed(Apply(w, call).data, r)
  {
    var e := Apply(w, call).data;
    forall s | s in e.steps && e.steps[s].runId == r ensures Terminal(e.steps[s].status) {
      if s in w.data.steps {
        StepsKeepTheirRun(w, call, s);
        TerminalStaysTerminal(w, call, r, s);
      } else {
        NoStepJoins(w, call, r, s);
      }
    }
  }

  /** The step a reopening call puts back to work. */
  lemma ReopeningUnseals(w: World, call: Call, r: Id)
    requires StepsBelong(w) && Allowed(w, call) && Reopens(w.data, call.op, r) && r in w.data.runs
    ensures !Sealed(Apply(w, call).data, r)
  {
    var s := call.op.stepId;
    assert s in Apply(w, call).data.steps && Apply(w, call).data.steps[s].runId == r;
  }

  /** Exactly the reopening calls break the seal. */
  lemma SealBreaksIff(w: World, call: Call, r: Id)
    requires Inv(w) && Allowed(w, call) && r in w.data.runs && Sealed(w.data, r)
    ensures Sealed(Apply(w, call).data, r) <==> !Reopens(w.data, call.op, r)
  {
    if Reopens(w.data, call.op, r) {
      ReopeningUnseals(w, call, r);
    } else {
      CallKeepsSealed(w, call, r);
    }
  }

  /** No call of the sequence reopens the run in the store it meets. */
  predicate NeverReopened(w: World, calls: seq<Call>, r: Id)
    decreases |calls|
  {
    calls == [] || (!Reopens(w.data, calls[0].op, r) && NeverReopened(Apply(w, calls[0]), calls[1..], r))
  }

  ghost predicate SealedThroughout(w: World, calls: seq<Call>, r: Id)
    decreases |calls|
  {
    Sealed(w.data, r) && (calls != [] ==> SealedThroughout(Apply(w, calls[0]), calls[1..], r))
  }

  /** Over whole runs of the store: a cancelled run stays sealed throughout exactly when no call reopens it. */
  lemma {:induction false} SealedThroughoutIff(w: World, calls: seq<Call>, r: Id)
    requires Inv(w) && AllowedAll(w, calls) && r in w.data.runs && Sealed(w.data, r)
    ensures SealedThroughout(w, calls, r) <==> NeverReopened(w, calls, r)
    decreases |calls|
  {
    if calls != [] {
      SealBreaksIff(w, calls[0], r);
      CallIsForward(w, calls[0], r);
      CallKeepsInv(w, calls[0]);
      if Sealed(Apply(w, calls[0]).data, r) {
        SealedThroughoutIff(Apply(w, calls[0]), calls[1..], r);
      }
    }
  }

  /** Cancellation is sticky: while nothing reopens the run, no sequence of calls makes a step of it claimable
      again or revives a lease on it. */
  lemma {:induction false} SealedForever(w: World, calls: seq<Call>, r: Id)
    requires Inv(w) && AllowedAll(w, calls) && r in w.data.runs && Sealed(w.data, r) && NeverReopened(w, calls, r)
    ensures var d := Exec(w, calls).data;
            && Sealed(d, r)
            && (forall s, filter :: Claimable(d, filter, s) ==> d.steps[s].runId != r)
            && (forall s, token, now :: LeaseCheck(d, s, token, now).Ok? ==> d.steps[s].runId != r)
    decreases |calls|
  {
    if calls != [] {
      CallIsForward(w, calls[0], r);
      CallKeepsSealed(w, calls[0], r);
      CallKeepsInv(w, calls[0]);
      SealedForever(Apply(w, calls[0]), calls[1..], r);
    }
  }

  /** Any step whatever can be put back to work by a retry mark, by whoever calls it. */
  lemma RetryMarkReopens(w: World, stepId: Id, filter: Id)
    requires w.clock > 0 && stepId in w.data.steps && (filter == "" || filter == w.data.steps[stepId].runId)
    ensures var retry := Call(Mark(w.data.steps[stepId].runId, stepId, RetryScheduled, "E", "m"), w.clock);
            Allowed(w, retry) && Claimable(Apply(w, retry).data, filter, stepId)
  {
  }

  function Created(runId: Id, stepId: Id): World { Apply(START, Call(CreateRun(runId, stepId, "s", map[]), 1)) }

  function CancelCall(runId: Id, stepId: Id): Call { Call(CancelRun(runId, [stepId]), 1) }

  lemma CreatedShape(runId: Id, stepId: Id)
    requires runId != "" && stepId != "" && runId != stepId
    ensures Allowed(START, Call(CreateRun(runId, stepId, "s", map[]), 1))
    ensures var w := Created(runId, stepId);
            && w.data.steps == map[stepId := NewStep(runId, "s", 0, 1)] && w.clock == 1
            && w.data.runs == map[runId := Run("s", Pending, map[], 0, 1, 1)]
  {
  }

  lemma OneStepRunIsCancelled(w: World, runId: Id, stepId: Id)
    requires w.data.steps.Keys == {stepId} && runId in w.data.runs && !Terminal(w.data.runs[runId].status) && w.clock == 1
    ensures Allowed(w, CancelCall(runId, stepId))
    ensures var e := CancelRunEffect(w.data, runId, [stepId], 1);
            Sealed(e, runId) && runId in e.runs && e.runs[runId].status == Cancelled && stepId in e.steps
  {
    assert IsSorted([stepId], w.data.steps.Keys);
    CancelIsComplete(w.data, runId, [stepId], 1);
  }

  lemma CreatedThenCancelled(runId: Id, stepId: Id)
    requires runId != "" && stepId != "" && runId != stepId
    ensures Allowed(Created(runId, stepId), CancelCall(runId, stepId))
    ensures var w := Apply(Created(runId, stepId), CancelCall(runId, stepId));
            && Sealed(w.data, runId) && runId in w.data.runs && w.data.runs[runId].status == Cancelled
            && stepId in w.data.steps && w.clock == 1
  {
    CreatedShape(runId, stepId);
    OneStepRunIsCancelled(Created(runId, stepId), runId, stepId);
  }

  /** The exception is real: a run is created and cancelled, then its step is marked for retry, and can be claimed. */
  lemma CancelledRunIsReopened(runId: Id, stepId: Id, filter: Id)
    requires runId != "" && stepId != "" && runId != stepId && (filter == "" || filter == runId)
    ensures var sealed := Apply(Created(runId, stepId), CancelCall(runId, stepId));
            && Sealed(sealed.data, runId) && stepId in sealed.data.steps
            && var retry := Call(Mark(sealed.data.steps[stepId].runId, stepId, RetryScheduled, "E", "m"), sealed.clock);
               Allowed(sealed, retry) && Claimable(Apply(sealed, retry).data, filter, stepId)
  {
    CreatedThenCancelled(runId, stepId);
    var sealed := Apply(Created(runId, stepId), CancelCall(runId, stepId));
    CancelOfEachStep(Emit(Created(runId, stepId).data, runId, 1, [Plain(RunCancelRequested, "s", "")]), runId, [stepId], 1, stepId);
    assert sealed.data.steps[stepId].runId == runId;
    RetryMarkReopens(sealed, stepId, filter);
  }
}
