/** What the store's records say of the calls that made them: ledger entries, approvals, costs, and the events each call
    logs. */
module StoreRecords {
  import opened Json
  import opened Text
  import opened Store
  import opened StoreFrames

  lemma {:induction false} ExecSnoc(w: World, calls: seq<Call>, call: Call)
    ensures Exec(w, calls + [call]) == Apply(Exec(w, calls), call)
    decreases |calls|
  {
    if calls == [] {
      assert [call][1..] == [] && [] + [call] == [call];
    } else {
      assert (calls + [call])[0] == calls[0] && (calls + [call])[1..] == calls[1..] + [call];
      ExecSnoc(Apply(w, calls[0]), calls[1..], call);
    }
  }

  // ---------------------------------------------------------------- the ledger

  predicate Reserves(op: Op, key: Id) { op.Reserve? && op.key == key }

  predicate Updates(op: Op, key: Id) { op.UpdateLedger? && op.key == key }

  /** The first reservation of the key among these calls. */
  predicate FirstReserves(calls: seq<Call>, i: nat, key: Id)
  {
    i < |calls| && Reserves(calls[i].op, key) && forall j :: 0 <= j < i ==> !Reserves(calls[j].op, key)
  }

  /** The last update of the key after that. */
  predicate LastUpdates(calls: seq<Call>, i: nat, u: nat, key: Id)
  {
    i < u < |calls| && Updates(calls[u].op, key) && forall j :: u < j < |calls| ==> !Updates(calls[j].op, key)
  }

  /** The entry is for what the first reservation of its key named, under the identifier that call drew, and has the
      status, error and response of the last update since. */
  ghost predicate IsEntryOf(entry: LedgerEntry, calls: seq<Call>, i: nat, key: Id)
  {
    && FirstReserves(calls, i, key)
    && entry.ledgerId == calls[i].op.ledgerId && entry.runId == calls[i].op.runId && entry.stepId == calls[i].op.stepId
    && entry.toolName == calls[i].op.toolName && entry.createdAt == calls[i].now
    && ((forall u :: i < u < |calls| ==> !Updates(calls[u].op, key)) ==>
          entry.status == RESERVED && entry.errorType == "" && entry.response == Null && entry.updatedAt == calls[i].now)
    && (forall u: nat :: LastUpdates(calls, i, u, key) ==>
          entry.status == calls[u].op.ledgerStatus && entry.errorType == calls[u].op.errorType
          && entry.response == calls[u].op.response && entry.updatedAt == calls[u].now)
  }

  lemma EntryStays(entry: LedgerEntry, calls: seq<Call>, call: Call, i: nat, key: Id)
    requires IsEntryOf(entry, calls, i, key) && !Updates(call.op, key)
    ensures IsEntryOf(entry, calls + [call], i, key)
  {
    var more := calls + [call];
    assert forall j :: 0 <= j < |calls| ==> more[j] == calls[j];
    forall u: nat | LastUpdates(more, i, u, key) ensures LastUpdates(calls, i, u, key) {
      assert u != |calls|;
    }
  }

  lemma EntryIsUpdated(entry: LedgerEntry, calls: seq<Call>, call: Call, i: nat, key: Id)
    requires IsEntryOf(entry, calls, i, key) && Updates(call.op, key)
    ensures IsEntryOf(entry.(status := call.op.ledgerStatus, errorType := call.op.errorType, response := call.op.response, updatedAt := call.now),
                      calls + [call], i, key)
  {
    var more := calls + [call];
    assert forall j :: 0 <= j < |calls| ==> more[j] == calls[j];
    assert Updates(more[|calls|].op, key);
    assert forall u: nat :: LastUpdates(more, i, u, key) ==> u == |calls|;
  }

  /** Every entry of every store is accounted for by its calls, and a key is in the ledger exactly if it was reserved. */
  lemma {:induction false} LedgerTellsItsCalls(calls: seq<Call>, key: Id) returns (i: nat)
    ensures key in Exec(START, calls).data.ledger ==> IsEntryOf(Exec(START, calls).data.ledger[key], calls, i, key)
    ensures key !in Exec(START, calls).data.ledger ==> forall j :: 0 <= j < |calls| ==> !Reserves(calls[j].op, key)
  {
    i := 0;
    if calls != [] {
      var init, call := calls[..|calls| - 1], calls[|calls| - 1];
      assert calls == init + [call];
      i := LedgerTellsItsCalls(init, key);
      ExecSnoc(START, init, call);
      i := LedgerGrows(Exec(START, init), init, call, key, i);
    }
  }

  lemma LedgerGrows(w: World, calls: seq<Call>, call: Call, key: Id, i: nat) returns (k: nat)
    requires key in w.data.ledger ==> IsEntryOf(w.data.ledger[key], calls, i, key)
    requires key !in w.data.ledger ==> forall j :: 0 <= j < |calls| ==> !Reserves(calls[j].op, key)
    ensures key in Apply(w, call).data.ledger ==> IsEntryOf(Apply(w, call).data.ledger[key], calls + [call], k, key)
    ensures key !in Apply(w, call).data.ledger ==> forall j :: 0 <= j <= |calls| ==> !Reserves((calls + [call])[j].op, key)
  {
    k := i;
    if key in w.data.ledger {
      if Updates(call.op, key) {
        EntryIsUpdated(w.data.ledger[key], calls, call, i, key);
      } else {
        EntryStays(w.data.ledger[key], calls, call, i, key);
        LedgerKeeps(w.data, call, key);
      }
    } else if Reserves(call.op, key) {
      k := |calls|;
    } else {
      LedgerKeeps(w.data, call, key);
    }
  }

  lemma LedgerKeeps(d: StoreData, call: Call, key: Id)
    requires (Updates(call.op, key) ==> key !in d.ledger) && (Reserves(call.op, key) ==> key in d.ledger)
    ensures var e := Effect(d, call.op, call.now); (key in e.ledger <==> key in d.ledger) && (key in d.ledger ==> e.ledger[key] == d.ledger[key])
  {
    if !call.op.Reserve? && !call.op.UpdateLedger? {
      OnlyLedgerCalls(d, call.op, call.now);
    }
  }

  // ---------------------------------------------------------------- approvals

  predicate Requests(op: Op, key: Id) { op.RequestApproval? && op.key == key }

  predicate Decides(op: Op, key: Id) { op.Decide? && op.key == key }

  predicate FirstRequests(calls: seq<Call>, i: nat, key: Id)
  {
    i < |calls| && Requests(calls[i].op, key) && forall j :: 0 <= j < i ==> !Requests(calls[j].op, key)
  }

  predicate LastDecides(calls: seq<Call>, i: nat, u: nat, key: Id)
  {
    i < u < |calls| && Decides(calls[u].op, key) && forall j :: u < j < |calls| ==> !Decides(calls[j].op, key)
  }

  /** The approval is for what the first request under its key named, under the identifier that call drew; it is pending
      until it is decided, and then as the last decision says, by whom and why. */
  ghost predicate IsApprovalOf(a: Approval, calls: seq<Call>, i: nat, key: Id)
  {
    && FirstRequests(calls, i, key)
    && a.approvalId == calls[i].op.approvalId && a.runId == calls[i].op.runId && a.sessionId == calls[i].op.sessionId
    && a.stepId == calls[i].op.stepId && a.toolName == calls[i].op.toolName && a.createdAt == calls[i].now
    && ((forall u :: i < u < |calls| ==> !Decides(calls[u].op, key)) ==>
          a.status == PENDING && a.approvedBy == "" && a.decisionReason == "" && a.updatedAt == calls[i].now)
    && (forall u: nat :: LastDecides(calls, i, u, key) ==>
          a.status == calls[u].op.decision && a.approvedBy == calls[u].op.approver
          && a.decisionReason == calls[u].op.reason && a.updatedAt == calls[u].now)
  }

  lemma ApprovalStays(a: Approval, calls: seq<Call>, call: Call, i: nat, key: Id)
    requires IsApprovalOf(a, calls, i, key) && !Decides(call.op, key)
    ensures IsApprovalOf(a, calls + [call], i, key)
  {
    var more := calls + [call];
    assert forall j :: 0 <= j < |calls| ==> more[j] == calls[j];
    forall u: nat | LastDecides(more, i, u, key) ensures LastDecides(calls, i, u, key) {
      assert u != |calls|;
    }
  }

  lemma ApprovalIsDecided(a: Approval, calls: seq<Call>, call: Call, i: nat, key: Id)
    requires IsApprovalOf(a, calls, i, key) && Decides(call.op, key)
    ensures IsApprovalOf(a.(status := call.op.decision, approvedBy := call.op.approver, decisionReason := call.op.reason, updatedAt := call.now),
                         calls + [call], i, key)
  {
    var more := calls + [call];
    assert forall j :: 0 <= j < |calls| ==> more[j] == calls[j];
    assert Decides(more[|calls|].op, key);
    assert forall u: nat :: LastDecides(more, i, u, key) ==> u == |calls|;
  }

  lemma DecisionRecords(d: StoreData, at: Id, decision: ApprovalStatus, approver: string, reason: string, now: Time, key: Id)
    ensures var e := DecideEffect(d, at, decision, approver, reason, now);
            && (key in e.approvals <==> key in d.approvals)
            && (key in d.approvals && key != at ==> e.approvals[key] == d.approvals[key])
            && (key in d.approvals && key == at ==>
                  e.approvals[key] == d.approvals[key].(status := decision, approvedBy := approver, decisionReason := reason, updatedAt := now))
  {
  }

  lemma ApprovalsKeep(d: StoreData, call: Call, key: Id)
    requires (Decides(call.op, key) ==> key !in d.approvals) && (Requests(call.op, key) ==> key in d.approvals)
    ensures var e := Effect(d, call.op, call.now);
            (key in e.approvals <==> key in d.approvals) && (key in d.approvals ==> e.approvals[key] == d.approvals[key])
  {
    match call.op {
      case Decide(_, at, decision, approver, reason) => DecisionRecords(d, at, decision, approver, reason, call.now, key);
      case RequestApproval(_, _, _, _, _, _) =>
      case _ => OnlyApprovalCalls(d, call.op, call.now);
    }
  }

  lemma ApprovalsGrow(w: World, calls: seq<Call>, call: Call, key: Id, i: nat) returns (k: nat)
    requires key in w.data.approvals ==> IsApprovalOf(w.data.approvals[key], calls, i, key)
    requires key !in w.data.approvals ==> forall j :: 0 <= j < |calls| ==> !Requests(calls[j].op, key)
    ensures key in Apply(w, call).data.approvals ==> IsApprovalOf(Apply(w, call).data.approvals[key], calls + [call], k, key)
    ensures key !in Apply(w, call).data.approvals ==> forall j :: 0 <= j <= |calls| ==> !Requests((calls + [call])[j].op, key)
  {
    k := i;
    if key in w.data.approvals {
      if Decides(call.op, key) {
        ApprovalIsDecided(w.data.approvals[key], calls, call, i, key);
        DecisionRecords(w.data, key, call.op.decision, call.op.approver, call.op.reason, call.now, key);
      } else {
        ApprovalStays(w.data.approvals[key], calls, call, i, key);
        ApprovalsKeep(w.data, call, key);
      }
    } else if Requests(call.op, key) {
      k := |calls|;
    } else {
      ApprovalsKeep(w.data, call, key);
    }
  }

  /** Every approval of every store is accounted for by its calls, and a key has one exactly if it was requested. */
  lemma {:induction false} ApprovalsTellTheirCalls(calls: seq<Call>, key: Id) returns (i: nat)
    ensures key in Exec(START, calls).data.approvals ==> IsApprovalOf(Exec(START, calls).data.approvals[key], calls, i, key)
    ensures key !in Exec(START, calls).data.approvals ==> forall j :: 0 <= j < |calls| ==> !Requests(calls[j].op, key)
  {
    i := 0;
    if calls != [] {
      var init, call := calls[..|calls| - 1], calls[|calls| - 1];
      assert calls == init + [call];
      i := ApprovalsTellTheirCalls(init, key);
      ExecSnoc(START, init, call);
      i := ApprovalsGrow(Exec(START, init), init, call, key, i);
    }
  }

  // ---------------------------------------------------------------- costs

  /** The records of the run among some calls, in order. */
  function RecordsOf(calls: seq<Call>, r: Id): seq<CostRecord>
  {
    if calls == [] then []
    else
      var call := calls[|calls| - 1];
      RecordsOf(calls[..|calls| - 1], r) + if call.op.RecordCost? && call.op.runId == r then [call.op.record] else []
  }

  /** The costs of a run are the records made on it, in order. */
  lemma {:induction false} CostsTellTheirCalls(calls: seq<Call>, r: Id)
    ensures Costs(Exec(START, calls).data, r) == RecordsOf(calls, r)
  {
    if calls != [] {
      var init, call := calls[..|calls| - 1], calls[|calls| - 1];
      assert calls == init + [call];
      CostsTellTheirCalls(init, r);
      ExecSnoc(START, init, call);
      if !call.op.RecordCost? {
        OnlyCostCalls(Exec(START, init).data, call.op, call.now);
      }
    }
  }

  // ---------------------------------------------------------------- what is logged

  /** These drafts are appended to the log of this run and nothing to any other. */
  ghost predicate LogsOnly(d: StoreData, e: StoreData, runId: Id, now: Time, drafts: seq<Draft>)
  {
    forall r :: Log(e, r) == Log(d, r) + if r == runId then Numbered(|Log(d, r)|, now, drafts) else []
  }

  lemma EmitLogsOnly(d: StoreData, m: StoreData, runId: Id, now: Time, drafts: seq<Draft>)
    requires m.events == d.events
    ensures LogsOnly(d, Emit(m, runId, now, drafts), runId, now, drafts)
  {
    assert forall r :: Log(m, r) == Log(d, r);
  }

  /** An event of the store's own: of this kind and session, about this step. */
  function Says(kind: Kind, sessionId: Id, stepId: Id): Draft { Draft(kind, sessionId, stepId, "", 0, NoPayload) }

  lemma CreationIsLogged(d: StoreData, op: Op, now: Time)
    requires op.CreateRun? || (op.CreateExternalStep? && op.runId in d.runs)
    ensures LogsOnly(d, Effect(d, op, now), op.runId, now,
              if op.CreateRun? then [Says(RunCreated, op.sessionId, "").(payload := InitialState(op.initial)), Says(StepCreated, op.sessionId, op.stepId)]
              else [Says(StepCreated, d.runs[op.runId].sessionId, op.stepId).(stateVersion := d.runs[op.runId].stateVersion)])
  {
  }

  lemma LeaseIsLogged(d: StoreData, op: Op, now: Time)
    requires (op.ClaimStep? && op.stepId in d.steps) || (op.Heartbeat? && LeaseCheck(d, op.stepId, op.token, now).Ok?)
    ensures LogsOnly(d, Effect(d, op, now), d.steps[op.stepId].runId, now,
                     [Says(if op.ClaimStep? then StepClaimed else LeaseHeartbeat, d.steps[op.stepId].sessionId, op.stepId)])
  {
  }

  lemma CommitIsLogged(d: StoreData, op: Op, now: Time)
    requires op.Commit? && CommitCheck(d, op.runId, op.stepId, op.token, op.base, now).Ok?
    ensures LogsOnly(d, Effect(d, op, now), op.runId, now,
                     [Says(StatePatchCommitted, d.steps[op.stepId].sessionId, op.stepId).(stateVersion := op.base + 1, payload := Patch(op.patch, op.base + 1)),
                      Says(StepCompleted, d.steps[op.stepId].sessionId, op.stepId).(stateVersion := op.base + 1)])
  {
  }

  lemma SystemPatchIsLogged(d: StoreData, op: Op, now: Time)
    requires op.SystemPatch? && op.runId in d.runs
    ensures var run := d.runs[op.runId];
            LogsOnly(d, Effect(d, op, now), op.runId, now,
                     [Says(SystemPatchApplied, run.sessionId, "").(stateVersion := run.stateVersion + 1, payload := Patch(op.patch, run.stateVersion + 1))])
  {
  }

  lemma MarkIsLogged(d: StoreData, op: Op, now: Time)
    requires op.Mark? && op.stepId in d.steps
    ensures var session := d.steps[op.stepId].sessionId;
            LogsOnly(d, Effect(d, op, now), op.runId, now,
                     if op.status.WaitingHuman? then [Says(StepWaitingHuman, session, op.stepId)]
                     else [Says(FailureClassified, session, op.stepId), Says(ErrorRaised, session, op.stepId),
                           Says(if op.status.RetryScheduled? then StepRetryScheduled else StepFailed, session, op.stepId)])
  {
  }

  lemma RecordIsLogged(d: StoreData, op: Op, now: Time)
    requires op.Append? || op.RecordCost?
    ensures LogsOnly(d, Effect(d, op, now), op.runId, now,
                     [if op.Append? then op.draft else Says(CostRecorded, op.sessionId, op.record.stepId)])
  {
    if op.RecordCost? {
      EmitLogsOnly(d, d.(costs := d.costs[op.runId := Costs(d, op.runId) + [op.record]]), op.runId, now, [Says(CostRecorded, op.sessionId, op.record.stepId)]);
    }
  }

  /** The decision itself, and what it does to a step that waits for it. */
  lemma DecisionIsLogged(d: StoreData, key: Id, decision: ApprovalStatus, approver: string, reason: string, now: Time)
    requires key in d.approvals && !decision.PENDING?
    ensures var a, e := d.approvals[key], DecideEffect(d, key, decision, approver, reason, now);
            LogsOnly(d, e, a.runId, now, [Says(ApprovalDecided, a.sessionId, a.stepId)] +
              if a.stepId !in d.steps || !d.steps[a.stepId].status.WaitingHuman? then []
              else if decision.APPROVED? then [Says(StepRetryScheduled, a.sessionId, a.stepId)]
              else [Says(FailureClassified, a.sessionId, a.stepId), Says(StepFailed, a.sessionId, a.stepId)])
  {
    var noted := NoteDecision(d, key, decision, approver, reason, now);
    var a, first := d.approvals[key], [Says(ApprovalDecided, d.approvals[key].sessionId, d.approvals[key].stepId)];
    assert LogsOnly(d, noted, a.runId, now, first);
    var rest := if a.stepId !in d.steps || !d.steps[a.stepId].status.WaitingHuman? then []
                else if decision.APPROVED? then [Says(StepRetryScheduled, a.sessionId, a.stepId)]
                else [Says(FailureClassified, a.sessionId, a.stepId), Says(StepFailed, a.sessionId, a.stepId)];
    ReleaseIsLogged(noted, noted.approvals[key], now, rest);
    LogsAdd(d, noted, DecideEffect(d, key, decision, approver, reason, now), a.runId, now, first, rest);
  }

  lemma ReleaseIsLogged(d: StoreData, a: Approval, now: Time, drafts: seq<Draft>)
    requires !a.status.PENDING?
    requires drafts == if a.stepId !in d.steps || !d.steps[a.stepId].status.WaitingHuman? then []
                       else if a.status.APPROVED? then [Says(StepRetryScheduled, a.sessionId, a.stepId)]
                       else [Says(FailureClassified, a.sessionId, a.stepId), Says(StepFailed, a.sessionId, a.stepId)]
    ensures LogsOnly(d, ReleaseStep(d, a, now), a.runId, now, drafts)
  {
  }

  lemma LogsAdd(d: StoreData, m: StoreData, e: StoreData, runId: Id, now: Time, a: seq<Draft>, b: seq<Draft>)
    requires LogsOnly(d, m, runId, now, a) && LogsOnly(m, e, runId, now, b)
    ensures LogsOnly(d, e, runId, now, a + b)
  {
    forall r ensures Log(e, r) == Log(d, r) + if r == runId then Numbered(|Log(d, r)|, now, a + b) else [] {
      assert Log(m, r) == Log(d, r) + if r == runId then Numbered(|Log(d, r)|, now, a) else [];
      assert Log(e, r) == Log(m, r) + if r == runId then Numbered(|Log(m, r)|, now, b) else [];
    }
  }

  /** A sweep logs, for each step it releases or cancels, that it did. */
  lemma SweptStepIsLogged(d: StoreData, runId: Id, s: Id, now: Time)
    ensures s in d.steps && Expired(d.steps[s], now) ==>
              LogsOnly(d, RecoverOne(d, s, now), d.steps[s].runId, now,
                       [Says(LeaseExpired, d.steps[s].sessionId, s), Says(StepRetryScheduled, d.steps[s].sessionId, s)])
    ensures Cancellable(d, runId, s) ==> LogsOnly(d, CancelOne(d, runId, s, now), runId, now, [Says(StepCancelled, d.steps[s].sessionId, s)])
  {
  }

  lemma {:induction false} CancelExtendsLog(d: StoreData, runId: Id, ids: seq<Id>, now: Time)
    ensures Log(d, runId) <= Log(CancelSteps(d, runId, ids, now), runId)
  {
    if ids != [] {
      CancelExtendsLog(d, runId, ids[..|ids| - 1], now);
    }
  }

  /** A cancellation opens by logging that it was asked for and closes by logging that the run is cancelled. */
  lemma CancellationIsLogged(d: StoreData, runId: Id, ids: seq<Id>, now: Time)
    requires runId in d.runs && !Terminal(d.runs[runId].status)
    ensures var log, before := Log(CancelRunEffect(d, runId, ids, now), runId), Log(d, runId);
            && |before| + 2 <= |log| && before <= log
            && log[|before|].draft == Says(RunCancelRequested, d.runs[runId].sessionId, "")
            && log[|log| - 1].draft == Says(RunCancelled, d.runs[runId].sessionId, "")
  {
    var asked := Emit(d, runId, now, [Plain(RunCancelRequested, d.runs[runId].sessionId, "")]);
    CancelExtendsLog(asked, runId, ids, now);
  }
}
