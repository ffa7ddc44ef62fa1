/** The store object: its methods change the maps step by step, and each is proved to have the effect `Store` defines. */
module JSONStores {
  import opened Json
  import opened Text
  import opened Store
  import opened StoreInvariant
  import opened StoreSteps
  import opened StoreRuns
  import opened CostAttribution

  lemma EmitConcat(d: StoreData, runId: Id, now: Time, a: seq<Draft>, b: seq<Draft>)
    ensures Emit(Emit(d, runId, now, a), runId, now, b) == Emit(d, runId, now, a + b)
  {
    var n := |Log(d, runId)|;
    assert Numbered(n, now, a) + Numbered(n + |a|, now, b) == Numbered(n, now, a + b);
    assert Log(d, runId) + Numbered(n, now, a) + Numbered(n + |a|, now, b) == Log(d, runId) + Numbered(n, now, a + b);
  }

  lemma EmitPair(d: StoreData, runId: Id, now: Time, a: Draft, b: Draft)
    ensures Emit(Emit(d, runId, now, [a]), runId, now, [b]) == Emit(d, runId, now, [a, b])
  {
    EmitConcat(d, runId, now, [a], [b]);
    assert [a] + [b] == [a, b];
  }

  lemma EmitTriple(d: StoreData, runId: Id, now: Time, a: Draft, b: Draft, c: Draft)
    ensures Emit(Emit(Emit(d, runId, now, [a]), runId, now, [b]), runId, now, [c]) == Emit(d, runId, now, [a, b, c])
  {
    EmitPair(d, runId, now, a, b);
    EmitConcat(d, runId, now, [a, b], [c]);
    assert [a, b] + [c] == [a, b, c];
  }

  /** No identifier is found under two keys; `IssuedIds.ReachableIdsAreUnique` shows it of every reachable store. */
  ghost predicate ApprovalIdsUnique(d: StoreData)
  {
    forall k, l :: k in d.approvals && l in d.approvals && d.approvals[k].approvalId == d.approvals[l].approvalId ==> k == l
  }

  /** What a claim hands to the worker. */
  datatype StepClaim = StepClaim(
    runId: Id, sessionId: Id, stepId: Id, attempt: nat, leaseToken: Id, stateVersion: nat, leaseUntil: Time)

  function ClaimOf(d: StoreData, stepId: Id): StepClaim
    requires stepId in d.steps
  {
    var step := d.steps[stepId];
    StepClaim(step.runId, step.sessionId, stepId, step.attempt, step.leaseToken, step.stateVersion, step.leaseUntil)
  }

  class JSONStore {
    var data: StoreData

    constructor ()
      ensures data == EMPTY
    {
      data := EMPTY;
    }

    method AppendEventLocked(runId: Id, draft: Draft, now: Time)
      modifies this
      ensures data == Emit(old(data), runId, now, [draft])
    {
      var events := Log(data, runId);
      var event := Event(|events| + 1, now, draft);
      data := data.(events := data.events[runId := events + [event]]);
      assert Numbered(|events|, now, [draft]) == [event];
    }

    method CreateRun(runId: Id, stepId: Id, sessionId: Id, initial: Object, now: Time)
      modifies this
      ensures data == CreateRunEffect(old(data), runId, stepId, sessionId, initial, now)
    {
      data := data.(runs := data.runs[runId := Run(sessionId, Pending, initial, 0, now, now)]);
      data := data.(steps := data.steps[stepId := NewStep(runId, sessionId, 0, now)]);
      ghost var before := data;
      var created := Draft(RunCreated, sessionId, "", "", 0, InitialState(initial));
      AppendEventLocked(runId, created, now);
      AppendEventLocked(runId, Plain(StepCreated, sessionId, stepId), now);
      EmitPair(before, runId, now, created, Plain(StepCreated, sessionId, stepId));
    }

    method CreateExternalStep(runId: Id, stepId: Id, now: Time) returns (r: Outcome<Step>)
      modifies this
      ensures data == CreateExternalStepEffect(old(data), runId, stepId, now)
      ensures if runId in old(data).runs then stepId in data.steps && r == Ok(data.steps[stepId]) else r == Err(RunNotFound)
    {
      if runId !in data.runs { return Err(RunNotFound); }
      var run := data.runs[runId];
      var step := NewStep(runId, run.sessionId, run.stateVersion, now);
      data := data.(steps := data.steps[stepId := step]);
      data := data.(runs := data.runs[runId := run.(status := Pending, updatedAt := now)]);
      AppendEventLocked(runId, Plain(StepCreated, run.sessionId, stepId).(stateVersion := run.stateVersion), now);
      r := Ok(step);
    }

    /** Scans the step map in whatever order it comes. */
    method NextStep(filter: Id) returns (candidate: Option<Id>)
      ensures candidate.Some? ==> IsNextStep(data, filter, candidate.value)
      ensures candidate.None? ==> forall s :: !Claimable(data, filter, s)
    {
      candidate := None;
      var todo := data.steps.Keys;
      while todo != {}
        invariant todo <= data.steps.Keys
        invariant candidate.None? ==> forall s :: s in data.steps.Keys - todo ==> !Claimable(data, filter, s)
        invariant candidate.Some? ==>
                    && candidate.value in data.steps.Keys - todo && Claimable(data, filter, candidate.value)
                    && forall s :: s in data.steps.Keys - todo && s != candidate.value && Claimable(data, filter, s)
                                   ==> Before(data, candidate.value, s)
      {
        var id :| id in todo;
        todo := todo - {id};
        if (filter != "" && data.steps[id].runId != filter) || !Runnable(data.steps[id].status) {
          continue;
        }
        if candidate.None? {
          candidate := Some(id);
        } else {
          var best := candidate.value;
          LessTrichotomy(id, best);
          if data.steps[id].createdAt < data.steps[best].createdAt
             || (data.steps[id].createdAt == data.steps[best].createdAt && Less(id, best))
          {
            forall s | s in data.steps.Keys - todo && s != id && Claimable(data, filter, s) ensures Before(data, id, s) {
              if s != best && Less(id, best) && Less(best, s) { LessTransitive(id, best, s); }
            }
            candidate := Some(id);
          }
        }
      }
    }

    method ClaimStep(worker: Id, filter: Id, token: Id, leaseSeconds: nat, now: Time) returns (r: Outcome<StepClaim>)
      requires Rooted(data)
      modifies this
      ensures r.Ok? ==>
                && IsNextStep(old(data), filter, r.value.stepId)
                && data == ClaimStepEffect(old(data), worker, r.value.stepId, token, leaseSeconds, now)
                && r.value == ClaimOf(data, r.value.stepId)
      ensures r.Err? ==> r.error == NoRunnableStep && data == old(data) && forall s :: !Claimable(data, filter, s)
    {
      var candidate := NextStep(filter);
      if candidate.None? { return Err(NoRunnableStep); }
      var id := candidate.value;
      var step := data.steps[id];
      step := step.(status := Running, owner := worker, leaseToken := token);
      step := step.(leaseUntil := now + leaseSeconds * NANOS_PER_SECOND);
      step := step.(attempt := step.attempt + 1, updatedAt := now);
      data := data.(steps := data.steps[id := step]);
      var run := data.runs[step.runId];
      data := data.(runs := data.runs[step.runId := run.(status := Running, updatedAt := now)]);
      AppendEventLocked(step.runId, Plain(StepClaimed, step.sessionId, id), now);
      r := Ok(StepClaim(step.runId, step.sessionId, id, step.attempt, step.leaseToken, step.stateVersion, step.leaseUntil));
    }

    /** State, version and session. In a store whose logs are faithful, as those of every reachable store are, what
        a worker loads is the fold of the run's log and the number of patches in it. */
    method LoadState(runId: Id) returns (r: Outcome<(Object, nat, Id)>)
      ensures r.Ok? <==> runId in data.runs
      ensures r.Ok? ==> r.value == (data.runs[runId].state, data.runs[runId].stateVersion, data.runs[runId].sessionId)
      ensures r.Ok? && LogsFaithful(data) ==> r.value.0 == Fold(Log(data, runId)) && r.value.1 == PatchCount(Log(data, runId))
      ensures r.Err? ==> r.error == RunNotFound
    {
      if runId !in data.runs { return Err(RunNotFound); }
      var run := data.runs[runId];
      assert LogsFaithful(data) ==> Faithful(run, Log(data, runId));
      r := Ok((run.state, run.stateVersion, run.sessionId));
    }

    method ValidateLeaseLocked(stepId: Id, token: Id, now: Time) returns (r: Outcome<Step>)
      ensures r == LeaseCheck(data, stepId, token, now)
    {
      if stepId !in data.steps { return Err(StepNotFound); }
      var step := data.steps[stepId];
      if step.status != Running || step.leaseToken != token { return Err(StaleLease); }
      if step.leaseUntil != 0 && step.leaseUntil < now { return Err(ExpiredLease); }
      r := Ok(step);
    }

    method Heartbeat(stepId: Id, token: Id, leaseSeconds: nat, now: Time) returns (r: Outcome<Time>)
      modifies this
      ensures data == HeartbeatEffect(old(data), stepId, token, leaseSeconds, now)
      ensures r == match LeaseCheck(old(data), stepId, token, now)
                   case Err(e) => Err(e)
                   case Ok(_) => Ok(now + leaseSeconds * NANOS_PER_SECOND)
    {
      var check := ValidateLeaseLocked(stepId, token, now);
      if check.Err? { return Err(check.error); }
      var step := check.value.(leaseUntil := now + leaseSeconds * NANOS_PER_SECOND, updatedAt := now);
      data := data.(steps := data.steps[stepId := step]);
      AppendEventLocked(step.runId, Plain(LeaseHeartbeat, step.sessionId, stepId), now);
      r := Ok(step.leaseUntil);
    }

    method RecoverExpiredLeases(now: Time) returns (recovered: nat, ghost ids: seq<Id>)
      requires Rooted(data)
      modifies this
      ensures IsSorted(ids, old(data).steps.Keys)
      ensures data == RecoverEffect(old(data), ids, now)
      ensures recovered == |ExpiredAmong(old(data), ids, now)|
    {
      recovered := 0;
      var order := SortIds(data.steps.Keys);
      ids := order;
      SortedHasNoDuplicates(order, data.steps.Keys);
      for i := 0 to |order|
        invariant data == RecoverEffect(old(data), order[..i], now)
        invariant Rooted(data)
        invariant recovered == |ExpiredAmong(old(data), order[..i], now)|
      {
        assert order[..i + 1] == order[..i] + [order[i]];
        var stepId := order[i];
        assert stepId in order;
        RecoveryOfEachStep(old(data), order[..i], now, stepId);
        ExpiredAmongGrows(old(data), order[..i], stepId, now);
        var step := data.steps[stepId];
        if step.status == Running && step.leaseUntil != 0 && step.leaseUntil < now {
          RecoverStep(stepId, now);
          recovered := recovered + 1;
        }
      }
      assert order[..|order|] == order;
    }

    method RecoverStep(stepId: Id, now: Time)
      requires Rooted(data) && stepId in data.steps && Expired(data.steps[stepId], now)
      modifies this
      ensures data == RecoverOne(old(data), stepId, now) && Rooted(data)
    {
      var step := data.steps[stepId];
      step := step.(status := RetryScheduled, owner := "", leaseToken := "", leaseUntil := 0, updatedAt := now);
      data := data.(steps := data.steps[stepId := step]);
      var run := data.runs[step.runId];
      data := data.(runs := data.runs[step.runId := run.(status := RetryScheduled, updatedAt := now)]);
      ghost var touched := data;
      AppendEventLocked(step.runId, Plain(LeaseExpired, step.sessionId, stepId), now);
      AppendEventLocked(step.runId, Plain(StepRetryScheduled, step.sessionId, stepId), now);
      EmitPair(touched, step.runId, now, Plain(LeaseExpired, step.sessionId, stepId), Plain(StepRetryScheduled, step.sessionId, stepId));
    }

    method CancelRun(runId: Id, now: Time) returns (r: Outcome<nat>, ghost ids: seq<Id>)
      modifies this
      ensures IsSorted(ids, old(data).steps.Keys)
      ensures data == CancelRunEffect(old(data), runId, ids, now)
      ensures r == if runId !in old(data).runs then Err(RunNotFound)
                   else if Terminal(old(data).runs[runId].status) then Ok(0)
                   else Ok(|ToCancel(old(data), runId)|)
    {
      var order := SortIds(data.steps.Keys);
      ids := order;
      if runId !in data.runs { return Err(RunNotFound), order; }
      var run := data.runs[runId];
      if run.status == Completed || run.status == Failed || run.status == Cancelled { return Ok(0), order; }
      AppendEventLocked(runId, Plain(RunCancelRequested, run.sessionId, ""), now);
      ghost var asked := data;
      var cancelled := CancelLoop(runId, order, now);
      data := data.(runs := data.runs[runId := run.(status := Cancelled, updatedAt := now)]);
      AppendEventLocked(runId, Plain(RunCancelled, run.sessionId, ""), now);
      assert CancelAmong(asked, runId, order) == ToCancel(old(data), runId);
      r := Ok(cancelled);
    }

    method CancelLoop(runId: Id, order: seq<Id>, now: Time) returns (cancelled: nat)
      requires IsSorted(order, data.steps.Keys)
      modifies this
      ensures data == CancelSteps(old(data), runId, order, now)
      ensures cancelled == |CancelAmong(old(data), runId, order)|
    {
      cancelled := 0;
      SortedHasNoDuplicates(order, data.steps.Keys);
      for i := 0 to |order|
        invariant data == CancelSteps(old(data), runId, order[..i], now)
        invariant cancelled == |CancelAmong(old(data), runId, order[..i])|
      {
        assert order[..i + 1] == order[..i] + [order[i]];
        var stepId := order[i];
        assert stepId in order;
        CancelOfEachStep(old(data), runId, order[..i], now, stepId);
        CancelAmongGrows(old(data), runId, order[..i], stepId);
        var step := data.steps[stepId];
        if step.runId == runId && !(step.status == Completed || step.status == Failed || step.status == Cancelled) {
          CancelStep(runId, stepId, now);
          cancelled := cancelled + 1;
        }
      }
      assert order[..|order|] == order;
    }

    method CancelStep(runId: Id, stepId: Id, now: Time)
      requires Cancellable(data, runId, stepId)
      modifies this
      ensures data == CancelOne(old(data), runId, stepId, now)
    {
      var step := data.steps[stepId];
      step := step.(status := Cancelled, owner := "", leaseToken := "", leaseUntil := 0);
      step := step.(cancelledAt := now, updatedAt := now);
      data := data.(steps := data.steps[stepId := step]);
      AppendEventLocked(runId, Plain(StepCancelled, step.sessionId, stepId), now);
    }

    method CommitStatePatch(runId: Id, stepId: Id, token: Id, base: nat, patch: Object, checkpoint: string, now: Time)
      returns (r: Outcome<nat>)
      modifies this
      ensures data == CommitEffect(old(data), runId, stepId, token, base, patch, checkpoint, now)
      ensures r == CommitCheck(old(data), runId, stepId, token, base, now)
    {
      var check := ValidateLeaseLocked(stepId, token, now);
      if check.Err? { return Err(check.error); }
      var step := check.value;
      if runId !in data.runs { return Err(RunNotFound); }
      var run := data.runs[runId];
      if run.stateVersion != base { return Err(VersionConflict); }
      var version := run.stateVersion + 1;
      var state := MergePatchLoop(run.state, Obj(patch));
      run := run.(state := state, stateVersion := version, status := Completed, updatedAt := now);
      data := data.(runs := data.runs[runId := run]);
      step := step.(status := Completed, stateVersion := version, checkpointId := checkpoint, updatedAt := now);
      data := data.(steps := data.steps[stepId := step]);
      ghost var before := data;
      var committed := Draft(StatePatchCommitted, step.sessionId, stepId, "", version, Patch(patch, version));
      var completed := Plain(StepCompleted, step.sessionId, stepId).(stateVersion := version);
      AppendEventLocked(runId, committed, now);
      AppendEventLocked(runId, completed, now);
      EmitPair(before, runId, now, committed, completed);
      r := Ok(version);
    }

    method ApplySystemStatePatch(runId: Id, patch: Object, now: Time) returns (r: Outcome<nat>)
      modifies this
      ensures data == SystemPatchEffect(old(data), runId, patch, now)
      ensures r == if runId in old(data).runs then Ok(old(data).runs[runId].stateVersion + 1) else Err(RunNotFound)
    {
      if runId !in data.runs { return Err(RunNotFound); }
      var run := data.runs[runId];
      var version := run.stateVersion + 1;
      var state := MergePatchLoop(run.state, Obj(patch));
      data := data.(runs := data.runs[runId := run.(state := state, stateVersion := version, updatedAt := now)]);
      AppendEventLocked(runId, Draft(SystemPatchApplied, run.sessionId, "", "", version, Patch(patch, version)), now);
      r := Ok(version);
    }

    /** What the three marks share: the step is released with its error and the run takes the same status. */
    method Release(runId: Id, stepId: Id, status: Status, errorType: string, message: string, now: Time)
      requires stepId in data.steps
      modifies this
      ensures data == old(data).(
                steps := old(data).steps[stepId := Unleased(old(data).steps[stepId], status, now).(lastErrorType := errorType, lastError := message)],
                runs := old(data).runs[runId := RunOrZero(old(data), runId).(status := status, updatedAt := now)])
    {
      var step := data.steps[stepId];
      step := step.(status := status, owner := "", leaseToken := "", leaseUntil := 0);
      step := step.(lastErrorType := errorType, lastError := message, updatedAt := now);
      data := data.(steps := data.steps[stepId := step]);
      data := data.(runs := data.runs[runId := RunOrZero(data, runId).(status := status, updatedAt := now)]);
    }

    method MarkWaitingHuman(runId: Id, stepId: Id, reason: string, now: Time) returns (r: Outcome<()>)
      modifies this
      ensures data == MarkEffect(old(data), runId, stepId, WaitingHuman, "ApprovalRequired", reason, now)
      ensures r == if stepId in old(data).steps then Ok(()) else Err(StepNotFound)
    {
      if stepId !in data.steps { return Err(StepNotFound); }
      var sessionId := data.steps[stepId].sessionId;
      Release(runId, stepId, WaitingHuman, "ApprovalRequired", reason, now);
      AppendEventLocked(runId, Plain(StepWaitingHuman, sessionId, stepId), now);
      r := Ok(());
    }

    method MarkRetry(runId: Id, stepId: Id, errorType: string, message: string, now: Time) returns (r: Outcome<()>)
      modifies this
      ensures data == MarkEffect(old(data), runId, stepId, RetryScheduled, errorType, message, now)
      ensures r == if stepId in old(data).steps then Ok(()) else Err(StepNotFound)
    {
      if stepId !in data.steps { return Err(StepNotFound); }
      var sessionId := data.steps[stepId].sessionId;
      Release(runId, stepId, RetryScheduled, errorType, message, now);
      ghost var before := data;
      AppendEventLocked(runId, Plain(FailureClassified, sessionId, stepId), now);
      AppendEventLocked(runId, Plain(ErrorRaised, sessionId, stepId), now);
      AppendEventLocked(runId, Plain(StepRetryScheduled, sessionId, stepId), now);
      EmitTriple(before, runId, now, Plain(FailureClassified, sessionId, stepId), Plain(ErrorRaised, sessionId, stepId),
                 Plain(StepRetryScheduled, sessionId, stepId));
      r := Ok(());
    }

    method MarkFailed(runId: Id, stepId: Id, errorType: string, message: string, now: Time) returns (r: Outcome<()>)
      modifies this
      ensures data == MarkEffect(old(data), runId, stepId, Failed, errorType, message, now)
      ensures r == if stepId in old(data).steps then Ok(()) else Err(StepNotFound)
    {
      if stepId !in data.steps { return Err(StepNotFound); }
      var sessionId := data.steps[stepId].sessionId;
      Release(runId, stepId, Failed, errorType, message, now);
      ghost var before := data;
      AppendEventLocked(runId, Plain(FailureClassified, sessionId, stepId), now);
      AppendEventLocked(runId, Plain(ErrorRaised, sessionId, stepId), now);
      AppendEventLocked(runId, Plain(StepFailed, sessionId, stepId), now);
      EmitTriple(before, runId, now, Plain(FailureClassified, sessionId, stepId), Plain(ErrorRaised, sessionId, stepId),
                 Plain(StepFailed, sessionId, stepId));
      r := Ok(());
    }

    method ReserveLedger(key: Id, ledgerId: Id, runId: Id, stepId: Id, toolName: string, now: Time)
      returns (existing: Option<LedgerEntry>)
      modifies this
      ensures data == ReserveEffect(old(data), key, LedgerEntry(ledgerId, runId, stepId, toolName, RESERVED, "", Null, now, now))
      ensures existing == if key in old(data).ledger then Some(old(data).ledger[key]) else None
    {
      if key in data.ledger { return Some(data.ledger[key]); }
      var entry := LedgerEntry(ledgerId, runId, stepId, toolName, RESERVED, "", Null, now, now);
      data := data.(ledger := data.ledger[key := entry]);
      existing := None;
    }

    method UpdateLedger(key: Id, status: LedgerStatus, errorType: string, response: Json, now: Time) returns (r: Outcome<()>)
      modifies this
      ensures data == UpdateLedgerEffect(old(data), key, status, errorType, response, now)
      ensures r == if key in old(data).ledger then Ok(()) else Err(LedgerNotFound)
    {
      if key !in data.ledger { return Err(LedgerNotFound); }
      var entry := data.ledger[key];
      entry := entry.(status := status, errorType := errorType, response := response, updatedAt := now);
      data := data.(ledger := data.ledger[key := entry]);
      r := Ok(());
    }

    method RequestApproval(key: Id, approvalId: Id, runId: Id, sessionId: Id, stepId: Id, toolName: string, now: Time)
      returns (r: Approval)
      modifies this
      ensures data == RequestApprovalEffect(old(data), key, Approval(approvalId, runId, sessionId, stepId, toolName, PENDING, "", "", now, now))
      ensures key in data.approvals && r == data.approvals[key]
    {
      if key in data.approvals { return data.approvals[key]; }
      r := Approval(approvalId, runId, sessionId, stepId, toolName, PENDING, "", "", now, now);
      data := data.(approvals := data.approvals[key := r]);
    }

    method ApprovalForKey(key: Id) returns (r: Option<Approval>)
      ensures r == if key in data.approvals then Some(data.approvals[key]) else None
    {
      if key in data.approvals { return Some(data.approvals[key]); }
      r := None;
    }

    /** Looks for the request by identifier, in whatever order the map comes; the empty key is never found. */
    method FindApproval(approvalId: Id) returns (key: Id)
      ensures key != "" ==> HoldsApproval(data, approvalId, key)
      ensures key == "" ==> (forall k :: !HoldsApproval(data, approvalId, k)) || HoldsEmptyKey(approvalId)
    {
      key := "";
      var todo := data.approvals.Keys;
      while todo != {}
        invariant todo <= data.approvals.Keys && key == ""
        invariant forall k :: k in data.approvals.Keys - todo ==> data.approvals[k].approvalId != approvalId
      {
        var k :| k in todo;
        todo := todo - {k};
        if data.approvals[k].approvalId == approvalId {
          key := k;
          break;
        }
      }
    }

    ghost predicate HoldsEmptyKey(approvalId: Id)
      reads this
    {
      "" in data.approvals && data.approvals[""].approvalId == approvalId
    }

    method DecideApproval(approvalId: Id, decision: ApprovalStatus, approver: string, reason: string, now: Time)
      returns (r: Outcome<Approval>)
      requires decision == APPROVED || decision == DENIED
      requires ApprovalIdsUnique(data)
      modifies this
      ensures r.Ok? ==> exists k :: HoldsApproval(old(data), approvalId, k) &&
                                    data == DecideEffect(old(data), k, decision, approver, reason, now) && data.approvals[k] == r.value
      ensures r.Err? ==> data == old(data) && forall k :: !HoldsApproval(data, approvalId, k)
    {
      var key := FindApproval(approvalId);
      if key == "" { return Err(ApprovalNotFound); }
      var approval := data.approvals[key];
      approval := approval.(status := decision, approvedBy := approver, decisionReason := reason, updatedAt := now);
      data := data.(approvals := data.approvals[key := approval]);
      AppendEventLocked(approval.runId, Plain(ApprovalDecided, approval.sessionId, approval.stepId), now);
      assert data == NoteDecision(old(data), key, decision, approver, reason, now);
      ReleaseWaiting(approval, now);
      r := Ok(approval);
    }

    method ReleaseWaiting(approval: Approval, now: Time)
      requires approval.status == APPROVED || approval.status == DENIED
      modifies this
      ensures data == ReleaseStep(old(data), approval, now)
    {
      if approval.stepId !in data.steps { return; }
      var step := data.steps[approval.stepId];
      if step.status == WaitingHuman {
        var run := RunOrZero(data, approval.runId);
        if approval.status == APPROVED {
          data := data.(steps := data.steps[approval.stepId := Unleased(step, Pending, now)]);
          data := data.(runs := data.runs[approval.runId := run.(status := Pending, updatedAt := now)]);
          AppendEventLocked(approval.runId, Plain(StepRetryScheduled, approval.sessionId, approval.stepId), now);
        } else {
          step := Unleased(step, Failed, now);
          data := data.(steps := data.steps[approval.stepId := step.(lastErrorType := "ApprovalDenied", lastError := approval.decisionReason)]);
          data := data.(runs := data.runs[approval.runId := run.(status := Failed, updatedAt := now)]);
          ghost var before := data;
          AppendEventLocked(approval.runId, Plain(FailureClassified, approval.sessionId, approval.stepId), now);
          AppendEventLocked(approval.runId, Plain(StepFailed, approval.sessionId, approval.stepId), now);
          EmitPair(before, approval.runId, now, Plain(FailureClassified, approval.sessionId, approval.stepId),
                   Plain(StepFailed, approval.sessionId, approval.stepId));
        }
      }
    }

    method RecordCost(runId: Id, sessionId: Id, record: CostRecord, now: Time)
      modifies this
      ensures data == RecordCostEffect(old(data), runId, sessionId, record, now)
    {
      data := data.(costs := data.costs[runId := Costs(data, runId) + [record]]);
      AppendEventLocked(runId, Plain(CostRecorded, sessionId, record.stepId), now);
    }
  }
}
