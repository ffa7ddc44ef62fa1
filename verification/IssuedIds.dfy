/** Identifiers the store draws for ledger entries and approvals name one entry each. */
module IssuedIds {
  import opened Store
  import opened StoreFrames

  /** No ledger identifier is used twice, and each has been drawn. */
  ghost predicate LedgerIdsDrawn(w: World)
  {
    && (forall k :: k in w.data.ledger ==> w.data.ledger[k].ledgerId in w.seen)
    && forall k, l :: k in w.data.ledger && l in w.data.ledger && w.data.ledger[k].ledgerId == w.data.ledger[l].ledgerId ==> k == l
  }

  lemma CallKeepsLedgerIds(w: World, call: Call)
    requires LedgerIdsDrawn(w) && Allowed(w, call)
    ensures LedgerIdsDrawn(Apply(w, call))
  {
    if !call.op.Reserve? && !call.op.UpdateLedger? {
      OnlyLedgerCalls(w.data, call.op, call.now);
    }
  }

  lemma {:induction false} CallsKeepLedgerIds(w: World, calls: seq<Call>)
    requires LedgerIdsDrawn(w) && AllowedAll(w, calls)
    ensures LedgerIdsDrawn(Exec(w, calls))
    decreases |calls|
  {
    if calls != [] {
      CallKeepsLedgerIds(w, calls[0]);
      CallsKeepLedgerIds(Apply(w, calls[0]), calls[1..]);
    }
  }

  ghost predicate ApprovalIdsDrawn(w: World)
  {
    && (forall k :: k in w.data.approvals ==> w.data.approvals[k].approvalId in w.seen)
    && forall k, l :: k in w.data.approvals && l in w.data.approvals && w.data.approvals[k].approvalId == w.data.approvals[l].approvalId ==> k == l
  }

  lemma DecideKeepsIds(d: StoreData, key: Id, status: ApprovalStatus, approver: string, reason: string, now: Time)
    ensures var after := DecideEffect(d, key, status, approver, reason, now).approvals;
            after.Keys == d.approvals.Keys && forall k :: k in after ==> after[k].approvalId == d.approvals[k].approvalId
  {
  }

  lemma CallKeepsApprovalIds(w: World, call: Call)
    requires ApprovalIdsDrawn(w) && Allowed(w, call)
    ensures ApprovalIdsDrawn(Apply(w, call))
  {
    if call.op.Decide? {
      DecideKeepsIds(w.data, call.op.key, call.op.decision, call.op.approver, call.op.reason, call.now);
    } else if !call.op.RequestApproval? {
      OnlyApprovalCalls(w.data, call.op, call.now);
    }
  }

  lemma {:induction false} CallsKeepApprovalIds(w: World, calls: seq<Call>)
    requires ApprovalIdsDrawn(w) && AllowedAll(w, calls)
    ensures ApprovalIdsDrawn(Exec(w, calls))
    decreases |calls|
  {
    if calls != [] {
      CallKeepsApprovalIds(w, calls[0]);
      CallsKeepApprovalIds(Apply(w, calls[0]), calls[1..]);
    }
  }

  /** In every reachable store a ledger or approval identifier is found under one key only. */
  lemma ReachableIdsAreUnique(calls: seq<Call>)
    requires AllowedAll(START, calls)
    ensures LedgerIdsDrawn(Exec(START, calls)) && ApprovalIdsDrawn(Exec(START, calls))
  {
    CallsKeepLedgerIds(START, calls);
    CallsKeepApprovalIds(START, calls);
  }
}
