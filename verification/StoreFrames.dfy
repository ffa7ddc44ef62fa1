/** Which store calls can touch the ledger, the approvals and the costs. */
module StoreFrames {
  import opened Store

  lemma OnlyLedgerCalls(d: StoreData, op: Op, now: Time)
    requires !op.Reserve? && !op.UpdateLedger?
    ensures Effect(d, op, now).ledger == d.ledger
  {
  }

  lemma OnlyApprovalCalls(d: StoreData, op: Op, now: Time)
    requires !op.RequestApproval? && !op.Decide?
    ensures Effect(d, op, now).approvals == d.approvals
  {
  }

  lemma OnlyCostCalls(d: StoreData, op: Op, now: Time)
    requires !op.RecordCost?
    ensures Effect(d, op, now).costs == d.costs
  {
  }
}
