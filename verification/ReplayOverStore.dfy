/** The replay plan read off a store: safe exactly when no ledger entry of the run is waiting for verification. */
module ReplayOverStore {
  import opened Text
  import opened Store
  import opened IssuedIds
  import opened StoreFrames
  import opened ReplayPlan

  /** `ledger` lists the run's entries, each under its key in `keys`, in some order. */
  ghost predicate Lists(d: StoreData, runId: Id, keys: seq<Id>, ledger: seq<LedgerEntry>)
  {
    && |keys| == |ledger|
    && (forall i :: 0 <= i < |keys| ==> keys[i] in d.ledger && ledger[i] == d.ledger[keys[i]] && ledger[i].runId == runId)
    && (forall i, j :: 0 <= i < j < |keys| ==> keys[i] != keys[j])
    && (forall k :: k in d.ledger && d.ledger[k].runId == runId ==> k in keys)
  }

  ghost predicate AnyPending(d: StoreData, runId: Id)
  {
    exists k :: k in d.ledger && d.ledger[k].runId == runId && d.ledger[k].status == PENDING_VERIFICATION
  }

  /** Every reservation draws an identifier as `newID("ledger")` issues it. */
  ghost predicate DrawsLedgerIds(calls: seq<Call>)
  {
    forall c :: c in calls && c.op.Reserve? ==> IssuedLedgerId(c.op.ledgerId)
  }

  ghost predicate LedgerIdsIssued(d: StoreData)
  {
    forall k :: k in d.ledger ==> IssuedLedgerId(d.ledger[k].ledgerId)
  }

  lemma CallKeepsIssued(d: StoreData, call: Call)
    requires LedgerIdsIssued(d) && (call.op.Reserve? ==> IssuedLedgerId(call.op.ledgerId))
    ensures LedgerIdsIssued(Effect(d, call.op, call.now))
  {
    if !call.op.Reserve? && !call.op.UpdateLedger? {
      OnlyLedgerCalls(d, call.op, call.now);
    }
  }

  lemma {:induction false} CallsKeepIssued(w: World, calls: seq<Call>)
    requires LedgerIdsIssued(w.data) && DrawsLedgerIds(calls)
    ensures LedgerIdsIssued(Exec(w, calls).data)
    decreases |calls|
  {
    if calls != [] {
      assert calls[0] in calls;
      CallKeepsIssued(w.data, calls[0]);
      CallsKeepIssued(Apply(w, calls[0]), calls[1..]);
    }
  }

  /** For every reachable store, whatever steps, approvals and events are reported beside the ledger. */
  lemma SafeIffNothingPending(calls: seq<Call>, runId: Id, runStatus: Status, steps: seq<(Id, Step)>, keys: seq<Id>,
                              ledger: seq<LedgerEntry>, approvals: seq<Approval>, events: seq<Event>)
    requires AllowedAll(START, calls) && DrawsLedgerIds(calls) && Lists(Exec(START, calls).data, runId, keys, ledger)
    ensures !BlocksReplay(AllEnvelopes(runId, runStatus, steps, ledger, approvals, events)) <==>
            !AnyPending(Exec(START, calls).data, runId)
  {
    var d := Exec(START, calls).data;
    ReachableIdsAreUnique(calls);
    CallsKeepIssued(START, calls);
    forall i, j | 0 <= i < j < |ledger| ensures ledger[i].ledgerId != ledger[j].ledgerId {
      assert keys[i] != keys[j];
    }
    ReplaySafeIffNothingPending(runId, runStatus, steps, ledger, approvals, events);
    if i :| 0 <= i < |ledger| && ledger[i].status == PENDING_VERIFICATION {
      assert d.ledger[keys[i]].status == PENDING_VERIFICATION;
    }
    if AnyPending(d, runId) {
      var k :| k in d.ledger && d.ledger[k].runId == runId && d.ledger[k].status == PENDING_VERIFICATION;
      var i :| 0 <= i < |keys| && keys[i] == k;
      assert ledger[i].status == PENDING_VERIFICATION;
    }
  }
}
