/** The bound the tool budget gives when calls on a run overlap, and what the system keeps of the store. */
module GatewayBudget {
  import opened Store
  import opened StoreFrames
  import opened StoreInvariant
  import opened StoreSteps
  import opened StoreRuns
  import opened CostAttribution
  import opened Gateway

  /** Tool calls on record. */
  function CallCount(records: seq<CostRecord>): nat
  {
    if records == [] then 0 else CallCount(records[..|records| - 1]) + One(IsToolCall(records[|records| - 1]))
  }

  ghost predicate UnitCalls(records: seq<CostRecord>)
  {
    forall r :: r in records && IsToolCall(r) ==> r.amount == 1.0
  }

  /** When every recorded tool call counts for one, the summary the budget reads is the number of calls. */
  lemma {:induction false} SummaryCountsCalls(records: seq<CostRecord>)
    requires UnitCalls(records)
    ensures Summarize(records).toolCalls == CallCount(records) as real
  {
    if records != [] {
      SummaryCountsCalls(records[..|records| - 1]);
    }
  }

  lemma WithinBudgetCounts(d: StoreData, runId: Id, m: int)
    requires UnitCalls(Costs(d, runId)) && m > 0
    ensures WithinBudget(d, runId, m) <==> CallCount(Costs(d, runId)) < m
  {
    SummaryCountsCalls(Costs(d, runId));
  }

  /** Recorded calls, and calls the budget has already let through. */
  ghost predicate Budgeted(s: Sys, runId: Id, m: nat, k: nat)
  {
    && UnitCalls(Costs(s.world.data, runId))
    && CallCount(Costs(s.world.data, runId)) + Count(s.frames, Charging, runId) <= m + k - 1
  }

  predicate IsCharge(pc: Pc) { pc.CostReplay? || pc.DoneCost? }

  lemma CostsAfterCharge(d: StoreData, runId: Id, sessionId: Id, record: CostRecord, now: Time, r: Id)
    ensures Costs(Effect(d, RecordCost(runId, sessionId, record), now), r) ==
            if r == runId then Costs(d, r) + [record] else Costs(d, r)
  {
  }

  lemma ChargeCounts(records: seq<CostRecord>, record: CostRecord)
    requires UnitCalls(records) && (IsToolCall(record) ==> record.amount == 1.0)
    ensures UnitCalls(records + [record]) && CallCount(records + [record]) == CallCount(records) + One(IsToolCall(record))
  {
    assert (records + [record])[..|records|] == records;
  }

  /** A call starts charging only by passing the budget check, and stops by recording its cost or by ending. */
  lemma ChargingMove(cfg: Config, f: Frame, d: StoreData, m: Move, runId: Id)
    ensures var f' := f.(pc := Next(cfg, f, d, m));
            && (In(f', Charging, runId) && !In(f, Charging, runId) ==>
                  f.pc.CheckBudget? && WithinBudget(d, runId, cfg.maxToolCalls) && f.req.runId == runId)
            && (IsCharge(f.pc) ==> !In(f', Charging, runId))
  {
  }

  function CostOf(f: Frame): CostRecord { CostRecord(f.req.stepId, "tool", f.req.spec.name, 1.0, "call") }

  lemma OnlyChargesRecordCosts(f: Frame, m: Move)
    ensures FrameOp(f, m).RecordCost? <==> IsCharge(f.pc)
    ensures IsCharge(f.pc) ==> FrameOp(f, m) == RecordCost(f.req.runId, f.req.sessionId, CostOf(f)) && IsToolCall(CostOf(f))
  {
  }

  lemma CostsAfterAdvance(f: Frame, d: StoreData, m: Move, runId: Id)
    requires UnitCalls(Costs(d, runId))
    ensures var after := Costs(Effect(d, FrameOp(f, m), m.now), runId);
            UnitCalls(after) && CallCount(after) == CallCount(Costs(d, runId)) + One(IsCharge(f.pc) && f.req.runId == runId)
  {
    var op := FrameOp(f, m);
    OnlyChargesRecordCosts(f, m);
    if op.RecordCost? {
      ChargeAfter(d, op, m.now, runId);
    } else {
      OnlyCostCalls(d, op, m.now);
    }
  }

  lemma ChargeAfter(d: StoreData, op: Op, now: Time, runId: Id)
    requires UnitCalls(Costs(d, runId)) && op.RecordCost? && (IsToolCall(op.record) ==> op.record.amount == 1.0)
    ensures var after := Costs(Effect(d, op, now), runId);
            UnitCalls(after) && CallCount(after) == CallCount(Costs(d, runId)) + One(IsToolCall(op.record) && op.runId == runId)
  {
    CostsAfterCharge(d, op.runId, op.sessionId, op.record, now, runId);
    ChargeCounts(Costs(d, runId), op.record);
  }

  lemma AdvanceKeepsBudgeted(cfg: Config, s: Sys, i: nat, m: Move, runId: Id, k: nat)
    requires i < |s.frames| && cfg.maxToolCalls > 0 && Budgeted(s, runId, cfg.maxToolCalls, k)
    requires Count(AdvanceFrame(cfg, s, i, m).frames, LiveOnRun, runId) <= k
    ensures Budgeted(AdvanceFrame(cfg, s, i, m), runId, cfg.maxToolCalls, k)
  {
    var f, d := s.frames[i], s.world.data;
    var f' := f.(pc := Next(cfg, f, d, m));
    CountUpdate(s.frames, i, f', Charging, runId);
    CountWithin(s.frames[i := f'], runId);
    CostsAfterAdvance(f, d, m, runId);
    ChargingMove(cfg, f, d, m, runId);
    WithinBudgetCounts(d, runId, cfg.maxToolCalls);
  }

  /** Other clients record no tool calls on the run. */
  ghost predicate OthersChargeNothing(acts: seq<Act>, runId: Id)
  {
    forall a :: a in acts && a.Env? && a.call.op.RecordCost? && a.call.op.runId == runId ==> !IsToolCall(a.call.op.record)
  }

  lemma EnvKeepsBudgeted(cfg: Config, s: Sys, call: Call, runId: Id, m: nat, k: nat)
    requires Budgeted(s, runId, m, k)
    requires OthersChargeNothing([Env(call)], runId)
    ensures Budgeted(Do(cfg, s, Env(call)), runId, m, k)
  {
    assert Env(call) in [Env(call)];
    if call.op.RecordCost? {
      var op := call.op;
      CostsAfterCharge(s.world.data, op.runId, op.sessionId, op.record, call.now, runId);
      if op.runId == runId {
        ChargeCounts(Costs(s.world.data, runId), op.record);
      }
    } else {
      OnlyCostCalls(s.world.data, call.op, call.now);
    }
  }

  lemma DoKeepsBudgeted(cfg: Config, s: Sys, a: Act, runId: Id, k: nat)
    requires cfg.maxToolCalls > 0 && Budgeted(s, runId, cfg.maxToolCalls, k)
    requires Count(Do(cfg, s, a).frames, LiveOnRun, runId) <= k && OthersChargeNothing([a], runId)
    ensures Budgeted(Do(cfg, s, a), runId, cfg.maxToolCalls, k)
  {
    match a
    case Begin(req) => CountSnoc(s.frames, Frame(req, IdempotencyKey(req), IsManaged(req.spec), Start), Charging, runId);
    case Advance(i, m) => if i < |s.frames| { AdvanceKeepsBudgeted(cfg, s, i, m, runId, k); }
    case Crash(i) => if i < |s.frames| { CountUpdate(s.frames, i, s.frames[i].(pc := Crashed), Charging, runId); }
    case Env(call) => EnvKeepsBudgeted(cfg, s, call, runId, cfg.maxToolCalls, k);
  }

  lemma {:induction false} RunsKeepBudgeted(cfg: Config, s: Sys, acts: seq<Act>, runId: Id, k: nat)
    requires cfg.maxToolCalls > 0 && Budgeted(s, runId, cfg.maxToolCalls, k)
    requires Overlap(cfg, s, acts, LiveOnRun, runId, k) && OthersChargeNothing(acts, runId)
    ensures Budgeted(Play(cfg, s, acts), runId, cfg.maxToolCalls, k)
    decreases |acts|
  {
    if acts != [] {
      assert acts[0] in acts;
      DoKeepsBudgeted(cfg, s, acts[0], runId, k);
      RunsKeepBudgeted(cfg, Do(cfg, s, acts[0]), acts[1..], runId, k);
    }
  }

  /** With at most `k >= 1` calls on a run at once, the calls on record never exceed the limit by more than
      `k - 1`; with calls that do not overlap they never exceed it. */
  lemma RecordedCallsBounded(cfg: Config, acts: seq<Act>, runId: Id, k: nat)
    requires cfg.maxToolCalls > 0 && k >= 1
    requires Overlap(cfg, INITIAL, acts, LiveOnRun, runId, k) && OthersChargeNothing(acts, runId)
    ensures CallCount(Costs(Play(cfg, INITIAL, acts).world.data, runId)) <= cfg.maxToolCalls + k - 1
  {
    RunsKeepBudgeted(cfg, INITIAL, acts, runId, k);
  }

  // ---------------------------------------------------------------- the system and its store

  predicate IsRooted(d: StoreData, r: Request) { r.stepId in d.steps && d.steps[r.stepId].runId == r.runId }

  /** A call in flight names a step that exists, as the claim it runs under does. */
  ghost predicate FramesRooted(s: Sys)
  {
    forall f :: f in s.frames ==> IsRooted(s.world.data, f.req)
  }

  /** The frames of the next state make requests this one's frames made, or the one just begun. */
  lemma RequestsAfter(cfg: Config, s: Sys, a: Act, f: Frame)
    requires f in Do(cfg, s, a).frames
    ensures (exists g :: g in s.frames && g.req == f.req) || (a.Begin? && f.req == a.req)
  {
    var s' := Do(cfg, s, a);
    var j :| 0 <= j < |s'.frames| && s'.frames[j] == f;
    assert j < |s.frames| ==> s.frames[j] in s.frames && s.frames[j].req == f.req;
  }

  lemma StepStays(cfg: Config, s: Sys, a: Act, r: Request)
    requires Inv(s.world) && Enabled(s, a) && IsRooted(s.world.data, r)
    ensures IsRooted(Do(cfg, s, a).world.data, r)
  {
    if a.Advance? {
      StepsKeepTheirRun(s.world, Call(FrameOp(s.frames[a.i], a.move), a.move.now), r.stepId);
    } else if a.Env? {
      StepsKeepTheirRun(s.world, a.call, r.stepId);
    }
  }

  lemma DoKeepsStore(cfg: Config, s: Sys, a: Act)
    requires Inv(s.world) && FramesRooted(s) && Enabled(s, a)
    ensures Inv(Do(cfg, s, a).world) && FramesRooted(Do(cfg, s, a))
  {
    forall f | f in Do(cfg, s, a).frames ensures IsRooted(Do(cfg, s, a).world.data, f.req) {
      RequestsAfter(cfg, s, a, f);
      StepStays(cfg, s, a, f.req);
    }
    if a.Advance? {
      CallKeepsInv(s.world, Call(FrameOp(s.frames[a.i], a.move), a.move.now));
    } else if a.Env? {
      CallKeepsInv(s.world, a.call);
    }
  }

  lemma {:induction false} RunsKeepStore(cfg: Config, s: Sys, acts: seq<Act>)
    requires Inv(s.world) && FramesRooted(s) && Legal(cfg, s, acts)
    ensures Inv(Play(cfg, s, acts).world) && FramesRooted(Play(cfg, s, acts))
    decreases |acts|
  {
    if acts != [] {
      DoKeepsStore(cfg, s, acts[0]);
      RunsKeepStore(cfg, Do(cfg, s, acts[0]), acts[1..]);
    }
  }

  predicate Usable(w: World, m: Move) { 0 < m.now && w.clock <= m.now && m.drawn != "" && m.drawn !in w.seen }

  lemma FrameOpAllowed(w: World, f: Frame, m: Move)
    requires Usable(w, m) && f.req.stepId in w.data.steps && w.data.steps[f.req.stepId].runId == f.req.runId
    ensures Allowed(w, Call(FrameOp(f, m), m.now))
  {
    var op := FrameOp(f, m);
    assert Drawn(op) <= {m.drawn};
    assert op.Append? ==> !StoreOwned(op.draft.kind);
    assert op.RequestApproval? ==> op.stepId == f.req.stepId && op.runId == f.req.runId;
    assert op.Append? || op.RequestApproval? || op.Read? || op.Reserve? || op.UpdateLedger? || op.RecordCost?;
  }

  /** Calls in flight are ordinary clients: whatever they and others do, the store keeps its invariant, and no
      call is ever stuck: it can take its next step at any later time with any new identifier. */
  lemma SystemKeepsStoreAndNeverSticks(cfg: Config, acts: seq<Act>, i: nat, m: Move)
    requires Legal(cfg, INITIAL, acts)
    ensures var s := Play(cfg, INITIAL, acts);
            && Inv(s.world)
            && (i < |s.frames| && !Halted(s.frames[i].pc) && Usable(s.world, m) ==> Enabled(s, Advance(i, m)))
  {
    StartInv();
    RunsKeepStore(cfg, INITIAL, acts);
    var s := Play(cfg, INITIAL, acts);
    if i < |s.frames| && Usable(s.world, m) {
      assert s.frames[i] in s.frames;
      FrameOpAllowed(s.world, s.frames[i], m);
    }
  }

  lemma StartInv()
    ensures Inv(START)
  {
  }
}
