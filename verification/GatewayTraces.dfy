/**
 Legal runs of the gateway built call by call. A `Spot` is what a run of calls with one request depends on: where
 each call is, the approval and ledger entry of the key, and what has been counted so far. Each rule below turns a
 reachable spot into a reachable spot.
 */
module GatewayTraces {
  import opened Json
  import opened Text
  import opened Store
  import opened StoreFrames
  import opened Gateway
  import opened GatewayPolicy
  import opened GatewayBudget

  datatype Spot = Spot(
    pcs: seq<Pc>, approval: Option<ApprovalStatus>, entry: Option<LedgerStatus>, runs: nat, declared: nat, recorded: nat)

  function ApprovalOf(d: StoreData, key: Id): Option<ApprovalStatus>
  {
    if key in d.approvals then Some(d.approvals[key].status) else None
  }

  function EntryOf(d: StoreData, key: Id): Option<LedgerStatus>
  {
    if key in d.ledger then Some(d.ledger[key].status) else None
  }

  function FrameAt(r: Request, pc: Pc): Frame { Frame(r, IdempotencyKey(r), IsManaged(r.spec), pc) }

  ghost predicate FramesAre(frames: seq<Frame>, r: Request, pcs: seq<Pc>)
  {
    |frames| == |pcs| && forall i :: 0 <= i < |pcs| ==> frames[i] == FrameAt(r, pcs[i])
  }

  ghost predicate RunsAre(invocations: seq<Invocation>, r: Request, runs: nat)
  {
    |invocations| == runs &&
    forall x :: x in invocations ==> x.req == r && x.key == IdempotencyKey(r) && x.managed == IsManaged(r.spec)
  }

  /** The store as the calls see it. */
  ghost predicate StoreIs(w: World, r: Request, p: Spot)
  {
    && w.clock > 0 && r.runId in w.seen && IsRooted(w.data, r)
    && ApprovalOf(w.data, IdempotencyKey(r)) == p.approval && EntryOf(w.data, IdempotencyKey(r)) == p.entry
    && UnitCalls(Costs(w.data, r.runId)) && CallCount(Costs(w.data, r.runId)) == p.recorded
  }

  ghost predicate ShapeAt(s: Sys, r: Request, p: Spot)
  {
    && StoreIs(s.world, r, p) && FramesAre(s.frames, r, p.pcs) && RunsAre(s.invocations, r, p.runs)
    && s.noEffect[IdempotencyKey(r)] == p.declared && s.granted == {}
  }

  // ---------------------------------------------------------------- one step of one call

  /** What the request must bring for the example: a good input, a policy that allows the tool, and an executor if
      the tool needs one. */
  predicate Fit(cfg: Config, r: Request)
  {
    r.inputOk && PolicyAllows(cfg, r) && (r.spec.sandboxRequired ==> cfg.executorConfigured)
  }

  predicate Draws(pc: Pc) { pc.AskApproval? || pc.ReserveKey? }

  predicate RunsTool(r: Request, pc: Pc) { (pc.Launch? && !r.spec.sandboxRequired) || pc.RunSandbox? }

  /** The steps the examples take. */
  predicate Able(cfg: Config, r: Request, p: Spot, pc: Pc)
  {
    match pc
    case CheckPolicy => p.approval == None || p.approval == Some(PENDING)
    case Permit(allowed) => allowed
    case CheckBudget => cfg.maxToolCalls <= 0 || p.recorded < cfg.maxToolCalls
    case ReserveKey => p.entry == None || p.entry == Some(FAILED_NO_EFFECT)
    case MarkRunning => p.entry.Some?
    case RunSandbox => r.spec.sandboxRequired
    case _ => pc.Start? || pc.AskApproval? || pc.NoteAsked? || pc.NoteRequired? || pc.Launch? || pc.DoneNote? || pc.DoneCost?
  }

  function HopPc(r: Request, p: Spot, pc: Pc, outcome: ToolOutcome): Pc
  {
    match pc
    case Start => CheckPolicy
    case CheckPolicy => if p.approval == None && r.spec.approvalRequired then AskApproval else Permit(true)
    case AskApproval => NoteAsked
    case NoteAsked => NoteRequired
    case NoteRequired => Finished(Error(ApprovalNeeded))
    case Permit(_) => CheckBudget
    case CheckBudget => if IsManaged(r.spec) then ReserveKey else Launch
    case ReserveKey => MarkRunning
    case MarkRunning => Launch
    case Launch => if r.spec.sandboxRequired then RunSandbox else AfterRun(FrameAt(r, pc), outcome)
    case RunSandbox => NoteSandbox(outcome)
    case DoneNote(v) => DoneCost(v)
    case DoneCost(v) => Finished(Value(v))
    case _ => pc
  }

  /** The spot's store after that step. */
  function HopStore(r: Request, p: Spot, pc: Pc): Spot
  {
    p.(approval := if pc.AskApproval? && p.approval == None then Some(PENDING) else p.approval,
       entry := if pc.ReserveKey? && p.entry == None then Some(RESERVED) else if pc.MarkRunning? && p.entry.Some? then Some(RUNNING) else p.entry,
       recorded := p.recorded + One(pc.DoneCost?))
  }

  function Hop(r: Request, p: Spot, i: nat, outcome: ToolOutcome): Spot
    requires i < |p.pcs|
  {
    var pc := p.pcs[i];
    HopStore(r, p, pc).(pcs := p.pcs[i := HopPc(r, p, pc, outcome)], runs := p.runs + One(RunsTool(r, pc)))
  }

  predicate Harmless(op: Op)
  {
    op.Append? || op.Read? || op.Reserve? || op.UpdateLedger? || op.RequestApproval? || op.RecordCost?
  }

  lemma HarmlessLeavesSteps(d: StoreData, op: Op, now: Time)
    requires Harmless(op)
    ensures Effect(d, op, now).steps == d.steps
  {
  }

  lemma FrameOpsAreHarmless(f: Frame, m: Move)
    ensures Harmless(FrameOp(f, m))
    ensures Drawn(FrameOp(f, m)) == if Draws(f.pc) then {m.drawn} else {}
  {
  }

  lemma HopApproval(r: Request, d: StoreData, p: Spot, pc: Pc, m: Move)
    requires ApprovalOf(d, IdempotencyKey(r)) == p.approval
    ensures ApprovalOf(Effect(d, FrameOp(FrameAt(r, pc), m), m.now), IdempotencyKey(r)) == HopStore(r, p, pc).approval
  {
    var op := FrameOp(FrameAt(r, pc), m);
    if !pc.AskApproval? {
      assert !op.RequestApproval? && !op.Decide?;
      OnlyApprovalCalls(d, op, m.now);
    }
  }

  lemma HopEntry(cfg: Config, r: Request, d: StoreData, p: Spot, pc: Pc, m: Move)
    requires EntryOf(d, IdempotencyKey(r)) == p.entry && Able(cfg, r, p, pc)
    ensures EntryOf(Effect(d, FrameOp(FrameAt(r, pc), m), m.now), IdempotencyKey(r)) == HopStore(r, p, pc).entry
  {
    var op := FrameOp(FrameAt(r, pc), m);
    if !pc.ReserveKey? && !pc.MarkRunning? {
      assert !op.Reserve? && !op.UpdateLedger?;
      OnlyLedgerCalls(d, op, m.now);
    }
  }

  lemma HopCosts(cfg: Config, r: Request, d: StoreData, p: Spot, pc: Pc, m: Move)
    requires UnitCalls(Costs(d, r.runId)) && CallCount(Costs(d, r.runId)) == p.recorded && Able(cfg, r, p, pc)
    ensures var e := Effect(d, FrameOp(FrameAt(r, pc), m), m.now);
            UnitCalls(Costs(e, r.runId)) && CallCount(Costs(e, r.runId)) == HopStore(r, p, pc).recorded
  {
    CostsAfterAdvance(FrameAt(r, pc), d, m, r.runId);
  }

  lemma HopWorld(cfg: Config, w: World, r: Request, p: Spot, pc: Pc, m: Move)
    requires StoreIs(w, r, p) && Able(cfg, r, p, pc) && m.now == w.clock && (Draws(pc) ==> m.drawn != "" && m.drawn !in w.seen)
    ensures var call := Call(FrameOp(FrameAt(r, pc), m), m.now);
            Allowed(w, call) && StoreIs(Apply(w, call), r, HopStore(r, p, pc))
  {
    var f := FrameAt(r, pc);
    FrameOpsAreHarmless(f, m);
    HarmlessLeavesSteps(w.data, FrameOp(f, m), m.now);
    HopApproval(r, w.data, p, pc, m);
    HopEntry(cfg, r, w.data, p, pc, m);
    HopCosts(cfg, r, w.data, p, pc, m);
    HopAllowed(w, f, m);
  }

  lemma HopAllowed(w: World, f: Frame, m: Move)
    requires m.now == w.clock > 0 && IsRooted(w.data, f.req) && (Draws(f.pc) ==> m.drawn != "" && m.drawn !in w.seen)
    ensures Allowed(w, Call(FrameOp(f, m), m.now))
  {
    FrameOpsAreHarmless(f, m);
    var op := FrameOp(f, m);
    assert op.Append? ==> !StoreOwned(op.draft.kind);
    assert op.RequestApproval? ==> op.stepId == f.req.stepId && op.runId == f.req.runId;
  }

  lemma HopNext(cfg: Config, d: StoreData, r: Request, p: Spot, pc: Pc, m: Move)
    requires Fit(cfg, r) && Able(cfg, r, p, pc) && UnitCalls(Costs(d, r.runId)) && CallCount(Costs(d, r.runId)) == p.recorded
    requires ApprovalOf(d, IdempotencyKey(r)) == p.approval && EntryOf(d, IdempotencyKey(r)) == p.entry
    ensures Next(cfg, FrameAt(r, pc), d, m) == HopPc(r, p, pc, m.outcome)
  {
    if pc.CheckBudget? {
      BudgetNext(cfg, d, r, m);
    } else if pc.RunSandbox? {
      SandboxedNext(cfg, d, r, m);
    } else if pc.CheckPolicy? {
      PolicyNext(cfg, d, r, p, m);
    } else if pc.ReserveKey? {
      KeyNext(cfg, d, r, m);
    }
  }

  lemma PolicyNext(cfg: Config, d: StoreData, r: Request, p: Spot, m: Move)
    requires Fit(cfg, r) && Able(cfg, r, p, CheckPolicy) && ApprovalOf(d, IdempotencyKey(r)) == p.approval
    ensures Next(cfg, FrameAt(r, CheckPolicy), d, m) == HopPc(r, p, CheckPolicy, m.outcome)
  {
  }

  lemma KeyNext(cfg: Config, d: StoreData, r: Request, m: Move)
    requires EntryOf(d, IdempotencyKey(r)) == None || EntryOf(d, IdempotencyKey(r)) == Some(FAILED_NO_EFFECT)
    ensures Next(cfg, FrameAt(r, ReserveKey), d, m) == MarkRunning
  {
  }

  lemma BudgetNext(cfg: Config, d: StoreData, r: Request, m: Move)
    requires UnitCalls(Costs(d, r.runId)) && (cfg.maxToolCalls <= 0 || CallCount(Costs(d, r.runId)) < cfg.maxToolCalls)
    ensures Next(cfg, FrameAt(r, CheckBudget), d, m) == if IsManaged(r.spec) then ReserveKey else Launch
  {
    if cfg.maxToolCalls > 0 {
      WithinBudgetCounts(d, r.runId, cfg.maxToolCalls);
    }
  }

  lemma AbleRuns(cfg: Config, r: Request, p: Spot, pc: Pc)
    requires Fit(cfg, r) && Able(cfg, r, p, pc)
    ensures Invokes(cfg, FrameAt(r, pc)) == RunsTool(r, pc) && !Halted(pc)
  {
  }

  lemma SandboxedNext(cfg: Config, d: StoreData, r: Request, m: Move)
    ensures Next(cfg, FrameAt(r, RunSandbox), d, m) == NoteSandbox(if cfg.executorConfigured then m.outcome else Raised)
  {
  }

  // ---------------------------------------------------------------- reachable spots

  function Live(pcs: seq<Pc>): nat
  {
    if pcs == [] then 0 else Live(pcs[..|pcs| - 1]) + One(!Halted(pcs[|pcs| - 1]))
  }

  /** A legal run to `s` in which never more than `k` calls are in flight on the run, or on the key. */
  ghost predicate Path(cfg: Config, from: Sys, acts: seq<Act>, s: Sys, r: Request, k: nat)
  {
    && Legal(cfg, from, acts) && Play(cfg, from, acts) == s && OthersChargeNothing(acts, r.runId)
    && Overlap(cfg, from, acts, LiveOnKey, IdempotencyKey(r), k) && Overlap(cfg, from, acts, LiveOnRun, r.runId, k)
  }

  lemma {:induction false} PathStep(cfg: Config, from: Sys, acts: seq<Act>, s: Sys, a: Act, r: Request, k: nat)
    requires Path(cfg, from, acts, s, r, k) && Enabled(s, a) && OthersChargeNothing([a], r.runId)
    requires Count(Do(cfg, s, a).frames, LiveOnKey, IdempotencyKey(r)) <= k && Count(Do(cfg, s, a).frames, LiveOnRun, r.runId) <= k
    ensures Path(cfg, from, acts + [a], Do(cfg, s, a), r, k)
    decreases |acts|
  {
    if acts == [] {
      assert [a][1..] == [] && acts + [a] == [a];
    } else {
      assert OthersChargeNothing(acts[1..], r.runId);
      PathStep(cfg, Do(cfg, from, acts[0]), acts[1..], s, a, r, k);
      assert (acts + [a])[0] == acts[0] && (acts + [a])[1..] == acts[1..] + [a];
    }
  }

  lemma {:induction false} LiveIsCount(frames: seq<Frame>, r: Request, pcs: seq<Pc>)
    requires FramesAre(frames, r, pcs)
    ensures Count(frames, LiveOnRun, r.runId) == Live(pcs)
    ensures Count(frames, LiveOnKey, IdempotencyKey(r)) == if IsManaged(r.spec) then Live(pcs) else 0
  {
    if pcs != [] {
      LiveIsCount(frames[..|frames| - 1], r, pcs[..|pcs| - 1]);
    }
  }

  ghost predicate Leads(cfg: Config, acts: seq<Act>, s: Sys, r: Request, p: Spot, k: nat)
  {
    Path(cfg, INITIAL, acts, s, r, k) && ShapeAt(s, r, p)
  }

  ghost predicate Reached(cfg: Config, r: Request, p: Spot, k: nat)
  {
    exists acts, s :: Leads(cfg, acts, s, r, p, k)
  }

  lemma Extends(cfg: Config, r: Request, p: Spot, k: nat, acts: seq<Act>, s: Sys, a: Act)
    requires Path(cfg, INITIAL, acts, s, r, k) && Enabled(s, a) && OthersChargeNothing([a], r.runId)
    requires ShapeAt(Do(cfg, s, a), r, p) && Live(p.pcs) <= k
    ensures Reached(cfg, r, p, k)
  {
    LiveIsCount(Do(cfg, s, a).frames, r, p.pcs);
    PathStep(cfg, INITIAL, acts, s, a, r, k);
    assert Leads(cfg, acts + [a], Do(cfg, s, a), r, p, k);
  }

  lemma LiveOfReached(cfg: Config, acts: seq<Act>, s: Sys, r: Request, p: Spot, k: nat)
    requires Leads(cfg, acts, s, r, p, k)
    ensures Live(p.pcs) <= k
  {
    LiveIsCount(s.frames, r, p.pcs);
    FinalOverlap(cfg, INITIAL, acts, r.runId, k);
  }

  /** An act of this run that brings no further call into flight. */
  lemma StaysWithin(cfg: Config, r: Request, p: Spot, k: nat, acts: seq<Act>, s: Sys, a: Act, q: Spot)
    requires Leads(cfg, acts, s, r, p, k) && Enabled(s, a) && OthersChargeNothing([a], r.runId)
    requires ShapeAt(Do(cfg, s, a), r, q) && Live(q.pcs) <= Live(p.pcs)
    ensures Reached(cfg, r, q, k)
  {
    LiveOfReached(cfg, acts, s, r, p, k);
    Extends(cfg, r, q, k, acts, s, a);
  }

  lemma {:induction false} FinalOverlap(cfg: Config, from: Sys, acts: seq<Act>, runId: Id, k: nat)
    requires Overlap(cfg, from, acts, LiveOnRun, runId, k)
    ensures Count(Play(cfg, from, acts).frames, LiveOnRun, runId) <= k
    decreases |acts|
  {
    if acts != [] {
      FinalOverlap(cfg, Do(cfg, from, acts[0]), acts[1..], runId, k);
    }
  }

  lemma {:induction false} LiveUpdate(pcs: seq<Pc>, i: nat, pc: Pc)
    requires i < |pcs|
    ensures Live(pcs[i := pc]) + One(!Halted(pcs[i])) == Live(pcs) + One(!Halted(pc))
  {
    var init := pcs[..|pcs| - 1];
    if i == |init| {
      assert pcs[i := pc][..|init|] == init;
    } else {
      assert pcs[i := pc][..|init|] == init[i := pc];
      LiveUpdate(init, i, pc);
    }
  }

  // ---------------------------------------------------------------- the rules

  ghost function Longest(ids: set<Id>): (n: nat)
    ensures forall x :: x in ids ==> |x| <= n
  {
    if ids == {} then 0
    else
      var x :| x in ids;
      var n := Longest(ids - {x});
      if |x| > n then |x| else n
  }

  lemma UnusedId(seen: set<Id>) returns (id: Id)
    ensures id != "" && id !in seen
  {
    id := seq(Longest(seen) + 1, _ => 'x');
    assert |id| > Longest(seen);
  }

  lemma HopRuns(cfg: Config, s: Sys, r: Request, p: Spot, i: nat, m: Move)
    requires ShapeAt(s, r, p) && Fit(cfg, r) && i < |p.pcs| && Able(cfg, r, p, p.pcs[i])
    ensures var s' := AdvanceFrame(cfg, s, i, m);
            && FramesAre(s'.frames, r, p.pcs[i := HopPc(r, p, p.pcs[i], m.outcome)])
            && RunsAre(s'.invocations, r, p.runs + One(RunsTool(r, p.pcs[i]))) && !Halted(p.pcs[i])
  {
    HopNext(cfg, s.world.data, r, p, p.pcs[i], m);
    AbleRuns(cfg, r, p, p.pcs[i]);
    assert s.frames[i] == FrameAt(r, p.pcs[i]);
  }

  lemma HopShape(cfg: Config, s: Sys, r: Request, p: Spot, i: nat, m: Move)
    requires ShapeAt(s, r, p) && Fit(cfg, r) && i < |p.pcs| && Able(cfg, r, p, p.pcs[i])
    requires m.now == s.world.clock && m.drawn != "" && m.drawn !in s.world.seen
    ensures Enabled(s, Advance(i, m)) && ShapeAt(Do(cfg, s, Advance(i, m)), r, Hop(r, p, i, m.outcome))
  {
    HopRuns(cfg, s, r, p, i, m);
    HopWorld(cfg, s.world, r, p, p.pcs[i], m);
    assert s.frames[i] == FrameAt(r, p.pcs[i]);
  }

  lemma HopAct(cfg: Config, s: Sys, r: Request, p: Spot, i: nat, outcome: ToolOutcome) returns (a: Act)
    requires ShapeAt(s, r, p) && Fit(cfg, r) && i < |p.pcs| && Able(cfg, r, p, p.pcs[i])
    ensures Enabled(s, a) && a.Advance? && ShapeAt(Do(cfg, s, a), r, Hop(r, p, i, outcome))
  {
    var id := UnusedId(s.world.seen);
    var m := Move(s.world.clock, id, outcome);
    HopShape(cfg, s, r, p, i, m);
    a := Advance(i, m);
  }

  lemma HopLives(cfg: Config, r: Request, p: Spot, i: nat, outcome: ToolOutcome)
    requires Fit(cfg, r) && i < |p.pcs| && Able(cfg, r, p, p.pcs[i])
    ensures Live(Hop(r, p, i, outcome).pcs) <= Live(p.pcs)
  {
    AbleRuns(cfg, r, p, p.pcs[i]);
    LiveUpdate(p.pcs, i, HopPc(r, p, p.pcs[i], outcome));
  }

  /** A call takes its next step. */
  lemma HopReaches(cfg: Config, r: Request, p: Spot, k: nat, i: nat, outcome: ToolOutcome)
    requires Fit(cfg, r) && Reached(cfg, r, p, k) && i < |p.pcs| && Able(cfg, r, p, p.pcs[i])
    ensures Reached(cfg, r, Hop(r, p, i, outcome), k)
  {
    var acts, s :| Leads(cfg, acts, s, r, p, k);
    var a := HopAct(cfg, s, r, p, i, outcome);
    HopLives(cfg, r, p, i, outcome);
    StaysWithin(cfg, r, p, k, acts, s, a, Hop(r, p, i, outcome));
  }

  lemma Hops(cfg: Config, r: Request, p: Spot, k: nat, i: nat, outcome: ToolOutcome, x: Pc, q: Spot)
    requires Fit(cfg, r) && Reached(cfg, r, p, k) && i < |p.pcs| && p.pcs[i] == x && Able(cfg, r, p, x)
    requires q == Hop(r, p, i, outcome)
    ensures Reached(cfg, r, q, k)
  {
    HopReaches(cfg, r, p, k, i, outcome);
  }

  lemma CrashShape(cfg: Config, s: Sys, r: Request, p: Spot, i: nat)
    requires ShapeAt(s, r, p) && i < |p.pcs| && !Halted(p.pcs[i])
    ensures Enabled(s, Crash(i)) && ShapeAt(Do(cfg, s, Crash(i)), r, p.(pcs := p.pcs[i := Crashed]))
  {
    assert s.frames[i] == FrameAt(r, p.pcs[i]);
  }

  /** A call crashes. */
  lemma CrashReaches(cfg: Config, r: Request, p: Spot, k: nat, i: nat)
    requires Reached(cfg, r, p, k) && i < |p.pcs| && !Halted(p.pcs[i])
    ensures Reached(cfg, r, p.(pcs := p.pcs[i := Crashed]), k)
  {
    var acts, s :| Leads(cfg, acts, s, r, p, k);
    CrashShape(cfg, s, r, p, i);
    LiveUpdate(p.pcs, i, Crashed);
    StaysWithin(cfg, r, p, k, acts, s, Crash(i), p.(pcs := p.pcs[i := Crashed]));
  }

  /** Another call with the same request begins. */
  lemma BeginReaches(cfg: Config, r: Request, p: Spot, k: nat)
    requires Reached(cfg, r, p, k) && Live(p.pcs) < k
    ensures Reached(cfg, r, p.(pcs := p.pcs + [Start]), k)
  {
    var acts, s :| Leads(cfg, acts, s, r, p, k);
    assert (p.pcs + [Start])[..|p.pcs|] == p.pcs;
    Extends(cfg, r, p.(pcs := p.pcs + [Start]), k, acts, s, Begin(r));
  }

  /** Someone declares that the reserved side effect did not happen. */
  lemma DeclareReaches(cfg: Config, r: Request, p: Spot, k: nat)
    requires Reached(cfg, r, p, k) && p.entry.Some?
    ensures Reached(cfg, r, p.(entry := Some(FAILED_NO_EFFECT), declared := p.declared + 1), k)
  {
    var acts, s :| Leads(cfg, acts, s, r, p, k);
    var q := p.(entry := Some(FAILED_NO_EFFECT), declared := p.declared + 1);
    var a := Env(Call(UpdateLedger(IdempotencyKey(r), FAILED_NO_EFFECT, "", Null), s.world.clock));
    DeclareShape(cfg, s, r, IdempotencyKey(r), p);
    StaysWithin(cfg, r, p, k, acts, s, a, q);
  }

  lemma DeclareShape(cfg: Config, s: Sys, r: Request, key: Id, p: Spot)
    requires key == IdempotencyKey(r) && ShapeAt(s, r, p) && p.entry.Some?
    ensures var a := Env(Call(UpdateLedger(key, FAILED_NO_EFFECT, "", Null), s.world.clock));
            && Enabled(s, a)
            && ShapeAt(Do(cfg, s, a), r, p.(entry := Some(FAILED_NO_EFFECT), declared := p.declared + 1))
  {
    var op := UpdateLedger(key, FAILED_NO_EFFECT, "", Null);
    OnlyApprovalCalls(s.world.data, op, s.world.clock);
    OnlyCostCalls(s.world.data, op, s.world.clock);
    HarmlessLeavesSteps(s.world.data, op, s.world.clock);
  }

  /** A request that can be made at all: drawn identifiers are not empty, and run and step have their own. */
  predicate WellNamed(r: Request) { r.runId != "" && r.stepId != "" && r.runId != r.stepId }

  const NOWHERE := Spot([], None, None, 0, 0, 0)

  lemma CreateReaches(cfg: Config, r: Request, k: nat)
    requires WellNamed(r)
    ensures Reached(cfg, r, NOWHERE, k)
  {
    var a := Env(Call(CreateRun(r.runId, r.stepId, r.sessionId, map[]), 1));
    assert Path(cfg, INITIAL, [], INITIAL, r, k);
    CreateShape(cfg, r);
    Extends(cfg, r, NOWHERE, k, [], INITIAL, a);
  }

  lemma CreateShape(cfg: Config, r: Request)
    requires WellNamed(r)
    ensures var a := Env(Call(CreateRun(r.runId, r.stepId, r.sessionId, map[]), 1));
            Enabled(INITIAL, a) && ShapeAt(Do(cfg, INITIAL, a), r, NOWHERE)
  {
    var op := CreateRun(r.runId, r.stepId, r.sessionId, map[]);
    OnlyLedgerCalls(EMPTY, op, 1);
    OnlyApprovalCalls(EMPTY, op, 1);
    OnlyCostCalls(EMPTY, op, 1);
  }

  /** What a reached spot means for the run that reaches it. */
  lemma ReachedByActs(cfg: Config, r: Request, p: Spot, k: nat) returns (acts: seq<Act>)
    requires Reached(cfg, r, p, k)
    ensures Path(cfg, INITIAL, acts, Play(cfg, INITIAL, acts), r, k) && ShapeAt(Play(cfg, INITIAL, acts), r, p)
  {
    var s: Sys;
    acts, s :| Leads(cfg, acts, s, r, p, k);
  }

  // ---------------------------------------------------------------- many calls at once

  function Rep(pc: Pc, n: nat): seq<Pc> { seq(n, _ => pc) }

  lemma {:induction false} LiveOfRep(a: seq<Pc>, pc: Pc, n: nat)
    ensures Live(a + Rep(pc, n)) == Live(a) + if Halted(pc) then 0 else n
  {
    if n == 0 {
      assert a + Rep(pc, 0) == a;
    } else {
      assert (a + Rep(pc, n))[..|a| + n - 1] == a + Rep(pc, n - 1);
      LiveOfRep(a, pc, n - 1);
    }
  }

  lemma RepUpdate(a: seq<Pc>, x: Pc, y: Pc, n: nat, j: nat)
    requires j < n
    ensures var pcs := a + Rep(y, j) + Rep(x, n - j);
            pcs[|a| + j] == x && pcs[|a| + j := y] == a + Rep(y, j + 1) + Rep(x, n - j - 1)
  {
  }

  /** `n` calls behind `a`, all in one position. */
  function Swarm(p: Spot, a: seq<Pc>, x: Pc, n: nat): Spot { p.(pcs := a + Rep(x, n)) }

  lemma SwarmGrows(p: Spot, n: nat)
    ensures Swarm(p, p.pcs, Start, 0) == p && Live(Swarm(p, p.pcs, Start, n).pcs) == Live(p.pcs) + n
    ensures var q := Swarm(p, p.pcs, Start, n); q.(pcs := q.pcs + [Start]) == Swarm(p, p.pcs, Start, n + 1)
  {
    LiveOfRep(p.pcs, Start, n);
    assert p.pcs + Rep(Start, n) + [Start] == p.pcs + Rep(Start, n + 1);
  }

  /** `n` calls begin. */
  lemma {:induction false} BeginAll(cfg: Config, r: Request, p: Spot, k: nat, n: nat)
    requires Reached(cfg, r, p, k) && Live(p.pcs) + n <= k
    ensures Reached(cfg, r, Swarm(p, p.pcs, Start, n), k)
  {
    if n == 0 {
      SwarmGrows(p, 0);
    } else {
      BeginAll(cfg, r, p, k, n - 1);
      SwarmGrows(p, n - 1);
      BeginReaches(cfg, r, Swarm(p, p.pcs, Start, n - 1), k);
    }
  }

  /** Steps that leave the next call in the same position as this one was. */
  predicate Repeats(r: Request, p: Spot, pc: Pc)
  {
    || pc.Start? || (pc.CheckPolicy? && !r.spec.approvalRequired) || pc.Permit? || pc.CheckBudget? || pc.MarkRunning? || pc.Launch?
    || pc.DoneNote? || pc.DoneCost? || (pc.ReserveKey? && p.entry == Some(FAILED_NO_EFFECT))
  }

  /** The spot when all of `n` calls behind `a` have taken that step. */
  function Swept(r: Request, p: Spot, a: seq<Pc>, x: Pc, n: nat, outcome: ToolOutcome): Spot
  {
    p.(pcs := a + Rep(HopPc(r, p, x, outcome), n),
       entry := if x.MarkRunning? && p.entry.Some? && n > 0 then Some(RUNNING) else p.entry,
       runs := p.runs + if RunsTool(r, x) then n else 0,
       recorded := p.recorded + if x.DoneCost? then n else 0)
  }

  /** And when only the first `j` of them have. */
  function Midway(r: Request, p: Spot, a: seq<Pc>, x: Pc, n: nat, j: nat, outcome: ToolOutcome): Spot
    requires j <= n
  {
    Swept(r, p, a, x, j, outcome).(pcs := a + Rep(HopPc(r, p, x, outcome), j) + Rep(x, n - j))
  }

  lemma MidwayHops(cfg: Config, r: Request, p: Spot, a: seq<Pc>, x: Pc, n: nat, j: nat, outcome: ToolOutcome)
    requires j < n && Able(cfg, r, p, x) && Repeats(r, p, x)
    ensures var q := Midway(r, p, a, x, n, j, outcome);
            && q.pcs[|a| + j] == x && Able(cfg, r, q, x)
            && Hop(r, q, |a| + j, outcome) == Midway(r, p, a, x, n, j + 1, outcome)
  {
    RepUpdate(a, x, HopPc(r, p, x, outcome), n, j);
  }

  lemma SweepOne(cfg: Config, r: Request, p: Spot, k: nat, a: seq<Pc>, x: Pc, n: nat, j: nat, outcome: ToolOutcome)
    requires Fit(cfg, r) && j < n && Able(cfg, r, p, x) && Repeats(r, p, x) && Reached(cfg, r, Midway(r, p, a, x, n, j, outcome), k)
    ensures Reached(cfg, r, Midway(r, p, a, x, n, j + 1, outcome), k)
  {
    MidwayHops(cfg, r, p, a, x, n, j, outcome);
    Hops(cfg, r, Midway(r, p, a, x, n, j, outcome), k, |a| + j, outcome, x, Midway(r, p, a, x, n, j + 1, outcome));
  }

  lemma {:induction false} Climb(R: nat -> bool, n: nat)
    requires R(0) && forall j: nat :: j < n && R(j) ==> R(j + 1)
    ensures R(n)
  {
    if n > 0 { Climb(R, n - 1); }
  }

  lemma MidwayEnds(r: Request, p: Spot, a: seq<Pc>, x: Pc, n: nat, outcome: ToolOutcome)
    ensures p.pcs == a + Rep(x, n) ==> Midway(r, p, a, x, n, 0, outcome) == p
    ensures Midway(r, p, a, x, n, n, outcome) == Swept(r, p, a, x, n, outcome)
  {
    var y := HopPc(r, p, x, outcome);
    assert a + Rep(y, 0) + Rep(x, n) == a + Rep(x, n);
    assert a + Rep(y, n) + Rep(x, 0) == a + Rep(y, n);
  }

  /** All `n` calls behind `a` take the same step, one after the other. */
  lemma Sweep(cfg: Config, r: Request, p: Spot, k: nat, a: seq<Pc>, x: Pc, n: nat, outcome: ToolOutcome)
    requires Fit(cfg, r) && Able(cfg, r, p, x) && Repeats(r, p, x) && p.pcs == a + Rep(x, n) && Reached(cfg, r, p, k)
    ensures Reached(cfg, r, Swept(r, p, a, x, n, outcome), k)
  {
    var R := (j: nat) => j <= n ==> Reached(cfg, r, Midway(r, p, a, x, n, j, outcome), k);
    forall j: nat | j < n && R(j) ensures R(j + 1) {
      SweepOne(cfg, r, p, k, a, x, n, j, outcome);
    }
    MidwayEnds(r, p, a, x, n, outcome);
    Climb(R, n);
  }

  /** The step takes calls from `x` to `y`, and `n` of them take everything else from `p` to `q`. */
  predicate Marches(cfg: Config, r: Request, p: Spot, x: Pc, n: nat, outcome: ToolOutcome, q: Spot, y: Pc)
  {
    && Fit(cfg, r) && Able(cfg, r, p, x) && Repeats(r, p, x) && y == HopPc(r, p, x, outcome)
    && q.(pcs := []) == Swept(r, p, [], x, n, outcome).(pcs := [])
  }

  lemma MarchIsSweep(cfg: Config, r: Request, p: Spot, a: seq<Pc>, x: Pc, n: nat, outcome: ToolOutcome, q: Spot, y: Pc)
    requires Marches(cfg, r, p, x, n, outcome, q, y)
    ensures Able(cfg, r, Swarm(p, a, x, n), x) && Repeats(r, Swarm(p, a, x, n), x)
    ensures Swept(r, Swarm(p, a, x, n), a, x, n, outcome) == Swarm(q, a, y, n)
  {
    assert Swept(r, Swarm(p, a, x, n), a, x, n, outcome) == Swept(r, p, a, x, n, outcome);
    assert Swept(r, p, a, x, n, outcome).(pcs := []) == Swept(r, p, [], x, n, outcome).(pcs := []);
  }

  lemma March(cfg: Config, r: Request, p: Spot, k: nat, a: seq<Pc>, x: Pc, n: nat, outcome: ToolOutcome, q: Spot, y: Pc)
    requires Marches(cfg, r, p, x, n, outcome, q, y) && Reached(cfg, r, Swarm(p, a, x, n), k)
    ensures Reached(cfg, r, Swarm(q, a, y, n), k)
  {
    MarchIsSweep(cfg, r, p, a, x, n, outcome, q, y);
    Sweep(cfg, r, Swarm(p, a, x, n), k, a, x, n, outcome);
  }

  lemma {:induction false} CrashAll(cfg: Config, r: Request, p: Spot, k: nat, a: seq<Pc>, x: Pc, n: nat, j: nat)
    requires j <= n && !Halted(x) && p.pcs == a + Rep(Crashed, j) + Rep(x, n - j) && Reached(cfg, r, p, k)
    ensures Reached(cfg, r, p.(pcs := a + Rep(Crashed, n)), k)
    decreases n - j
  {
    if j == n {
      assert a + Rep(Crashed, n) + Rep(x, 0) == a + Rep(Crashed, n);
    } else {
      RepUpdate(a, x, Crashed, n, j);
      CrashReaches(cfg, r, p, k, |a| + j);
      CrashAll(cfg, r, p.(pcs := a + Rep(Crashed, j + 1) + Rep(x, n - j - 1)), k, a, x, n, j + 1);
    }
  }
}
