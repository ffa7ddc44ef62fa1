/**
 Approval-required tools and approval: exactly which requests can run their tool with nothing granted. Asking for
 approval makes no difference to that, because a request that is still pending leaves the policy's answer alone.
 */
module GatewayApproval {
  import opened Json
  import opened Text
  import opened Store
  import opened StoreInvariant
  import opened StoreSteps
  import opened StoreRuns
  import opened Gateway
  import opened GatewayPolicy
  import opened GatewayBudget
  import opened GatewayTraces

  // ---------------------------------------------------------------- the run

  /** `p` with one more call, at `x`. */
  function Last(p: Spot, x: Pc): Spot { p.(pcs := p.pcs + [x]) }

  /** One step takes that call from `x` to `y`, and everything else from `p` to `q`. */
  predicate Steps(cfg: Config, r: Request, p: Spot, x: Pc, q: Spot, y: Pc)
  {
    && Fit(cfg, r) && Able(cfg, r, p, x) && y == HopPc(r, p, x, Raised)
    && q == HopStore(r, p, x).(runs := p.runs + One(RunsTool(r, x)))
  }

  lemma StepsIsHop(cfg: Config, r: Request, p: Spot, x: Pc, q: Spot, y: Pc)
    requires Steps(cfg, r, p, x, q, y)
    ensures Able(cfg, r, Last(p, x), x) && Last(q, y) == Hop(r, Last(p, x), |p.pcs|, Raised)
  {
    assert Last(p, x).pcs[|p.pcs| := y] == p.pcs + [y];
    assert HopPc(r, Last(p, x), x, Raised) == y;
  }

  lemma Goes(cfg: Config, r: Request, p: Spot, x: Pc, q: Spot, y: Pc)
    requires Steps(cfg, r, p, x, q, y) && Reached(cfg, r, Last(p, x), 1)
    ensures Reached(cfg, r, Last(q, y), 1)
  {
    StepsIsHop(cfg, r, p, x, q, y);
    Hops(cfg, r, Last(p, x), 1, |p.pcs|, Raised, x, Last(q, y));
  }

  const ASKED: Pc := Finished(Error(ApprovalNeeded))

  const PENDED := NOWHERE.(approval := Some(PENDING))

  lemma AskingSteps(cfg: Config, r: Request)
    requires Fit(cfg, r) && r.spec.approvalRequired
    ensures Steps(cfg, r, NOWHERE, Start, NOWHERE, CheckPolicy) && Steps(cfg, r, NOWHERE, CheckPolicy, NOWHERE, AskApproval)
    ensures Steps(cfg, r, NOWHERE, AskApproval, PENDED, NoteAsked)
    ensures Steps(cfg, r, PENDED, NoteAsked, PENDED, NoteRequired) && Steps(cfg, r, PENDED, NoteRequired, PENDED, ASKED)
  {
  }

  /** One call asks for approval and is turned away. */
  lemma OneCallAsks(cfg: Config, r: Request)
    requires WellNamed(r) && Fit(cfg, r) && r.spec.approvalRequired
    ensures Reached(cfg, r, Last(PENDED, ASKED), 1)
  {
    CreateReaches(cfg, r, 1);
    BeginReaches(cfg, r, NOWHERE, 1);
    AskingSteps(cfg, r);
    Goes(cfg, r, NOWHERE, Start, NOWHERE, CheckPolicy);
    Goes(cfg, r, NOWHERE, CheckPolicy, NOWHERE, AskApproval);
    Goes(cfg, r, NOWHERE, AskApproval, PENDED, NoteAsked);
    Goes(cfg, r, PENDED, NoteAsked, PENDED, NoteRequired);
    Goes(cfg, r, PENDED, NoteRequired, PENDED, ASKED);
  }

  /** What has happened before the call that runs the tool: nothing, or one call that asked. */
  function Before(r: Request): Spot { if r.spec.approvalRequired then Last(PENDED, ASKED) else NOWHERE }

  lemma BeforeReached(cfg: Config, r: Request)
    requires WellNamed(r) && Fit(cfg, r)
    ensures Reached(cfg, r, Before(r), 1) && Live(Before(r).pcs) == 0
  {
    if r.spec.approvalRequired {
      OneCallAsks(cfg, r);
      assert Last(PENDED, ASKED).pcs == [ASKED] && [ASKED][..0] == [];
    } else {
      CreateReaches(cfg, r, 1);
    }
  }

  lemma PassingSteps(cfg: Config, r: Request)
    requires Fit(cfg, r)
    ensures var b := Before(r);
            && Steps(cfg, r, b, Start, b, CheckPolicy) && Steps(cfg, r, b, CheckPolicy, b, Permit(true))
            && Steps(cfg, r, b, Permit(true), b, CheckBudget)
            && Steps(cfg, r, b, CheckBudget, b, if IsManaged(r.spec) then ReserveKey else Launch)
  {
  }

  /** Then a call passes the policy and the budget. */
  lemma CallPasses(cfg: Config, r: Request)
    requires WellNamed(r) && Fit(cfg, r)
    ensures Reached(cfg, r, Last(Before(r), if IsManaged(r.spec) then ReserveKey else Launch), 1)
  {
    var b := Before(r);
    BeforeReached(cfg, r);
    BeginReaches(cfg, r, b, 1);
    PassingSteps(cfg, r);
    Goes(cfg, r, b, Start, b, CheckPolicy);
    Goes(cfg, r, b, CheckPolicy, b, Permit(true));
    Goes(cfg, r, b, Permit(true), b, CheckBudget);
    Goes(cfg, r, b, CheckBudget, b, if IsManaged(r.spec) then ReserveKey else Launch);
  }

  /** The ledger entry that call leaves. */
  function Keyed(r: Request, status: LedgerStatus): Spot
  {
    Before(r).(entry := if IsManaged(r.spec) then Some(status) else None)
  }

  lemma LaunchingSteps(cfg: Config, r: Request)
    requires Fit(cfg, r)
    ensures IsManaged(r.spec) ==> Steps(cfg, r, Before(r), ReserveKey, Keyed(r, RESERVED), MarkRunning)
    ensures IsManaged(r.spec) ==> Steps(cfg, r, Keyed(r, RESERVED), MarkRunning, Keyed(r, RUNNING), Launch)
    ensures r.spec.sandboxRequired ==> Steps(cfg, r, Keyed(r, RUNNING), Launch, Keyed(r, RUNNING), RunSandbox)
  {
  }

  /** Where the tool runs. */
  function RunPoint(r: Request): Pc { if r.spec.sandboxRequired then RunSandbox else Launch }

  lemma CallLaunches(cfg: Config, r: Request)
    requires WellNamed(r) && Fit(cfg, r)
    ensures Reached(cfg, r, Last(Keyed(r, RUNNING), RunPoint(r)), 1)
  {
    CallPasses(cfg, r);
    LaunchingSteps(cfg, r);
    if IsManaged(r.spec) {
      Goes(cfg, r, Before(r), ReserveKey, Keyed(r, RESERVED), MarkRunning);
      Goes(cfg, r, Keyed(r, RESERVED), MarkRunning, Keyed(r, RUNNING), Launch);
    }
    if r.spec.sandboxRequired {
      Goes(cfg, r, Keyed(r, RUNNING), Launch, Keyed(r, RUNNING), RunSandbox);
    }
  }

  /** What its run leaves, and where the call is then. */
  function Ran(r: Request): Spot { Keyed(r, RUNNING).(runs := 1) }

  function After(r: Request): Pc { HopPc(r, Keyed(r, RUNNING), RunPoint(r), Raised) }

  lemma RunningStep(cfg: Config, r: Request)
    requires Fit(cfg, r)
    ensures Steps(cfg, r, Keyed(r, RUNNING), RunPoint(r), Ran(r), After(r))
  {
  }

  /** The tool runs, with nothing granted. */
  lemma CallRuns(cfg: Config, r: Request)
    requires WellNamed(r) && Fit(cfg, r)
    ensures Reached(cfg, r, Last(Ran(r), After(r)), 1)
  {
    CallLaunches(cfg, r);
    RunningStep(cfg, r);
    Goes(cfg, r, Keyed(r, RUNNING), RunPoint(r), Ran(r), After(r));
  }

  // ---------------------------------------------------------------- what every run keeps

  ghost predicate NamesOk(d: StoreData)
  {
    "" !in d.runs && forall s :: s in d.steps ==> s != "" && s != d.steps[s].runId
  }

  lemma RunNames(w: World, call: Call)
    requires StepsBelong(w) && Allowed(w, call)
    ensures Effect(w.data, call.op, call.now).runs.Keys == w.data.runs.Keys + if call.op.CreateRun? then {call.op.runId} else {}
  {
    if IsQuiet(call.op) {
      if IsSweep(call.op) { QuietSweep(w, call); } else { QuietRecord(w, call); }
    } else if call.op.ClaimStep? {
      assert Claimable(w.data, call.op.filter, call.op.stepId);
    }
  }

  lemma NewStepIsNamed(w: World, call: Call, s: Id)
    requires StepsBelong(w) && NamesOk(w.data) && Allowed(w, call)
    requires s in Apply(w, call).data.steps && s !in w.data.steps
    ensures s != "" && s != Apply(w, call).data.steps[s].runId
  {
    StepNames(w, call);
    assert s in NewSteps(w.data, call.op);
    CreatedName(w, call, s);
  }

  lemma CreatedName(w: World, call: Call, s: Id)
    requires StepsBelong(w) && NamesOk(w.data) && Allowed(w, call) && s in NewSteps(w.data, call.op)
    ensures s in Effect(w.data, call.op, call.now).steps ==> s != "" && s != Effect(w.data, call.op, call.now).steps[s].runId
  {
  }

  lemma CallKeepsNames(w: World, call: Call)
    requires StepsBelong(w) && NamesOk(w.data) && Allowed(w, call)
    ensures NamesOk(Apply(w, call).data)
  {
    RunNames(w, call);
    forall s | s in Apply(w, call).data.steps ensures s != "" && s != Apply(w, call).data.steps[s].runId {
      if s in w.data.steps {
        StepsKeepTheirRun(w, call, s);
      } else {
        NewStepIsNamed(w, call, s);
      }
    }
  }

  /** Past the input check the input was good. */
  predicate InputSeen(f: Frame) { PastPermit(f.pc) || f.pc.CheckPolicy? || f.pc.Permit? ==> f.req.inputOk }

  /** What is kept of requests: their steps exist under names that were drawn, and a tool only runs on good input. */
  ghost predicate Requested(s: Sys)
  {
    && NamesOk(s.world.data)
    && (forall f :: f in s.frames ==> InputSeen(f))
    && (forall x :: x in s.invocations ==> IsRooted(s.world.data, x.req) && x.req.inputOk)
  }

  lemma NextSeesInput(cfg: Config, f: Frame, d: StoreData, m: Move)
    requires InputSeen(f)
    ensures InputSeen(f.(pc := Next(cfg, f, d, m)))
  {
  }

  lemma DoKeepsNames(cfg: Config, s: Sys, a: Act)
    requires Inv(s.world) && NamesOk(s.world.data) && Enabled(s, a)
    ensures NamesOk(Do(cfg, s, a).world.data)
  {
    if a.Advance? {
      CallKeepsNames(s.world, Call(FrameOp(s.frames[a.i], a.move), a.move.now));
    } else if a.Env? {
      CallKeepsNames(s.world, a.call);
    }
  }

  lemma DoKeepsInputs(cfg: Config, s: Sys, a: Act, f: Frame)
    requires Requested(s) && f in Do(cfg, s, a).frames
    ensures InputSeen(f)
  {
    var s' := Do(cfg, s, a);
    var j :| 0 <= j < |s'.frames| && s'.frames[j] == f;
    assert j < |s.frames| ==> InputSeen(s.frames[j]);
    if a.Advance? && a.i == j && j < |s.frames| {
      NextSeesInput(cfg, s.frames[j], s.world.data, a.move);
    }
  }

  lemma DoKeepsRequested(cfg: Config, s: Sys, a: Act)
    requires Inv(s.world) && FramesRooted(s) && Requested(s) && Enabled(s, a)
    ensures Requested(Do(cfg, s, a))
  {
    var s' := Do(cfg, s, a);
    DoKeepsNames(cfg, s, a);
    forall f | f in s'.frames ensures InputSeen(f) {
      DoKeepsInputs(cfg, s, a, f);
    }
    forall x | x in s'.invocations ensures IsRooted(s'.world.data, x.req) && x.req.inputOk {
      if x !in s.invocations {
        assert s.frames[a.i] in s.frames && InputSeen(s.frames[a.i]) && x.req == s.frames[a.i].req;
      }
      StepStays(cfg, s, a, x.req);
    }
  }

  lemma {:induction false} RunsKeepRequested(cfg: Config, s: Sys, acts: seq<Act>)
    requires Inv(s.world) && FramesRooted(s) && Requested(s) && Legal(cfg, s, acts)
    ensures Requested(Play(cfg, s, acts)) && Inv(Play(cfg, s, acts).world)
    decreases |acts|
  {
    if acts != [] {
      DoKeepsRequested(cfg, s, acts[0]);
      DoKeepsStore(cfg, s, acts[0]);
      RunsKeepRequested(cfg, Do(cfg, s, acts[0]), acts[1..]);
    }
  }

  // ---------------------------------------------------------------- exactly when

  ghost predicate RanUngranted(cfg: Config, acts: seq<Act>, r: Request, i: nat)
  {
    var s := Play(cfg, INITIAL, acts);
    Legal(cfg, INITIAL, acts) && i < |s.invocations| && s.invocations[i].req == r && s.invocations[i].key !in s.granted
  }

  /** Some legal run invokes the tool for this request while its key has never been granted. */
  ghost predicate RunsUngranted(cfg: Config, r: Request) { exists acts, i: nat :: RanUngranted(cfg, acts, r, i) }

  lemma UngrantedIsFit(cfg: Config, acts: seq<Act>, r: Request, i: nat)
    requires RanUngranted(cfg, acts, r, i)
    ensures WellNamed(r) && Fit(cfg, r)
  {
    var s := Play(cfg, INITIAL, acts);
    DeniedToolNeedsGrant(cfg, acts, i);
    if r.spec.sandboxRequired {
      SandboxedToolNeedsExecutor(cfg, acts, i);
    }
    StartInv();
    RunsKeepRequested(cfg, INITIAL, acts);
    assert s.invocations[i] in s.invocations && IsRooted(s.world.data, r);
    assert s.world.data.steps[r.stepId].runId in s.world.data.runs;
  }

  /** For every request, approval-required or not: its tool can run with nothing granted if and only if its input is
      good, the policy allows it, a sandbox it needs is there, and its identifiers are ones that can be drawn. */
  lemma RunsUngrantedIff(cfg: Config, r: Request)
    ensures RunsUngranted(cfg, r) <==> WellNamed(r) && Fit(cfg, r)
  {
    if RunsUngranted(cfg, r) {
      var acts, i: nat :| RanUngranted(cfg, acts, r, i);
      UngrantedIsFit(cfg, acts, r, i);
    }
    if WellNamed(r) && Fit(cfg, r) {
      var acts := ApprovalIsNotWaitedFor(cfg, r);
    }
  }

  /** Such a run, in which nothing at all is granted. An approval-required tool runs on the second call, while the
      request made by the first is still pending. */
  lemma ApprovalIsNotWaitedFor(cfg: Config, r: Request) returns (acts: seq<Act>)
    requires WellNamed(r) && Fit(cfg, r)
    ensures RanUngranted(cfg, acts, r, 0) && Play(cfg, INITIAL, acts).granted == {}
  {
    CallRuns(cfg, r);
    acts := ReachedByActs(cfg, r, Last(Ran(r), After(r)), 1);
    assert Play(cfg, INITIAL, acts).invocations[0] in Play(cfg, INITIAL, acts).invocations;
  }
}
