/**
 The bounds on tool runs and on recorded calls are attained, for every number of overlapping calls and every number
 of declarations or every limit, so neither can be improved.
 */
module GatewayLimits {
  import opened Json
  import opened Text
  import opened Store
  import opened Gateway
  import opened GatewayPolicy
  import opened GatewayBudget
  import opened GatewayTraces

  /** A request let through at once: no approval and no sandbox. */
  predicate Plain(cfg: Config, r: Request) { WellNamed(r) && Fit(cfg, r) && !r.spec.approvalRequired && !r.spec.sandboxRequired }

  lemma OpeningMarches(cfg: Config, r: Request, p: Spot, n: nat, o: ToolOutcome)
    requires Plain(cfg, r) && p.approval == None && (cfg.maxToolCalls <= 0 || p.recorded < cfg.maxToolCalls)
    ensures Marches(cfg, r, p, Start, n, o, p, CheckPolicy) && Marches(cfg, r, p, CheckPolicy, n, o, p, Permit(true))
    ensures Marches(cfg, r, p, Permit(true), n, o, p, CheckBudget)
    ensures Marches(cfg, r, p, CheckBudget, n, o, p, if IsManaged(r.spec) then ReserveKey else Launch)
  {
  }

  /** `n` new calls get past the policy and the budget. */
  lemma CallsOpen(cfg: Config, r: Request, p: Spot, k: nat, n: nat, o: ToolOutcome)
    requires Plain(cfg, r) && p.approval == None && (cfg.maxToolCalls <= 0 || p.recorded < cfg.maxToolCalls)
    requires Reached(cfg, r, p, k) && Live(p.pcs) + n <= k
    ensures Reached(cfg, r, Swarm(p, p.pcs, if IsManaged(r.spec) then ReserveKey else Launch, n), k)
  {
    BeginAll(cfg, r, p, k, n);
    OpeningMarches(cfg, r, p, n, o);
    March(cfg, r, p, k, p.pcs, Start, n, o, p, CheckPolicy);
    March(cfg, r, p, k, p.pcs, CheckPolicy, n, o, p, Permit(true));
    March(cfg, r, p, k, p.pcs, Permit(true), n, o, p, CheckBudget);
    March(cfg, r, p, k, p.pcs, CheckBudget, n, o, p, if IsManaged(r.spec) then ReserveKey else Launch);
  }

  // ---------------------------------------------------------------- tool runs

  /** The key is marked as running. */
  function Running(p: Spot): Spot { p.(entry := Some(RUNNING)) }

  function Ran(p: Spot, n: nat): Spot { p.(runs := p.runs + n) }

  lemma RunMarches(cfg: Config, r: Request, p: Spot, n: nat)
    requires Plain(cfg, r) && IsManaged(r.spec) && n > 0 && p.entry.Some?
    ensures Marches(cfg, r, p, MarkRunning, n, Raised, Running(p), Launch)
    ensures Marches(cfg, r, Running(p), Launch, n, Raised, Ran(Running(p), n), FailMark)
  {
  }

  /** Calls that hold the reservation run the tool, each of them, and crash. */
  lemma CallsRun(cfg: Config, r: Request, p: Spot, k: nat, a: seq<Pc>, n: nat)
    requires Plain(cfg, r) && IsManaged(r.spec) && n > 0 && p.entry.Some?
    requires Reached(cfg, r, Swarm(p, a, MarkRunning, n), k)
    ensures Reached(cfg, r, Swarm(Ran(Running(p), n), a, Crashed, n), k)
  {
    RunMarches(cfg, r, p, n);
    March(cfg, r, p, k, a, MarkRunning, n, Raised, Running(p), Launch);
    March(cfg, r, Running(p), k, a, Launch, n, Raised, Ran(Running(p), n), FailMark);
    CallsCrash(cfg, r, Ran(Running(p), n), k, a, n);
  }

  lemma CallsCrash(cfg: Config, r: Request, p: Spot, k: nat, a: seq<Pc>, n: nat)
    requires Reached(cfg, r, Swarm(p, a, FailMark, n), k)
    ensures Reached(cfg, r, Swarm(p, a, Crashed, n), k)
  {
    assert a + Rep(Crashed, 0) + Rep(FailMark, n) == a + Rep(FailMark, n);
    CrashAll(cfg, r, Swarm(p, a, FailMark, n), k, a, FailMark, n, 0);
  }

  /** After `n` declarations each followed by `k` overlapping calls. */
  function Rounds(k: nat, n: nat): Spot { Spot(Rep(Crashed, 1 + k * n), None, Some(RUNNING), 1 + k * n, n, 0) }

  const HELD := NOWHERE.(entry := Some(RESERVED))

  /** The first call reserves the key. */
  lemma FirstReserves(cfg: Config, r: Request, k: nat)
    requires Plain(cfg, r) && IsManaged(r.spec) && Reached(cfg, r, Swarm(NOWHERE, [], ReserveKey, 1), k)
    ensures Reached(cfg, r, Swarm(HELD, [], MarkRunning, 1), k)
  {
    assert [] + Rep(ReserveKey, 1) == [ReserveKey] && [] + Rep(MarkRunning, 1) == [MarkRunning];
    Hops(cfg, r, NOWHERE.(pcs := [ReserveKey]), k, 0, Raised, ReserveKey, HELD.(pcs := [MarkRunning]));
  }

  lemma FirstRound(cfg: Config, r: Request, k: nat)
    requires Plain(cfg, r) && IsManaged(r.spec) && k > 0
    ensures Reached(cfg, r, Rounds(k, 0), k)
  {
    CreateReaches(cfg, r, k);
    CallsOpen(cfg, r, NOWHERE, k, 1, Raised);
    FirstReserves(cfg, r, k);
    CallsRun(cfg, r, HELD, k, [], 1);
    assert [] + Rep(Crashed, 1) == Rep(Crashed, 1 + k * 0);
  }

  lemma NoneLive(n: nat)
    ensures Live(Rep(Crashed, n)) == 0
  {
    LiveOfRep([], Crashed, n);
    assert [] + Rep(Crashed, n) == Rep(Crashed, n);
  }

  /** A declaration has freed the entry. */
  function Freed(k: nat, n: nat): Spot { Rounds(k, n).(entry := Some(FAILED_NO_EFFECT), declared := n + 1) }

  lemma FreedMarches(cfg: Config, r: Request, k: nat, n: nat)
    requires Plain(cfg, r) && IsManaged(r.spec)
    ensures Marches(cfg, r, Freed(k, n), ReserveKey, k, Raised, Freed(k, n), MarkRunning)
  {
  }

  /** A declaration, then `k` calls that all reserve the freed entry before any of them marks it. */
  lemma NextRound(cfg: Config, r: Request, k: nat, n: nat)
    requires Plain(cfg, r) && IsManaged(r.spec) && k > 0 && Reached(cfg, r, Rounds(k, n), k)
    ensures Reached(cfg, r, Rounds(k, n + 1), k)
  {
    var p := Freed(k, n);
    DeclareReaches(cfg, r, Rounds(k, n), k);
    NoneLive(1 + k * n);
    CallsOpen(cfg, r, p, k, k, Raised);
    FreedMarches(cfg, r, k, n);
    March(cfg, r, p, k, p.pcs, ReserveKey, k, Raised, p, MarkRunning);
    CallsRun(cfg, r, p, k, p.pcs, k);
    RoundsAdd(k, n);
  }

  lemma RoundsAdd(k: nat, n: nat)
    ensures Swarm(Ran(Running(Freed(k, n)), k), Freed(k, n).pcs, Crashed, k) == Rounds(k, n + 1)
  {
    assert k * (n + 1) == k * n + k;
    assert Rep(Crashed, 1 + k * n) + Rep(Crashed, k) == Rep(Crashed, 1 + k * (n + 1));
  }

  lemma {:induction false} AllRounds(cfg: Config, r: Request, k: nat, n: nat)
    requires Plain(cfg, r) && IsManaged(r.spec) && k > 0
    ensures Reached(cfg, r, Rounds(k, n), k)
  {
    if n == 0 {
      FirstRound(cfg, r, k);
    } else {
      AllRounds(cfg, r, k, n - 1);
      NextRound(cfg, r, k, n - 1);
    }
  }

  lemma {:induction false} AllCounted(invocations: seq<Invocation>, key: Id)
    requires forall x :: x in invocations ==> x.managed && x.key == key
    ensures ExecCount(invocations, key) == |invocations|
  {
    if invocations != [] {
      AllCounted(invocations[..|invocations| - 1], key);
    }
  }

  /** For every `k` and every number of declarations there is a run with never more than `k` calls at once in which
      the tool runs `1 + k * declared` times: the bound of `AtMostOnce.ExecutionsBounded` is attained. */
  lemma RunBoundIsAttained(cfg: Config, r: Request, k: nat, declared: nat) returns (acts: seq<Act>)
    requires Plain(cfg, r) && IsManaged(r.spec) && k > 0
    ensures Legal(cfg, INITIAL, acts) && Overlap(cfg, INITIAL, acts, LiveOnKey, IdempotencyKey(r), k)
    ensures var s := Play(cfg, INITIAL, acts);
            s.noEffect[IdempotencyKey(r)] == declared && ExecCount(s.invocations, IdempotencyKey(r)) == 1 + k * declared
  {
    AllRounds(cfg, r, k, declared);
    acts := ReachedByActs(cfg, r, Rounds(k, declared), k);
    AllCounted(Play(cfg, INITIAL, acts).invocations, IdempotencyKey(r));
  }

  /** In particular one declaration and two overlapping calls already give three runs, more than one plus the
      declarations: only calls that do not overlap have that simpler bound. */
  lemma OverlapNeedsTheFactor(cfg: Config, r: Request) returns (acts: seq<Act>)
    requires Plain(cfg, r) && IsManaged(r.spec)
    ensures Legal(cfg, INITIAL, acts) && Overlap(cfg, INITIAL, acts, LiveOnKey, IdempotencyKey(r), 2)
    ensures var s := Play(cfg, INITIAL, acts);
            s.noEffect[IdempotencyKey(r)] == 1 && ExecCount(s.invocations, IdempotencyKey(r)) == 3
  {
    acts := RunBoundIsAttained(cfg, r, 2, 1);
  }

  // ---------------------------------------------------------------- recorded calls

  function Ended(): Pc { Finished(Value(Null)) }

  /** `n` calls pass the budget check together and then all complete. */
  lemma CallsComplete(cfg: Config, r: Request, p: Spot, k: nat, n: nat)
    requires Plain(cfg, r) && !IsManaged(r.spec) && Reached(cfg, r, p, k) && Live(p.pcs) + n <= k
    requires p.approval == None && p.recorded < cfg.maxToolCalls
    ensures Reached(cfg, r, Swarm(Recorded(Ran(p, n), n), p.pcs, Ended(), n), k)
  {
    var good := Produced(Null, true);
    CallsOpen(cfg, r, p, k, n, good);
    FinishMarches(cfg, r, p, n);
    March(cfg, r, p, k, p.pcs, Launch, n, good, Ran(p, n), DoneNote(Null));
    March(cfg, r, Ran(p, n), k, p.pcs, DoneNote(Null), n, good, Ran(p, n), DoneCost(Null));
    March(cfg, r, Ran(p, n), k, p.pcs, DoneCost(Null), n, good, Recorded(Ran(p, n), n), Ended());
  }

  function Recorded(p: Spot, n: nat): Spot { p.(recorded := p.recorded + n) }

  lemma FinishMarches(cfg: Config, r: Request, p: Spot, n: nat)
    requires Plain(cfg, r) && !IsManaged(r.spec)
    ensures var good, q := Produced(Null, true), Ran(p, n);
            && Marches(cfg, r, p, Launch, n, good, q, DoneNote(Null))
            && Marches(cfg, r, q, DoneNote(Null), n, good, q, DoneCost(Null))
            && Marches(cfg, r, q, DoneCost(Null), n, good, Recorded(q, n), Ended())
  {
  }

  /** After `n` completed calls. */
  function Completed(n: nat): Spot { Spot(Rep(Ended(), n), None, None, n, 0, n) }

  lemma CompletedAdd(n: nat, k: nat)
    ensures Swarm(Recorded(Ran(Completed(n), k), k), Completed(n).pcs, Ended(), k) == Completed(n + k) && Live(Completed(n).pcs) == 0
  {
    LiveOfRep([], Ended(), n);
    assert [] + Rep(Ended(), n) == Rep(Ended(), n);
    assert Rep(Ended(), n) + Rep(Ended(), k) == Rep(Ended(), n + k);
  }

  /** `j` more calls together. */
  lemma CompleteMore(cfg: Config, r: Request, k: nat, n: nat, j: nat)
    requires Plain(cfg, r) && !IsManaged(r.spec) && j <= k && n < cfg.maxToolCalls && Reached(cfg, r, Completed(n), k)
    ensures Reached(cfg, r, Completed(n + j), k)
  {
    CompletedAdd(n, j);
    CallsComplete(cfg, r, Completed(n), k, j);
  }

  lemma {:induction false} OneByOne(cfg: Config, r: Request, k: nat, n: nat)
    requires Plain(cfg, r) && !IsManaged(r.spec) && k > 0 && n < cfg.maxToolCalls
    ensures Reached(cfg, r, Completed(n), k)
  {
    if n == 0 {
      CreateReaches(cfg, r, k);
      assert Completed(0) == NOWHERE;
    } else {
      OneByOne(cfg, r, k, n - 1);
      CompleteMore(cfg, r, k, n - 1, 1);
    }
  }

  /** For every limit `m` and every `k` there is a run with never more than `k` calls at once that records
      `m + k - 1` tool calls: the bound of `GatewayBudget.RecordedCallsBounded` is attained. */
  lemma BudgetBoundIsAttained(cfg: Config, r: Request, k: nat) returns (acts: seq<Act>)
    requires Plain(cfg, r) && !IsManaged(r.spec) && k > 0 && cfg.maxToolCalls > 0
    ensures Legal(cfg, INITIAL, acts) && Overlap(cfg, INITIAL, acts, LiveOnRun, r.runId, k) && OthersChargeNothing(acts, r.runId)
    ensures CallCount(Costs(Play(cfg, INITIAL, acts).world.data, r.runId)) == cfg.maxToolCalls + k - 1
  {
    var n: nat := cfg.maxToolCalls - 1;
    OneByOne(cfg, r, k, n);
    CompleteMore(cfg, r, k, n, k);
    acts := ReachedByActs(cfg, r, Completed(n + k), k);
  }
}
