/**
 `Runtime.RunOnce` (go/runtime.go) as many workers in flight over one store: claim, load, run the agent, then
 commit or mark. The agent's own store calls, its tool calls, and every other client are `Env` calls in between,
 and a worker may crash at any point.
 */
module Runner {
  import opened Json
  import opened Text
  import opened Store
  import opened StoreInvariant
  import opened StoreSteps
  import opened StoreRuns

  const DEFAULT_LEASE_SECONDS := 60

  datatype Claim = Claim(runId: Id, stepId: Id, token: Id)

  datatype Loaded = Loaded(state: Object, version: nat)

  /** How the agent function returned. */
  datatype AgentOutcome = Succeeded | NeedsApproval(message: string) | Retryable(message: string) | Broken(errorType: string, message: string)

  datatype Pc =
    | ToClaim
    | ToLoad(claim: Claim)
    | ToStart(claim: Claim, session: Id, loaded: Loaded)
    | Working(claim: Claim, session: Id, loaded: Loaded, pending: Object)
    | Returned(committed: bool)
    | Crashed

  datatype Worker = Worker(name: Id, role: string, filter: Id, leaseSeconds: nat, pc: Pc)

  /** A commit that succeeded: which worker made it, what it had loaded, the patch it committed, and what the store held
      afterwards. */
  datatype Commitment = Commitment(worker: nat, runId: Id, token: Id, loaded: Loaded, patch: Object, after: Loaded)

  datatype Sys = Sys(world: World, workers: seq<Worker>, commits: seq<Commitment>)

  const INITIAL := Sys(START, [], [])

  /** `Advance` carries the time, and the step and token a claim would draw; `Finish` the agent's return and the
      checkpoint label. */
  datatype Act =
    | Begin(name: Id, role: string, filter: Id, leaseSeconds: nat)
    | Advance(i: nat, stepId: Id, token: Id, now: Time)
    | Write(i: nat, key: string, value: Json, now: Time)
    | Finish(i: nat, outcome: AgentOutcome, checkpoint: string, now: Time)
    | Stop(i: nat)
    | Env(call: Call)

  /** What the store holds for a run. */
  function Holds(d: StoreData, runId: Id): Loaded { Loaded(RunOrZero(d, runId).state, RunOrZero(d, runId).stateVersion) }

  predicate AnyClaimable(d: StoreData, filter: Id) { exists s :: s in d.steps && Claimable(d, filter, s) }

  function Note(w: Worker, name: string): Op
    requires w.pc.ToStart? || w.pc.Working?
  {
    Append(w.pc.claim.runId, Draft(Custom(name), w.pc.session, w.pc.claim.stepId, w.role, w.pc.loaded.version, NoPayload))
  }

  function AdvanceOp(d: StoreData, w: Worker, stepId: Id, token: Id): Op
  {
    match w.pc
    case ToClaim => if AnyClaimable(d, w.filter) then ClaimStep(w.name, w.filter, stepId, token, w.leaseSeconds) else Read
    case ToStart(_, _, _) => Note(w, "agent_started")
    case _ => Read
  }

  function AdvancePc(d: StoreData, w: Worker, stepId: Id, token: Id): Pc
  {
    match w.pc
    case ToClaim =>
      if AnyClaimable(d, w.filter) && stepId in d.steps then ToLoad(Claim(d.steps[stepId].runId, stepId, token)) else Returned(false)
    case ToLoad(claim) =>
      if claim.runId in d.runs then ToStart(claim, d.runs[claim.runId].sessionId, Holds(d, claim.runId)) else Returned(false)
    case ToStart(claim, session, loaded) => Working(claim, session, loaded, map[])
    case _ => w.pc
  }

  function FinishOp(claim: Claim, loaded: Loaded, pending: Object, outcome: AgentOutcome, checkpoint: string): Op
  {
    match outcome
    case Succeeded => Commit(claim.runId, claim.stepId, claim.token, loaded.version, pending, checkpoint)
    case NeedsApproval(message) => Mark(claim.runId, claim.stepId, WaitingHuman, "ApprovalRequired", message)
    case Retryable(message) => Mark(claim.runId, claim.stepId, RetryScheduled, "RetryableAgentError", message)
    case Broken(errorType, message) => Mark(claim.runId, claim.stepId, Failed, errorType, message)
  }

  predicate Commits(d: StoreData, claim: Claim, loaded: Loaded, outcome: AgentOutcome, now: Time)
  {
    outcome.Succeeded? && CommitCheck(d, claim.runId, claim.stepId, claim.token, loaded.version, now).Ok?
  }

  /** The store call of an act. */
  function ActCall(s: Sys, a: Act): Call
  {
    match a
    case Advance(i, stepId, token, now) =>
      Call(if i < |s.workers| then AdvanceOp(s.world.data, s.workers[i], stepId, token) else Read, now)
    case Write(i, key, value, now) =>
      Call(if i < |s.workers| && s.workers[i].pc.Working?
           then Note(s.workers[i], "state_patch_proposed") else Read, now)
    case Finish(i, outcome, checkpoint, now) =>
      Call(if i < |s.workers| && s.workers[i].pc.Working?
           then FinishOp(s.workers[i].pc.claim, s.workers[i].pc.loaded, s.workers[i].pc.pending, outcome, checkpoint) else Read, now)
    case Env(call) => call
    case _ => Call(Read, s.world.clock)
  }

  function ActPc(d: StoreData, w: Worker, a: Act): Pc
  {
    match a
    case Advance(_, stepId, token, _) => AdvancePc(d, w, stepId, token)
    case Write(_, key, value, _) => if w.pc.Working? then w.pc.(pending := w.pc.pending[key := value]) else w.pc
    case Finish(_, outcome, _, now) =>
      if w.pc.Working? then Returned(Commits(d, w.pc.claim, w.pc.loaded, outcome, now)) else w.pc
    case Stop(_) => Crashed
    case _ => w.pc
  }

  function Target(a: Act): Option<nat>
  {
    match a
    case Advance(i, _, _, _) => Some(i)
    case Write(i, _, _, _) => Some(i)
    case Finish(i, _, _, _) => Some(i)
    case Stop(i) => Some(i)
    case _ => None
  }

  predicate MakesCommit(s: Sys, a: Act)
  {
    a.Finish? && a.i < |s.workers| && s.workers[a.i].pc.Working? &&
    Commits(s.world.data, s.workers[a.i].pc.claim, s.workers[a.i].pc.loaded, a.outcome, a.now)
  }

  function StoreAfter(s: Sys, a: Act): World
  {
    if a.Begin? || a.Stop? then s.world else Apply(s.world, ActCall(s, a))
  }

  function Nonempty(value: string, fallback: string): string { if value == "" then fallback else value }

  function WorkersAfter(s: Sys, a: Act): seq<Worker>
  {
    if a.Begin? then
      s.workers + [Worker(Nonempty(a.name, "worker-go"), Nonempty(a.role, "Agent"), a.filter,
                          if a.leaseSeconds == 0 then DEFAULT_LEASE_SECONDS else a.leaseSeconds, ToClaim)]
    else
      var i := Target(a);
      if i.Some? && i.value < |s.workers|
      then s.workers[i.value := s.workers[i.value].(pc := ActPc(s.world.data, s.workers[i.value], a))]
      else s.workers
  }

  function Do(s: Sys, a: Act): Sys
  {
    var world := StoreAfter(s, a);
    Sys(world, WorkersAfter(s, a),
        if MakesCommit(s, a) then
          var Working(claim, _, loaded, pending) := s.workers[a.i].pc;
          s.commits + [Commitment(a.i, claim.runId, claim.token, loaded, pending, Holds(world.data, claim.runId))]
        else s.commits)
  }

  ghost predicate Enabled(s: Sys, a: Act)
  {
    a.Begin? || a.Stop? || Allowed(s.world, ActCall(s, a))
  }

  function Play(s: Sys, acts: seq<Act>): Sys
    decreases |acts|
  {
    if acts == [] then s else Play(Do(s, acts[0]), acts[1..])
  }

  ghost predicate Legal(s: Sys, acts: seq<Act>)
    decreases |acts|
  {
    acts == [] || (Enabled(s, acts[0]) && Legal(Do(s, acts[0]), acts[1..]))
  }

  // ---------------------------------------------------------------- what every act keeps

  /** What was loaded is what the run still holds, unless the run has moved on to a later version. */
  predicate StillTrue(d: StoreData, runId: Id, loaded: Loaded)
  {
    && runId in d.runs && loaded.version <= d.runs[runId].stateVersion
    && (loaded.version == d.runs[runId].stateVersion ==> loaded.state == d.runs[runId].state)
  }

  predicate WorkerOk(d: StoreData, w: Worker)
  {
    && (w.pc.ToStart? ==> StillTrue(d, w.pc.claim.runId, w.pc.loaded))
    && (w.pc.Working? ==> StillTrue(d, w.pc.claim.runId, w.pc.loaded))
  }

  /** The commit replaced exactly the state its worker had loaded, by that state with the worker's patch merged. */
  predicate CommitOk(d: StoreData, c: Commitment)
  {
    && c.after == Loaded(MergePatch(c.loaded.state, Obj(c.patch)), c.loaded.version + 1)
    && c.runId in d.runs && c.loaded.version < d.runs[c.runId].stateVersion
  }

  ghost predicate CommitsRise(commits: seq<Commitment>)
  {
    forall i, j :: 0 <= i < j < |commits| && commits[i].runId == commits[j].runId ==>
      commits[i].loaded.version < commits[j].loaded.version
  }

  ghost predicate Sound(s: Sys)
  {
    && (forall w :: w in s.workers ==> WorkerOk(s.world.data, w))
    && (forall c :: c in s.commits ==> CommitOk(s.world.data, c))
    && CommitsRise(s.commits)
  }

  ghost predicate AllForward(d: StoreData, e: StoreData)
  {
    forall r :: r in d.runs ==> Forward(d, e, r)
  }

  lemma StoreMovesForward(s: Sys, a: Act)
    requires Inv(s.world) && Enabled(s, a)
    ensures AllForward(s.world.data, StoreAfter(s, a).data) && Inv(StoreAfter(s, a))
  {
    if !a.Begin? && !a.Stop? {
      CallKeepsInv(s.world, ActCall(s, a));
      forall r | r in s.world.data.runs ensures Forward(s.world.data, StoreAfter(s, a).data, r) {
        CallIsForward(s.world, ActCall(s, a), r);
      }
    }
  }

  lemma ForwardKeepsTruth(d: StoreData, e: StoreData, runId: Id, loaded: Loaded)
    requires AllForward(d, e) && StillTrue(d, runId, loaded)
    ensures StillTrue(e, runId, loaded)
  {
    assert Forward(d, e, runId);
  }

  lemma WorkersStayOk(s: Sys, a: Act, e: StoreData, w: Worker)
    requires Sound(s) && AllForward(s.world.data, e) && w in WorkersAfter(s, a)
    ensures WorkerOk(e, w)
  {
    var d := s.world.data;
    var j :| 0 <= j < |WorkersAfter(s, a)| && WorkersAfter(s, a)[j] == w;
    if j < |s.workers| && (w.pc.ToStart? || w.pc.Working?) {
      var was := s.workers[j];
      assert WorkerOk(d, was);
      assert StillTrue(d, w.pc.claim.runId, w.pc.loaded);
      ForwardKeepsTruth(d, e, w.pc.claim.runId, w.pc.loaded);
    }
  }

  lemma NewCommitIsOk(s: Sys, a: Act)
    requires Sound(s) && MakesCommit(s, a)
    ensures var d, Working(claim, _, loaded, pending) := s.world.data, s.workers[a.i].pc;
            && claim.runId in d.runs && loaded == Loaded(d.runs[claim.runId].state, d.runs[claim.runId].stateVersion)
            && CommitOk(StoreAfter(s, a).data,
                        Commitment(a.i, claim.runId, claim.token, loaded, pending, Holds(StoreAfter(s, a).data, claim.runId)))
  {
    var Working(claim, _, loaded, pending) := s.workers[a.i].pc;
    assert s.workers[a.i] in s.workers && WorkerOk(s.world.data, s.workers[a.i]);
    assert StillTrue(s.world.data, claim.runId, loaded);
    CommittedRun(s.world.data, claim, loaded, pending, a.checkpoint, a.now);
  }

  lemma CommittedRun(d: StoreData, claim: Claim, loaded: Loaded, pending: Object, checkpoint: string, now: Time)
    requires CommitCheck(d, claim.runId, claim.stepId, claim.token, loaded.version, now).Ok?
    ensures claim.runId in d.runs && d.runs[claim.runId].stateVersion == loaded.version
    ensures var e := Effect(d, FinishOp(claim, loaded, pending, Succeeded, checkpoint), now);
            && claim.runId in e.runs
            && Holds(e, claim.runId) == Loaded(MergePatch(d.runs[claim.runId].state, Obj(pending)), loaded.version + 1)
  {
  }

  lemma CommitsStayOk(s: Sys, a: Act)
    requires Sound(s) && AllForward(s.world.data, StoreAfter(s, a).data)
    ensures forall c :: c in Do(s, a).commits ==> CommitOk(StoreAfter(s, a).data, c)
    ensures CommitsRise(Do(s, a).commits)
  {
    var d, e, commits := s.world.data, StoreAfter(s, a).data, Do(s, a).commits;
    forall c | c in s.commits ensures CommitOk(e, c) {
      assert CommitOk(d, c) && Forward(d, e, c.runId);
    }
    if MakesCommit(s, a) {
      NewCommitIsOk(s, a);
      var last := commits[|s.commits|];
      forall i | 0 <= i < |s.commits| && s.commits[i].runId == last.runId
        ensures s.commits[i].loaded.version < last.loaded.version
      {
        assert s.commits[i] in s.commits && CommitOk(d, s.commits[i]);
      }
    }
  }

  lemma DoKeepsSound(s: Sys, a: Act)
    requires Inv(s.world) && Sound(s) && Enabled(s, a)
    ensures Inv(Do(s, a).world) && Sound(Do(s, a))
  {
    StoreMovesForward(s, a);
    var e := StoreAfter(s, a).data;
    forall w | w in Do(s, a).workers ensures WorkerOk(e, w) {
      WorkersStayOk(s, a, e, w);
    }
    CommitsStayOk(s, a);
  }

  lemma {:induction false} RunsKeepSound(s: Sys, acts: seq<Act>)
    requires Inv(s.world) && Sound(s) && Legal(s, acts)
    ensures Inv(Play(s, acts).world) && Sound(Play(s, acts))
    decreases |acts|
  {
    if acts != [] {
      DoKeepsSound(s, acts[0]);
      RunsKeepSound(Do(s, acts[0]), acts[1..]);
    }
  }

  /** Whatever workers, crashes and other clients do in between, each successful `RunOnce` replaced exactly the
      state its agent was given by that state with the agent's patch merged in, and no two replaced the same
      version of a run: no update is lost and none is applied to a state its agent did not see. */
  lemma CommitsAreSerial(acts: seq<Act>)
    requires Legal(INITIAL, acts)
    ensures var s := Play(INITIAL, acts);
            && (forall c :: c in s.commits ==>
                  c.after.state == MergePatch(c.loaded.state, Obj(c.patch)) && c.after.version == c.loaded.version + 1)
            && CommitsRise(s.commits)
  {
    StartIsSound();
    RunsKeepSound(INITIAL, acts);
    var s := Play(INITIAL, acts);
    forall c | c in s.commits
      ensures c.after.state == MergePatch(c.loaded.state, Obj(c.patch)) && c.after.version == c.loaded.version + 1
    {
      assert CommitOk(s.world.data, c);
    }
  }

  lemma StartIsSound()
    ensures Inv(INITIAL.world) && Sound(INITIAL)
  {
  }

  // ---------------------------------------------------------------- one worker

  /** A worker begins with what it is given, or with the defaults for what is left empty: a lease of a minute. */
  lemma WorkersBegin(s: Sys, name: Id, role: string, filter: Id, leaseSeconds: nat)
    ensures var workers := Do(s, Begin(name, role, filter, leaseSeconds)).workers;
            && |workers| == |s.workers| + 1
            && var w := workers[|s.workers|];
               && w.pc == ToClaim && w.filter == filter
               && w.name == (if name != "" then name else "worker-go") && w.role == (if role != "" then role else "Agent")
               && w.leaseSeconds == if leaseSeconds > 0 then leaseSeconds else 60
  {
  }

  /** Its claim holds the step, under the worker's name, for exactly the seconds of its lease. */
  lemma ClaimIsLeased(s: Sys, i: nat, stepId: Id, token: Id, now: Time, later: Time)
    requires i < |s.workers| && s.workers[i].pc == ToClaim && AnyClaimable(s.world.data, s.workers[i].filter)
    requires Enabled(s, Advance(i, stepId, token, now))
    ensures var w, s' := s.workers[i], Do(s, Advance(i, stepId, token, now));
            && stepId in s.world.data.steps && stepId in s'.world.data.steps && s'.world.data.steps[stepId].owner == w.name
            && s'.workers[i].pc == ToLoad(Claim(s.world.data.steps[stepId].runId, stepId, token))
            && (LeaseCheck(s'.world.data, stepId, token, later).Ok? <==> later <= now + w.leaseSeconds * NANOS_PER_SECOND)
  {
    var w := s.workers[i];
    assert Claimable(s.world.data, w.filter, stepId);
    LeaseWindow(s.world, Call(ClaimStep(w.name, w.filter, stepId, token, w.leaseSeconds), now), later);
  }

  /** The start of an agent and each of its writes are logged, for its session and step, with its role and the version it
      works on. */
  lemma AgentIsLogged(s: Sys, a: Act)
    requires (a.Advance? && a.i < |s.workers| && s.workers[a.i].pc.ToStart?) || (a.Write? && a.i < |s.workers| && s.workers[a.i].pc.Working?)
    ensures var pc, role := s.workers[a.i].pc, s.workers[a.i].role;
            var log, before := Log(Do(s, a).world.data, pc.claim.runId), Log(s.world.data, pc.claim.runId);
            log == before + [Event(|before| + 1, a.now, Draft(Custom(if a.Write? then "state_patch_proposed" else "agent_started"),
                                                            pc.session, pc.claim.stepId, role, pc.loaded.version, NoPayload))]
  {
  }

  // ---------------------------------------------------------------- what is committed

  type Writes = seq<(string, Json)>

  function WriteOf(s: Sys, a: Act, i: nat): Writes
  {
    if a.Write? && a.i == i < |s.workers| && s.workers[i].pc.Working? then [(a.key, a.value)] else []
  }

  /** What worker `i` writes while its agent works, in order. */
  function WritesOf(s: Sys, acts: seq<Act>, i: nat): Writes
    decreases |acts|
  {
    if acts == [] then [] else WriteOf(s, acts[0], i) + WritesOf(Do(s, acts[0]), acts[1..], i)
  }

  function Latest(writes: Writes): Object
  {
    if writes == [] then map[]
    else
      var (key, value) := writes[|writes| - 1];
      Latest(writes[..|writes| - 1])[key := value]
  }

  predicate LastOfItsKey(writes: Writes, j: nat)
    requires j < |writes|
  {
    forall l :: j < l < |writes| ==> writes[l].0 != writes[j].0
  }

  /** The keys written and no others, each with the value written to it last. */
  lemma {:induction false} LatestIsLast(writes: Writes)
    ensures Latest(writes).Keys == set j | 0 <= j < |writes| :: writes[j].0
    ensures forall j :: 0 <= j < |writes| && LastOfItsKey(writes, j) ==> Latest(writes)[writes[j].0] == writes[j].1
  {
    if writes != [] {
      var init, last := writes[..|writes| - 1], writes[|writes| - 1];
      LatestIsLast(init);
      assert writes == init + [last];
      forall j | 0 <= j < |init| && LastOfItsKey(writes, j) ensures init[j].0 != last.0 && LastOfItsKey(init, j) {
        assert writes[|init|].0 != writes[j].0;
      }
    }
  }

  predicate NotYetWorking(pc: Pc) { pc.ToClaim? || pc.ToLoad? || pc.ToStart? }

  /** A worker has written `past` since its agent started, and that is what it would commit. */
  ghost predicate Pends(s: Sys, i: nat, past: Writes)
  {
    && (i >= |s.workers| || NotYetWorking(s.workers[i].pc) ==> past == [])
    && (i < |s.workers| && s.workers[i].pc.Working? ==> s.workers[i].pc.pending == Latest(past))
  }

  /** If it has committed, that is what it committed, and it is no longer at work. */
  ghost predicate Committed(s: Sys, i: nat, past: Writes)
  {
    forall c :: c in s.commits && c.worker == i ==>
      c.patch == Latest(past) && i < |s.workers| && (s.workers[i].pc.Returned? || s.workers[i].pc.Crashed?)
  }

  ghost predicate Wrote(s: Sys, i: nat, past: Writes) { Pends(s, i, past) && Committed(s, i, past) }

  lemma LatestOneMore(writes: Writes, key: string, value: Json)
    ensures Latest(writes + [(key, value)]) == Latest(writes)[key := value]
  {
    assert (writes + [(key, value)])[..|writes|] == writes;
  }

  lemma DoKeepsPends(s: Sys, a: Act, i: nat, past: Writes)
    requires Pends(s, i, past)
    ensures Pends(Do(s, a), i, past + WriteOf(s, a, i))
  {
    assert past + [] == past;
    if a.Write? {
      LatestOneMore(past, a.key, a.value);
    }
  }

  lemma DoKeepsCommitted(s: Sys, a: Act, i: nat, past: Writes)
    requires Pends(s, i, past) && Committed(s, i, past)
    ensures Committed(Do(s, a), i, past + WriteOf(s, a, i))
  {
    assert past + [] == past;
  }

  lemma DoKeepsWrote(s: Sys, a: Act, i: nat, past: Writes)
    requires Wrote(s, i, past)
    ensures Wrote(Do(s, a), i, past + WriteOf(s, a, i))
  {
    DoKeepsPends(s, a, i, past);
    DoKeepsCommitted(s, a, i, past);
  }

  lemma {:induction false} RunsKeepWrote(s: Sys, acts: seq<Act>, i: nat, past: Writes)
    requires Wrote(s, i, past)
    ensures Wrote(Play(s, acts), i, past + WritesOf(s, acts, i))
    decreases |acts|
  {
    if acts == [] {
      assert past + [] == past;
    } else {
      var now, rest := WriteOf(s, acts[0], i), WritesOf(Do(s, acts[0]), acts[1..], i);
      DoKeepsWrote(s, acts[0], i, past);
      RunsKeepWrote(Do(s, acts[0]), acts[1..], i, past + now);
      Regroup(past, now, rest);
    }
  }

  lemma Regroup(a: Writes, b: Writes, c: Writes)
    ensures a + b + c == a + (b + c)
  {
  }

  /** Over every run: a commit carries exactly what its own worker wrote between the start of its agent and its return:
      those keys and no others, each with the value written to it last. */
  lemma CommitsCarryTheWrites(acts: seq<Act>, c: Commitment)
    requires c in Play(INITIAL, acts).commits
    ensures var writes := WritesOf(INITIAL, acts, c.worker);
            && c.patch.Keys == (set j | 0 <= j < |writes| :: writes[j].0)
            && forall j :: 0 <= j < |writes| && LastOfItsKey(writes, j) ==> c.patch[writes[j].0] == writes[j].1
  {
    RunsKeepWrote(INITIAL, acts, c.worker, []);
    assert [] + WritesOf(INITIAL, acts, c.worker) == WritesOf(INITIAL, acts, c.worker);
    LatestIsLast(WritesOf(INITIAL, acts, c.worker));
  }

  /** So a value written last to its key is in the state the commit leaves, if it is not an object; a null written last
      removes the key; and a key not written keeps what was loaded. */
  lemma WrittenValuesAreCommitted(acts: seq<Act>, c: Commitment, j: nat)
    requires Legal(INITIAL, acts) && c in Play(INITIAL, acts).commits
    ensures var writes := WritesOf(INITIAL, acts, c.worker);
            && (j < |writes| && LastOfItsKey(writes, j) && writes[j].1.Null? ==> writes[j].0 !in c.after.state)
            && (j < |writes| && LastOfItsKey(writes, j) && !writes[j].1.Null? && !writes[j].1.Obj? ==>
                  writes[j].0 in c.after.state && c.after.state[writes[j].0] == writes[j].1)
            && (forall k :: (forall l :: 0 <= l < |writes| ==> writes[l].0 != k) ==>
                  (k in c.after.state <==> k in c.loaded.state) && (k in c.loaded.state ==> c.after.state[k] == c.loaded.state[k]))
  {
    CommitsCarryTheWrites(acts, c);
    CommitsAreSerial(acts);
  }

  ghost predicate CommittedBy(s: Sys, i: nat) { exists c :: c in s.commits && c.worker == i }

  ghost predicate Reports(s: Sys, i: nat)
  {
    && (CommittedBy(s, i) ==> i < |s.workers| && (s.workers[i].pc == Returned(true) || s.workers[i].pc.Crashed?))
    && (i < |s.workers| && s.workers[i].pc == Returned(true) ==> CommittedBy(s, i))
  }

  lemma DoKeepsReports(s: Sys, a: Act, i: nat)
    requires Reports(s, i)
    ensures Reports(Do(s, a), i)
  {
    forall c | c in s.commits ensures c in Do(s, a).commits {}
    if MakesCommit(s, a) {
      assert Do(s, a).commits[|s.commits|] in Do(s, a).commits;
    }
  }

  lemma {:induction false} RunsKeepReports(s: Sys, acts: seq<Act>, i: nat)
    requires Reports(s, i)
    ensures Reports(Play(s, acts), i)
    decreases |acts|
  {
    if acts != [] {
      DoKeepsReports(s, acts[0], i);
      RunsKeepReports(Do(s, acts[0]), acts[1..], i);
    }
  }

  /** `RunOnce` reports success exactly for the workers that committed. */
  lemma SuccessIsCommitted(acts: seq<Act>, i: nat)
    requires i < |Play(INITIAL, acts).workers| && Play(INITIAL, acts).workers[i].pc.Returned?
    ensures Play(INITIAL, acts).workers[i].pc.committed <==> exists c :: c in Play(INITIAL, acts).commits && c.worker == i
  {
    RunsKeepReports(INITIAL, acts, i);
  }

  /** What the agent's return does to its step. A success completes the step on the next version; an approval still
      needed leaves it waiting and unclaimable; a retryable error makes it claimable again; any other error fails it. */
  lemma ReturnSettlesTheStep(s: Sys, i: nat, outcome: AgentOutcome, checkpoint: string, now: Time)
    requires i < |s.workers| && s.workers[i].pc.Working? && s.workers[i].pc.claim.stepId in s.world.data.steps
    ensures var Working(claim, _, loaded, _) := s.workers[i].pc;
            var before, after := s.world.data, Do(s, Finish(i, outcome, checkpoint, now)).world.data;
            && claim.stepId in after.steps
            && match outcome
               case Succeeded =>
                 if CommitCheck(before, claim.runId, claim.stepId, claim.token, loaded.version, now).Ok?
                 then after.steps[claim.stepId].status == Completed && after.steps[claim.stepId].stateVersion == loaded.version + 1
                 else after == before
               case NeedsApproval(message) =>
                 after.steps[claim.stepId].status == WaitingHuman && after.steps[claim.stepId].lastError == message
               case Retryable(message) =>
                 Claimable(after, "", claim.stepId) && after.steps[claim.stepId].lastError == message
               case Broken(errorType, message) =>
                 && after.steps[claim.stepId].status == Failed
                 && after.steps[claim.stepId].lastErrorType == errorType && after.steps[claim.stepId].lastError == message
  {
  }
}
