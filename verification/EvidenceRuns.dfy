/** Guarantees over whole runs of the evidence store: nothing dropped, nothing reordered, batching irrelevant. */
module EvidenceRuns {
  import opened Text
  import opened Rows
  import opened Evidence
  import opened EvidenceInvariant
  import opened EvidenceRetention

  datatype Action = Ingest(input: Input) | Project(limit: nat) | Prune(keepDays: nat)

  function Do(c: Codec, t: Tables, a: Action): Tables
    requires Lawful(c)
  {
    match a
    case Ingest(input) => EnqueueEffect(c, t, input)
    case Project(limit) => ProjectEffect(c, t, limit)
    case Prune(keepDays) => PruneEffect(t, keepDays)
  }

  function Run(c: Codec, t: Tables, actions: seq<Action>): Tables
    requires Lawful(c)
    decreases |actions|
  {
    if actions == [] then t else Run(c, Do(c, t, actions[0]), actions[1..])
  }

  lemma DoKeepsConsistent(c: Codec, t: Tables, a: Action)
    requires Lawful(c) && Consistent(c, t)
    ensures Consistent(c, Do(c, t, a))
  {
    match a
    case Ingest(input) => EnqueueKeepsConsistent(c, t, input);
    case Project(limit) => ProjectNKeepsConsistent(c, t, limit);
    case Prune(keepDays) => PruneKeepsConsistent(c, t, keepDays);
  }

  lemma {:induction false} RunKeepsConsistent(c: Codec, t: Tables, actions: seq<Action>)
    requires Lawful(c) && Consistent(c, t)
    ensures Consistent(c, Run(c, t, actions))
    decreases |actions|
  {
    if actions != [] {
      DoKeepsConsistent(c, t, actions[0]);
      RunKeepsConsistent(c, Do(c, t, actions[0]), actions[1..]);
    }
  }

  lemma EmptyIsConsistent(c: Codec)
    ensures Consistent(c, EMPTY)
  {
  }

  /** In every reachable store, queue, runs, steps and events agree on the owners, ids occur once, and the
      step index is what the events alone give. */
  lemma ReachableIsConsistent(c: Codec, actions: seq<Action>)
    requires Lawful(c)
    ensures Consistent(c, Run(c, EMPTY, actions))
  {
    EmptyIsConsistent(c);
    RunKeepsConsistent(c, EMPTY, actions);
  }

  // ---------------------------------------------------------------- exactly once, in order

  /** Row `e` is queued event `q`, projected. */
  predicate Carries(e: EventRow, q: Queued)
  {
    e.about == q.about && e.payloadRef == q.payloadJson && e.eventDay == q.eventDay
  }

  ghost predicate Moved(t: Tables, t': Tables, k: nat)
  {
    && k <= |t.queue| && t'.queue == t.queue[k..]
    && |t'.events| == |t.events| + k && t'.events[..|t.events|] == t.events
    && forall i :: 0 <= i < k ==> Carries(t'.events[|t.events| + i], t.queue[i])
  }

  function Min(a: nat, b: nat): nat { if a < b then a else b }

  lemma OneMore(c: Codec, t: Tables, m: Tables, k: nat)
    requires Lawful(c) && Consistent(c, m) && Moved(t, m, k) && k < |t.queue|
    ensures Moved(t, ProjectOne(c, m), k + 1) && Judge(c, m, m.queue[0]).Projected?
  {
    QueuedIsProjected(c, m);
    var m', q := ProjectOne(c, m), m.queue[0];
    assert q == t.queue[k] && m'.queue == t.queue[k + 1..];
    assert m'.events == m.events + [RowFor(c, m, q)];
    forall i | 0 <= i < k + 1 ensures Carries(m'.events[|t.events| + i], t.queue[i]) {
      assert i < k ==> m'.events[|t.events| + i] == m.events[|t.events| + i];
    }
  }

  lemma TurnMoves(c: Codec, t: Tables, m: Tables, k: nat)
    requires Lawful(c) && Consistent(c, m) && Moved(t, m, Min(k, |t.queue|))
    ensures Consistent(c, Turn(c)(m)) && Moved(t, Turn(c)(m), Min(k + 1, |t.queue|))
  {
    TurnKeepsConsistent(c, m);
    if k < |t.queue| {
      OneMore(c, t, m, k);
    }
  }

  lemma NothingMovedYet(t: Tables)
    ensures Moved(t, t, Min(0, |t.queue|))
  {
    assert t.queue[0..] == t.queue && t.events[..|t.events|] == t.events;
  }

  lemma BatchMoves(c: Codec, t: Tables, n: nat)
    requires Lawful(c) && Consistent(c, t)
    ensures Moved(t, ProjectN(c, t, n), Min(n, |t.queue|))
  {
    var holds := (k: nat, m: Tables) => Consistent(c, m) && Moved(t, m, Min(k, |t.queue|));
    forall k: nat, m | holds(k, m) ensures holds(k + 1, Turn(c)(m)) {
      TurnMoves(c, t, m, k);
    }
    NothingMovedYet(t);
    IterateKeeps(Turn(c), t, n, holds);
  }

  lemma VerdictIsProjected(c: Codec, t: Tables, m: Tables, k: nat)
    requires Lawful(c) && Consistent(c, t) && m == ProjectN(c, t, k) && k < |t.queue|
    ensures m.queue != [] && Judge(c, m, m.queue[0]).Projected?
  {
    BatchMoves(c, t, k);
    ProjectNKeepsConsistent(c, t, k);
    OneMore(c, t, m, k);
  }

  /** Turn `k` of a batch projects an event, unless the queue has run dry by then. */
  predicate TurnProjects(c: Codec, t: Tables, k: nat)
    requires Lawful(c)
  {
    var m := ProjectN(c, t, k);
    if k < |t.queue| then m.queue != [] && Judge(c, m, m.queue[0]).Projected? else m.queue == []
  }

  lemma {:induction false} ReceiptCounts(c: Codec, t: Tables, n: nat)
    requires Lawful(c) && forall k :: 0 <= k < n ==> TurnProjects(c, t, k)
    ensures var k := Min(n, |t.queue|); ReceiptOf(c, t, n) == Receipt(k, k, 0)
  {
    if n > 0 {
      ReceiptCounts(c, t, n - 1);
      assert TurnProjects(c, t, n - 1);
    }
  }

  lemma BatchCounts(c: Codec, t: Tables, n: nat)
    requires Lawful(c) && Consistent(c, t)
    ensures var k := Min(n, |t.queue|); ReceiptOf(c, t, n) == Receipt(k, k, 0)
  {
    forall k | 0 <= k < n ensures TurnProjects(c, t, k) {
      if k < |t.queue| {
        VerdictIsProjected(c, t, ProjectN(c, t, k), k);
      } else {
        BatchMoves(c, t, k);
      }
    }
    ReceiptCounts(c, t, n);
  }

  /** No accepted event is dropped: in a store filled through `enqueue`, a batch takes exactly the oldest
      events, projects each once in queue order, and reports just that. */
  lemma NothingIsDropped(c: Codec, actions: seq<Action>, limit: nat)
    requires Lawful(c) && 0 < limit <= MAX_I64
    ensures var t := Run(c, EMPTY, actions);
            var k := Min(limit, |t.queue|);
            ProjectResult(c, t, limit) == Ok(Receipt(k, k, 0)) && Moved(t, ProjectEffect(c, t, limit), k)
  {
    ReachableIsConsistent(c, actions);
    BatchMoves(c, Run(c, EMPTY, actions), limit);
    BatchCounts(c, Run(c, EMPTY, actions), limit);
  }

  // ---------------------------------------------------------------- batches

  /** For all tables: projecting `a` events and then `b` gives the tables of projecting `a + b`. */
  lemma BatchesAdd(c: Codec, t: Tables, a: nat, b: nat)
    requires Lawful(c)
    ensures ProjectN(c, t, a + b) == ProjectN(c, ProjectN(c, t, a), b)
  {
    IterateAdds(Turn(c), t, a, b);
  }

  function Drain(c: Codec, t: Tables): Tables
    requires Lawful(c)
  {
    ProjectN(c, t, |t.queue|)
  }

  lemma FirstCons<T(!new)>(q: T, rest: seq<T>, p: T -> bool)
    ensures First([q] + rest, p) == if p(q) then Some(q) else First(rest, p)
  {
    FilterCons(q, rest, p);
  }

  lemma {:induction false} FilterCons<T(!new)>(q: T, rest: seq<T>, p: T -> bool)
    ensures Filter([q] + rest, p) == (if p(q) then [q] else []) + Filter(rest, p)
  {
    if rest == [] {
      assert ([q] + rest)[..0] == [];
    } else {
      var init, last := rest[..|rest| - 1], rest[|rest| - 1];
      FilterCons(q, init, p);
      assert [q] + rest == ([q] + init) + [last];
      FilterSnoc([q] + init, last, p);
    }
  }

  lemma FirstSnoc<T(!new)>(rows: seq<T>, x: T, p: T -> bool)
    ensures First(rows + [x], p) == if First(rows, p).Some? then First(rows, p) else if p(x) then Some(x) else None
  {
    FilterSnoc(rows, x, p);
  }

  lemma RunSessionUnmoved(c: Codec, t: Tables, runId: string)
    requires Lawful(c) && t.queue != [] && Judge(c, t, t.queue[0]).Projected?
    ensures RunSession(ProjectOne(c, t), runId) == RunSession(t, runId)
  {
    assert t.queue == [t.queue[0]] + t.queue[1..];
    FirstCons(t.queue[0], t.queue[1..], OnRun(runId));
  }

  lemma StepOwnerUnmoved(c: Codec, t: Tables, stepId: string)
    requires Lawful(c) && t.queue != [] && Judge(c, t, t.queue[0]).Projected?
    ensures StepOwner(ProjectOne(c, t), stepId) == StepOwner(t, stepId)
  {
    assert t.queue == [t.queue[0]] + t.queue[1..];
    FirstCons(t.queue[0], t.queue[1..], OnStep(stepId));
  }

  lemma StoredUnmoved(c: Codec, t: Tables, eventId: string)
    requires Lawful(c) && Consistent(c, t) && t.queue != []
    ensures Stored(ProjectOne(c, t), eventId) == Stored(t, eventId)
  {
    QueuedIsProjected(c, t);
    var q, rest := t.queue[0], t.queue[1..];
    assert t.queue == [q] + rest;
    FirstCons(q, rest, HasId(eventId));
    FirstSnoc(t.events, RowFor(c, t, q), RowHasId(eventId));
    if eventId == q.about.eventId {
      assert q in t.queue;
      NoneFound(rest, HasId(eventId));
      NoneFound(t.events, RowHasId(eventId));
    }
  }

  predicate SameAnswers(t: Tables, t': Tables, a: Facts)
  {
    && RunSession(t', a.runId) == RunSession(t, a.runId)
    && (a.stepId.Some? ==> StepOwner(t', a.stepId.value) == StepOwner(t, a.stepId.value))
    && Stored(t', a.eventId) == Stored(t, a.eventId)
  }

  lemma SameAnswersSameResult(c: Codec, t: Tables, t': Tables, input: Input)
    requires SameAnswers(t, t', input.about)
    ensures EnqueueResult(c, t', input) == EnqueueResult(c, t, input)
  {
  }

  lemma ProjectIgnoresTheRest(c: Codec, t: Tables, q: Queued)
    requires Lawful(c) && t.queue != []
    ensures ProjectOne(c, t.(queue := t.queue + [q])) == ProjectOne(c, t).(queue := ProjectOne(c, t).queue + [q])
  {
    var t' := t.(queue := t.queue + [q]);
    assert t'.queue[0] == t.queue[0] && t'.queue[1..] == t.queue[1..] + [q];
  }

  /** Enqueueing neither sees nor disturbs projection: same answer, and the two commute. */
  lemma EnqueueCommutesWithOne(c: Codec, t: Tables, input: Input)
    requires Lawful(c) && Consistent(c, t) && t.queue != []
    ensures EnqueueResult(c, ProjectOne(c, t), input) == EnqueueResult(c, t, input)
    ensures EnqueueEffect(c, ProjectOne(c, t), input) == ProjectOne(c, EnqueueEffect(c, t, input))
    ensures EnqueueEffect(c, t, input).queue != []
  {
    QueuedIsProjected(c, t);
    RunSessionUnmoved(c, t, input.about.runId);
    if input.about.stepId.Some? {
      StepOwnerUnmoved(c, t, input.about.stepId.value);
    }
    StoredUnmoved(c, t, input.about.eventId);
    SameAnswersSameResult(c, t, ProjectOne(c, t), input);
    EffectFollowsResult(c, t, ProjectOne(c, t), input);
  }

  lemma EffectFollowsResult(c: Codec, t: Tables, m: Tables, input: Input)
    requires Lawful(c) && t.queue != [] && m == ProjectOne(c, t) && EnqueueResult(c, m, input) == EnqueueResult(c, t, input)
    ensures EnqueueEffect(c, m, input) == ProjectOne(c, EnqueueEffect(c, t, input))
  {
    if EnqueueResult(c, t, input) == Ok(true) {
      ProjectIgnoresTheRest(c, t, Queued(input.about, Day(input.about.occurredAtMs), c.render(input.payload).value));
    }
  }

  ghost predicate Commutes(c: Codec, t: Tables, input: Input, n: nat)
    requires Lawful(c)
  {
    && EnqueueResult(c, ProjectN(c, t, n), input) == EnqueueResult(c, t, input)
    && EnqueueEffect(c, ProjectN(c, t, n), input) == ProjectN(c, EnqueueEffect(c, t, input), n)
  }

  lemma CommutesOnce(c: Codec, t: Tables, m: Tables, u: Tables, input: Input)
    requires Lawful(c) && Consistent(c, m) && m.queue != []
    requires EnqueueResult(c, m, input) == EnqueueResult(c, t, input) && EnqueueEffect(c, m, input) == u
    ensures EnqueueResult(c, Turn(c)(m), input) == EnqueueResult(c, t, input)
    ensures EnqueueEffect(c, Turn(c)(m), input) == Turn(c)(u)
  {
    EnqueueCommutesWithOne(c, m, input);
  }

  lemma {:induction false} EnqueueCommutes(c: Codec, t: Tables, input: Input, n: nat)
    requires Lawful(c) && Consistent(c, t) && n <= |t.queue|
    ensures Commutes(c, t, input, n)
  {
    if n > 0 {
      EnqueueCommutes(c, t, input, n - 1);
      BatchMoves(c, t, n - 1);
      ProjectNKeepsConsistent(c, t, n - 1);
      CommutesOnce(c, t, ProjectN(c, t, n - 1), ProjectN(c, EnqueueEffect(c, t, input), n - 1), input);
    }
  }

  lemma EnqueueAddsOne(c: Codec, t: Tables, input: Input)
    ensures |EnqueueEffect(c, t, input).queue| == |t.queue| + if EnqueueResult(c, t, input) == Ok(true) then 1 else 0
  {
  }

  lemma DrainOfCommuting(c: Codec, t: Tables, input: Input)
    requires Lawful(c) && Commutes(c, t, input, |t.queue|) && Drain(c, t).queue == []
    ensures Drain(c, EnqueueEffect(c, t, input)) == Drain(c, EnqueueEffect(c, Drain(c, t), input))
  {
    var n, t', d := |t.queue|, EnqueueEffect(c, t, input), Drain(c, t);
    EnqueueAddsOne(c, t, input);
    EnqueueAddsOne(c, d, input);
    BatchesAdd(c, t', n, |t'.queue| - n);
  }

  lemma DrainAfterEnqueue(c: Codec, t: Tables, input: Input)
    requires Lawful(c) && Consistent(c, t)
    ensures EnqueueResult(c, Drain(c, t), input) == EnqueueResult(c, t, input)
    ensures Drain(c, EnqueueEffect(c, t, input)) == Drain(c, EnqueueEffect(c, Drain(c, t), input))
  {
    EnqueueCommutes(c, t, input, |t.queue|);
    BatchMoves(c, t, |t.queue|);
    DrainOfCommuting(c, t, input);
  }

  lemma DrainAfterProject(c: Codec, t: Tables, limit: nat)
    requires Lawful(c) && Consistent(c, t)
    ensures Drain(c, ProjectEffect(c, t, limit)) == Drain(c, t)
  {
    if 0 < limit <= MAX_I64 {
      BatchMoves(c, t, limit);
      BatchMoves(c, t, |t.queue|);
      if limit <= |t.queue| {
        BatchesAdd(c, t, limit, |t.queue| - limit);
      } else {
        OverlongBatch(c, t, limit);
      }
    }
  }

  lemma OverlongBatch(c: Codec, t: Tables, limit: nat)
    requires Lawful(c) && |t.queue| <= limit && Drain(c, t).queue == []
    ensures ProjectN(c, t, limit) == Drain(c, t)
  {
    BatchesAdd(c, t, |t.queue|, limit - |t.queue|);
    DryBatch(c, Drain(c, t), limit - |t.queue|);
  }

  lemma {:induction false} DryBatch(c: Codec, t: Tables, n: nat)
    requires Lawful(c) && t.queue == []
    ensures ProjectN(c, t, n) == t
  {
    if n > 0 {
      DryBatch(c, t, n - 1);
    }
  }

  function Ingests(actions: seq<Action>): seq<Action>
    decreases |actions|
  {
    if actions == [] then []
    else (if actions[0].Ingest? then [actions[0]] else []) + Ingests(actions[1..])
  }

  /** Without pruning, the drained tables depend only on what was enqueued and in which order: when and in
      which batches it was projected makes no difference. */
  lemma {:induction false} OnlyEnqueueOrderMatters(c: Codec, t: Tables, u: Tables, actions: seq<Action>)
    requires Lawful(c) && Consistent(c, t) && Consistent(c, u) && Drain(c, t) == Drain(c, u)
    requires forall a :: a in actions ==> !a.Prune?
    ensures Drain(c, Run(c, t, actions)) == Drain(c, Run(c, u, Ingests(actions)))
    decreases |actions|
  {
    if actions != [] {
      var a, rest := actions[0], actions[1..];
      assert a in actions;
      DoKeepsConsistent(c, t, a);
      if a.Ingest? {
        DoKeepsConsistent(c, u, a);
        DrainAfterEnqueue(c, t, a.input);
        DrainAfterEnqueue(c, u, a.input);
        assert Ingests(actions)[1..] == Ingests(rest);
        OnlyEnqueueOrderMatters(c, Do(c, t, a), Do(c, u, a), rest);
      } else {
        DrainAfterProject(c, t, a.limit);
        assert Ingests(actions) == Ingests(rest);
        OnlyEnqueueOrderMatters(c, Do(c, t, a), u, rest);
      }
    }
  }

  // ---------------------------------------------------------------- history and numbering

  function QueueFacts(queue: seq<Queued>): seq<Facts> { seq(|queue|, i requires 0 <= i < |queue| => queue[i].about) }

  /** Everything accepted and not pruned, oldest first: the projected events, then the queue. */
  function History(t: Tables): seq<Facts> { EventFacts(t.events) + QueueFacts(t.queue) }

  function AcceptedBy(c: Codec, t: Tables, a: Action): seq<Facts>
  {
    if a.Ingest? && EnqueueResult(c, t, a.input) == Ok(true) then [a.input.about] else []
  }

  /** The inputs `enqueue` answered with success to, in order. */
  function Accepted(c: Codec, t: Tables, actions: seq<Action>): seq<Facts>
    requires Lawful(c)
    decreases |actions|
  {
    if actions == [] then [] else AcceptedBy(c, t, actions[0]) + Accepted(c, Do(c, t, actions[0]), actions[1..])
  }

  lemma MovedKeepsHistory(t: Tables, t': Tables, k: nat)
    requires Moved(t, t', k)
    ensures History(t') == History(t)
  {
    forall i | 0 <= i < |History(t)| ensures History(t')[i] == History(t)[i] {
      if |t.events| <= i < |t'.events| {
        assert Carries(t'.events[|t.events| + (i - |t.events|)], t.queue[i - |t.events|]);
      } else if i < |t.events| {
        assert t'.events[i] == t'.events[..|t.events|][i];
      }
    }
  }

  lemma ActionExtendsHistory(c: Codec, t: Tables, a: Action)
    requires Lawful(c) && Consistent(c, t) && !a.Prune?
    ensures History(Do(c, t, a)) == History(t) + AcceptedBy(c, t, a)
  {
    if a.Project? {
      if 0 < a.limit <= MAX_I64 {
        BatchMoves(c, t, a.limit);
        MovedKeepsHistory(t, ProjectN(c, t, a.limit), Min(a.limit, |t.queue|));
      }
    } else if EnqueueResult(c, t, a.input) == Ok(true) {
      assert History(Do(c, t, a)) == History(t) + [a.input.about];
    }
  }

  /** Every action of the run adds just what it accepted to the history. */
  ghost predicate ExtendsThroughout(c: Codec, t: Tables, actions: seq<Action>)
    requires Lawful(c)
    decreases |actions|
  {
    actions == [] ||
    (History(Do(c, t, actions[0])) == History(t) + AcceptedBy(c, t, actions[0]) && ExtendsThroughout(c, Do(c, t, actions[0]), actions[1..]))
  }

  lemma {:induction false} ConsistentExtends(c: Codec, t: Tables, actions: seq<Action>)
    requires Lawful(c) && Consistent(c, t) && forall a :: a in actions ==> !a.Prune?
    ensures ExtendsThroughout(c, t, actions)
    decreases |actions|
  {
    if actions != [] {
      assert actions[0] in actions;
      DoKeepsConsistent(c, t, actions[0]);
      ActionExtendsHistory(c, t, actions[0]);
      ConsistentExtends(c, Do(c, t, actions[0]), actions[1..]);
    }
  }

  lemma {:induction false} ExtensionsAddUp(c: Codec, t: Tables, actions: seq<Action>)
    requires Lawful(c) && ExtendsThroughout(c, t, actions)
    ensures History(Run(c, t, actions)) == History(t) + Accepted(c, t, actions)
    decreases |actions|
  {
    if actions == [] {
      assert History(t) + [] == History(t);
    } else {
      ExtensionsAddUp(c, Do(c, t, actions[0]), actions[1..]);
      Regroup(History(t), AcceptedBy(c, t, actions[0]), Accepted(c, Do(c, t, actions[0]), actions[1..]));
    }
  }

  lemma Regroup(a: seq<Facts>, b: seq<Facts>, d: seq<Facts>)
    ensures (a + b) + d == a + (b + d)
  {
  }

  /** Without pruning the store holds exactly the accepted events, each once, in the order they came. */
  lemma HistoryIsWhatWasAccepted(c: Codec, t: Tables, actions: seq<Action>)
    requires Lawful(c) && Consistent(c, t) && forall a :: a in actions ==> !a.Prune?
    ensures History(Run(c, t, actions)) == History(t) + Accepted(c, t, actions)
  {
    ConsistentExtends(c, t, actions);
    ExtensionsAddUp(c, t, actions);
  }

  /** Each run's events are numbered 1, 2, ... in the order they were projected. */
  ghost predicate Gapless(t: Tables)
  {
    forall r, i :: 0 <= i < |RowsOf(t, r)| ==> RowsOf(t, r)[i].seqNo == i + 1
  }

  lemma {:induction false} MaxOfGapless(rows: seq<EventRow>)
    requires forall i :: 0 <= i < |rows| ==> rows[i].seqNo == i + 1
    ensures MaxSeq(rows) == |rows|
  {
    if rows != [] {
      MaxOfGapless(rows[..|rows| - 1]);
    }
  }

  lemma AppendedKeepsGapless(m: Tables, t: Tables, row: EventRow)
    requires Gapless(m) && t.events == m.events + [row] && row.seqNo == |RowsOf(m, row.about.runId)| + 1
    ensures Gapless(t)
  {
    forall r, i | 0 <= i < |RowsOf(t, r)| ensures RowsOf(t, r)[i].seqNo == i + 1 {
      FilterSnoc(m.events, row, InRun(r));
      assert RowsOf(t, r) == RowsOf(m, r) + if InRun(r)(row) then [row] else [];
    }
  }

  lemma TurnKeepsGapless(c: Codec, m: Tables, t: Tables)
    requires Lawful(c) && Gapless(m) && t == Turn(c)(m)
    ensures Gapless(t)
  {
    if m.queue != [] && Judge(c, m, m.queue[0]).Projected? {
      MaxOfGapless(RowsOf(m, m.queue[0].about.runId));
      AppendedKeepsGapless(m, t, RowFor(c, m, m.queue[0]));
    } else {
      assert forall r :: RowsOf(t, r) == RowsOf(m, r);
    }
  }

  lemma BatchKeepsGapless(c: Codec, t: Tables, n: nat)
    requires Lawful(c) && Gapless(t)
    ensures Gapless(ProjectN(c, t, n))
  {
    var kept := (k: nat, m: Tables) => Gapless(m);
    forall k: nat, m | kept(k, m) ensures kept(k + 1, Turn(c)(m)) {
      TurnKeepsGapless(c, m, Turn(c)(m));
    }
    IterateKeeps(Turn(c), t, n, kept);
  }

  lemma {:induction false} WithoutPruningNoGaps(c: Codec, t: Tables, actions: seq<Action>)
    requires Lawful(c) && Gapless(t) && forall a :: a in actions ==> !a.Prune?
    ensures Gapless(Run(c, t, actions))
    decreases |actions|
  {
    if actions != [] {
      var a := actions[0];
      assert a in actions;
      if a.Project? {
        BatchKeepsGapless(c, t, a.limit);
      } else {
        assert forall r :: RowsOf(Do(c, t, a), r) == RowsOf(t, r);
      }
      WithoutPruningNoGaps(c, Do(c, t, a), actions[1..]);
    }
  }

  /** The row of a run with these events: session and time of the first, time of the last, last terminal status. */
  predicate RunRowIs(runs: map<string, RunRow>, r: string, own: seq<Facts>)
  {
    if own == [] then r !in runs
    else r in runs && runs[r] == RunRow(own[0].sessionId, Or(LastRunStatus(own), "active"), "{}", own[0].occurredAtMs,
                                        own[|own| - 1].occurredAtMs)
  }

  ghost predicate RunRowOk(t: Tables, r: string) { RunRowIs(t.runs, r, EventFacts(RowsOf(t, r))) }

  lemma RunRowGrows(runs: map<string, RunRow>, r: string, own: seq<Facts>, a: Facts)
    requires RunRowIs(runs, r, own)
    ensures RunRowIs(TouchRuns(runs, a), r, if a.runId == r then own + [a] else own)
  {
    assert (own + [a])[..|own|] == own;
  }

  lemma TurnKeepsRunRow(c: Codec, m: Tables, t: Tables, r: string)
    requires Lawful(c) && RunRowOk(m, r) && t == Turn(c)(m)
    ensures RunRowOk(t, r)
  {
    if m.queue != [] && Judge(c, m, m.queue[0]).Projected? {
      ProjectedRunRow(m, t, RowFor(c, m, m.queue[0]), r);
    } else {
      assert RowsOf(t, r) == RowsOf(m, r);
    }
  }

  lemma ProjectedRunRow(m: Tables, t: Tables, row: EventRow, r: string)
    requires RunRowOk(m, r) && t.events == m.events + [row] && t.runs == TouchRuns(m.runs, row.about)
    ensures RunRowOk(t, r)
  {
    FilterSnoc(m.events, row, InRun(r));
    RunRowGrows(m.runs, r, EventFacts(RowsOf(m, r)), row.about);
    if InRun(r)(row) {
      assert EventFacts(RowsOf(t, r)) == EventFacts(RowsOf(m, r)) + [row.about];
    } else {
      assert RowsOf(t, r) == RowsOf(m, r);
    }
  }

  lemma BatchKeepsRunRow(c: Codec, t: Tables, n: nat, r: string)
    requires Lawful(c) && RunRowOk(t, r)
    ensures RunRowOk(ProjectN(c, t, n), r)
  {
    var kept := (k: nat, m: Tables) => RunRowOk(m, r);
    forall k: nat, m | kept(k, m) ensures kept(k + 1, Turn(c)(m)) {
      TurnKeepsRunRow(c, m, Turn(c)(m), r);
    }
    IterateKeeps(Turn(c), t, n, kept);
  }

  /** Without pruning each run's row is what its events alone give: session and time of the first, time of the last,
      and the last terminal status, or that it is active. */
  lemma {:induction false} RunRowIsRecomputed(c: Codec, t: Tables, actions: seq<Action>, r: string)
    requires Lawful(c) && RunRowOk(t, r) && forall a :: a in actions ==> !a.Prune?
    ensures RunRowOk(Run(c, t, actions), r)
    decreases |actions|
  {
    if actions != [] {
      var a := actions[0];
      assert a in actions;
      if a.Project? {
        BatchKeepsRunRow(c, t, a.limit, r);
      } else {
        assert RowsOf(Do(c, t, a), r) == RowsOf(t, r);
      }
      RunRowIsRecomputed(c, Do(c, t, a), actions[1..], r);
    }
  }

  /** From an empty store, whatever the batching: the drained tables are those of enqueueing everything first
      and projecting once, hold the accepted events in order, and number each run's events from 1. */
  lemma BatchingIsIrrelevant(c: Codec, actions: seq<Action>)
    requires Lawful(c) && forall a :: a in actions ==> !a.Prune?
    ensures var t := Drain(c, Run(c, EMPTY, actions));
            && t == Drain(c, Run(c, EMPTY, Ingests(actions)))
            && t.queue == [] && EventFacts(t.events) == Accepted(c, EMPTY, actions)
            && Gapless(t)
  {
    EmptyIsConsistent(c);
    OnlyEnqueueOrderMatters(c, EMPTY, EMPTY, actions);
    HistoryIsWhatWasAccepted(c, EMPTY, actions);
    RunKeepsConsistent(c, EMPTY, actions);
    var m := Run(c, EMPTY, actions);
    BatchMoves(c, m, |m.queue|);
    MovedKeepsHistory(m, Drain(c, m), |m.queue|);
    assert EventFacts(Drain(c, m).events) == History(Drain(c, m));
    assert History(EMPTY) == [];
    assert forall r :: RowsOf(EMPTY, r) == [];
    WithoutPruningNoGaps(c, EMPTY, actions);
    BatchKeepsGapless(c, m, |m.queue|);
  }
}
