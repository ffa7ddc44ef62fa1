/** Enqueueing an event again: recognised as long as the event is held, and accepted once more when it was pruned. */
module EvidenceRetries {
  import opened Json
  import opened Text
  import opened Rows
  import opened Evidence
  import opened EvidenceInvariant
  import opened EvidenceRetention
  import opened EvidenceRuns

  /** The event is in the store with just this content, queued or projected. */
  ghost predicate Kept(t: Tables, a: Facts, text: string)
  {
    Stored(t, a.eventId) == Some((a, text))
  }

  lemma AcceptedIsKept(c: Codec, t: Tables, input: Input)
    requires EnqueueResult(c, t, input) == Ok(true)
    ensures Kept(EnqueueEffect(c, t, input), input.about, c.render(input.payload).value)
  {
    var q := Queued(input.about, Day(input.about.occurredAtMs), c.render(input.payload).value);
    FirstSnoc(t.queue, q, HasId(input.about.eventId));
  }

  lemma EnqueueLeavesKept(c: Codec, t: Tables, input: Input, a: Facts, text: string)
    requires Kept(t, a, text)
    ensures Kept(EnqueueEffect(c, t, input), a, text)
  {
    if EnqueueResult(c, t, input) == Ok(true) {
      var q := Queued(input.about, Day(input.about.occurredAtMs), c.render(input.payload).value);
      FirstSnoc(t.queue, q, HasId(a.eventId));
      IdIsNew(t, input.about.eventId);
      FilterMembers(t.events, RowHasId(a.eventId));
    }
  }

  lemma TurnLeavesKept(c: Codec, t: Tables, a: Facts, text: string)
    requires Lawful(c) && Consistent(c, t) && Kept(t, a, text)
    ensures Kept(Turn(c)(t), a, text)
  {
    if t.queue != [] {
      StoredUnmoved(c, t, a.eventId);
    }
  }

  lemma BatchLeavesKept(c: Codec, t: Tables, n: nat, a: Facts, text: string)
    requires Lawful(c) && Consistent(c, t) && Kept(t, a, text)
    ensures Kept(ProjectN(c, t, n), a, text)
  {
    var holds := (k: nat, m: Tables) => Consistent(c, m) && Kept(m, a, text);
    forall k: nat, m | holds(k, m) ensures holds(k + 1, Turn(c)(m)) {
      TurnKeepsConsistent(c, m);
      TurnLeavesKept(c, m, a, text);
    }
    IterateKeeps(Turn(c), t, n, holds);
  }

  lemma KeptIsClaimed(t: Tables, a: Facts, text: string)
    requires Kept(t, a, text)
    ensures ClaimOf(a) in Claims(t)
  {
    FilterMembers(t.queue, HasId(a.eventId));
    FilterMembers(t.events, RowHasId(a.eventId));
    var q, e := Filter(t.queue, HasId(a.eventId)), Filter(t.events, RowHasId(a.eventId));
    if q != [] {
      assert q[0] in t.queue;
    } else {
      assert e[0] in t.events;
    }
  }

  /** Nobody disputes the owner of an event the store has held, in that store or one with fewer claims. */
  lemma OwnerAgrees(t: Tables, u: Tables, a: Facts)
    requires OneOwner(t) && ClaimOf(a) in Claims(t) && Claims(u) <= Claims(t)
    ensures OwnsRun(RunSession(u, a.runId), a)
    ensures a.stepId.Some? ==> OwnsStep(StepOwner(u, a.stepId.value), a)
  {
    if a.runId in u.runs {
      assert Claim(a.runId, u.runs[a.runId].sessionId, None) in Claims(u);
      assert Agree(ClaimOf(a), Claim(a.runId, u.runs[a.runId].sessionId, None));
    } else if RunSession(u, a.runId).Some? {
      FilterMembers(u.queue, OnRun(a.runId));
      assert Filter(u.queue, OnRun(a.runId))[0] in u.queue;
      assert Agree(ClaimOf(a), ClaimOf(Filter(u.queue, OnRun(a.runId))[0].about));
    }
    if a.stepId.Some? {
      StepOwnerAgrees(t, u, a, a.stepId.value);
    }
  }

  lemma StepOwnerAgrees(t: Tables, u: Tables, a: Facts, s: string)
    requires OneOwner(t) && ClaimOf(a) in Claims(t) && Claims(u) <= Claims(t) && a.stepId == Some(s)
    ensures OwnsStep(StepOwner(u, s), a)
  {
    if s in u.steps {
      assert Claim(u.steps[s].runId, u.steps[s].sessionId, Some(s)) in Claims(u);
      assert Agree(ClaimOf(a), Claim(u.steps[s].runId, u.steps[s].sessionId, Some(s)));
    } else if StepOwner(u, s).Some? {
      FilterMembers(u.queue, OnStep(s));
      assert Filter(u.queue, OnStep(s))[0] in u.queue;
      assert Agree(ClaimOf(a), ClaimOf(Filter(u.queue, OnStep(s))[0].about));
    }
  }

  /** An input `enqueue` does not refuse on its own account. */
  predicate Enqueueable(c: Codec, input: Input)
  {
    ValidEvent(input.about) && c.render(input.payload).Some? && ByteLen(c.render(input.payload).value) <= MAX_PAYLOAD_BYTES
  }

  lemma KeptIsRecognised(c: Codec, t: Tables, input: Input)
    requires Consistent(c, t) && Enqueueable(c, input) && Kept(t, input.about, c.render(input.payload).value)
    ensures EnqueueResult(c, t, input) == Ok(false)
    ensures forall other: Input :: other.about.eventId == input.about.eventId && EnqueueResult(c, t, other).Ok? ==>
              other.about == input.about && c.render(other.payload) == c.render(input.payload)
  {
    KeptIsClaimed(t, input.about, c.render(input.payload).value);
    OwnerAgrees(t, t, input.about);
  }

  lemma {:induction false} RunLeavesKept(c: Codec, t: Tables, actions: seq<Action>, a: Facts, text: string)
    requires Lawful(c) && Consistent(c, t) && Kept(t, a, text) && forall x :: x in actions ==> !x.Prune?
    ensures Kept(Run(c, t, actions), a, text)
    decreases |actions|
  {
    if actions != [] {
      var x := actions[0];
      assert x in actions;
      DoKeepsConsistent(c, t, x);
      if x.Ingest? {
        EnqueueLeavesKept(c, t, x.input, a, text);
      } else {
        BatchLeavesKept(c, t, x.limit, a, text);
      }
      RunLeavesKept(c, Do(c, t, x), actions[1..], a, text);
    }
  }

  /** A retry is recognised: once an event is accepted, enqueueing it again is answered `false` for as long as
      nothing is pruned, and any other content under its id is refused. */
  lemma RetryIsRecognised(c: Codec, t: Tables, input: Input, actions: seq<Action>)
    requires Lawful(c) && Consistent(c, t) && EnqueueResult(c, t, input) == Ok(true)
    requires forall x :: x in actions ==> !x.Prune?
    ensures var later := Run(c, EnqueueEffect(c, t, input), actions);
            && EnqueueResult(c, later, input) == Ok(false)
            && forall other: Input :: other.about.eventId == input.about.eventId && EnqueueResult(c, later, other).Ok? ==>
                 other.about == input.about && c.render(other.payload) == c.render(input.payload)
  {
    var t' := EnqueueEffect(c, t, input);
    AcceptedIsKept(c, t, input);
    EnqueueKeepsConsistent(c, t, input);
    RunLeavesKept(c, t', actions, input.about, c.render(input.payload).value);
    RunKeepsConsistent(c, t', actions);
    KeptIsRecognised(c, Run(c, t', actions), input);
  }

  // ---------------------------------------------------------------- across prunes

  lemma PruneClaims(t: Tables, keepDays: nat)
    ensures Claims(PruneEffect(t, keepDays)) <= Claims(t)
  {
    if 0 < keepDays < |Days(t.events)| {
      KeptIsFiltered(t, Days(t.events)[keepDays - 1]);
    }
  }

  /** With one row for an id, and none queued, that row is what the store has under the id. */
  lemma RowIsStored(t: Tables, e: EventRow)
    requires IdsDistinct(t) && e in t.events
    ensures Stored(t, e.about.eventId) == Some((e.about, e.payloadRef))
  {
    NoneFound(t.queue, HasId(e.about.eventId));
    FilterMembers(t.events, RowHasId(e.about.eventId));
    var found := Filter(t.events, RowHasId(e.about.eventId));
    assert e in found && found[0] in t.events && RowHasId(e.about.eventId)(found[0]);
  }

  lemma NothingStored(t: Tables, u: Tables, e: EventRow)
    requires IdsDistinct(t) && e in t.events && u.queue == t.queue && e !in u.events && forall x :: x in u.events ==> x in t.events
    ensures Stored(u, e.about.eventId) == None
  {
    NoneFound(u.queue, HasId(e.about.eventId));
    forall x | x in u.events ensures !RowHasId(e.about.eventId)(x) {
      assert x in t.events && x != e;
    }
    NoneFound(u.events, RowHasId(e.about.eventId));
  }

  lemma PruneRemovesOnly(t: Tables, keepDays: nat)
    ensures PruneEffect(t, keepDays).queue == t.queue
    ensures forall x :: x in PruneEffect(t, keepDays).events ==> x in t.events
  {
    if 0 < keepDays < |Days(t.events)| {
      KeptIsFiltered(t, Days(t.events)[keepDays - 1]);
    }
  }

  /** A prune decides the retry: an event that survives it is still recognised, one that does not is accepted as if
      it had never been seen. */
  lemma PruneDecidesRetry(c: Codec, t: Tables, keepDays: nat, e: EventRow, input: Input)
    requires Consistent(c, t) && keepDays > 0 && e in t.events && Enqueueable(c, input)
    requires input.about == e.about && c.render(input.payload) == Some(e.payloadRef)
    ensures EnqueueResult(c, PruneEffect(t, keepDays), input) == if Survives(t, keepDays, e) then Ok(false) else Ok(true)
  {
    var u := PruneEffect(t, keepDays);
    PruneKeepsConsistent(c, t, keepDays);
    PruneKeepsExactlySurvivors(t, keepDays, e);
    PruneRemovesOnly(t, keepDays);
    PruneClaims(t, keepDays);
    assert ClaimOf(e.about) in Claims(t);
    OwnerAgrees(t, u, e.about);
    if e in u.events {
      RowIsStored(u, e);
    } else {
      NothingStored(t, u, e);
    }
  }

  /** The prunes of a run leave the event with this id: at each of them it is still queued, or its row survives. */
  ghost predicate Spared(t: Tables, keepDays: nat, eventId: string)
  {
    keepDays > 0 ==> forall e :: e in t.events && e.about.eventId == eventId ==> Survives(t, keepDays, e)
  }

  ghost predicate SparedThroughout(c: Codec, t: Tables, actions: seq<Action>, eventId: string)
    requires Lawful(c)
    decreases |actions|
  {
    actions == [] ||
    ((actions[0].Prune? ==> Spared(t, actions[0].keepDays, eventId)) && SparedThroughout(c, Do(c, t, actions[0]), actions[1..], eventId))
  }

  /** A retry at any moment of the run would be answered `false`. */
  ghost predicate RecognisedThroughout(c: Codec, t: Tables, actions: seq<Action>, input: Input)
    requires Lawful(c)
    decreases |actions|
  {
    EnqueueResult(c, t, input) == Ok(false) && (actions != [] ==> RecognisedThroughout(c, Do(c, t, actions[0]), actions[1..], input))
  }

  lemma StoredRow(t: Tables, a: Facts, text: string) returns (e: EventRow)
    requires Kept(t, a, text) && First(t.queue, HasId(a.eventId)).None?
    ensures e in t.events && e.about == a && e.payloadRef == text
  {
    FilterMembers(t.events, RowHasId(a.eventId));
    e := Filter(t.events, RowHasId(a.eventId))[0];
    assert e in Filter(t.events, RowHasId(a.eventId));
  }

  lemma SparedRowIsKept(c: Codec, t: Tables, keepDays: nat, e: EventRow, a: Facts, text: string)
    requires Consistent(c, t) && keepDays > 0 && e in t.events && e.about == a && e.payloadRef == text && Survives(t, keepDays, e)
    ensures Kept(PruneEffect(t, keepDays), a, text)
  {
    PruneKeepsConsistent(c, t, keepDays);
    PruneKeepsExactlySurvivors(t, keepDays, e);
    RowIsStored(PruneEffect(t, keepDays), e);
  }

  lemma OnlyRowOfItsId(t: Tables, e: EventRow, eventId: string)
    requires IdsDistinct(t) && e in t.events && e.about.eventId == eventId
    ensures forall x :: x in t.events && x.about.eventId == eventId ==> x == e
  {
  }

  lemma QueuedHasNoRow(t: Tables, eventId: string)
    requires IdsDistinct(t) && First(t.queue, HasId(eventId)).Some?
    ensures forall e :: e in t.events ==> e.about.eventId != eventId
  {
    FilterMembers(t.queue, HasId(eventId));
    var found := Filter(t.queue, HasId(eventId));
    assert found[0] in t.queue && HasId(eventId)(found[0]);
  }

  /** One prune: the event stays recognised exactly when it is spared, and otherwise is accepted again. */
  lemma PruneOfKept(c: Codec, t: Tables, keepDays: nat, input: Input)
    requires Consistent(c, t) && Enqueueable(c, input) && Kept(t, input.about, c.render(input.payload).value)
    ensures var u, id := PruneEffect(t, keepDays), input.about.eventId;
            if Spared(t, keepDays, id) then Kept(u, input.about, c.render(input.payload).value)
            else EnqueueResult(c, u, input) == Ok(true)
  {
    var a, text := input.about, c.render(input.payload).value;
    if keepDays > 0 {
      if First(t.queue, HasId(a.eventId)).Some? {
        PruneRemovesOnly(t, keepDays);
        QueuedHasNoRow(t, a.eventId);
      } else {
        var e := StoredRow(t, a, text);
        OnlyRowOfItsId(t, e, a.eventId);
        if Survives(t, keepDays, e) {
          SparedRowIsKept(c, t, keepDays, e, a, text);
        } else {
          PruneDecidesRetry(c, t, keepDays, e, input);
        }
      }
    }
  }

  lemma ActionOfKept(c: Codec, t: Tables, x: Action, input: Input)
    requires Lawful(c) && Consistent(c, t) && Enqueueable(c, input) && Kept(t, input.about, c.render(input.payload).value)
    requires x.Prune? ==> Spared(t, x.keepDays, input.about.eventId)
    ensures Kept(Do(c, t, x), input.about, c.render(input.payload).value)
  {
    match x
    case Ingest(other) => EnqueueLeavesKept(c, t, other, input.about, c.render(input.payload).value);
    case Project(limit) => BatchLeavesKept(c, t, limit, input.about, c.render(input.payload).value);
    case Prune(keepDays) => PruneOfKept(c, t, keepDays, input);
  }

  /** Over any run, with prunes and whatever else: a held event is recognised at every moment exactly when every
      prune of the run spares it. */
  lemma {:induction false} RecognisedThroughoutIff(c: Codec, t: Tables, actions: seq<Action>, input: Input)
    requires Lawful(c) && Consistent(c, t) && Enqueueable(c, input) && Kept(t, input.about, c.render(input.payload).value)
    ensures RecognisedThroughout(c, t, actions, input) <==> SparedThroughout(c, t, actions, input.about.eventId)
    decreases |actions|
  {
    KeptIsRecognised(c, t, input);
    if actions != [] {
      var x := actions[0];
      if x.Prune? && !Spared(t, x.keepDays, input.about.eventId) {
        PruneOfKept(c, t, x.keepDays, input);
      } else {
        ActionOfKept(c, t, x, input);
        DoKeepsConsistent(c, t, x);
        RecognisedThroughoutIff(c, Do(c, t, x), actions[1..], input);
      }
    }
  }

  // ---------------------------------------------------------------- accepted twice

  lemma AcceptedIntoEmpty(c: Codec, x: Input)
    requires Enqueueable(c, x)
    ensures EnqueueResult(c, EMPTY, x) == Ok(true)
    ensures EnqueueEffect(c, EMPTY, x) == EMPTY.(queue := [Queued(x.about, Day(x.about.occurredAtMs), c.render(x.payload).value)])
  {
  }

  lemma AcceptedNext(c: Codec, t: Tables, q: Queued, y: Input)
    requires t == EMPTY.(queue := [q]) && Enqueueable(c, y) && y.about.stepId == None
    requires y.about.eventId != q.about.eventId && y.about.runId != q.about.runId
    ensures EnqueueResult(c, t, y) == Ok(true)
  {
    NoneFound(t.queue, HasId(y.about.eventId));
    NoneFound(t.queue, OnRun(y.about.runId));
  }

  lemma OldRowIsLost(t: Tables, e: EventRow, f: EventRow)
    requires e in t.events && f in t.events && e.about.stepId == None && e.eventDay < f.eventDay
    ensures !Survives(t, 1, e)
  {
    assert f.eventDay in DaySet(t.events) && f.eventDay in Later(t.events, e.eventDay);
    assert Later(t.events, e.eventDay) != {};
  }

  lemma RunOfThree(c: Codec, t: Tables, a: Action, b: Action, d: Action)
    requires Lawful(c)
    ensures Run(c, t, [a, b, d]) == Do(c, Do(c, Do(c, t, a), b), d)
  {
    var u := Do(c, Do(c, t, a), b);
    assert [a, b, d][1..] == [b, d] && [b, d][1..] == [d] && [d][1..] == [];
    assert Run(c, u, [d]) == Run(c, Do(c, u, d), []);
    assert Run(c, Do(c, t, a), [b, d]) == Run(c, u, [d]);
  }

  lemma FirstAccepted(c: Codec, x: Input)
    requires Lawful(c) && Enqueueable(c, x)
    ensures EnqueueResult(c, EMPTY, x) == Ok(true)
    ensures var first := EnqueueEffect(c, EMPTY, x);
            Consistent(c, first) && EnqueueResult(c, first, x) == Ok(false)
  {
    EmptyIsConsistent(c);
    AcceptedIntoEmpty(c, x);
    EnqueueKeepsConsistent(c, EMPTY, x);
    AcceptedIsKept(c, EMPTY, x);
    KeptIsRecognised(c, EnqueueEffect(c, EMPTY, x), x);
  }

  /** Both events accepted, one after the other, into an empty store. */
  lemma BothAccepted(c: Codec, x: Input, y: Input)
    requires Lawful(c) && Enqueueable(c, x) && Enqueueable(c, y) && y.about.stepId == None
    requires y.about.eventId != x.about.eventId && y.about.runId != x.about.runId
    ensures var t := EnqueueEffect(c, EnqueueEffect(c, EMPTY, x), y);
            && Consistent(c, t) && t.events == [] && |t.queue| == 2
            && t.queue[0] == Queued(x.about, Day(x.about.occurredAtMs), c.render(x.payload).value)
            && t.queue[1] == Queued(y.about, Day(y.about.occurredAtMs), c.render(y.payload).value)
  {
    FirstAccepted(c, x);
    EnqueueKeepsConsistent(c, EnqueueEffect(c, EMPTY, x), y);
    BothQueued(c, x, y);
  }

  lemma BothQueued(c: Codec, x: Input, y: Input)
    requires Enqueueable(c, x) && Enqueueable(c, y) && y.about.stepId == None
    requires y.about.eventId != x.about.eventId && y.about.runId != x.about.runId
    ensures EnqueueEffect(c, EnqueueEffect(c, EMPTY, x), y) ==
            EMPTY.(queue := [Queued(x.about, Day(x.about.occurredAtMs), c.render(x.payload).value),
                             Queued(y.about, Day(y.about.occurredAtMs), c.render(y.payload).value)])
  {
    AcceptedIntoEmpty(c, x);
    var q := Queued(x.about, Day(x.about.occurredAtMs), c.render(x.payload).value);
    AcceptedNext(c, EnqueueEffect(c, EMPTY, x), q, y);
  }

  /** An event with no step, projected and followed by one of a later day, is pruned to one active day, and `enqueue`
      accepts it a second time. */
  lemma PrunedEventIsAcceptedAgain(c: Codec, x: Input, y: Input)
    requires Lawful(c) && Enqueueable(c, x) && Enqueueable(c, y) && x.about.stepId == None && y.about.stepId == None
    requires y.about.eventId != x.about.eventId && y.about.runId != x.about.runId
    requires Day(x.about.occurredAtMs) < Day(y.about.occurredAtMs)
    ensures EnqueueResult(c, EMPTY, x) == Ok(true)
    ensures var first := EnqueueEffect(c, EMPTY, x);
            && EnqueueResult(c, first, x) == Ok(false)
            && EnqueueResult(c, Run(c, first, [Ingest(y), Project(2), Prune(1)]), x) == Ok(true)
  {
    FirstAccepted(c, x);
    BothAccepted(c, x, y);
    BothProjectedThenPruned(c, EnqueueEffect(c, EnqueueEffect(c, EMPTY, x), y), x, y);
    RunOfThree(c, EnqueueEffect(c, EMPTY, x), Ingest(y), Project(2), Prune(1));
  }

  lemma BothProjectedThenPruned(c: Codec, t: Tables, x: Input, y: Input)
    requires Lawful(c) && Consistent(c, t) && Enqueueable(c, x) && x.about.stepId == None
    requires t.events == [] && |t.queue| == 2 && t.queue[0].about == x.about && t.queue[1].about == y.about
    requires c.render(x.payload) == Some(t.queue[0].payloadJson) && t.queue[0].eventDay < t.queue[1].eventDay
    ensures EnqueueResult(c, PruneEffect(ProjectEffect(c, t, 2), 1), x) == Ok(true)
  {
    var p := ProjectEffect(c, t, 2);
    BatchMoves(c, t, 2);
    ProjectNKeepsConsistent(c, t, 2);
    var e, f := p.events[0], p.events[1];
    assert Carries(p.events[|t.events| + 0], t.queue[0]) && Carries(p.events[|t.events| + 1], t.queue[1]);
    OldRowIsLost(p, e, f);
    PruneDecidesRetry(c, p, 1, e, x);
  }
}
