/** What every transaction of the evidence store keeps. */
module EvidenceInvariant {
  import opened Json
  import opened Text
  import opened Rows
  import opened Evidence

  // ---------------------------------------------------------------- ownership

  /** A row's statement of who owns its run and, when it has one, its step. */
  datatype Claim = Claim(runId: string, sessionId: string, stepId: Option<string>)

  function ClaimOf(a: Facts): Claim { Claim(a.runId, a.sessionId, a.stepId) }

  ghost function Claims(t: Tables): set<Claim>
  {
    (set q | q in t.queue :: ClaimOf(q.about)) + (set e | e in t.events :: ClaimOf(e.about))
    + (set r | r in t.runs :: Claim(r, t.runs[r].sessionId, None))
    + (set s | s in t.steps :: Claim(t.steps[s].runId, t.steps[s].sessionId, Some(s)))
  }

  predicate Agree(a: Claim, b: Claim)
  {
    && (a.runId == b.runId ==> a.sessionId == b.sessionId)
    && (a.stepId.Some? && a.stepId == b.stepId ==> a.runId == b.runId && a.sessionId == b.sessionId)
  }

  /** Queue, events, runs and steps agree on one session per run, and on one run and session per step. */
  ghost predicate OneOwner(t: Tables)
  {
    forall a, b :: a in Claims(t) && b in Claims(t) ==> Agree(a, b)
  }

  /** `a` says no more than `b`. */
  predicate Covers(b: Claim, a: Claim)
  {
    b.runId == a.runId && b.sessionId == a.sessionId && (a.stepId.None? || a.stepId == b.stepId)
  }

  lemma CoveredKeepsOneOwner(t: Tables, t': Tables)
    requires OneOwner(t)
    requires forall a :: a in Claims(t') ==> exists b :: b in Claims(t) && Covers(b, a)
    ensures OneOwner(t')
  {
    forall a', b' | a' in Claims(t') && b' in Claims(t') ensures Agree(a', b') {
      var a :| a in Claims(t) && Covers(a, a');
      var b :| b in Claims(t) && Covers(b, b');
      assert Agree(a, b);
    }
  }

  // ---------------------------------------------------------------- the step index

  /** The row of one step as its events alone determine it. */
  function StepIn(facts: seq<Facts>, stepId: string): Option<StepRow>
  {
    if facts == [] then None
    else
      var before, a := StepIn(facts[..|facts| - 1], stepId), facts[|facts| - 1];
      if a.stepId == Some(stepId) then Some(StepAfter(before, a)) else before
  }

  lemma StepInSnoc(rows: seq<EventRow>, e: EventRow, stepId: string)
    ensures StepIn(EventFacts(rows + [e]), stepId) ==
            if e.about.stepId == Some(stepId) then Some(StepAfter(StepIn(EventFacts(rows), stepId), e.about))
            else StepIn(EventFacts(rows), stepId)
  {
    assert EventFacts(rows + [e])[..|rows|] == EventFacts(rows);
  }

  lemma {:induction false} StepInFilter(rows: seq<EventRow>, p: EventRow -> bool, stepId: string)
    requires forall e :: e in rows && IsOfStep(e, stepId) ==> p(e)
    ensures StepIn(EventFacts(Filter(rows, p)), stepId) == StepIn(EventFacts(rows), stepId)
  {
    if rows != [] {
      var init, last := rows[..|rows| - 1], rows[|rows| - 1];
      StepInFilter(init, p, stepId);
      assert rows == init + [last];
      StepInSnoc(init, last, stepId);
      StepInSnoc(Filter(init, p), last, stepId);
      assert Filter(rows, p) == if p(last) then Filter(init, p) + [last] else Filter(init, p);
    }
  }

  lemma {:induction false} StepInExists(rows: seq<EventRow>, stepId: string)
    ensures StepIn(EventFacts(rows), stepId).Some? <==> exists e :: e in rows && IsOfStep(e, stepId)
  {
    if rows != [] {
      var init, last := rows[..|rows| - 1], rows[|rows| - 1];
      StepInExists(init, stepId);
      assert rows == init + [last];
      StepInSnoc(init, last, stepId);
      assert last in rows && forall e :: e in init ==> e in rows;
    }
  }

  function AboutStep(stepId: string): Facts -> bool { (a: Facts) => a.stepId == Some(stepId) }

  /** What that row says: the owner and time of the step's first event, the time of its last, and its last terminal
      status, or that it is running. */
  lemma {:induction false} StepRowMeaning(facts: seq<Facts>, stepId: string)
    ensures var own := Filter(facts, AboutStep(stepId));
            if own == [] then StepIn(facts, stepId) == None
            else StepIn(facts, stepId) == Some(StepRow(own[0].runId, own[0].sessionId, own[0].occurredAtMs,
                                                       own[|own| - 1].occurredAtMs, Or(LastStepStatus(own), "running")))
  {
    if facts != [] {
      var init, a := facts[..|facts| - 1], facts[|facts| - 1];
      StepRowMeaning(init, stepId);
      var before, own := Filter(init, AboutStep(stepId)), Filter(facts, AboutStep(stepId));
      if a.stepId == Some(stepId) {
        assert own == before + [a] && own[..|own| - 1] == before;
      } else {
        assert own == before;
      }
    }
  }

  /** The incremental index is the recomputation. */
  ghost predicate IndexOk(t: Tables)
  {
    forall s :: StepAt(t.steps, s) == StepIn(EventFacts(t.events), s)
  }

  // ---------------------------------------------------------------- the invariant

  predicate Encodes(c: Codec, text: string)
  {
    c.parse(text).Some? && c.render(c.parse(text).value) == Some(text)
  }

  predicate QueuedOk(c: Codec, q: Queued)
  {
    ValidEvent(q.about) && q.eventDay == Day(q.about.occurredAtMs) && Encodes(c, q.payloadJson)
    && ByteLen(q.payloadJson) <= MAX_PAYLOAD_BYTES
  }

  predicate RowOk(c: Codec, t: Tables, e: EventRow)
  {
    && ValidEvent(e.about) && e.eventDay == Day(e.about.occurredAtMs)
    && Encodes(c, e.payloadRef) && e.payloadHash == c.hash(e.payloadRef)
    && e.about.runId in t.runs
  }

  ghost predicate RowsOk(c: Codec, t: Tables)
  {
    && (forall q :: q in t.queue ==> QueuedOk(c, q))
    && (forall e :: e in t.events ==> RowOk(c, t, e))
    && (forall s :: s in t.steps ==> t.steps[s].runId in t.runs)
  }

  ghost predicate IdsApart(events: seq<EventRow>)
  {
    forall i, j :: 0 <= i < j < |events| ==> events[i].about.eventId != events[j].about.eventId
  }

  /** An event is queued or projected, once. */
  ghost predicate IdsDistinct(t: Tables)
  {
    && (forall i, j :: 0 <= i < j < |t.queue| ==> t.queue[i].about.eventId != t.queue[j].about.eventId)
    && IdsApart(t.events)
    && (forall q, e :: q in t.queue && e in t.events ==> q.about.eventId != e.about.eventId)
  }

  /** Within a run, sequence numbers rise in the order of insertion. */
  ghost predicate SeqsRise(events: seq<EventRow>)
  {
    forall i, j :: 0 <= i < j < |events| && events[i].about.runId == events[j].about.runId ==> events[i].seqNo < events[j].seqNo
  }

  ghost predicate Consistent(c: Codec, t: Tables)
  {
    OneOwner(t) && IndexOk(t) && RowsOk(c, t) && IdsDistinct(t) && SeqsRise(t.events)
  }

  // ---------------------------------------------------------------- enqueue

  lemma RunIsKnown(c: Codec, t: Tables, a: Facts, b: Claim)
    requires RowsOk(c, t) && OneOwner(t) && OwnsRun(RunSession(t, a.runId), a) && b in Claims(t) && b.runId == a.runId
    ensures b.sessionId == a.sessionId
  {
    if a.runId in t.runs {
      assert Claim(a.runId, t.runs[a.runId].sessionId, None) in Claims(t);
      assert Agree(b, Claim(a.runId, t.runs[a.runId].sessionId, None));
    } else {
      var q0 :| q0 in t.queue && ClaimOf(q0.about) == b;
      var found := Filter(t.queue, OnRun(a.runId));
      FilterMembers(t.queue, OnRun(a.runId));
      assert q0 in found && found[0] in t.queue;
      assert Agree(b, ClaimOf(found[0].about));
    }
  }

  lemma StepIsKnown(c: Codec, t: Tables, a: Facts, b: Claim)
    requires IndexOk(t) && OneOwner(t) && a.stepId.Some? && OwnsStep(StepOwner(t, a.stepId.value), a)
    requires b in Claims(t) && b.stepId == a.stepId
    ensures b.sessionId == a.sessionId && b.runId == a.runId
  {
    var s := a.stepId.value;
    if s in t.steps {
      assert Claim(t.steps[s].runId, t.steps[s].sessionId, Some(s)) in Claims(t);
      assert Agree(b, Claim(t.steps[s].runId, t.steps[s].sessionId, Some(s)));
    } else {
      StepInExists(t.events, s);
      forall e | e in t.events ensures ClaimOf(e.about) != b { assert !IsOfStep(e, s); }
      var q0 :| q0 in t.queue && ClaimOf(q0.about) == b;
      var found := Filter(t.queue, OnStep(s));
      FilterMembers(t.queue, OnStep(s));
      assert q0 in found && found[0] in t.queue;
      assert Agree(b, ClaimOf(found[0].about));
    }
  }

  lemma EnqueueKeepsOneOwner(c: Codec, t: Tables, input: Input)
    requires RowsOk(c, t) && OneOwner(t) && IndexOk(t) && EnqueueResult(c, t, input) == Ok(true)
    ensures OneOwner(EnqueueEffect(c, t, input))
  {
    var a, t' := input.about, EnqueueEffect(c, t, input);
    forall x | x in Claims(t') ensures x in Claims(t) || x == ClaimOf(a) {
      if x !in Claims(t) && (exists q :: q in t'.queue && ClaimOf(q.about) == x) {
        var q :| q in t'.queue && ClaimOf(q.about) == x;
        assert q !in t.queue;
      }
    }
    forall b | b in Claims(t) ensures Agree(ClaimOf(a), b) && Agree(b, ClaimOf(a)) {
      if b.runId == a.runId { RunIsKnown(c, t, a, b); }
      if a.stepId.Some? && b.stepId == a.stepId { StepIsKnown(c, t, a, b); }
    }
  }

  lemma IdIsNew(t: Tables, eventId: string)
    requires Stored(t, eventId).None?
    ensures forall q :: q in t.queue ==> q.about.eventId != eventId
    ensures forall e :: e in t.events ==> e.about.eventId != eventId
  {
    FilterMembers(t.queue, HasId(eventId));
    FilterMembers(t.events, RowHasId(eventId));
    forall q | q in t.queue ensures q.about.eventId != eventId { assert HasId(eventId)(q) ==> q in Filter(t.queue, HasId(eventId)); }
    forall e | e in t.events ensures e.about.eventId != eventId { assert RowHasId(eventId)(e) ==> e in Filter(t.events, RowHasId(eventId)); }
  }

  lemma EnqueueKeepsConsistent(c: Codec, t: Tables, input: Input)
    requires Lawful(c) && Consistent(c, t)
    ensures Consistent(c, EnqueueEffect(c, t, input))
  {
    if EnqueueResult(c, t, input) == Ok(true) {
      EnqueueKeepsOneOwner(c, t, input);
      IdIsNew(t, input.about.eventId);
      var text := c.render(input.payload).value;
      assert ReadsBack(c, input.payload) && Encodes(c, text);
    }
  }

  // ---------------------------------------------------------------- project

  lemma NoneFound<T(!new)>(rows: seq<T>, p: T -> bool)
    requires forall x :: x in rows ==> !p(x)
    ensures First(rows, p) == None
  {
    FilterMembers(rows, p);
    assert Filter(rows, p) != [] ==> Filter(rows, p)[0] in Filter(rows, p);
  }

  /** In a consistent store nothing queued is invalid or already there: it is projected. */
  lemma QueuedIsProjected(c: Codec, t: Tables)
    requires Lawful(c) && Consistent(c, t) && t.queue != []
    ensures Judge(c, t, t.queue[0]).Projected?
    ensures RowFor(c, t, t.queue[0]).payloadRef == t.queue[0].payloadJson
  {
    var q := t.queue[0];
    assert q in t.queue && QueuedOk(c, q);
    assert ClaimOf(q.about) in Claims(t);
    forall e | e in t.events ensures !RowHasId(q.about.eventId)(e) {
      assert q.about.eventId != e.about.eventId;
    }
    NoneFound(t.events, RowHasId(q.about.eventId));
    if q.about.runId in t.runs {
      assert Claim(q.about.runId, t.runs[q.about.runId].sessionId, None) in Claims(t);
      assert Agree(ClaimOf(q.about), Claim(q.about.runId, t.runs[q.about.runId].sessionId, None));
    }
    if q.about.stepId.Some? && q.about.stepId.value in t.steps {
      var s := q.about.stepId.value;
      assert Claim(t.steps[s].runId, t.steps[s].sessionId, Some(s)) in Claims(t);
      assert Agree(ClaimOf(q.about), Claim(t.steps[s].runId, t.steps[s].sessionId, Some(s)));
    }
  }

  lemma {:induction false} MaxSeqBounds(rows: seq<EventRow>)
    ensures forall e :: e in rows ==> e.seqNo <= MaxSeq(rows)
  {
    if rows != [] {
      MaxSeqBounds(rows[..|rows| - 1]);
    }
  }

  lemma NextSeqIsLarger(t: Tables, runId: string)
    ensures forall e :: e in t.events && e.about.runId == runId ==> e.seqNo < NextSeq(t, runId)
  {
    MaxSeqBounds(RowsOf(t, runId));
    FilterMembers(t.events, InRun(runId));
    forall e | e in t.events && e.about.runId == runId ensures e.seqNo < NextSeq(t, runId) {
      assert InRun(runId)(e);
    }
  }

  lemma ProjectClaims(t: Tables, t': Tables, q: Queued, e: EventRow, a: Claim)
    requires q in t.queue && (forall p :: p in t'.queue ==> p in t.queue) && e.about == q.about && t'.events == t.events + [e]
    requires t'.runs == TouchRuns(t.runs, q.about) && t'.steps == TouchSteps(t.steps, q.about)
    requires a in Claims(t')
    ensures a in Claims(t) || Covers(ClaimOf(q.about), a)
  {
    if p :| p in t'.queue && ClaimOf(p.about) == a {
      assert p in t.queue;
    } else if p :| p in t'.events && ClaimOf(p.about) == a {
      assert p in t.events || p == e;
    } else if r :| r in t'.runs && Claim(r, t'.runs[r].sessionId, None) == a {
      assert r == q.about.runId || Claim(r, t.runs[r].sessionId, None) == a;
    } else {
      var s :| s in t'.steps && Claim(t'.steps[s].runId, t'.steps[s].sessionId, Some(s)) == a;
      assert Some(s) == q.about.stepId || Claim(t.steps[s].runId, t.steps[s].sessionId, Some(s)) == a;
    }
  }

  lemma ProjectKeepsOneOwner(c: Codec, t: Tables)
    requires Lawful(c) && OneOwner(t) && t.queue != [] && Judge(c, t, t.queue[0]).Projected?
    ensures OneOwner(ProjectOne(c, t))
  {
    var t', q := ProjectOne(c, t), t.queue[0];
    assert q in t.queue && ClaimOf(q.about) in Claims(t);
    forall a | a in Claims(t') ensures exists b :: b in Claims(t) && Covers(b, a) {
      ProjectClaims(t, t', q, RowFor(c, t, q), a);
      assert Covers(a, a);
    }
    CoveredKeepsOneOwner(t, t');
  }

  lemma ProjectKeepsIndex(c: Codec, t: Tables)
    requires Lawful(c) && IndexOk(t) && t.queue != [] && Judge(c, t, t.queue[0]).Projected?
    ensures IndexOk(ProjectOne(c, t))
  {
    var t', q := ProjectOne(c, t), t.queue[0];
    forall s ensures StepAt(t'.steps, s) == StepIn(EventFacts(t'.events), s) {
      StepInSnoc(t.events, RowFor(c, t, q), s);
    }
  }

  lemma MoveKeepsIds(t: Tables, t': Tables, e: EventRow)
    requires IdsDistinct(t) && t.queue != [] && t'.queue == t.queue[1..] && t'.events == t.events + [e]
    requires e.about.eventId == t.queue[0].about.eventId
    ensures IdsDistinct(t')
  {
    assert t.queue[0] in t.queue;
    forall p, x | p in t'.queue && x in t'.events ensures p.about.eventId != x.about.eventId {
      var i :| 0 <= i < |t'.queue| && t'.queue[i] == p;
      assert p == t.queue[i + 1] && p in t.queue;
      assert x in t.events || x == e;
    }
  }

  lemma ProjectKeepsRows(c: Codec, t: Tables)
    requires Lawful(c) && RowsOk(c, t) && t.queue != [] && Judge(c, t, t.queue[0]).Projected?
    ensures RowsOk(c, ProjectOne(c, t))
  {
    var t', q := ProjectOne(c, t), t.queue[0];
    assert QueuedOk(c, q);
    assert t.queue == [q] + t'.queue;
    forall e | e in t'.events ensures RowOk(c, t', e) {
      assert e in t.events ==> RowOk(c, t, e);
    }
  }

  lemma ProjectKeepsConsistent(c: Codec, t: Tables)
    requires Lawful(c) && Consistent(c, t) && t.queue != []
    ensures Consistent(c, ProjectOne(c, t))
  {
    QueuedIsProjected(c, t);
    ProjectKeepsOneOwner(c, t);
    ProjectKeepsIndex(c, t);
    MoveKeepsIds(t, ProjectOne(c, t), RowFor(c, t, t.queue[0]));
    ProjectKeepsRows(c, t);
    NextSeqIsLarger(t, t.queue[0].about.runId);
  }

  lemma TurnKeepsConsistent(c: Codec, t: Tables)
    requires Lawful(c) && Consistent(c, t)
    ensures Consistent(c, Turn(c)(t))
  {
    if t.queue != [] {
      ProjectKeepsConsistent(c, t);
    }
  }

  lemma ProjectNKeepsConsistent(c: Codec, t: Tables, n: nat)
    requires Lawful(c) && Consistent(c, t)
    ensures Consistent(c, ProjectN(c, t, n))
  {
    var kept := (k: nat, m: Tables) => Consistent(c, m);
    forall k: nat, m | kept(k, m) ensures kept(k + 1, Turn(c)(m)) {
      TurnKeepsConsistent(c, m);
    }
    IterateKeeps(Turn(c), t, n, kept);
  }
}
