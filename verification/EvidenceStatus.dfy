/** Which event types end a turn or a session, what status each leaves, and what that means for retention. */
module EvidenceStatus {
  import opened Text
  import opened Rows
  import opened Evidence
  import opened EvidenceInvariant
  import opened EvidenceRetention
  import opened EvidenceRuns

  const TURN_ENDS := {"turn.completed", "turn.failed", "turn.cancelled", "turn.canceled"}

  const SESSION_ENDS := {"session.deleted", "session.closed", "session.failed"}

  /** One of these types occurs, and after it no other of the ending types. */
  ghost predicate EndsWith(facts: seq<Facts>, types: set<string>, ends: set<string>)
  {
    exists i :: 0 <= i < |facts| && facts[i].eventType in types && NoneAfter(facts, i, ends)
  }

  predicate NoneAfter(facts: seq<Facts>, i: nat, ends: set<string>)
  {
    forall j :: i < j < |facts| ==> facts[j].eventType !in ends
  }

  ghost predicate Occurs(facts: seq<Facts>, ends: set<string>) { exists i :: 0 <= i < |facts| && facts[i].eventType in ends }

  lemma EndsWithSnoc(facts: seq<Facts>, types: set<string>, ends: set<string>)
    requires facts != [] && types <= ends
    ensures var init, last := facts[..|facts| - 1], facts[|facts| - 1].eventType;
            EndsWith(facts, types, ends) <==> last in types || (last !in ends && EndsWith(init, types, ends))
  {
    var init, last := facts[..|facts| - 1], facts[|facts| - 1].eventType;
    if last in types {
      assert NoneAfter(facts, |facts| - 1, ends);
    } else if last !in ends {
      if EndsWith(init, types, ends) {
        var i :| 0 <= i < |init| && init[i].eventType in types && NoneAfter(init, i, ends);
        assert facts[i] == init[i] && NoneAfter(facts, i, ends);
      }
      if EndsWith(facts, types, ends) {
        var i :| 0 <= i < |facts| && facts[i].eventType in types && NoneAfter(facts, i, ends);
        assert i < |init| && init[i] == facts[i] && NoneAfter(init, i, ends);
      }
    }
  }

  lemma OccursSnoc(facts: seq<Facts>, ends: set<string>)
    requires facts != []
    ensures Occurs(facts, ends) <==> facts[|facts| - 1].eventType in ends || Occurs(facts[..|facts| - 1], ends)
  {
    var init := facts[..|facts| - 1];
    if Occurs(init, ends) {
      var i :| 0 <= i < |init| && init[i].eventType in ends;
      assert facts[i].eventType in ends;
    }
    if Occurs(facts, ends) {
      var i :| 0 <= i < |facts| && facts[i].eventType in ends;
      assert i < |init| ==> init[i].eventType in ends;
    }
  }

  // ---------------------------------------------------------------- turns

  /** The status of a step with these events, told by their types. */
  ghost predicate IsTurnStatus(facts: seq<Facts>, status: string)
  {
    && (EndsWith(facts, {"turn.completed"}, TURN_ENDS) ==> status == "completed")
    && (EndsWith(facts, {"turn.failed"}, TURN_ENDS) ==> status == "failed")
    && (EndsWith(facts, {"turn.cancelled", "turn.canceled"}, TURN_ENDS) ==> status == "cancelled")
    && (!Occurs(facts, TURN_ENDS) ==> status == "running")
  }

  lemma TurnStatusSnoc(facts: seq<Facts>, before: string)
    requires facts != [] && IsTurnStatus(facts[..|facts| - 1], before)
    ensures IsTurnStatus(facts, Or(TerminalStepStatus(facts[|facts| - 1].eventType), before))
  {
    OccursSnoc(facts, TURN_ENDS);
    EndsWithSnoc(facts, {"turn.completed"}, TURN_ENDS);
    EndsWithSnoc(facts, {"turn.failed"}, TURN_ENDS);
    EndsWithSnoc(facts, {"turn.cancelled", "turn.canceled"}, TURN_ENDS);
  }

  lemma {:induction false} TurnStatus(facts: seq<Facts>)
    ensures IsTurnStatus(facts, Or(LastStepStatus(facts), "running"))
  {
    if facts != [] {
      TurnStatus(facts[..|facts| - 1]);
      TurnStatusSnoc(facts, Or(LastStepStatus(facts[..|facts| - 1]), "running"));
    }
  }

  /** In every consistent store the row of a step says `completed`, `failed` or `cancelled` if its last turn end was of
      that type, and `running` if none of its events ended the turn. */
  lemma StepStatusIsItsLastEnd(c: Codec, t: Tables, s: string)
    requires Consistent(c, t) && s in t.steps
    ensures IsTurnStatus(Filter(EventFacts(t.events), AboutStep(s)), t.steps[s].status)
  {
    assert StepAt(t.steps, s) == StepIn(EventFacts(t.events), s);
    StepRowMeaning(EventFacts(t.events), s);
    TurnStatus(Filter(EventFacts(t.events), AboutStep(s)));
  }

  /** What an event does to the status of a step: its own step ends, or is running at first and stays as it was. */
  predicate TurnMoves(steps: map<string, StepRow>, steps': map<string, StepRow>, a: Facts, s: string)
  {
    if a.stepId == Some(s) then
      && s in steps'
      && (a.eventType == "turn.completed" ==> steps'[s].status == "completed")
      && (a.eventType == "turn.failed" ==> steps'[s].status == "failed")
      && (a.eventType == "turn.cancelled" || a.eventType == "turn.canceled" ==> steps'[s].status == "cancelled")
      && (a.eventType !in TURN_ENDS ==> steps'[s].status == if s in steps then steps[s].status else "running")
    else StepAt(steps', s) == StepAt(steps, s)
  }

  /** And to that of a run. */
  predicate SessionMoves(runs: map<string, RunRow>, runs': map<string, RunRow>, a: Facts, r: string)
  {
    if a.runId == r then
      && r in runs'
      && (a.eventType == "session.deleted" ==> runs'[r].status == "deleted")
      && (a.eventType == "session.closed" ==> runs'[r].status == "completed")
      && (a.eventType == "session.failed" ==> runs'[r].status == "failed")
      && (a.eventType !in SESSION_ENDS ==> runs'[r].status == if r in runs then runs[r].status else "active")
    else r in runs ==> r in runs' && runs'[r] == runs[r]
  }

  lemma TouchMovesTurn(steps: map<string, StepRow>, a: Facts, s: string)
    ensures TurnMoves(steps, TouchSteps(steps, a), a, s)
  {
  }

  lemma TouchMovesSession(runs: map<string, RunRow>, a: Facts, r: string)
    ensures SessionMoves(runs, TouchRuns(runs, a), a, r)
  {
  }

  /** In a consistent store every turn of the batch loop does this to every step and every run. */
  lemma ProjectionSetsStatuses(c: Codec, t: Tables, s: string, r: string)
    requires Lawful(c) && Consistent(c, t) && t.queue != []
    ensures TurnMoves(t.steps, ProjectOne(c, t).steps, t.queue[0].about, s)
    ensures SessionMoves(t.runs, ProjectOne(c, t).runs, t.queue[0].about, r)
  {
    QueuedIsProjected(c, t);
    TouchMovesTurn(t.steps, t.queue[0].about, s);
    TouchMovesSession(t.runs, t.queue[0].about, r);
  }

  // ---------------------------------------------------------------- sessions

  /** The status of a run with these events, told by their types, and what it is as long as no event ends the session. */
  ghost predicate IsSessionStatus(facts: seq<Facts>, status: string, otherwise: string)
  {
    && (EndsWith(facts, {"session.deleted"}, SESSION_ENDS) ==> status == "deleted")
    && (EndsWith(facts, {"session.closed"}, SESSION_ENDS) ==> status == "completed")
    && (EndsWith(facts, {"session.failed"}, SESSION_ENDS) ==> status == "failed")
    && (!Occurs(facts, SESSION_ENDS) ==> status == otherwise)
  }

  lemma SessionStatusSnoc(facts: seq<Facts>, before: string, otherwise: string)
    requires facts != [] && IsSessionStatus(facts[..|facts| - 1], before, otherwise)
    ensures IsSessionStatus(facts, Or(TerminalRunStatus(facts[|facts| - 1].eventType), before), otherwise)
  {
    OccursSnoc(facts, SESSION_ENDS);
    EndsWithSnoc(facts, {"session.deleted"}, SESSION_ENDS);
    EndsWithSnoc(facts, {"session.closed"}, SESSION_ENDS);
    EndsWithSnoc(facts, {"session.failed"}, SESSION_ENDS);
  }

  /** The last end of a session among some events decides the status told of its run, in the tables and in a bundle. */
  lemma {:induction false} SessionStatus(facts: seq<Facts>, otherwise: string)
    ensures IsSessionStatus(facts, Or(LastRunStatus(facts), otherwise), otherwise)
  {
    if facts != [] {
      SessionStatus(facts[..|facts| - 1], otherwise);
      SessionStatusSnoc(facts, Or(LastRunStatus(facts[..|facts| - 1]), otherwise), otherwise);
    }
  }

  /** From an empty store and without pruning, that is the status of every run's row. */
  lemma RunStatusIsItsLastEnd(c: Codec, actions: seq<Action>, r: string)
    requires Lawful(c) && r in Run(c, EMPTY, actions).runs && forall a :: a in actions ==> !a.Prune?
    ensures var t := Run(c, EMPTY, actions); IsSessionStatus(EventFacts(RowsOf(t, r)), t.runs[r].status, "active")
  {
    assert RowsOf(EMPTY, r) == [];
    RunRowIsRecomputed(c, EMPTY, actions, r);
    SessionStatus(EventFacts(RowsOf(Run(c, EMPTY, actions), r)), "active");
  }

  // ---------------------------------------------------------------- retention

  ghost predicate HasEnded(t: Tables, s: string) { exists e :: e in t.events && IsOfStep(e, s) && e.about.eventType in TURN_ENDS }

  lemma EndedStatus(facts: seq<Facts>, status: string)
    requires status == Or(LastStepStatus(facts), "running")
    ensures TerminalStep(status) <==> Occurs(facts, TURN_ENDS)
  {
    TurnStatus(facts);
    LastEnd(facts);
  }

  /** Where some event ended the turn, one of them was the last to. */
  lemma {:induction false} LastEnd(facts: seq<Facts>)
    ensures Occurs(facts, TURN_ENDS) ==>
              || EndsWith(facts, {"turn.completed"}, TURN_ENDS) || EndsWith(facts, {"turn.failed"}, TURN_ENDS)
              || EndsWith(facts, {"turn.cancelled", "turn.canceled"}, TURN_ENDS)
  {
    if facts != [] {
      LastEnd(facts[..|facts| - 1]);
      OccursSnoc(facts, TURN_ENDS);
      EndsWithSnoc(facts, {"turn.completed"}, TURN_ENDS);
      EndsWithSnoc(facts, {"turn.failed"}, TURN_ENDS);
      EndsWithSnoc(facts, {"turn.cancelled", "turn.canceled"}, TURN_ENDS);
    }
  }

  lemma EndsOfStep(t: Tables, s: string)
    ensures Occurs(Filter(EventFacts(t.events), AboutStep(s)), TURN_ENDS) <==> HasEnded(t, s)
  {
    var facts := EventFacts(t.events);
    var own := Filter(facts, AboutStep(s));
    FilterMembers(facts, AboutStep(s));
    if HasEnded(t, s) {
      var e :| e in t.events && IsOfStep(e, s) && e.about.eventType in TURN_ENDS;
      var k :| 0 <= k < |t.events| && t.events[k] == e;
      assert facts[k] == e.about && e.about in own;
      var i :| 0 <= i < |own| && own[i] == e.about;
      assert own[i].eventType in TURN_ENDS;
    }
    if Occurs(own, TURN_ENDS) {
      var i :| 0 <= i < |own| && own[i].eventType in TURN_ENDS;
      assert own[i] in facts;
      var k :| 0 <= k < |facts| && facts[k] == own[i];
      assert t.events[k] in t.events && IsOfStep(t.events[k], s);
    }
  }

  lemma StepHasEvents(c: Codec, t: Tables, s: string)
    requires Consistent(c, t) && s in t.steps
    ensures exists e :: e in t.events && IsOfStep(e, s)
    ensures TerminalStep(t.steps[s].status) <==> HasEnded(t, s)
  {
    var own := Filter(EventFacts(t.events), AboutStep(s));
    assert StepAt(t.steps, s) == StepIn(EventFacts(t.events), s);
    StepRowMeaning(EventFacts(t.events), s);
    FilterMembers(EventFacts(t.events), AboutStep(s));
    assert own[0] in EventFacts(t.events);
    var k :| 0 <= k < |t.events| && t.events[k].about == own[0];
    assert t.events[k] in t.events && IsOfStep(t.events[k], s);
    EndedStatus(own, t.steps[s].status);
    EndsOfStep(t, s);
  }

  /** A prune removes a step exactly when one of its events ended the turn and none of its events is of a recent day. */
  lemma RemovedIffEndedAndOld(c: Codec, t: Tables, keepDays: nat, s: string)
    requires Consistent(c, t) && keepDays > 0 && s in t.steps
    ensures s !in PruneEffect(t, keepDays).steps <==> HasEnded(t, s) && !SomeRecent(t, keepDays, s)
  {
    StepHasEvents(c, t, s);
    if keepDays < |Days(t.events)| {
      RemovableIff(t, keepDays, s);
    } else {
      var e :| e in t.events && IsOfStep(e, s);
      FewDaysAreRecent(t.events, keepDays, e.eventDay);
    }
  }

  // ---------------------------------------------------------------- limits

  /** A day is a UTC day, from midnight to midnight in milliseconds. */
  lemma DayIsUtcDay(ms: int)
    requires ms >= 0
    ensures Day(ms) * 86_400_000 <= ms < (Day(ms) + 1) * 86_400_000
  {
  }

  predicate NameFits(s: string) { !IsBlank(s) && ByteLen(s) <= 256 }

  /** What is queued keeps these limits, and an event within them that no one else owns and no one has sent is queued. */
  lemma EnqueueLimits(c: Codec, t: Tables, input: Input)
    ensures var a, text := input.about, c.render(input.payload);
            var fits := NameFits(a.eventId) && NameFits(a.runId) && NameFits(a.sessionId) && NameFits(a.eventType)
                        && (a.stepId.Some? ==> NameFits(a.stepId.value)) && a.occurredAtMs >= 0
                        && text.Some? && ByteLen(text.value) <= 65_536;
            && (EnqueueResult(c, t, input).Ok? ==> fits)
            && (fits && (forall b :: b in Claims(t) ==> b.runId != a.runId && (a.stepId.None? || b.stepId != a.stepId))
                && (forall q :: q in t.queue ==> q.about.eventId != a.eventId) && (forall e :: e in t.events ==> e.about.eventId != a.eventId)
                ==> EnqueueResult(c, t, input) == Ok(true))
  {
    var a := input.about;
    if (forall q :: q in t.queue ==> q.about.eventId != a.eventId) && (forall e :: e in t.events ==> e.about.eventId != a.eventId) {
      NoneFound(t.queue, HasId(a.eventId));
      NoneFound(t.events, RowHasId(a.eventId));
    }
    if forall b :: b in Claims(t) ==> b.runId != a.runId && (a.stepId.None? || b.stepId != a.stepId) {
      Unclaimed(t, a);
    }
  }

  lemma Unclaimed(t: Tables, a: Facts)
    requires forall b :: b in Claims(t) ==> b.runId != a.runId && (a.stepId.None? || b.stepId != a.stepId)
    ensures RunSession(t, a.runId) == None && (a.stepId.Some? ==> StepOwner(t, a.stepId.value) == None)
  {
    forall q | q in t.queue ensures q.about.runId != a.runId && (a.stepId.None? || q.about.stepId != a.stepId) {
      assert ClaimOf(q.about) in Claims(t);
    }
    NoneFound(t.queue, OnRun(a.runId));
    assert a.runId in t.runs ==> Claim(a.runId, t.runs[a.runId].sessionId, None) in Claims(t);
    if a.stepId.Some? {
      var s := a.stepId.value;
      NoneFound(t.queue, OnStep(s));
      assert s in t.steps ==> Claim(t.steps[s].runId, t.steps[s].sessionId, Some(s)) in Claims(t);
    }
  }

  /** Limits out of range are refused and change nothing. */
  lemma BadLimitsDoNothing(c: Codec, t: Tables, limit: nat)
    requires Lawful(c)
    ensures limit == 0 ==> ProjectResult(c, t, limit) == Err(LimitNotPositive) && PruneResult(t, limit) == Err(KeepNotPositive)
    ensures limit > 9_223_372_036_854_775_807 ==> ProjectResult(c, t, limit) == Err(LimitTooLarge)
    ensures limit == 0 || limit > 9_223_372_036_854_775_807 ==> ProjectEffect(c, t, limit) == t
    ensures limit == 0 ==> PruneEffect(t, limit) == t
  {
  }

  /** What a queued event must be to be projected, whatever wrote it to the queue: within the limits, on its own day, with
      a payload that reads, under an id not yet projected, and of the owner its run and its step already have. */
  predicate IsSound(c: Codec, t: Tables, q: Queued)
  {
    var a, payload := q.about, c.parse(q.payloadJson);
    && NameFits(a.eventId) && NameFits(a.runId) && NameFits(a.sessionId) && NameFits(a.eventType)
    && (a.stepId.Some? ==> NameFits(a.stepId.value)) && a.occurredAtMs >= 0 && q.eventDay == a.occurredAtMs / 86_400_000
    && ByteLen(q.payloadJson) <= 65_536 && payload.Some? && c.render(payload.value).Some? && ByteLen(c.render(payload.value).value) <= 65_536
    && (forall e :: e in t.events ==> e.about.eventId != a.eventId)
    && (a.runId in t.runs ==> t.runs[a.runId].sessionId == a.sessionId)
    && (a.stepId.Some? && a.stepId.value in t.steps ==>
          t.steps[a.stepId.value].runId == a.runId && t.steps[a.stepId.value].sessionId == a.sessionId)
  }

  lemma SoundIsProjected(c: Codec, t: Tables, q: Queued)
    requires Lawful(c)
    ensures Judge(c, t, q).Projected? <==> IsSound(c, t, q)
  {
    assert Reprints(c, q.payloadJson);
    FilterMembers(t.events, RowHasId(q.about.eventId));
    var found := Filter(t.events, RowHasId(q.about.eventId));
    assert found != [] ==> found[0] in found;
    assert forall e :: e in t.events && e.about.eventId == q.about.eventId ==> RowHasId(q.about.eventId)(e) && e in found;
  }

  /** One turn of the loop on any tables: the oldest event leaves the queue and is acknowledged, is projected exactly if it
      is sound, is dropped as invalid if it is not and its id is new, and is otherwise passed over only as a repetition. */
  lemma TurnAccounts(c: Codec, t: Tables)
    requires Lawful(c) && t.queue != []
    ensures ProjectOne(c, t).queue == t.queue[1..]
    ensures var q, r := t.queue[0], ReceiptOf(c, t, 1);
            && r.acked == 1 && r.projected == (if IsSound(c, t, q) then 1 else 0) && r.projected + r.droppedInvalid <= 1
            && |ProjectOne(c, t).events| == |t.events| + r.projected
            && (!IsSound(c, t, q) && (forall e :: e in t.events ==> e.about.eventId != q.about.eventId) ==> r.droppedInvalid == 1)
            && (r.projected + r.droppedInvalid == 0 ==> exists e :: e in t.events && e.about == q.about)
  {
    var q := t.queue[0];
    SoundIsProjected(c, t, q);
    FilterMembers(t.events, RowHasId(q.about.eventId));
    var found := Filter(t.events, RowHasId(q.about.eventId));
    assert found != [] ==> found[0] in found;
    assert ProjectN(c, t, 0) == t && ReceiptOf(c, t, 0) == NOTHING;
  }
}
