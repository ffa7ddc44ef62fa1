/** Active-day retention: what pruning keeps, what it removes, and that doing it again does nothing. */
module EvidenceRetention {
  import opened Text
  import opened Rows
  import opened Evidence
  import opened EvidenceInvariant

  // ---------------------------------------------------------------- days

  ghost predicate Descending(days: seq<int>) { forall i, j :: 0 <= i < j < |days| ==> days[i] > days[j] }

  lemma {:induction false} InsertDayKeepsOrder(days: seq<int>, day: int)
    requires Descending(days)
    ensures Descending(InsertDay(days, day))
    ensures forall d :: d in InsertDay(days, day) <==> d in days || d == day
  {
    if !(days == [] || day > days[0] || day == days[0]) {
      InsertDayKeepsOrder(days[1..], day);
      assert days == [days[0]] + days[1..];
      var rest := InsertDay(days[1..], day);
      forall j | 0 <= j < |rest| ensures days[0] > rest[j] {
        assert rest[j] in rest;
      }
    }
  }

  ghost function DaySet(rows: seq<EventRow>): set<int> { set e | e in rows :: e.eventDay }

  lemma {:induction false} DaysAreAll(rows: seq<EventRow>)
    ensures Descending(Days(rows)) && forall d :: d in Days(rows) <==> d in DaySet(rows)
  {
    if rows != [] {
      var init, last := rows[..|rows| - 1], rows[|rows| - 1];
      DaysAreAll(init);
      InsertDayKeepsOrder(Days(init), last.eventDay);
      assert rows == init + [last];
      assert DaySet(rows) == DaySet(init) + {last.eventDay};
    }
  }

  /** The event days later than `day`. */
  ghost function Later(rows: seq<EventRow>, day: int): set<int> { set d | d in DaySet(rows) && d > day }

  /** `day` is among the newest `keepDays` days that have events. */
  ghost predicate Recent(rows: seq<EventRow>, keepDays: nat, day: int) { |Later(rows, day)| < keepDays }

  ghost function FirstDays(days: seq<int>, n: nat): set<int>
    requires n <= |days|
  {
    if n == 0 then {} else FirstDays(days, n - 1) + {days[n - 1]}
  }

  lemma {:induction false} FirstDaysMembers(days: seq<int>, n: nat, d: int)
    requires n <= |days|
    ensures d in FirstDays(days, n) <==> exists i :: 0 <= i < n && days[i] == d
  {
    if n > 0 {
      FirstDaysMembers(days, n - 1, d);
    }
  }

  lemma {:induction false} FirstDaysSize(days: seq<int>, n: nat)
    requires Descending(days) && n <= |days|
    ensures |FirstDays(days, n)| == n
  {
    if n > 0 {
      FirstDaysSize(days, n - 1);
      FirstDaysMembers(days, n - 1, days[n - 1]);
    }
  }

  lemma LaterAreFirst(rows: seq<EventRow>, i: nat)
    requires i < |Days(rows)|
    ensures Later(rows, Days(rows)[i]) == FirstDays(Days(rows), i)
  {
    var days := Days(rows);
    DaysAreAll(rows);
    forall d ensures d in Later(rows, days[i]) <==> d in FirstDays(days, i) {
      FirstDaysMembers(days, i, d);
      if d in Later(rows, days[i]) {
        assert d in days;
      }
      if d in FirstDays(days, i) {
        var j :| 0 <= j < i && days[j] == d;
        assert days[j] in days;
      }
    }
  }

  /** The cutoff the store picks separates the newest days from the rest. */
  lemma CutoffIsExact(rows: seq<EventRow>, keepDays: nat, day: int)
    requires 0 < keepDays < |Days(rows)| && day in DaySet(rows)
    ensures Days(rows)[keepDays - 1] <= day <==> Recent(rows, keepDays, day)
  {
    var days := Days(rows);
    DaysAreAll(rows);
    assert day in days;
    var i :| 0 <= i < |days| && days[i] == day;
    FirstDaysSize(days, i);
    LaterAreFirst(rows, i);
  }

  // ---------------------------------------------------------------- what stays

  ghost predicate SomeRecent(t: Tables, keepDays: nat, stepId: string)
  {
    exists e :: e in t.events && IsOfStep(e, stepId) && Recent(t.events, keepDays, e.eventDay)
  }

  /** Retention in its own terms: recent events stay, and the events of a step stay together unless the step
      has ended and none of them is recent. */
  ghost predicate Survives(t: Tables, keepDays: nat, e: EventRow)
  {
    if e.about.stepId.None? then Recent(t.events, keepDays, e.eventDay)
    else !(e.about.stepId.value in t.steps && TerminalStep(t.steps[e.about.stepId.value].status))
         || SomeRecent(t, keepDays, e.about.stepId.value)
  }

  lemma RemovableIff(t: Tables, keepDays: nat, stepId: string)
    requires 0 < keepDays < |Days(t.events)| && exists e :: e in t.events && IsOfStep(e, stepId)
    ensures Removable(t, Days(t.events)[keepDays - 1], stepId) <==>
            stepId in t.steps && TerminalStep(t.steps[stepId].status) && !SomeRecent(t, keepDays, stepId)
  {
    var cutoff := Days(t.events)[keepDays - 1];
    forall e | e in t.events && IsOfStep(e, stepId) ensures e.eventDay < cutoff <==> !Recent(t.events, keepDays, e.eventDay) {
      CutoffIsExact(t.events, keepDays, e.eventDay);
    }
  }

  lemma KeptIsFiltered(t: Tables, cutoff: int)
    ensures forall e :: e in Kept(t, cutoff) <==>
                          e in t.events && !(e.about.stepId.Some? && e.about.stepId.value in RemovableSteps(t, cutoff))
                          && !(e.about.stepId.None? && e.eventDay < cutoff)
  {
    var gone := RemovableSteps(t, cutoff);
    FilterMembers(t.events, OutsideSteps(gone));
    FilterMembers(Filter(t.events, OutsideSteps(gone)), NotStale(cutoff));
  }

  lemma KeptIff(t: Tables, keepDays: nat, e: EventRow)
    requires 0 < keepDays < |Days(t.events)| && e in t.events
    ensures e in Kept(t, Days(t.events)[keepDays - 1]) <==> Survives(t, keepDays, e)
  {
    var cutoff := Days(t.events)[keepDays - 1];
    KeptIsFiltered(t, cutoff);
    CutoffIsExact(t.events, keepDays, e.eventDay);
    if e.about.stepId.Some? {
      assert IsOfStep(e, e.about.stepId.value);
      RemovableIff(t, keepDays, e.about.stepId.value);
    }
  }

  lemma FewDaysAreRecent(rows: seq<EventRow>, keepDays: nat, day: int)
    requires |Days(rows)| <= keepDays && day in DaySet(rows)
    ensures Recent(rows, keepDays, day)
  {
    var days := Days(rows);
    DaysAreAll(rows);
    FirstDaysSize(days, |days|);
    var all := FirstDays(days, |days|);
    forall d ensures d in all <==> d in days {
      FirstDaysMembers(days, |days|, d);
    }
    assert day in all && day !in Later(rows, day);
    SubsetSize(Later(rows, day), all);
  }

  lemma SubsetSize(a: set<int>, b: set<int>)
    requires a < b
    ensures |a| < |b|
  {
    var rest := b - a;
    assert b == a + rest && a * rest == {};
    assert rest == {} ==> b == a;
  }

  /** Exactly the surviving events stay, in their order. */
  lemma PruneKeepsExactlySurvivors(t: Tables, keepDays: nat, e: EventRow)
    requires keepDays > 0 && e in t.events
    ensures e in PruneEffect(t, keepDays).events <==> Survives(t, keepDays, e)
  {
    if keepDays < |Days(t.events)| {
      KeptIff(t, keepDays, e);
    } else {
      FewDaysAreRecent(t.events, keepDays, e.eventDay);
      assert e.about.stepId.Some? ==> IsOfStep(e, e.about.stepId.value);
    }
  }

  /** Pruning never tears a turn: recent events and events of running steps all stay, and of any step either
      every event stays or none does. */
  lemma PruneIsTurnAtomic(t: Tables, keepDays: nat, e: EventRow, e': EventRow)
    requires keepDays > 0 && e in t.events && e' in t.events
    ensures Recent(t.events, keepDays, e.eventDay) ==> e in PruneEffect(t, keepDays).events
    ensures e.about.stepId.Some? && e.about.stepId.value in t.steps && !TerminalStep(t.steps[e.about.stepId.value].status) ==>
              e in PruneEffect(t, keepDays).events
    ensures e.about.stepId.Some? && e.about.stepId == e'.about.stepId ==>
              (e in PruneEffect(t, keepDays).events <==> e' in PruneEffect(t, keepDays).events)
  {
    PruneKeepsExactlySurvivors(t, keepDays, e);
    PruneKeepsExactlySurvivors(t, keepDays, e');
    assert e.about.stepId.Some? ==> IsOfStep(e, e.about.stepId.value);
  }

  /** The metadata counts, run by run, exactly the steps that disappeared. */
  lemma PruneCountsRemovedSteps(t: Tables, keepDays: nat, runId: string)
    ensures var t' := PruneEffect(t, keepDays);
            RemovedAt(t'.removed, runId) ==
            RemovedAt(t.removed, runId) + |set s | s in t.steps && t.steps[s].runId == runId && s !in t'.steps|
    ensures forall s :: s in PruneEffect(t, keepDays).steps ==> s in t.steps && PruneEffect(t, keepDays).steps[s] == t.steps[s]
  {
    var days, t' := Days(t.events), PruneEffect(t, keepDays);
    var lost := set s | s in t.steps && t.steps[s].runId == runId && s !in t'.steps;
    if keepDays == 0 || |days| <= keepDays {
      assert lost == {};
    } else {
      var cutoff := days[keepDays - 1];
      assert lost == RemovableOf(t, cutoff, runId);
      forall s | s in lost ensures runId in t'.removed {
        assert s in RemovableSteps(t, cutoff) && t.steps[s].runId == runId;
      }
      assert runId !in t'.removed ==> lost == {};
    }
  }

  lemma DaysAreCounted(rows: seq<EventRow>)
    ensures |Days(rows)| == |DaySet(rows)|
  {
    var days := Days(rows);
    DaysAreAll(rows);
    FirstDaysSize(days, |days|);
    forall d ensures d in FirstDays(days, |days|) <==> d in DaySet(rows) {
      FirstDaysMembers(days, |days|, d);
    }
    assert FirstDays(days, |days|) == DaySet(rows);
  }

  /** A prune acts exactly when events have more than `keepDays` days. Then it records as the cutoff the day that has
      `keepDays - 1` later ones; otherwise it changes nothing. */
  lemma CutoffIsRecorded(t: Tables, keepDays: nat)
    requires keepDays > 0
    ensures var t' := PruneEffect(t, keepDays);
            if keepDays < |DaySet(t.events)| then
              t'.cutoff.Some? && t'.cutoff.value in DaySet(t.events) && |Later(t.events, t'.cutoff.value)| == keepDays - 1
            else t' == t
  {
    DaysAreCounted(t.events);
    if keepDays < |Days(t.events)| {
      DaysAreAll(t.events);
      assert Days(t.events)[keepDays - 1] in Days(t.events);
      LaterAreFirst(t.events, keepDays - 1);
      FirstDaysSize(Days(t.events), keepDays - 1);
    }
  }

  // ---------------------------------------------------------------- the invariant

  lemma PruneKeepsIndex(t: Tables, cutoff: int)
    requires IndexOk(t)
    ensures IndexOk(PruneAt(t, cutoff))
  {
    var t', gone := PruneAt(t, cutoff), RemovableSteps(t, cutoff);
    forall s ensures StepAt(t'.steps, s) == StepIn(EventFacts(t'.events), s) {
      if s in gone {
        KeptIsFiltered(t, cutoff);
        StepInExists(t'.events, s);
      } else {
        StepInFilter(t.events, OutsideSteps(gone), s);
        StepInFilter(Filter(t.events, OutsideSteps(gone)), NotStale(cutoff), s);
      }
    }
  }

  lemma PruneKeepsOneOwner(t: Tables, cutoff: int)
    requires OneOwner(t)
    ensures OneOwner(PruneAt(t, cutoff))
  {
    KeptIsFiltered(t, cutoff);
    assert Claims(PruneAt(t, cutoff)) <= Claims(t);
  }

  function DifferentId(): (EventRow, EventRow) -> bool { (a: EventRow, b: EventRow) => a.about.eventId != b.about.eventId }

  function RisingSeq(): (EventRow, EventRow) -> bool
  {
    (a: EventRow, b: EventRow) => a.about.runId == b.about.runId ==> a.seqNo < b.seqNo
  }

  lemma FilterKeepsOrder(events: seq<EventRow>, p: EventRow -> bool)
    requires SeqsRise(events)
    ensures SeqsRise(Filter(events, p))
  {
    assert Pairwise(events, RisingSeq());
    FilterPairwise(events, p, RisingSeq());
    var kept := Filter(events, p);
    forall i, j | 0 <= i < j < |kept| && kept[i].about.runId == kept[j].about.runId ensures kept[i].seqNo < kept[j].seqNo {
      assert RisingSeq()(kept[i], kept[j]);
    }
  }

  lemma FilterKeepsIds(events: seq<EventRow>, p: EventRow -> bool)
    requires IdsApart(events)
    ensures IdsApart(Filter(events, p))
  {
    assert Pairwise(events, DifferentId());
    FilterPairwise(events, p, DifferentId());
    var kept := Filter(events, p);
    forall i, j | 0 <= i < j < |kept| ensures kept[i].about.eventId != kept[j].about.eventId {
      assert DifferentId()(kept[i], kept[j]);
    }
  }

  lemma PruneKeepsRows(c: Codec, t: Tables, cutoff: int)
    requires RowsOk(c, t) && IdsDistinct(t)
    ensures RowsOk(c, PruneAt(t, cutoff)) && IdsDistinct(PruneAt(t, cutoff))
  {
    var t', some := PruneAt(t, cutoff), Filter(t.events, OutsideSteps(RemovableSteps(t, cutoff)));
    FilterKeepsIds(t.events, OutsideSteps(RemovableSteps(t, cutoff)));
    FilterKeepsIds(some, NotStale(cutoff));
    KeptIsFiltered(t, cutoff);
    forall e | e in t'.events ensures RowOk(c, t', e) && e in t.events {
      assert RowOk(c, t, e);
    }
  }

  lemma PruneKeepsConsistent(c: Codec, t: Tables, keepDays: nat)
    requires Consistent(c, t)
    ensures Consistent(c, PruneEffect(t, keepDays))
  {
    if 0 < keepDays < |Days(t.events)| {
      var cutoff := Days(t.events)[keepDays - 1];
      PruneKeepsIndex(t, cutoff);
      PruneKeepsOneOwner(t, cutoff);
      PruneKeepsRows(c, t, cutoff);
      FilterKeepsOrder(t.events, OutsideSteps(RemovableSteps(t, cutoff)));
      FilterKeepsOrder(Filter(t.events, OutsideSteps(RemovableSteps(t, cutoff))), NotStale(cutoff));
    }
  }

  // ---------------------------------------------------------------- again

  /** Two descending lists agree on their first `k` days if the second keeps all of those and adds none. */
  lemma {:induction false} SameNewest(a: seq<int>, b: seq<int>, k: nat, i: nat)
    requires Descending(a) && Descending(b) && i < k <= |a| && k <= |b|
    requires forall d :: d in b ==> d in a
    requires forall j :: 0 <= j < k ==> a[j] in b
    ensures b[i] == a[i]
  {
    forall m | 0 <= m < i ensures b[m] == a[m] {
      SameNewest(a, b, k, m);
    }
    assert b[i] in b && a[i] in b;
    var p :| 0 <= p < |a| && a[p] == b[i];
    var q :| 0 <= q < |b| && b[q] == a[i];
  }

  lemma KeptDays(t: Tables, cutoff: int)
    ensures DaySet(Kept(t, cutoff)) <= DaySet(t.events)
    ensures forall d :: d in DaySet(t.events) && d >= cutoff ==> d in DaySet(Kept(t, cutoff))
  {
    KeptIsFiltered(t, cutoff);
    forall d | d in DaySet(t.events) && d >= cutoff ensures d in DaySet(Kept(t, cutoff)) {
      var e :| e in t.events && e.eventDay == d;
      assert e.about.stepId.Some? ==> IsOfStep(e, e.about.stepId.value);
      assert e in Kept(t, cutoff);
    }
  }

  lemma SameCutoff(rows: seq<EventRow>, kept: seq<EventRow>, keepDays: nat)
    requires 0 < keepDays < |Days(rows)| && keepDays < |Days(kept)|
    requires DaySet(kept) <= DaySet(rows)
    requires forall d :: d in DaySet(rows) && d >= Days(rows)[keepDays - 1] ==> d in DaySet(kept)
    ensures Days(kept)[keepDays - 1] == Days(rows)[keepDays - 1]
  {
    var a, b := Days(rows), Days(kept);
    DaysAreAll(rows);
    DaysAreAll(kept);
    forall j | 0 <= j < keepDays ensures a[j] in b {
      assert a[j] in a;
    }
    SameNewest(a, b, keepDays, keepDays - 1);
  }

  lemma RemovableWasRemovable(t: Tables, cutoff: int, s: string)
    requires Removable(PruneAt(t, cutoff), cutoff, s)
    ensures Removable(t, cutoff, s)
  {
    var t' := PruneAt(t, cutoff);
    KeptIsFiltered(t, cutoff);
    forall e | e in t.events && IsOfStep(e, s) ensures e.eventDay < cutoff {
      assert e in t'.events;
    }
  }

  lemma NothingLeftToRemove(t: Tables, cutoff: int)
    ensures RemovableSteps(PruneAt(t, cutoff), cutoff) == {}
  {
    var t' := PruneAt(t, cutoff);
    forall s | s in t'.steps ensures !Removable(t', cutoff, s) {
      assert s !in RemovableSteps(t, cutoff);
      if Removable(t', cutoff, s) {
        RemovableWasRemovable(t, cutoff, s);
      }
    }
  }

  lemma PruneAtTwice(t: Tables, cutoff: int)
    ensures PruneAt(PruneAt(t, cutoff), cutoff) == PruneAt(t, cutoff)
  {
    var t' := PruneAt(t, cutoff);
    NothingLeftToRemove(t, cutoff);
    KeptIsFiltered(t, cutoff);
    FilterAll(t'.events, OutsideSteps({}));
    FilterAll(t'.events, NotStale(cutoff));
    assert PruneAt(t', cutoff).steps == t'.steps;
    forall r ensures RemovableOf(t', cutoff, r) == {} {
      assert RemovableOf(t', cutoff, r) <= RemovableSteps(t', cutoff);
    }
    assert PruneAt(t', cutoff).removed == t'.removed;
  }

  /** A second identical prune changes nothing and reports nothing deleted. */
  lemma PruneIsIdempotent(t: Tables, keepDays: nat)
    ensures PruneEffect(PruneEffect(t, keepDays), keepDays) == PruneEffect(t, keepDays)
    ensures keepDays > 0 ==> PruneResult(PruneEffect(t, keepDays), keepDays) == Ok(0)
  {
    var t' := PruneEffect(t, keepDays);
    if 0 < keepDays < |Days(t.events)| && keepDays < |Days(t'.events)| {
      KeptDays(t, Days(t.events)[keepDays - 1]);
      SameCutoff(t.events, t'.events, keepDays);
      PruneAtTwice(t, Days(t.events)[keepDays - 1]);
    }
  }
}
