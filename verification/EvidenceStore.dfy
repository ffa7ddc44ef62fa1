/** The evidence store itself: each method is one transaction, proved to have the effect given for it. */
module EvidenceStores {
  import opened Json
  import opened Text
  import opened Rows
  import opened Evidence
  import opened EvidenceInvariant
  import opened EvidenceRetention
  import opened EvidenceRuns
  import opened EvidenceHash
  import opened EvidenceBundle

  // ---------------------------------------------------------------- loops that change nothing

  lemma {:induction false} InsertSkipsNewer(days: seq<int>, day: int, k: nat)
    requires k <= |days| && forall j :: 0 <= j < k ==> days[j] > day
    ensures InsertDay(days, day) == days[..k] + InsertDay(days[k..], day)
  {
    if k > 0 {
      InsertSkipsNewer(days[1..], day, k - 1);
      assert days[1..][k - 1..] == days[k..];
      assert days[..k] == [days[0]] + days[1..][..k - 1];
    } else {
      assert days[..0] == [] && days[0..] == days;
    }
  }

  method AddDay(days: seq<int>, day: int) returns (more: seq<int>)
    ensures more == InsertDay(days, day)
  {
    var k := 0;
    while k < |days| && days[k] > day
      invariant 0 <= k <= |days|
      invariant forall j :: 0 <= j < k ==> days[j] > day
    {
      k := k + 1;
    }
    InsertSkipsNewer(days, day, k);
    more := if k == |days| || days[k] != day then days[..k] + [day] + days[k..] else days[..k] + days[k..];
  }

  method DistinctDays(rows: seq<EventRow>) returns (days: seq<int>)
    ensures days == Days(rows)
  {
    days := [];
    for i := 0 to |rows|
      invariant days == Days(rows[..i])
    {
      assert rows[..i + 1][..i] == rows[..i];
      days := AddDay(days, rows[i].eventDay);
    }
    assert rows[..|rows|] == rows;
  }

  /** `derive_steps`. */
  method DeriveStepsLoop(facts: seq<Facts>) returns (r: Result<map<string, StepRow>>)
    ensures r == DeriveSteps(facts)
  {
    var steps: map<string, StepRow> := map[];
    for i := 0 to |facts|
      invariant DeriveSteps(facts[..i]) == Ok(steps)
    {
      assert facts[..i + 1][..i] == facts[..i];
      var a := facts[i];
      if a.stepId.Some? {
        var stepId := a.stepId.value;
        ghost var before := steps;
        if stepId !in steps {
          steps := steps[stepId := StepRow(a.runId, a.sessionId, a.occurredAtMs, a.occurredAtMs, "running")];
        }
        var entry := steps[stepId];
        if entry.runId != a.runId || entry.sessionId != a.sessionId {
          DeriveStopsAtError(facts, i + 1);
          return Err(StepOfOtherOwner);
        }
        entry := entry.(updatedAtMs := a.occurredAtMs);
        var status := TerminalStepStatus(a.eventType);
        if status.Some? {
          entry := entry.(status := status.value);
        }
        steps := steps[stepId := entry];
        assert steps == before[stepId := StepAfter(StepAt(before, stepId), a)];
      }
    }
    assert facts[..|facts|] == facts;
    r := Ok(steps);
  }

  lemma {:induction false} DeriveStopsAtError(facts: seq<Facts>, n: nat)
    requires n <= |facts| && DeriveSteps(facts[..n]).Err?
    ensures DeriveSteps(facts) == DeriveSteps(facts[..n])
    decreases |facts|
  {
    if n == |facts| {
      assert facts[..n] == facts;
    } else {
      assert facts[..|facts| - 1][..n] == facts[..n];
      DeriveStopsAtError(facts[..|facts| - 1], n);
    }
  }

  /** The last terminal status any event of the run sets. */
  method LastStatus(facts: seq<Facts>) returns (status: string)
    ensures status == RunStatus(facts)
  {
    var i := |facts|;
    assert facts[..i] == facts;
    while i > 0 && TerminalRunStatus(facts[i - 1].eventType).None?
      invariant 0 <= i <= |facts|
      invariant LastRunStatus(facts) == LastRunStatus(facts[..i])
    {
      assert facts[..i][..i - 1] == facts[..i - 1];
      i := i - 1;
    }
    status := if i == 0 then "evidence" else TerminalRunStatus(facts[i - 1].eventType).value;
  }

  method WriteRowsLoop(c: Codec, records: seq<Record>) returns (r: Result<seq<EventRow>>)
    ensures r == WriteRows(c, records)
  {
    var rows: seq<EventRow> := [];
    for i := 0 to |records|
      invariant WriteRows(c, records[..i]) == Ok(rows)
    {
      assert records[..i + 1][..i] == records[..i];
      var text := c.render(records[i].payload);
      if text.None? {
        WriteStopsAtError(c, records, i + 1);
        return Err(PayloadNotFinite);
      }
      var a := records[i].about;
      rows := rows + [EventRow(a, records[i].seqNo, records[i].payloadHash, text.value, Day(a.occurredAtMs))];
    }
    assert records[..|records|] == records;
    r := Ok(rows);
  }

  lemma {:induction false} WriteStopsAtError(c: Codec, records: seq<Record>, n: nat)
    requires n <= |records| && WriteRows(c, records[..n]).Err?
    ensures WriteRows(c, records) == WriteRows(c, records[..n])
    decreases |records|
  {
    if n == |records| {
      assert records[..n] == records;
    } else {
      assert records[..|records| - 1][..n] == records[..n];
      WriteStopsAtError(c, records[..|records| - 1], n);
    }
  }

  /** `replay_bundle`: reads a bundle file, checks it, and changes nothing. */
  method ReplayBundle(c: Codec, b: Bundle) returns (r: Result<Summary>)
    ensures r == Replay(c, b)
  {
    if b.schema.None? { return Err(MetadataMissing); }
    if b.schema.value != BUNDLE_SCHEMA { return Err(UnsupportedSchema); }
    if b.runId.None? || b.eventHash.None? || b.eventCount.None? { return Err(MetadataMissing); }
    var runId, expectedCount := b.runId.value, b.eventCount.value;
    var read := ReadEvents(c, b.events, runId);
    if read.Err? { return Err(read.error); }
    var records := read.value;
    var canonical := CanonicalString(records);
    var actualHash := c.hash(canonical);
    var steps := DeriveStepsLoop(RecordFacts(records));
    var expectedStatus := LastStatus(RecordFacts(records));
    ghost var recomputed := Recompute(c, records);
    assert recomputed == Recomputed(actualHash, steps, expectedStatus);
    if |records| != expectedCount || |b.events| != expectedCount || |b.runs| != 1 || actualHash != b.eventHash.value {
      return Err(ReceiptMismatch);
    }
    if steps.Err? { return Err(steps.error); }
    if b.steps != steps.value { return Err(StepMismatch); }
    if runId !in b.runs { return Err(RunMismatch); }
    if records == [] { return Err(NoEvents); }
    var run := b.runs[runId];
    if run.sessionId != records[0].about.sessionId || run.status != expectedStatus || c.parse(run.stateJson) != Some(map[]) {
      return Err(RunMismatch);
    }
    r := Ok(Summarized(b, runId, actualHash, records, run));
  }

  /** The tables without some steps and their events. */
  function SansSteps(t: Tables, gone: set<string>): Tables
  {
    t.(events := Filter(t.events, OutsideSteps(gone)), steps := map s | s in t.steps && s !in gone :: t.steps[s])
  }

  lemma SansNothing(t: Tables)
    ensures SansSteps(t, {}) == t
  {
    FilterAll(t.events, OutsideSteps({}));
    assert SansSteps(t, {}).steps == t.steps;
  }

  lemma SansOneMore(t: Tables, gone: set<string>, stepId: string)
    ensures SansSteps(SansSteps(t, gone), {stepId}) == SansSteps(t, gone + {stepId})
  {
    FilterTwice(t.events, OutsideSteps(gone), OutsideSteps({stepId}), OutsideSteps(gone + {stepId}));
    assert SansSteps(SansSteps(t, gone), {stepId}).steps == SansSteps(t, gone + {stepId}).steps;
  }

  // ---------------------------------------------------------------- the store

  class EvidenceStore {
    const codec: Codec
    var tables: Tables

    constructor (codec: Codec)
      ensures this.codec == codec && tables == EMPTY
    {
      this.codec := codec;
      tables := EMPTY;
    }

    method Enqueue(input: Input) returns (r: Result<bool>)
      modifies this
      ensures r == EnqueueResult(codec, old(tables), input)
      ensures tables == EnqueueEffect(codec, old(tables), input)
    {
      var a, text := input.about, codec.render(input.payload);
      if !ValidEvent(a) { return Err(InvalidField); }
      if text.None? { return Err(PayloadNotFinite); }
      if ByteLen(text.value) > MAX_PAYLOAD_BYTES { return Err(PayloadTooLarge); }
      var session := RunSession(tables, a.runId);
      if session.Some? && session.value != a.sessionId { return Err(RunOfOtherSession); }
      if a.stepId.Some? {
        var owner := StepOwner(tables, a.stepId.value);
        if owner.Some? && (owner.value.0 != a.runId || owner.value.1 != a.sessionId) { return Err(StepOfOtherOwner); }
      }
      var existing := Stored(tables, a.eventId);
      if existing.None? {
        tables := tables.(queue := tables.queue + [Queued(a, Day(a.occurredAtMs), text.value)]);
        return Ok(true);
      }
      if existing.value.0 == a && existing.value.1 == text.value { return Ok(false); }
      r := Err(ConflictingEvent);
    }

    /** The number of queued events: a batch of just that size takes each of them and leaves nothing behind. */
    method PendingCount() returns (n: nat)
      ensures n == |tables.queue|
      ensures Lawful(codec) && Consistent(codec, tables) && 0 < n <= MAX_I64 ==>
                ProjectResult(codec, tables, n) == Ok(Receipt(n, n, 0)) && ProjectEffect(codec, tables, n).queue == []
    {
      n := |tables.queue|;
      if Lawful(codec) && Consistent(codec, tables) {
        BatchCounts(codec, tables, n);
        BatchMoves(codec, tables, n);
      }
    }

    /** The turn of the batch loop for the oldest queued event. */
    method Settle(receipt: Receipt) returns (r: Receipt)
      requires Lawful(codec) && tables.queue != []
      modifies this
      ensures tables == ProjectOne(codec, old(tables))
      ensures r == Account(receipt, Judge(codec, old(tables), old(tables.queue[0])))
    {
      var event := tables.queue[0];
      var a, payload := event.about, codec.parse(event.payloadJson);
      tables := tables.(queue := tables.queue[1..]);
      r := receipt.(acked := receipt.acked + 1);
      if ByteLen(event.payloadJson) > MAX_PAYLOAD_BYTES || payload.None? {
        r := r.(droppedInvalid := r.droppedInvalid + 1);
        return;
      }
      assert Reprints(codec, event.payloadJson);
      var text := codec.render(payload.value).value;
      if !ValidEvent(a) || event.eventDay != Day(a.occurredAtMs) || ByteLen(text) > MAX_PAYLOAD_BYTES {
        r := r.(droppedInvalid := r.droppedInvalid + 1);
        return;
      }
      var existing := First(tables.events, RowHasId(a.eventId));
      if existing.Some? {
        var row := existing.value;
        if !(row.about == a && row.payloadHash == codec.hash(text) && row.payloadRef == text) {
          r := r.(droppedInvalid := r.droppedInvalid + 1);
        }
        return;
      }
      var invalidOwner := a.runId in tables.runs && tables.runs[a.runId].sessionId != a.sessionId;
      if a.stepId.Some? && a.stepId.value in tables.steps {
        var owner := tables.steps[a.stepId.value];
        invalidOwner := invalidOwner || owner.runId != a.runId || owner.sessionId != a.sessionId;
      }
      if invalidOwner {
        r := r.(droppedInvalid := r.droppedInvalid + 1);
        return;
      }
      Insert(event, text);
      r := r.(projected := r.projected + 1);
    }

    /** The rows one projected event inserts and updates. */
    method Insert(event: Queued, text: string)
      modifies this
      ensures tables == old(tables).(
                runs := TouchRuns(old(tables.runs), event.about), steps := TouchSteps(old(tables.steps), event.about),
                events := old(tables.events)
                          + [EventRow(event.about, NextSeq(old(tables), event.about.runId), codec.hash(text), text, event.eventDay)])
    {
      var a, runs, steps := event.about, tables.runs, tables.steps;
      if a.runId !in runs {
        runs := runs[a.runId := RunRow(a.sessionId, "active", "{}", a.occurredAtMs, a.occurredAtMs)];
      }
      if a.stepId.Some? {
        var stepId, status := a.stepId.value, TerminalStepStatus(a.eventType);
        if stepId !in steps {
          steps := steps[stepId := StepRow(a.runId, a.sessionId, a.occurredAtMs, a.occurredAtMs, Or(status, "running"))];
        }
        steps := steps[stepId := steps[stepId].(status := Or(status, steps[stepId].status), updatedAtMs := a.occurredAtMs)];
      }
      var row := EventRow(a, NextSeq(tables, a.runId), codec.hash(text), text, event.eventDay);
      runs := runs[a.runId := runs[a.runId].(status := Or(TerminalRunStatus(a.eventType), runs[a.runId].status),
                                             updatedAtMs := a.occurredAtMs)];
      tables := tables.(runs := runs, steps := steps, events := tables.events + [row]);
    }

    method ProjectBatch(limit: nat) returns (r: Result<Receipt>)
      requires Lawful(codec)
      modifies this
      ensures r == ProjectResult(codec, old(tables), limit)
      ensures tables == ProjectEffect(codec, old(tables), limit)
    {
      if limit == 0 { return Err(LimitNotPositive); }
      if limit > MAX_I64 { return Err(LimitTooLarge); }
      var count := if limit < |tables.queue| then limit else |tables.queue|;
      var receipt := NOTHING;
      ghost var was := tables;
      for i := 0 to count
        invariant tables == ProjectN(codec, was, i) && receipt == ReceiptOf(codec, was, i)
        invariant |tables.queue| == |was.queue| - i
      {
        BatchTurn(codec, was, i, tables);
        receipt := Settle(receipt);
      }
      BatchStopsWhenDry(codec, was, count, limit);
      r := Ok(receipt);
    }

    method Events(runId: string) returns (r: Result<seq<Record>>)
      ensures r == EventsResult(codec, tables, runId)
    {
      if IsBlank(runId) { return Err(InvalidField); }
      r := ReadEvents(codec, tables.events, runId);
    }

    /** Deletes steps one by one, with their events, and counts them by run. */
    method DeleteSteps(doomed: set<string>) returns (removedByRun: map<string, nat>)
      requires doomed <= tables.steps.Keys
      modifies this
      ensures tables == SansSteps(old(tables), doomed)
      ensures Counts(old(tables.steps), doomed, removedByRun)
    {
      ghost var was, gone: set<string> := tables, {};
      var todo := doomed;
      removedByRun := map[];
      SansNothing(was);
      CountsNothing(was.steps);
      while todo != {}
        invariant todo <= doomed && gone == doomed - todo
        invariant tables == SansSteps(was, gone)
        invariant Counts(was.steps, gone, removedByRun)
        decreases todo
      {
        var stepId :| stepId in todo;
        var runId := tables.steps[stepId].runId;
        SansOneMore(was, gone, stepId);
        CountsOneMore(was.steps, gone, removedByRun, stepId);
        tables := SansSteps(tables, {stepId});
        removedByRun := removedByRun[runId := RemovedAt(removedByRun, runId) + 1];
        todo := todo - {stepId};
        assert gone + {stepId} == doomed - todo;
        gone := doomed - todo;
      }
      assert gone == doomed;
    }

    method PruneToActiveEventDays(keepDays: nat) returns (r: Result<nat>)
      modifies this
      ensures r == PruneResult(old(tables), keepDays)
      ensures tables == PruneEffect(old(tables), keepDays)
    {
      if keepDays == 0 { return Err(KeepNotPositive); }
      var days := DistinctDays(tables.events);
      if |days| <= keepDays { return Ok(0); }
      var was, cutoff := tables, days[keepDays - 1];
      var doomed := RemovableSteps(tables, cutoff);
      var removedByRun := DeleteSteps(doomed);
      var removed := AddCounts(tables.removed, removedByRun);
      MetadataIsCounted(was, cutoff, removedByRun, removed);
      tables := tables.(events := Filter(tables.events, NotStale(cutoff)), cutoff := Some(cutoff), removed := removed);
      r := Ok(|was.events| - |tables.events|);
    }

    method ExportBundle(runId: string, targetExists: bool) returns (r: Result<(Bundle, BundleReceipt)>)
      ensures r == ExportTo(codec, tables, runId, targetExists)
    {
      var read := ReadEvents(codec, tables.events, runId);
      if read.Err? { return Err(read.error); }
      if read.value == [] { return Err(NoEvents); }
      if targetExists { return Err(TargetExists); }
      var records, facts := read.value, RecordFacts(read.value);
      var removed := if runId in tables.removed then tables.removed[runId] else 0;
      var status := LastStatus(facts);
      var steps := DeriveStepsLoop(facts);
      if steps.Err? { return Err(steps.error); }
      var rows := WriteRowsLoop(codec, records);
      if rows.Err? { return Err(rows.error); }
      var canonical := CanonicalString(records);
      var hash := codec.hash(canonical);
      var run := RunRow(facts[0].sessionId, status, "{}", facts[0].occurredAtMs, facts[|facts| - 1].occurredAtMs);
      r := Ok((Bundle(Some(BUNDLE_SCHEMA), Some(runId), Some(|records|), Some(hash), Some(removed), tables.cutoff,
                      map[runId := run], steps.value, rows.value),
               BundleReceipt(runId, |records|, hash, tables.cutoff, removed)));
    }
  }

  // ---------------------------------------------------------------- lemmas of the loops

  lemma BatchTurn(c: Codec, t: Tables, i: nat, m: Tables)
    requires Lawful(c) && m == ProjectN(c, t, i) && m.queue != []
    ensures ProjectN(c, t, i + 1) == ProjectOne(c, m) && |ProjectOne(c, m).queue| == |m.queue| - 1
    ensures ReceiptOf(c, t, i + 1) == Account(ReceiptOf(c, t, i), Judge(c, m, m.queue[0]))
  {
  }

  predicate SameBatch(c: Codec, t: Tables, a: nat, b: nat)
    requires Lawful(c)
  {
    ProjectN(c, t, a) == ProjectN(c, t, b) && ReceiptOf(c, t, a) == ReceiptOf(c, t, b)
  }

  lemma DryTurn(c: Codec, t: Tables, n: nat, k: nat)
    requires Lawful(c) && ProjectN(c, t, n).queue == [] && SameBatch(c, t, k, n)
    ensures SameBatch(c, t, k + 1, n)
  {
  }

  lemma {:induction false} BatchStopsWhenDry(c: Codec, t: Tables, n: nat, limit: nat)
    requires Lawful(c) && n <= limit && (n < limit ==> ProjectN(c, t, n).queue == [])
    ensures SameBatch(c, t, limit, n)
    decreases limit
  {
    if n < limit {
      BatchStopsWhenDry(c, t, n, limit - 1);
      DryTurn(c, t, n, limit - 1);
    }
  }

  ghost function LostBy(steps: map<string, StepRow>, gone: set<string>, runId: string): set<string>
  {
    set s | s in gone && s in steps && steps[s].runId == runId
  }

  ghost function RunsLosing(steps: map<string, StepRow>, gone: set<string>): set<string>
  {
    set s | s in gone && s in steps :: steps[s].runId
  }

  /** `counts` says how many of the steps in `gone` each run loses. */
  ghost predicate Counts(steps: map<string, StepRow>, gone: set<string>, counts: map<string, nat>)
  {
    counts.Keys == RunsLosing(steps, gone) && forall r :: CountAt(steps, gone, counts, r)
  }

  ghost predicate CountAt(steps: map<string, StepRow>, gone: set<string>, counts: map<string, nat>, r: string)
  {
    RemovedAt(counts, r) == |LostBy(steps, gone, r)|
  }

  lemma CountsNothing(steps: map<string, StepRow>)
    ensures Counts(steps, {}, map[])
  {
    forall r ensures CountAt(steps, {}, map[], r) {
      assert LostBy(steps, {}, r) == {};
    }
  }

  lemma CountsOneMore(steps: map<string, StepRow>, gone: set<string>, counts: map<string, nat>, stepId: string)
    requires Counts(steps, gone, counts) && stepId in steps && stepId !in gone
    ensures var runId := steps[stepId].runId;
            Counts(steps, gone + {stepId}, counts[runId := RemovedAt(counts, runId) + 1])
  {
    var runId := steps[stepId].runId;
    var more := counts[runId := RemovedAt(counts, runId) + 1];
    assert RunsLosing(steps, gone + {stepId}) == RunsLosing(steps, gone) + {runId};
    forall r ensures CountAt(steps, gone + {stepId}, more, r) {
      assert CountAt(steps, gone, counts, r);
      LostOneMore(steps, gone, stepId, r);
    }
  }

  lemma LostOneMore(steps: map<string, StepRow>, gone: set<string>, stepId: string, r: string)
    requires stepId in steps && stepId !in gone
    ensures |LostBy(steps, gone + {stepId}, r)| == |LostBy(steps, gone, r)| + if r == steps[stepId].runId then 1 else 0
  {
    assert LostBy(steps, gone + {stepId}, r) == LostBy(steps, gone, r) + if r == steps[stepId].runId then {stepId} else {};
    assert stepId !in LostBy(steps, gone, r);
  }

  method AddCounts(before: map<string, nat>, counts: map<string, nat>) returns (after: map<string, nat>)
    ensures after.Keys == before.Keys + counts.Keys
    ensures forall x :: x in after ==> after[x] == RemovedAt(before, x) + RemovedAt(counts, x)
  {
    var todo := counts.Keys;
    after := before;
    while todo != {}
      invariant todo <= counts.Keys && after.Keys == before.Keys + (counts.Keys - todo)
      invariant forall x :: x in after ==> after[x] == RemovedAt(before, x) + if x in todo then 0 else RemovedAt(counts, x)
      decreases todo
    {
      var runId :| runId in todo;
      after := after[runId := RemovedAt(after, runId) + counts[runId]];
      todo := todo - {runId};
    }
  }

  lemma MetadataIsCounted(t: Tables, cutoff: int, counts: map<string, nat>, removed: map<string, nat>)
    requires Counts(t.steps, RemovableSteps(t, cutoff), counts)
    requires removed.Keys == t.removed.Keys + counts.Keys
    requires forall x :: x in removed ==> removed[x] == RemovedAt(t.removed, x) + RemovedAt(counts, x)
    ensures removed == PruneAt(t, cutoff).removed
  {
    var gone, after := RemovableSteps(t, cutoff), PruneAt(t, cutoff).removed;
    assert RunsLosing(t.steps, gone) == set s | s in gone :: t.steps[s].runId;
    forall r | r in removed ensures removed[r] == after[r] {
      assert CountAt(t.steps, gone, counts, r);
      assert LostBy(t.steps, gone, r) == RemovableOf(t, cutoff, r);
    }
  }
}
