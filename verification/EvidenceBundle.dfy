/** Export of a run to a bundle, validating replay of a bundle, and that the two are inverse. */
module EvidenceBundle {
  import opened Json
  import opened Text
  import opened Rows
  import opened Evidence
  import opened EvidenceInvariant
  import opened EvidenceRetention
  import opened EvidenceHash
  import opened EvidenceRuns

  /** A bundle file. Its metadata may be missing in a file nobody exported. */
  datatype Bundle = Bundle(
    schema: Option<string>, runId: Option<string>, eventCount: Option<nat>, eventHash: Option<string>,
    removed: Option<nat>, cutoff: Option<int>,
    runs: map<string, RunRow>, steps: map<string, StepRow>, events: seq<EventRow>)

  datatype BundleReceipt = BundleReceipt(
    runId: string, eventCount: nat, eventHash: string, cutoff: Option<int>, removed: nat)

  datatype Summary = Summary(
    runId: string, eventCount: nat, eventHash: string, eventTypes: seq<string>, timeline: seq<Record>,
    sessionId: string, runStatus: string, stepCount: nat, lastEventType: string, lastOccurredAtMs: int,
    failureAttributions: seq<Object>, cutoff: Option<int>, removed: nat)

  function RunStatus(facts: seq<Facts>): string { Or(LastRunStatus(facts), "evidence") }

  // ---------------------------------------------------------------- export

  function WriteRows(c: Codec, records: seq<Record>): Result<seq<EventRow>>
  {
    if records == [] then Ok([])
    else
      var init, r := WriteRows(c, records[..|records| - 1]), records[|records| - 1];
      var text := c.render(r.payload);
      if init.Err? then init
      else if text.None? then Err(PayloadNotFinite)
      else Ok(init.value + [EventRow(r.about, r.seqNo, r.payloadHash, text.value, Day(r.about.occurredAtMs))])
  }

  function ExportReceipt(c: Codec, t: Tables, runId: string, records: seq<Record>): BundleReceipt
  {
    BundleReceipt(runId, |records|, EventHash(c, records), t.cutoff, RemovedAt(t.removed, runId))
  }

  function Export(c: Codec, t: Tables, runId: string): Result<(Bundle, BundleReceipt)>
  {
    var read := ReadEvents(c, t.events, runId);
    if read.Err? then Err(read.error)
    else if read.value == [] then Err(NoEvents)
    else
      var records := read.value;
      var facts, receipt := RecordFacts(records), ExportReceipt(c, t, runId, records);
      var steps, rows := DeriveSteps(facts), WriteRows(c, records);
      if steps.Err? then Err(steps.error)
      else if rows.Err? then Err(rows.error)
      else
        var run := RunRow(facts[0].sessionId, RunStatus(facts), "{}", facts[0].occurredAtMs, facts[|facts| - 1].occurredAtMs);
        Ok((Bundle(Some(BUNDLE_SCHEMA), Some(runId), Some(receipt.eventCount), Some(receipt.eventHash), Some(receipt.removed),
                   receipt.cutoff, map[runId := run], steps.value, rows.value), receipt))
  }

  /** Export to a path: it never overwrites a file. */
  function ExportTo(c: Codec, t: Tables, runId: string, targetExists: bool): Result<(Bundle, BundleReceipt)>
  {
    var read := ReadEvents(c, t.events, runId);
    if read.Ok? && read.value != [] && targetExists then Err(TargetExists) else Export(c, t, runId)
  }

  // ---------------------------------------------------------------- replay

  function Attributions(records: seq<Record>): seq<Object>
  {
    if records == [] then []
    else
      var last := records[|records| - 1];
      Attributions(records[..|records| - 1]) + if last.about.eventType == "failure.attributed" then [last.payload] else []
  }

  function StepsOfRun(steps: map<string, StepRow>, runId: string): map<string, StepRow>
  {
    map s | s in steps && steps[s].runId == runId :: steps[s]
  }

  function Summarized(b: Bundle, runId: string, hash: string, records: seq<Record>, run: RunRow): Summary
    requires records != []
  {
    var last := records[|records| - 1].about;
    Summary(runId, |records|, hash, seq(|records|, i requires 0 <= i < |records| => records[i].about.eventType), records,
            run.sessionId, run.status, |StepsOfRun(b.steps, runId)|, last.eventType, last.occurredAtMs, Attributions(records),
            b.cutoff, if b.removed.Some? then b.removed.value else 0)
  }

  /** What a replay recomputes from the events before it compares. */
  datatype Recomputed = Recomputed(hash: string, steps: Result<map<string, StepRow>>, runStatus: string)

  function Recompute(c: Codec, records: seq<Record>): Recomputed
  {
    Recomputed(EventHash(c, records), DeriveSteps(RecordFacts(records)), RunStatus(RecordFacts(records)))
  }

  /** The first check that fails, in the order of the source. */
  function Objection(c: Codec, b: Bundle, runId: string, hash: string, count: nat, records: seq<Record>, r: Recomputed): Option<Problem>
  {
    if |records| != count || |b.events| != count || |b.runs| != 1 || r.hash != hash then Some(ReceiptMismatch)
    else if r.steps.Err? then Some(r.steps.error)
    else if b.steps != r.steps.value then Some(StepMismatch)
    else if runId !in b.runs then Some(RunMismatch)
    else if records == [] then Some(NoEvents)
    else if b.runs[runId].sessionId != records[0].about.sessionId || b.runs[runId].status != r.runStatus
            || c.parse(b.runs[runId].stateJson) != Some(map[]) then Some(RunMismatch)
    else None
  }

  function Replay(c: Codec, b: Bundle): Result<Summary>
  {
    if b.schema.None? then Err(MetadataMissing)
    else if b.schema.value != BUNDLE_SCHEMA then Err(UnsupportedSchema)
    else if b.runId.None? || b.eventHash.None? || b.eventCount.None? then Err(MetadataMissing)
    else
      var runId, read := b.runId.value, ReadEvents(c, b.events, b.runId.value);
      if read.Err? then Err(read.error)
      else
        var r := Recompute(c, read.value);
        var objection := Objection(c, b, runId, b.eventHash.value, b.eventCount.value, read.value, r);
        if objection.Some? then Err(objection.value)
        else Ok(Summarized(b, runId, r.hash, read.value, b.runs[runId]))
  }

  // ---------------------------------------------------------------- reading a consistent store

  lemma {:induction false} RisingIsSorted(rows: seq<EventRow>)
    requires forall i, j :: 0 <= i < j < |rows| ==> rows[i].seqNo < rows[j].seqNo
    ensures BySeq(rows) == rows
  {
    if rows != [] {
      var init, last := rows[..|rows| - 1], rows[|rows| - 1];
      RisingIsSorted(init);
      assert init != [] ==> init[|init| - 1] == rows[|rows| - 2];
      assert BySeq(rows) == InsertBySeq(init, last) == init + [last];
    }
  }

  lemma RowsOfRise(t: Tables, runId: string)
    requires SeqsRise(t.events)
    ensures BySeq(RowsOf(t, runId)) == RowsOf(t, runId)
    ensures forall e :: e in RowsOf(t, runId) <==> e in t.events && e.about.runId == runId
  {
    FilterKeepsOrder(t.events, InRun(runId));
    FilterMembers(t.events, InRun(runId));
    var rows := RowsOf(t, runId);
    assert forall i :: 0 <= i < |rows| ==> rows[i] in rows;
    RisingIsSorted(rows);
  }

  ghost predicate Readable(c: Codec, rows: seq<EventRow>)
  {
    forall e :: e in rows ==> Encodes(c, e.payloadRef) && e.payloadHash == c.hash(e.payloadRef) && e.eventDay == Day(e.about.occurredAtMs)
  }

  function RecordOf(c: Codec, e: EventRow): Record
    requires c.parse(e.payloadRef).Some?
  {
    Record(e.about, e.seqNo, e.payloadHash, c.parse(e.payloadRef).value)
  }

  /** Reading rows and writing them out again gives the same rows. */
  lemma {:induction false} ReadableRoundTrip(c: Codec, rows: seq<EventRow>)
    requires Readable(c, rows)
    ensures ReadRows(c, rows).Ok? && |ReadRows(c, rows).value| == |rows|
    ensures forall i :: 0 <= i < |rows| ==> Encodes(c, rows[i].payloadRef) && ReadRows(c, rows).value[i] == RecordOf(c, rows[i])
    ensures WriteRows(c, ReadRows(c, rows).value) == Ok(rows)
    ensures RecordFacts(ReadRows(c, rows).value) == EventFacts(rows)
  {
    if rows != [] {
      var init, last := rows[..|rows| - 1], rows[|rows| - 1];
      assert rows == init + [last] && last in rows;
      ReadableRoundTrip(c, init);
      var records := ReadRows(c, rows).value;
      assert records == ReadRows(c, init).value + [RecordOf(c, last)];
      assert records[..|records| - 1] == ReadRows(c, init).value;
      assert forall i :: 0 <= i < |init| ==> rows[i] == init[i];
    }
  }

  lemma ConsistentReads(c: Codec, t: Tables, runId: string)
    requires Consistent(c, t)
    ensures var rows := RowsOf(t, runId);
            && ReadEvents(c, t.events, runId) == ReadRows(c, rows)
            && Readable(c, rows)
  {
    RowsOfRise(t, runId);
    forall e | e in RowsOf(t, runId)
      ensures Encodes(c, e.payloadRef) && e.payloadHash == c.hash(e.payloadRef) && e.eventDay == Day(e.about.occurredAtMs)
    {
      assert RowOk(c, t, e);
    }
  }

  // ---------------------------------------------------------------- the index recomputed

  ghost predicate OwnersAgree(facts: seq<Facts>)
  {
    forall i, j :: 0 <= i < |facts| && 0 <= j < |facts| && facts[i].stepId.Some? && facts[i].stepId == facts[j].stepId ==>
      facts[i].runId == facts[j].runId && facts[i].sessionId == facts[j].sessionId
  }

  lemma {:induction false} StepInOwner(facts: seq<Facts>, s: string, i: nat)
    requires OwnersAgree(facts) && i < |facts| && facts[i].stepId == Some(s) && StepIn(facts, s).Some?
    ensures StepIn(facts, s).value.runId == facts[i].runId && StepIn(facts, s).value.sessionId == facts[i].sessionId
    decreases |facts|
  {
    var init, n := facts[..|facts| - 1], |facts| - 1;
    if facts[n].stepId == Some(s) {
      if StepIn(init, s).Some? {
        var j := SomeIndex(init, s);
        StepInOwner(init, s, j);
        assert facts[j] == init[j];
      }
    } else {
      StepInOwner(init, s, i);
    }
  }

  lemma {:induction false} SomeIndex(facts: seq<Facts>, s: string) returns (j: nat)
    requires StepIn(facts, s).Some?
    ensures j < |facts| && facts[j].stepId == Some(s)
    decreases |facts|
  {
    j := |facts| - 1;
    if facts[j].stepId != Some(s) {
      j := SomeIndex(facts[..j], s);
    }
  }

  /** The batch recomputation finds each step's row as its own events determine it. */
  lemma {:induction false} DerivedRows(facts: seq<Facts>)
    requires OwnersAgree(facts)
    ensures DeriveSteps(facts).Ok? && forall s :: StepAt(DeriveSteps(facts).value, s) == StepIn(facts, s)
    decreases |facts|
  {
    if facts != [] {
      var init, a := facts[..|facts| - 1], facts[|facts| - 1];
      DerivedRows(init);
      if a.stepId.Some? && StepIn(init, a.stepId.value).Some? {
        var j := SomeIndex(init, a.stepId.value);
        StepInOwner(init, a.stepId.value, j);
        assert facts[j] == init[j];
      }
    }
  }

  lemma FactsAgree(t: Tables, rows: seq<EventRow>)
    requires OneOwner(t) && forall e :: e in rows ==> e in t.events
    ensures OwnersAgree(EventFacts(rows))
  {
    forall i, j | 0 <= i < |rows| && 0 <= j < |rows| && rows[i].about.stepId.Some? && rows[i].about.stepId == rows[j].about.stepId
      ensures rows[i].about.runId == rows[j].about.runId && rows[i].about.sessionId == rows[j].about.sessionId
    {
      assert rows[i] in rows && rows[j] in rows;
      assert ClaimOf(rows[i].about) in Claims(t) && ClaimOf(rows[j].about) in Claims(t);
      assert Agree(ClaimOf(rows[i].about), ClaimOf(rows[j].about));
    }
  }

  lemma StepOfRun(t: Tables, runId: string, s: string)
    requires OneOwner(t) && IndexOk(t)
    ensures StepAt(StepsOfRun(t.steps, runId), s) == StepIn(EventFacts(RowsOf(t, runId)), s)
  {
    StepInExists(t.events, s);
    StepInExists(RowsOf(t, runId), s);
    FilterMembers(t.events, InRun(runId));
    assert StepAt(t.steps, s) == StepIn(EventFacts(t.events), s);
    if s in t.steps {
      var mine := Claim(t.steps[s].runId, t.steps[s].sessionId, Some(s));
      assert mine in Claims(t);
      forall e | e in t.events && IsOfStep(e, s) ensures e.about.runId == t.steps[s].runId {
        assert ClaimOf(e.about) in Claims(t) && Agree(ClaimOf(e.about), mine);
      }
      if t.steps[s].runId == runId {
        StepInFilter(t.events, InRun(runId), s);
      }
    }
  }

  /** The incremental index is the batch recomputation: for every run of a reachable store, its rows in `steps`
      (owner, first time, last time, status) are what `derive_steps` gives for its events in sequence order. */
  lemma IndexIsRecomputation(c: Codec, t: Tables, runId: string)
    requires Consistent(c, t)
    ensures ReadEvents(c, t.events, runId).Ok?
    ensures DeriveSteps(RecordFacts(ReadEvents(c, t.events, runId).value)) == Ok(StepsOfRun(t.steps, runId))
  {
    var rows := RowsOf(t, runId);
    ConsistentReads(c, t, runId);
    ReadableRoundTrip(c, rows);
    FilterMembers(t.events, InRun(runId));
    FactsAgree(t, rows);
    DerivedRows(EventFacts(rows));
    var derived, indexed := DeriveSteps(EventFacts(rows)).value, StepsOfRun(t.steps, runId);
    forall s ensures StepAt(derived, s) == StepAt(indexed, s) {
      StepOfRun(t, runId, s);
    }
    SameRowsSameMap(derived, indexed);
  }

  lemma SameRowsSameMap(a: map<string, StepRow>, b: map<string, StepRow>)
    requires forall s :: StepAt(a, s) == StepAt(b, s)
    ensures a == b
  {
    forall s ensures s in a <==> s in b { assert StepAt(a, s) == StepAt(b, s); }
    forall s | s in a ensures a[s] == b[s] { assert StepAt(a, s) == StepAt(b, s); }
  }

  // ---------------------------------------------------------------- the round trip

  lemma ExportOfConsistent(c: Codec, t: Tables, runId: string)
    requires Consistent(c, t) && RowsOf(t, runId) != []
    ensures Export(c, t, runId).Ok?
    ensures var rows, b := RowsOf(t, runId), Export(c, t, runId).value.0;
            && b.events == rows && b.steps == StepsOfRun(t.steps, runId) && ReadRows(c, rows).Ok?
            && Export(c, t, runId).value.1 == ExportReceipt(c, t, runId, ReadRows(c, rows).value)
  {
    ConsistentReads(c, t, runId);
    ReadableRoundTrip(c, RowsOf(t, runId));
    IndexIsRecomputation(c, t, runId);
  }

  lemma BundleReads(c: Codec, t: Tables, runId: string)
    requires Consistent(c, t)
    ensures ReadEvents(c, RowsOf(t, runId), runId) == ReadEvents(c, t.events, runId)
  {
    RowsOfRise(t, runId);
    FilterMembers(t.events, InRun(runId));
    FilterAll(RowsOf(t, runId), InRun(runId));
  }

  /** What a replay gives back of an export. */
  ghost predicate GivesBack(c: Codec, t: Tables, runId: string, receipt: BundleReceipt, summary: Summary)
  {
    && Ok(summary.timeline) == ReadEvents(c, t.events, runId)
    && summary.runId == receipt.runId == runId
    && summary.eventCount == receipt.eventCount == |RowsOf(t, runId)|
    && summary.eventHash == receipt.eventHash
    && summary.cutoff == receipt.cutoff == t.cutoff
    && summary.removed == receipt.removed == RemovedAt(t.removed, runId)
    && summary.stepCount == |StepsOfRun(t.steps, runId)|
  }

  /** Replaying the bundle exported for any run with events passes every check and gives back the timeline,
      count, hash, retention cutoff and removed-turn count of the export. */
  lemma ExportReplays(c: Codec, t: Tables, runId: string)
    requires Lawful(c) && Consistent(c, t) && RowsOf(t, runId) != []
    ensures Export(c, t, runId).Ok? && Replay(c, Export(c, t, runId).value.0).Ok?
    ensures var (bundle, receipt) := Export(c, t, runId).value;
            GivesBack(c, t, runId, receipt, Replay(c, bundle).value)
  {
    ExportOfConsistent(c, t, runId);
    BundleReads(c, t, runId);
    ConsistentReads(c, t, runId);
    ReadableRoundTrip(c, RowsOf(t, runId));
    var steps := StepsOfRun(t.steps, runId);
    assert StepsOfRun(steps, runId) == steps;
    BundlePasses(c, t, runId);
  }

  predicate Passes(c: Codec, b: Bundle, runId: string, records: seq<Record>, r: Recomputed)
  {
    && b.eventHash == Some(r.hash) && b.eventCount == Some(|records|)
    && |b.events| == |records| && |b.runs| == 1 && r.steps == Ok(b.steps)
    && runId in b.runs && records != []
    && b.runs[runId].sessionId == records[0].about.sessionId && b.runs[runId].status == r.runStatus
    && c.parse(b.runs[runId].stateJson) == Some(map[])
  }

  lemma NoObjectionIff(c: Codec, b: Bundle, runId: string, records: seq<Record>, r: Recomputed)
    requires b.eventHash.Some? && b.eventCount.Some?
    ensures Objection(c, b, runId, b.eventHash.value, b.eventCount.value, records, r).None? <==> Passes(c, b, runId, records, r)
  {
  }

  /** Replay accepts a bundle exactly when it reads back and every recomputed fact matches what it holds. */
  lemma ReplayAcceptsIff(c: Codec, b: Bundle)
    ensures Replay(c, b).Ok? <==>
            && b.schema == Some(BUNDLE_SCHEMA) && b.runId.Some? && ReadEvents(c, b.events, b.runId.value).Ok?
            && var records := ReadEvents(c, b.events, b.runId.value).value;
               Passes(c, b, b.runId.value, records, Recompute(c, records))
    ensures Replay(c, b).Ok? ==>
              var records := ReadEvents(c, b.events, b.runId.value).value;
              Replay(c, b).value == Summarized(b, b.runId.value, Recompute(c, records).hash, records, b.runs[b.runId.value])
  {
    if b.eventHash.Some? && b.eventCount.Some? && b.runId.Some? && ReadEvents(c, b.events, b.runId.value).Ok? {
      var records := ReadEvents(c, b.events, b.runId.value).value;
      NoObjectionIff(c, b, b.runId.value, records, Recompute(c, records));
    }
  }

  lemma ExportedRun(c: Codec, t: Tables, runId: string)
    requires Export(c, t, runId).Ok?
    ensures var (b, receipt) := Export(c, t, runId).value;
            var records := ReadEvents(c, t.events, runId).value;
            && records != [] && b.runs.Keys == {runId}
            && b.runs[runId].sessionId == records[0].about.sessionId && b.runs[runId].status == RunStatus(RecordFacts(records))
            && b.runs[runId].stateJson == "{}"
  {
    assert RecordFacts(ReadEvents(c, t.events, runId).value)[0] == ReadEvents(c, t.events, runId).value[0].about;
  }

  lemma BundlePasses(c: Codec, t: Tables, runId: string)
    requires Lawful(c) && Export(c, t, runId).Ok?
    requires var (b, _) := Export(c, t, runId).value;
             && ReadEvents(c, b.events, runId) == ReadEvents(c, t.events, runId)
             && |b.events| == |ReadEvents(c, t.events, runId).value|
    ensures var (b, receipt) := Export(c, t, runId).value;
            var records := ReadEvents(c, t.events, runId).value;
            && records != [] && runId in b.runs && b.runId == Some(runId)
            && Replay(c, b) == Ok(Summarized(b, runId, receipt.eventHash, records, b.runs[runId]))
  {
    var (b, _) := Export(c, t, runId).value;
    ExportedRun(c, t, runId);
    assert |b.runs| == |b.runs.Keys| == 1;
    ReplayAcceptsIff(c, b);
  }

  /** For every reachable store and every run with events. */
  lemma ReachableExportReplays(c: Codec, actions: seq<Action>, runId: string)
    requires Lawful(c) && RowsOf(Run(c, EMPTY, actions), runId) != []
    ensures var t := Run(c, EMPTY, actions);
            && Export(c, t, runId).Ok? && Replay(c, Export(c, t, runId).value.0).Ok?
            && var (bundle, receipt) := Export(c, t, runId).value;
               GivesBack(c, t, runId, receipt, Replay(c, bundle).value)
  {
    ReachableIsConsistent(c, actions);
    ExportReplays(c, Run(c, EMPTY, actions), runId);
  }

  // ---------------------------------------------------------------- the empty bundle

  predicate EmptyBundle(c: Codec, b: Bundle)
  {
    && b.schema == Some(BUNDLE_SCHEMA) && b.runId.Some? && b.eventCount == Some(0) && b.eventHash == Some(c.hash(""))
    && b.events == [] && b.steps == map[] && b.runs.Keys == {b.runId.value}
  }

  lemma OneKey(runs: map<string, RunRow>, runId: string)
    ensures |runs| == 1 && runId in runs <==> runs.Keys == {runId}
  {
    if |runs| == 1 && runId in runs {
      assert |runs.Keys - {runId}| == 0;
      assert runs.Keys == {runId} + (runs.Keys - {runId});
    }
    assert runs.Keys == {runId} ==> |runs.Keys| == 1;
  }

  lemma NothingToRead(c: Codec, runId: string)
    ensures ReadEvents(c, [], runId) == Ok([]) && Recompute(c, []) == Recomputed(c.hash(""), Ok(map[]), "evidence")
  {
    assert RecordFacts([]) == [];
  }

  lemma NoEventsObjection(c: Codec, b: Bundle, runId: string, hash: string, count: nat, records: seq<Record>, r: Recomputed)
    requires r.steps != Err(NoEvents)
    ensures Objection(c, b, runId, hash, count, records, r) == Some(NoEvents) <==>
            && records == [] && b.events == [] && count == 0 && |b.runs| == 1 && runId in b.runs && r.hash == hash
            && r.steps == Ok(b.steps)
  {
  }

  lemma ReadingNeverLacksEvents(c: Codec, events: seq<EventRow>, runId: string)
    ensures ReadEvents(c, events, runId) != Err(NoEvents)
  {
    NoSuchReadError(c, BySeq(Filter(events, InRun(runId))));
  }

  lemma {:induction false} NoSuchDeriveError(facts: seq<Facts>)
    ensures DeriveSteps(facts) != Err(NoEvents)
  {
    if facts != [] {
      NoSuchDeriveError(facts[..|facts| - 1]);
    }
  }

  lemma {:induction false} NoSuchReadError(c: Codec, rows: seq<EventRow>)
    ensures ReadRows(c, rows) != Err(NoEvents)
  {
    if rows != [] {
      NoSuchReadError(c, rows[..|rows| - 1]);
    }
  }

  /** The bundles on which the code reaches for the first of no events: consistent in everything it checks before,
      and empty. On every other bundle the model's answer is the code's. */
  lemma LacksEventsIff(c: Codec, b: Bundle)
    ensures Replay(c, b) == Err(NoEvents) <==> EmptyBundle(c, b)
  {
    if b.runId.Some? && b.eventHash.Some? && b.eventCount.Some? {
      var runId, read := b.runId.value, ReadEvents(c, b.events, b.runId.value);
      NothingToRead(c, runId);
      ReadingNeverLacksEvents(c, b.events, runId);
      OneKey(b.runs, runId);
      if read.Ok? {
        NoSuchDeriveError(RecordFacts(read.value));
        NoEventsObjection(c, b, runId, b.eventHash.value, b.eventCount.value, read.value, Recompute(c, read.value));
      }
    }
  }

  /** Such a bundle, for any run and any row of it. */
  lemma AnEmptyBundle(c: Codec, runId: string, run: RunRow)
    ensures Replay(c, Bundle(Some(BUNDLE_SCHEMA), Some(runId), Some(0), Some(c.hash("")), None, None, map[runId := run], map[], [])) == Err(NoEvents)
  {
    LacksEventsIff(c, Bundle(Some(BUNDLE_SCHEMA), Some(runId), Some(0), Some(c.hash("")), None, None, map[runId := run], map[], []));
  }

  // ---------------------------------------------------------------- what the hash pins down

  /** Two texts the hash does not tell apart. */
  predicate Collide(c: Codec, x: string, y: string) { x != y && c.hash(x) == c.hash(y) }

  predicate HashesItsPayload(c: Codec, r: Record)
  {
    c.render(r.payload).Some? && c.hash(c.render(r.payload).value) == r.payloadHash
  }

  lemma {:induction false} ReadRecordsHash(c: Codec, rows: seq<EventRow>)
    requires ReadRows(c, rows).Ok?
    ensures forall r :: r in ReadRows(c, rows).value ==> HashesItsPayload(c, r)
  {
    if rows != [] {
      ReadRecordsHash(c, rows[..|rows| - 1]);
    }
  }

  lemma SameHashSameRecord(c: Codec, r: Record, s: Record)
    requires Lawful(c) && HashesItsPayload(c, r) && HashesItsPayload(c, s) && SameFacts(r, s)
    ensures r == s || Collide(c, c.render(r.payload).value, c.render(s.payload).value)
  {
    assert ReadsBack(c, r.payload) && ReadsBack(c, s.payload);
  }

  lemma {:induction false} SameFactsSameRecords(c: Codec, a: seq<Record>, b: seq<Record>) returns (x: string, y: string)
    requires Lawful(c) && SameFactsThroughout(a, b)
    requires (forall r :: r in a ==> HashesItsPayload(c, r)) && (forall r :: r in b ==> HashesItsPayload(c, r))
    ensures a == b || Collide(c, x, y)
    decreases |a|
  {
    x, y := "", "";
    if a != [] {
      assert SameFacts(a[0], b[0]) && a[0] in a && b[0] in b;
      SameHashSameRecord(c, a[0], b[0]);
      if a[0] == b[0] {
        x, y := SameFactsSameRecords(c, a[1..], b[1..]);
        assert a == [a[0]] + a[1..] && b == [b[0]] + b[1..];
      } else {
        x, y := c.render(a[0].payload).value, c.render(b[0].payload).value;
      }
    }
  }

  lemma SameHashSameTimeline(c: Codec, a: seq<Record>, b: seq<Record>) returns (x: string, y: string)
    requires Lawful(c) && NamesNoStepNone(a) && NamesNoStepNone(b)
    requires (forall r :: r in a ==> HashesItsPayload(c, r)) && (forall r :: r in b ==> HashesItsPayload(c, r))
    requires EventHash(c, a) == EventHash(c, b)
    ensures a == b || Collide(c, x, y)
  {
    CanonicalDeterminesFacts(a, b);
    if Canonical(a) == Canonical(b) {
      x, y := SameFactsSameRecords(c, a, b);
    } else {
      x, y := Canonical(a), Canonical(b);
    }
  }

  lemma {:induction false} InsertedMembers(rows: seq<EventRow>, e: EventRow)
    ensures forall x :: x in InsertBySeq(rows, e) <==> x in rows || x == e
  {
    if !(rows == [] || rows[|rows| - 1].seqNo <= e.seqNo) {
      InsertedMembers(rows[..|rows| - 1], e);
      assert rows == rows[..|rows| - 1] + [rows[|rows| - 1]];
    }
  }

  lemma {:induction false} SortedMembers(rows: seq<EventRow>)
    ensures forall x :: x in BySeq(rows) <==> x in rows
  {
    if rows != [] {
      SortedMembers(rows[..|rows| - 1]);
      InsertedMembers(BySeq(rows[..|rows| - 1]), rows[|rows| - 1]);
      assert rows == rows[..|rows| - 1] + [rows[|rows| - 1]];
    }
  }

  lemma {:induction false} ReadKeepsFacts(c: Codec, rows: seq<EventRow>)
    requires ReadRows(c, rows).Ok?
    ensures RecordFacts(ReadRows(c, rows).value) == EventFacts(rows)
  {
    if rows != [] {
      ReadKeepsFacts(c, rows[..|rows| - 1]);
      assert EventFacts(rows) == EventFacts(rows[..|rows| - 1]) + [rows[|rows| - 1].about];
    }
  }

  /** Everything read back for a run is of that run. */
  lemma TimelineIsOfRun(c: Codec, events: seq<EventRow>, runId: string)
    requires ReadEvents(c, events, runId).Ok?
    ensures forall r :: r in ReadEvents(c, events, runId).value ==> r.about.runId == runId
  {
    var rows, records := BySeq(Filter(events, InRun(runId))), ReadEvents(c, events, runId).value;
    SortedMembers(Filter(events, InRun(runId)));
    FilterMembers(events, InRun(runId));
    ReadKeepsFacts(c, rows);
    forall i | 0 <= i < |records| ensures records[i].about.runId == runId {
      assert RecordFacts(records)[i] == EventFacts(rows)[i] && rows[i] in rows;
    }
  }

  /** A summary without the retention metadata, which the hash does not cover. */
  function Pinned(s: Summary): Summary { s.(cutoff := None, removed := 0) }

  lemma SameTimelineSameSummary(c: Codec, a: Bundle, b: Bundle)
    requires Replay(c, a).Ok? && Replay(c, b).Ok? && Replay(c, a).value.timeline == Replay(c, b).value.timeline
    ensures Pinned(Replay(c, a).value) == Pinned(Replay(c, b).value)
  {
    ReplayAcceptsIff(c, a);
    ReplayAcceptsIff(c, b);
    var records := Replay(c, a).value.timeline;
    TimelineIsOfRun(c, a.events, a.runId.value);
    TimelineIsOfRun(c, b.events, b.runId.value);
    assert records[0] in records && a.runId == b.runId;
  }

  /** Two bundles that replay accepts and that carry the same event hash tell the same story: the same timeline
      down to the payloads, and the same everything else but the retention metadata. Otherwise they exhibit two
      texts with the same hash. */
  lemma AcceptedHashPinsSummary(c: Codec, a: Bundle, b: Bundle) returns (x: string, y: string)
    requires Lawful(c) && Replay(c, a).Ok? && Replay(c, b).Ok?
    requires NamesNoStepNone(Replay(c, a).value.timeline) && NamesNoStepNone(Replay(c, b).value.timeline)
    requires a.eventHash == b.eventHash
    ensures Pinned(Replay(c, a).value) == Pinned(Replay(c, b).value) || Collide(c, x, y)
  {
    ReplayAcceptsIff(c, a);
    ReplayAcceptsIff(c, b);
    ReadRecordsHash(c, BySeq(Filter(a.events, InRun(a.runId.value))));
    ReadRecordsHash(c, BySeq(Filter(b.events, InRun(b.runId.value))));
    x, y := SameHashSameTimeline(c, Replay(c, a).value.timeline, Replay(c, b).value.timeline);
    if Replay(c, a).value.timeline == Replay(c, b).value.timeline {
      SameTimelineSameSummary(c, a, b);
    }
  }
}
