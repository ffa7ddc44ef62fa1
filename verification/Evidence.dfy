/**
 The evidence sidecar's tables and what each of its transactions does to them (rust/src/sqlite_evidence.rs).
 The queue is in `queue_id` order and the event table in insertion order. Times are in milliseconds.
 */
module Evidence {
  import opened Json
  import opened Text
  import opened Rows

  const MAX_PAYLOAD_BYTES := 65_536
  const MAX_NAME_BYTES := 256
  const MS_PER_DAY := 86_400_000
  const MAX_I64 := 9_223_372_036_854_775_807
  const BUNDLE_SCHEMA := "agentledger.sqlite.evidence.bundle.v1"

  datatype Problem =
    | InvalidField | PayloadNotFinite | PayloadTooLarge | RunOfOtherSession | StepOfOtherOwner | ConflictingEvent
    | LimitNotPositive | LimitTooLarge | KeepNotPositive | PayloadUnreadable | PayloadHashMismatch | NoEvents
    | TargetExists | MetadataMissing | UnsupportedSchema | ReceiptMismatch | StepMismatch | RunMismatch

  datatype Result<+T> = Ok(value: T) | Err(error: Problem)

  /** JSON text and the hash: library code. `render` refuses numbers that are not finite. */
  datatype Codec = Codec(render: Object -> Option<string>, parse: string -> Option<Object>, hash: string -> string)

  predicate ReadsBack(c: Codec, payload: Object)
  {
    c.render(payload).Some? ==> c.parse(c.render(payload).value) == Some(payload)
  }

  predicate Reprints(c: Codec, text: string) { c.parse(text).Some? ==> c.render(c.parse(text).value).Some? }

  /** Printing and parsing are exact. */
  ghost predicate Lawful(c: Codec)
  {
    (forall payload :: ReadsBack(c, payload)) && (forall text :: Reprints(c, text)) && c.parse("{}") == Some(map[])
  }

  // ---------------------------------------------------------------- rows

  /** What every form of an event carries. */
  datatype Facts = Facts(
    eventId: string, runId: string, sessionId: string, stepId: Option<string>, eventType: string, occurredAtMs: int)

  datatype Input = Input(about: Facts, payload: Object)

  datatype Queued = Queued(about: Facts, eventDay: int, payloadJson: string)

  datatype EventRow = EventRow(about: Facts, seqNo: nat, payloadHash: string, payloadRef: string, eventDay: int)

  datatype Record = Record(about: Facts, seqNo: nat, payloadHash: string, payload: Object)

  datatype StepRow = StepRow(runId: string, sessionId: string, createdAtMs: int, updatedAtMs: int, status: string)

  datatype RunRow = RunRow(sessionId: string, status: string, stateJson: string, createdAtMs: int, updatedAtMs: int)

  datatype Tables = Tables(
    queue: seq<Queued>, events: seq<EventRow>, steps: map<string, StepRow>, runs: map<string, RunRow>,
    cutoff: Option<int>, removed: map<string, nat>)

  const EMPTY := Tables([], [], map[], map[], None, map[])

  function Day(ms: int): int { ms / MS_PER_DAY }

  function InRun(runId: string): EventRow -> bool { (e: EventRow) => e.about.runId == runId }

  function EventFacts(rows: seq<EventRow>): seq<Facts> { seq(|rows|, i requires 0 <= i < |rows| => rows[i].about) }

  function RecordFacts(records: seq<Record>): seq<Facts> { seq(|records|, i requires 0 <= i < |records| => records[i].about) }

  function RowsOf(t: Tables, runId: string): seq<EventRow> { Filter(t.events, InRun(runId)) }

  // ---------------------------------------------------------------- validation and statuses

  predicate ValidName(s: string) { !IsBlank(s) && ByteLen(s) <= MAX_NAME_BYTES }

  predicate ValidEvent(a: Facts)
  {
    && ValidName(a.eventId) && ValidName(a.runId) && ValidName(a.sessionId) && ValidName(a.eventType)
    && (a.stepId.Some? ==> ValidName(a.stepId.value))
    && a.occurredAtMs >= 0
  }

  function TerminalStepStatus(eventType: string): Option<string>
  {
    if eventType == "turn.completed" then Some("completed")
    else if eventType == "turn.failed" then Some("failed")
    else if eventType == "turn.cancelled" || eventType == "turn.canceled" then Some("cancelled")
    else None
  }

  function TerminalRunStatus(eventType: string): Option<string>
  {
    if eventType == "session.deleted" then Some("deleted")
    else if eventType == "session.closed" then Some("completed")
    else if eventType == "session.failed" then Some("failed")
    else None
  }

  /** The last terminal status among some events. */
  function LastRunStatus(facts: seq<Facts>): Option<string>
  {
    if facts == [] then None
    else
      var last := TerminalRunStatus(facts[|facts| - 1].eventType);
      if last.Some? then last else LastRunStatus(facts[..|facts| - 1])
  }

  function LastStepStatus(facts: seq<Facts>): Option<string>
  {
    if facts == [] then None
    else
      var last := TerminalStepStatus(facts[|facts| - 1].eventType);
      if last.Some? then last else LastStepStatus(facts[..|facts| - 1])
  }

  function Or(o: Option<string>, fallback: string): string { if o.Some? then o.value else fallback }

  predicate TerminalStep(status: string) { status == "completed" || status == "failed" || status == "cancelled" }

  // ---------------------------------------------------------------- ingest

  function HasId(eventId: string): Queued -> bool { (q: Queued) => q.about.eventId == eventId }

  function RowHasId(eventId: string): EventRow -> bool { (e: EventRow) => e.about.eventId == eventId }

  function OnRun(runId: string): Queued -> bool { (q: Queued) => q.about.runId == runId }

  function OnStep(stepId: string): Queued -> bool { (q: Queued) => q.about.stepId == Some(stepId) }

  function First<T(!new)>(rows: seq<T>, p: T -> bool): Option<T>
  {
    var found := Filter(rows, p);
    if found == [] then None else Some(found[0])
  }

  /** The session a run is known under: projected rows first, then the queue. */
  function RunSession(t: Tables, runId: string): Option<string>
  {
    if runId in t.runs then Some(t.runs[runId].sessionId)
    else
      var q := First(t.queue, OnRun(runId));
      if q.Some? then Some(q.value.about.sessionId) else None
  }

  function StepOwner(t: Tables, stepId: string): Option<(string, string)>
  {
    if stepId in t.steps then Some((t.steps[stepId].runId, t.steps[stepId].sessionId))
    else
      var q := First(t.queue, OnStep(stepId));
      if q.Some? then Some((q.value.about.runId, q.value.about.sessionId)) else None
  }

  predicate OwnsRun(session: Option<string>, a: Facts) { session.Some? ==> session.value == a.sessionId }

  predicate OwnsStep(owner: Option<(string, string)>, a: Facts) { owner.Some? ==> owner.value == (a.runId, a.sessionId) }

  function Stored(t: Tables, eventId: string): Option<(Facts, string)>
  {
    var q, e := First(t.queue, HasId(eventId)), First(t.events, RowHasId(eventId));
    if q.Some? then Some((q.value.about, q.value.payloadJson))
    else if e.Some? then Some((e.value.about, e.value.payloadRef))
    else None
  }

  function EnqueueResult(c: Codec, t: Tables, input: Input): Result<bool>
  {
    var a, text := input.about, c.render(input.payload);
    if !ValidEvent(a) then Err(InvalidField)
    else if text.None? then Err(PayloadNotFinite)
    else if ByteLen(text.value) > MAX_PAYLOAD_BYTES then Err(PayloadTooLarge)
    else if !OwnsRun(RunSession(t, a.runId), a) then Err(RunOfOtherSession)
    else if a.stepId.Some? && !OwnsStep(StepOwner(t, a.stepId.value), a) then Err(StepOfOtherOwner)
    else if Stored(t, a.eventId).None? then Ok(true)
    else if Stored(t, a.eventId).value == (a, text.value) then Ok(false)
    else Err(ConflictingEvent)
  }

  function EnqueueEffect(c: Codec, t: Tables, input: Input): Tables
  {
    if EnqueueResult(c, t, input) != Ok(true) then t
    else t.(queue := t.queue + [Queued(input.about, Day(input.about.occurredAtMs), c.render(input.payload).value)])
  }

  // ---------------------------------------------------------------- projection

  datatype Verdict = Projected | Deduplicated | Dropped

  datatype Receipt = Receipt(projected: nat, acked: nat, droppedInvalid: nat)

  const NOTHING := Receipt(0, 0, 0)

  function Account(r: Receipt, v: Verdict): Receipt
  {
    Receipt(r.projected + if v.Projected? then 1 else 0, r.acked + 1, r.droppedInvalid + if v.Dropped? then 1 else 0)
  }

  function MaxSeq(rows: seq<EventRow>): nat
  {
    if rows == [] then 0
    else
      var rest, last := MaxSeq(rows[..|rows| - 1]), rows[|rows| - 1].seqNo;
      if last > rest then last else rest
  }

  function NextSeq(t: Tables, runId: string): nat { MaxSeq(RowsOf(t, runId)) + 1 }

  /** A step's row after one more of its events. */
  function StepAfter(before: Option<StepRow>, a: Facts): StepRow
  {
    var row := if before.Some? then before.value else StepRow(a.runId, a.sessionId, a.occurredAtMs, a.occurredAtMs, "running");
    row.(updatedAtMs := a.occurredAtMs, status := Or(TerminalStepStatus(a.eventType), row.status))
  }

  function StepAt(steps: map<string, StepRow>, stepId: string): Option<StepRow>
  {
    if stepId in steps then Some(steps[stepId]) else None
  }

  function TouchSteps(steps: map<string, StepRow>, a: Facts): map<string, StepRow>
  {
    if a.stepId.None? then steps
    else steps[a.stepId.value := StepAfter(StepAt(steps, a.stepId.value), a)]
  }

  function TouchRuns(runs: map<string, RunRow>, a: Facts): map<string, RunRow>
  {
    var row := if a.runId in runs then runs[a.runId] else RunRow(a.sessionId, "active", "{}", a.occurredAtMs, a.occurredAtMs);
    runs[a.runId := row.(status := Or(TerminalRunStatus(a.eventType), row.status), updatedAtMs := a.occurredAtMs)]
  }

  /** What becomes of a queued event. */
  function Judge(c: Codec, t: Tables, q: Queued): Verdict
    requires Lawful(c)
  {
    var a, payload := q.about, c.parse(q.payloadJson);
    assert Reprints(c, q.payloadJson);
    if ByteLen(q.payloadJson) > MAX_PAYLOAD_BYTES || payload.None? then Dropped
    else
      var text := c.render(payload.value).value;
      var existing := First(t.events, RowHasId(a.eventId));
      if !ValidEvent(a) || q.eventDay != Day(a.occurredAtMs) || ByteLen(text) > MAX_PAYLOAD_BYTES then Dropped
      else if existing.Some? then
        (if existing.value.about == a && existing.value.payloadHash == c.hash(text) && existing.value.payloadRef == text
         then Deduplicated else Dropped)
      else if a.runId in t.runs && t.runs[a.runId].sessionId != a.sessionId then Dropped
      else if a.stepId.Some? && a.stepId.value in t.steps
              && (t.steps[a.stepId.value].runId != a.runId || t.steps[a.stepId.value].sessionId != a.sessionId) then Dropped
      else Projected
  }

  function RowFor(c: Codec, t: Tables, q: Queued): EventRow
    requires Lawful(c) && c.parse(q.payloadJson).Some?
  {
    assert Reprints(c, q.payloadJson);
    var text := c.render(c.parse(q.payloadJson).value).value;
    EventRow(q.about, NextSeq(t, q.about.runId), c.hash(text), text, q.eventDay)
  }

  function ProjectOne(c: Codec, t: Tables): Tables
    requires Lawful(c) && t.queue != []
  {
    var q, rest := t.queue[0], t.(queue := t.queue[1..]);
    if !Judge(c, t, q).Projected? then rest
    else rest.(runs := TouchRuns(t.runs, q.about), steps := TouchSteps(t.steps, q.about), events := t.events + [RowFor(c, t, q)])
  }

  /** One turn of the batch loop: the oldest queued event, if there is one. */
  function Turn(c: Codec): Tables -> Tables
    requires Lawful(c)
  {
    (t: Tables) => if t.queue == [] then t else ProjectOne(c, t)
  }

  function ProjectN(c: Codec, t: Tables, n: nat): Tables
    requires Lawful(c)
  {
    Iterate(Turn(c), t, n)
  }

  function ReceiptOf(c: Codec, t: Tables, n: nat): Receipt
    requires Lawful(c)
  {
    if n == 0 then NOTHING
    else
      var before, r := ProjectN(c, t, n - 1), ReceiptOf(c, t, n - 1);
      if before.queue == [] then r else Account(r, Judge(c, before, before.queue[0]))
  }

  function ProjectResult(c: Codec, t: Tables, limit: nat): Result<Receipt>
    requires Lawful(c)
  {
    if limit == 0 then Err(LimitNotPositive)
    else if limit > MAX_I64 then Err(LimitTooLarge)
    else Ok(ReceiptOf(c, t, limit))
  }

  function ProjectEffect(c: Codec, t: Tables, limit: nat): Tables
    requires Lawful(c)
  {
    if 0 < limit <= MAX_I64 then ProjectN(c, t, limit) else t
  }

  // ---------------------------------------------------------------- retention

  function InsertDay(days: seq<int>, day: int): seq<int>
  {
    if days == [] || day > days[0] then [day] + days
    else if day == days[0] then days
    else [days[0]] + InsertDay(days[1..], day)
  }

  /** The distinct days that have events, newest first. */
  function Days(rows: seq<EventRow>): seq<int>
  {
    if rows == [] then [] else InsertDay(Days(rows[..|rows| - 1]), rows[|rows| - 1].eventDay)
  }

  predicate IsOfStep(e: EventRow, stepId: string) { e.about.stepId == Some(stepId) }

  predicate Removable(t: Tables, cutoff: int, stepId: string)
  {
    && stepId in t.steps && TerminalStep(t.steps[stepId].status)
    && (exists e :: e in t.events && IsOfStep(e, stepId))
    && (forall e :: e in t.events && IsOfStep(e, stepId) ==> e.eventDay < cutoff)
  }

  function RemovableSteps(t: Tables, cutoff: int): set<string>
  {
    set s | s in t.steps && Removable(t, cutoff, s)
  }

  function RemovableOf(t: Tables, cutoff: int, runId: string): set<string>
  {
    set s | s in t.steps && Removable(t, cutoff, s) && t.steps[s].runId == runId
  }

  function OutsideSteps(gone: set<string>): EventRow -> bool
  {
    (e: EventRow) => !(e.about.stepId.Some? && e.about.stepId.value in gone)
  }

  function NotStale(cutoff: int): EventRow -> bool
  {
    (e: EventRow) => !(e.about.stepId.None? && e.eventDay < cutoff)
  }

  function RemovedAt(removed: map<string, nat>, runId: string): nat { if runId in removed then removed[runId] else 0 }

  function Kept(t: Tables, cutoff: int): seq<EventRow>
  {
    Filter(Filter(t.events, OutsideSteps(RemovableSteps(t, cutoff))), NotStale(cutoff))
  }

  function PruneAt(t: Tables, cutoff: int): Tables
  {
    var gone := RemovableSteps(t, cutoff);
    t.(events := Kept(t, cutoff),
       steps := map s | s in t.steps && s !in gone :: t.steps[s],
       cutoff := Some(cutoff),
       removed := map r | r in t.removed.Keys + (set s | s in gone :: t.steps[s].runId) ::
                    RemovedAt(t.removed, r) + |RemovableOf(t, cutoff, r)|)
  }

  function PruneEffect(t: Tables, keepDays: nat): Tables
  {
    var days := Days(t.events);
    if keepDays == 0 || |days| <= keepDays then t else PruneAt(t, days[keepDays - 1])
  }

  function PruneResult(t: Tables, keepDays: nat): Result<nat>
  {
    var days := Days(t.events);
    if keepDays == 0 then Err(KeepNotPositive)
    else if |days| <= keepDays then Ok(0)
    else Ok(|t.events| - |PruneEffect(t, keepDays).events|)
  }

  // ---------------------------------------------------------------- reading back

  function InsertBySeq(rows: seq<EventRow>, e: EventRow): seq<EventRow>
  {
    if rows == [] || rows[|rows| - 1].seqNo <= e.seqNo then rows + [e]
    else InsertBySeq(rows[..|rows| - 1], e) + [rows[|rows| - 1]]
  }

  function BySeq(rows: seq<EventRow>): seq<EventRow>
  {
    if rows == [] then [] else InsertBySeq(BySeq(rows[..|rows| - 1]), rows[|rows| - 1])
  }

  function ReadRow(c: Codec, e: EventRow): Result<Record>
  {
    var payload := c.parse(e.payloadRef);
    if payload.None? then Err(PayloadUnreadable)
    else if c.render(payload.value).None? then Err(PayloadNotFinite)
    else if c.hash(c.render(payload.value).value) != e.payloadHash then Err(PayloadHashMismatch)
    else Ok(Record(e.about, e.seqNo, e.payloadHash, payload.value))
  }

  function ReadRows(c: Codec, rows: seq<EventRow>): Result<seq<Record>>
  {
    if rows == [] then Ok([])
    else
      var init := ReadRows(c, rows[..|rows| - 1]);
      var last := ReadRow(c, rows[|rows| - 1]);
      if init.Err? then init else if last.Err? then Err(last.error) else Ok(init.value + [last.value])
  }

  function ReadEvents(c: Codec, events: seq<EventRow>, runId: string): Result<seq<Record>>
  {
    ReadRows(c, BySeq(Filter(events, InRun(runId))))
  }

  /** `events`: the timeline of a run. */
  function EventsResult(c: Codec, t: Tables, runId: string): Result<seq<Record>>
  {
    if IsBlank(runId) then Err(InvalidField) else ReadEvents(c, t.events, runId)
  }

  /** The steps recomputed from a list of events. */
  function DeriveSteps(facts: seq<Facts>): Result<map<string, StepRow>>
  {
    if facts == [] then Ok(map[])
    else
      var before, a := DeriveSteps(facts[..|facts| - 1]), facts[|facts| - 1];
      if before.Err? || a.stepId.None? then before
      else
        var row := StepAt(before.value, a.stepId.value);
        if row.Some? && (row.value.runId != a.runId || row.value.sessionId != a.sessionId) then Err(StepOfOtherOwner)
        else Ok(before.value[a.stepId.value := StepAfter(row, a)])
  }
}
