/** What the summary of a replayed bundle says, told from its timeline. */
module EvidenceSummary {
  import opened Json
  import opened Text
  import opened Rows
  import opened Evidence
  import opened EvidenceInvariant
  import opened EvidenceRuns
  import opened EvidenceStatus
  import opened EvidenceBundle

  ghost function StepsNamed(facts: seq<Facts>): set<string>
  {
    set i | 0 <= i < |facts| && facts[i].stepId.Some? :: facts[i].stepId.value
  }

  lemma StepsNamedSnoc(facts: seq<Facts>)
    requires facts != []
    ensures var init, last := facts[..|facts| - 1], facts[|facts| - 1];
            StepsNamed(facts) == StepsNamed(init) + if last.stepId.Some? then {last.stepId.value} else {}
  {
    var init, last := facts[..|facts| - 1], facts[|facts| - 1];
    assert facts == init + [last];
  }

  lemma {:induction false} DerivedKeys(facts: seq<Facts>, runId: string)
    requires DeriveSteps(facts).Ok? && forall i :: 0 <= i < |facts| ==> facts[i].runId == runId
    ensures DeriveSteps(facts).value.Keys == StepsNamed(facts)
    ensures forall s :: s in DeriveSteps(facts).value ==> DeriveSteps(facts).value[s].runId == runId
  {
    if facts != [] {
      StepsNamedSnoc(facts);
      DerivedKeys(facts[..|facts| - 1], runId);
    }
  }

  predicate IsAttribution(r: Record) { r.about.eventType == "failure.attributed" }

  function Payloads(records: seq<Record>): seq<Object> { seq(|records|, i requires 0 <= i < |records| => records[i].payload) }

  lemma {:induction false} AttributionsAreFiltered(records: seq<Record>)
    ensures Attributions(records) == Payloads(Filter(records, IsAttribution))
  {
    if records != [] {
      AttributionsAreFiltered(records[..|records| - 1]);
    }
  }

  lemma StepCount(steps: map<string, StepRow>, runId: string)
    requires forall s :: s in steps ==> steps[s].runId == runId
    ensures |StepsOfRun(steps, runId)| == |steps.Keys|
  {
    assert StepsOfRun(steps, runId) == steps;
  }

  /** Of every bundle that replays, the summary tells the timeline: its length, the type of each event, the first event's
      session, the last event's type and time, how many steps it names, the payloads of its attributed failures in order,
      and the status of the run by the last end of its session, `evidence` if it has not ended. */
  lemma SummaryTellsTheTimeline(c: Codec, b: Bundle)
    requires Replay(c, b).Ok?
    ensures var s := Replay(c, b).value;
            && s.timeline != [] && s.eventCount == |s.timeline| && |s.eventTypes| == |s.timeline|
            && (forall i :: 0 <= i < |s.timeline| ==> s.eventTypes[i] == s.timeline[i].about.eventType && s.timeline[i].about.runId == s.runId)
            && s.sessionId == s.timeline[0].about.sessionId
            && s.lastEventType == s.timeline[|s.timeline| - 1].about.eventType
            && s.lastOccurredAtMs == s.timeline[|s.timeline| - 1].about.occurredAtMs
            && s.stepCount == |StepsNamed(RecordFacts(s.timeline))|
            && s.failureAttributions == Payloads(Filter(s.timeline, IsAttribution))
            && IsSessionStatus(RecordFacts(s.timeline), s.runStatus, "evidence")
  {
    var s := Replay(c, b).value;
    ReplayAcceptsIff(c, b);
    TimelineIsOfRun(c, b.events, s.runId);
    DerivedKeys(RecordFacts(s.timeline), s.runId);
    StepCount(b.steps, s.runId);
    AttributionsAreFiltered(s.timeline);
    SessionStatus(RecordFacts(s.timeline), "evidence");
  }

  // ---------------------------------------------------------------- reading and exporting

  /** Reading a run back gives its rows in the order they were projected; a blank name is refused. */
  lemma TimelineReadsTheRows(c: Codec, t: Tables, runId: string)
    requires Consistent(c, t)
    ensures IsBlank(runId) ==> EventsResult(c, t, runId) == Err(InvalidField)
    ensures !IsBlank(runId) ==>
              EventsResult(c, t, runId).Ok? && RecordFacts(EventsResult(c, t, runId).value) == EventFacts(RowsOf(t, runId))
  {
    ReadFacts(c, t, runId);
  }

  lemma ReadFacts(c: Codec, t: Tables, runId: string)
    requires Consistent(c, t)
    ensures ReadEvents(c, t.events, runId).Ok?
    ensures RecordFacts(ReadEvents(c, t.events, runId).value) == EventFacts(RowsOf(t, runId))
  {
    ConsistentReads(c, t, runId);
    ReadableRoundTrip(c, RowsOf(t, runId));
  }

  lemma ExportSucceeds(c: Codec, t: Tables, runId: string)
    requires Consistent(c, t) && RowsOf(t, runId) != []
    ensures Export(c, t, runId).Ok?
  {
    ExportOfConsistent(c, t, runId);
  }

  lemma ExportedRow(c: Codec, t: Tables, runId: string)
    requires Export(c, t, runId).Ok?
    ensures var read, b := ReadEvents(c, t.events, runId), Export(c, t, runId).value.0;
            && read.Ok? && read.value != []
            && var facts := RecordFacts(read.value);
               b.runs == map[runId := RunRow(facts[0].sessionId, Or(LastRunStatus(facts), "evidence"), "{}",
                                             facts[0].occurredAtMs, facts[|facts| - 1].occurredAtMs)]
  {
  }

  /** The row of the run in an exported bundle: its first event's session, the times of its first and last event, and the
      status by the last end of its session. */
  lemma BundleRowTellsTheRun(c: Codec, t: Tables, runId: string)
    requires Consistent(c, t) && RowsOf(t, runId) != []
    ensures Export(c, t, runId).Ok? && Export(c, t, runId).value.0.runs.Keys == {runId}
    ensures var rows, run := RowsOf(t, runId), Export(c, t, runId).value.0.runs[runId];
            && run.sessionId == rows[0].about.sessionId && run.stateJson == "{}"
            && run.createdAtMs == rows[0].about.occurredAtMs && run.updatedAtMs == rows[|rows| - 1].about.occurredAtMs
            && IsSessionStatus(EventFacts(rows), run.status, "evidence")
  {
    ExportSucceeds(c, t, runId);
    ExportedRow(c, t, runId);
    ReadFacts(c, t, runId);
    SessionStatus(EventFacts(RowsOf(t, runId)), "evidence");
  }

  /** An export never goes to a path that exists, and says so if there was anything to export. */
  lemma ExportNeverOverwrites(c: Codec, t: Tables, runId: string)
    ensures ExportTo(c, t, runId, true).Err? && ExportTo(c, t, runId, false) == Export(c, t, runId)
    ensures Export(c, t, runId).Ok? ==> ExportTo(c, t, runId, true) == Err(TargetExists)
  {
  }
}
