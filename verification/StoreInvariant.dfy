/** What every store call keeps, whatever the interleaving of callers. */
module StoreInvariant {
  import opened Json
  import opened Text
  import opened Store

  // ---------------------------------------------------------------- reading a log

  predicate IsPatch(e: Event) { (e.draft.kind.StatePatchCommitted? || e.draft.kind.SystemPatchApplied?) && e.draft.payload.Patch? }

  /** The state a log describes: the logged initial state, then every logged patch in order. */
  function Fold(log: seq<Event>): Object
  {
    if log == [] then map[]
    else
      var e := log[|log| - 1];
      var before := Fold(log[..|log| - 1]);
      if e.draft.kind.RunCreated? && e.draft.payload.InitialState? then e.draft.payload.state
      else if IsPatch(e) then MergePatch(before, Obj(e.draft.payload.patch))
      else before
  }

  function PatchCount(log: seq<Event>): nat
  {
    if log == [] then 0 else PatchCount(log[..|log| - 1]) + if IsPatch(log[|log| - 1]) then 1 else 0
  }

  predicate IsCommitOf(e: Event, stepId: Id) { e.draft.kind.StatePatchCommitted? && e.draft.stepId == stepId }

  function CommitCount(log: seq<Event>, stepId: Id): nat
  {
    if log == [] then 0 else CommitCount(log[..|log| - 1], stepId) + if IsCommitOf(log[|log| - 1], stepId) then 1 else 0
  }

  /** A log is faithful to its run: it opens with the initial state, is numbered from 1 without gaps, its
      patches carry the versions 1, 2, ... in order up to the run's version, and folding it gives the state. */
  ghost predicate Faithful(run: Run, log: seq<Event>)
  {
    && |log| >= 1 && log[0].draft.kind.RunCreated? && log[0].draft.payload.InitialState?
    && (forall i :: 0 <= i < |log| ==> log[i].seqNo == i + 1)
    && (forall i :: 0 < i < |log| ==> !log[i].draft.kind.RunCreated? && !log[i].draft.kind.StateCommitted?)
    && (forall i :: 0 <= i < |log| && IsPatch(log[i]) ==>
          log[i].draft.payload.version == log[i].draft.stateVersion == PatchCount(log[..i + 1]))
    && PatchCount(log) == run.stateVersion
    && Fold(log) == run.state
  }

  // ---------------------------------------------------------------- the invariant

  ghost predicate ApprovalsBelong(d: StoreData, approvals: map<Id, Approval>)
  {
    forall k :: k in approvals ==>
      approvals[k].stepId in d.steps && d.steps[approvals[k].stepId].runId == approvals[k].runId
  }

  ghost predicate StepsBelong(w: World)
  {
    && (forall s :: s in w.data.steps ==> s in w.seen && w.data.steps[s].runId in w.data.runs)
    && w.data.runs.Keys <= w.seen && w.data.events.Keys <= w.seen
    && ApprovalsBelong(w.data, w.data.approvals)
  }

  predicate LeaseOk(w: World, step: Step)
  {
    && (step.leaseToken != "" ==> step.leaseToken in w.seen)
    && (step.status.Running? ==> step.leaseToken != "" && step.leaseUntil > 0)
  }

  ghost predicate LeasesOk(w: World)
  {
    && (forall s :: s in w.data.steps ==> LeaseOk(w, w.data.steps[s]))
    && forall s, t :: s in w.data.steps && t in w.data.steps && w.data.steps[s].leaseToken == w.data.steps[t].leaseToken != ""
                      ==> s == t
  }

  ghost predicate LogsFaithful(d: StoreData)
  {
    forall r :: r in d.runs ==> Faithful(d.runs[r], Log(d, r))
  }

  /** Attempts not yet spent on a commit, not counting the one in progress. */
  function Spare(step: Step): int { step.attempt - if step.status.Running? then 1 else 0 }

  ghost predicate CommitsBounded(d: StoreData)
  {
    forall s :: s in d.steps ==> CommitCount(Log(d, d.steps[s].runId), s) <= Spare(d.steps[s])
  }

  predicate CommitsFrom(log: seq<Event>, steps: set<Id>)
  {
    forall i :: 0 <= i < |log| && log[i].draft.kind.StatePatchCommitted? ==> log[i].draft.stepId in steps
  }

  /** Commits are logged by steps whose identifier has been seen, so a new step starts with none. */
  ghost predicate CommitsKnown(w: World)
  {
    forall r :: r in w.data.runs ==> CommitsFrom(Log(w.data, r), w.seen)
  }

  ghost predicate Inv(w: World)
  {
    StepsBelong(w) && LeasesOk(w) && LogsFaithful(w.data) && CommitsBounded(w.data) && CommitsKnown(w)
  }

  // ---------------------------------------------------------------- quiet moves

  /** A log grew by events that carry no state. */
  ghost predicate QuietLog(a: seq<Event>, b: seq<Event>)
  {
    && a <= b
    && forall i :: |a| <= i < |b| ==> b[i].seqNo == i + 1 && !StoreOwned(b[i].draft.kind)
  }

  predicate QuietStep(a: Step, b: Step)
  {
    && b.runId == a.runId && Spare(a) <= Spare(b)
    && (b.leaseToken == a.leaseToken || b.leaseToken == "")
    && (b.status.Running? ==> a.status.Running? && b.leaseToken == a.leaseToken && b.leaseUntil == a.leaseUntil)
  }

  /** No run, step, state or lease appears; logs of runs outside `extra` that did not exist stay empty. */
  ghost predicate Quiet(d: StoreData, e: StoreData, extra: set<Id>)
  {
    && e.runs.Keys == d.runs.Keys && e.steps.Keys == d.steps.Keys
    && e.events.Keys <= d.events.Keys + d.runs.Keys + extra
    && (forall r :: r in d.runs ==> e.runs[r].state == d.runs[r].state && e.runs[r].stateVersion == d.runs[r].stateVersion)
    && (forall r :: QuietLog(Log(d, r), Log(e, r)))
    && (forall s :: s in d.steps ==> QuietStep(d.steps[s], e.steps[s]))
  }

  lemma QuietTransitive(a: StoreData, b: StoreData, c: StoreData, extra: set<Id>)
    requires Quiet(a, b, extra) && Quiet(b, c, extra)
    ensures Quiet(a, c, extra)
  {
    forall r ensures QuietLog(Log(a, r), Log(c, r)) {
      assert QuietLog(Log(a, r), Log(b, r)) && QuietLog(Log(b, r), Log(c, r));
    }
  }

  lemma {:induction false} QuietLogKeepsReadings(a: seq<Event>, b: seq<Event>, stepId: Id)
    requires QuietLog(a, b)
    ensures Fold(b) == Fold(a) && PatchCount(b) == PatchCount(a) && CommitCount(b, stepId) == CommitCount(a, stepId)
    decreases |b|
  {
    if |b| == |a| {
      assert a == b;
    } else {
      var c := b[..|b| - 1];
      assert QuietLog(a, c);
      QuietLogKeepsReadings(a, c, stepId);
    }
  }

  lemma QuietLogKeepsFaithful(run: Run, run': Run, a: seq<Event>, b: seq<Event>)
    requires Faithful(run, a) && QuietLog(a, b)
    requires run'.state == run.state && run'.stateVersion == run.stateVersion
    ensures Faithful(run', b)
  {
    QuietLogKeepsReadings(a, b, "");
    forall i | 0 <= i < |b| && IsPatch(b[i])
      ensures b[i].draft.payload.version == b[i].draft.stateVersion == PatchCount(b[..i + 1])
    {
      assert i < |a| && b[..i + 1] == a[..i + 1] && a[i] == b[i];
    }
  }

  lemma QuietKeepsLogs(d: StoreData, e: StoreData, extra: set<Id>)
    requires LogsFaithful(d) && Quiet(d, e, extra)
    ensures LogsFaithful(e)
  {
    forall r | r in e.runs ensures Faithful(e.runs[r], Log(e, r)) {
      QuietLogKeepsFaithful(d.runs[r], e.runs[r], Log(d, r), Log(e, r));
    }
  }

  lemma QuietKeepsCommits(d: StoreData, e: StoreData, extra: set<Id>)
    requires CommitsBounded(d) && Quiet(d, e, extra)
    ensures CommitsBounded(e)
  {
    forall s | s in e.steps
      ensures CommitCount(Log(e, e.steps[s].runId), s) <= Spare(e.steps[s])
    {
      assert QuietStep(d.steps[s], e.steps[s]);
      QuietLogKeepsReadings(Log(d, d.steps[s].runId), Log(e, d.steps[s].runId), s);
    }
  }

  lemma QuietLogKeepsCommitsFrom(a: seq<Event>, b: seq<Event>, steps: set<Id>, steps': set<Id>)
    requires QuietLog(a, b) && CommitsFrom(a, steps) && steps <= steps'
    ensures CommitsFrom(b, steps')
  {
  }

  lemma QuietKeepsCommitsKnown(w: World, w': World, extra: set<Id>)
    requires CommitsKnown(w) && Quiet(w.data, w'.data, extra) && w.seen <= w'.seen
    ensures CommitsKnown(w')
  {
    forall r | r in w'.data.runs ensures CommitsFrom(Log(w'.data, r), w'.seen) {
      QuietLogKeepsCommitsFrom(Log(w.data, r), Log(w'.data, r), w.seen, w'.seen);
    }
  }

  lemma QuietKeepsLeases(w: World, w': World, extra: set<Id>)
    requires LeasesOk(w) && Quiet(w.data, w'.data, extra) && w.seen <= w'.seen
    ensures LeasesOk(w')
  {
    forall s | s in w'.data.steps ensures LeaseOk(w', w'.data.steps[s]) {
      assert QuietStep(w.data.steps[s], w'.data.steps[s]) && LeaseOk(w, w.data.steps[s]);
    }
    forall s, t | s in w'.data.steps && t in w'.data.steps && w'.data.steps[s].leaseToken == w'.data.steps[t].leaseToken != ""
      ensures s == t
    {
      assert QuietStep(w.data.steps[s], w'.data.steps[s]) && QuietStep(w.data.steps[t], w'.data.steps[t]);
    }
  }

  lemma QuietKeepsSteps(w: World, w': World, extra: set<Id>)
    requires StepsBelong(w) && Quiet(w.data, w'.data, extra) && w.seen + extra <= w'.seen
    requires ApprovalsBelong(w.data, w'.data.approvals)
    ensures StepsBelong(w')
  {
    forall s | s in w'.data.steps ensures s in w'.seen && w'.data.steps[s].runId in w'.data.runs {
      assert QuietStep(w.data.steps[s], w'.data.steps[s]);
    }
    forall k | k in w'.data.approvals
      ensures w'.data.steps[w'.data.approvals[k].stepId].runId == w'.data.approvals[k].runId
    {
      var s := w'.data.approvals[k].stepId;
      assert QuietStep(w.data.steps[s], w'.data.steps[s]);
    }
  }

  lemma QuietKeepsInv(w: World, w': World, extra: set<Id>)
    requires Inv(w) && Quiet(w.data, w'.data, extra) && w.seen + extra <= w'.seen
    requires ApprovalsBelong(w.data, w'.data.approvals)
    ensures Inv(w')
  {
    QuietKeepsLogs(w.data, w'.data, extra);
    QuietKeepsCommits(w.data, w'.data, extra);
    QuietKeepsCommitsKnown(w, w', extra);
    QuietKeepsLeases(w, w', extra);
    QuietKeepsSteps(w, w', extra);
  }
}
