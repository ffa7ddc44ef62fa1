/** Rebuilding the state of a run at any point of its log (go/timetravel.go), and when that agrees with the store. */
module TimeTravel {
  import opened Json
  import opened Text
  import opened Store
  import opened StoreInvariant
  import opened StoreSteps
  import opened StoreRuns

  function PatchFor(e: Event): Option<Object>
  {
    if e.draft.kind.RunCreated? then Some(if e.draft.payload.InitialState? then e.draft.payload.state else map[])
    else if (e.draft.kind.StateCommitted? || e.draft.kind.StatePatchCommitted? || e.draft.kind.SystemPatchApplied?)
            && e.draft.payload.Patch? then Some(e.draft.payload.patch)
    else None
  }

  /** Time travel lays patches over the state key by key; it neither deletes nor merges. */
  function Overlay(state: Object, e: Event): Object
  {
    if PatchFor(e).Some? then state + PatchFor(e).value else state
  }

  function OverlayAll(log: seq<Event>): Object
  {
    if log == [] then map[] else Overlay(OverlayAll(log[..|log| - 1]), log[|log| - 1])
  }

  /** The reported state: after the last event numbered at most `atSeq`, or after all of them for 0. */
  function StateAt(log: seq<Event>, atSeq: int): Object
  {
    if atSeq == 0 then OverlayAll(log)
    else if log == [] || atSeq < 0 then map[]
    else if log[|log| - 1].seqNo <= atSeq then OverlayAll(log)
    else StateAt(log[..|log| - 1], atSeq)
  }

  /** The selected event: the last one numbered at most `atSeq`. */
  function SelectedAt(log: seq<Event>, atSeq: int): Option<Event>
  {
    if log == [] || atSeq <= 0 then None
    else if log[|log| - 1].seqNo <= atSeq then Some(log[|log| - 1])
    else SelectedAt(log[..|log| - 1], atSeq)
  }

  method Travel(log: seq<Event>, atSeq: int) returns (stateAt: Object, selected: Option<Event>)
    ensures stateAt == StateAt(log, atSeq) && selected == SelectedAt(log, atSeq)
  {
    var state: Object := map[];
    stateAt, selected := map[], None;
    for i := 0 to |log|
      invariant state == OverlayAll(log[..i])
      invariant stateAt == if atSeq == 0 then map[] else StateAt(log[..i], atSeq)
      invariant selected == SelectedAt(log[..i], atSeq)
    {
      assert log[..i + 1] == log[..i] + [log[i]];
      var event := log[i];
      var patch := PatchFor(event);
      if patch.Some? {
        state := state + patch.value;
      }
      if atSeq > 0 && event.seqNo <= atSeq {
        selected := Some(event);
        stateAt := state;
      }
    }
    assert log[..|log|] == log;
    if atSeq == 0 {
      stateAt := state;
    }
  }

  // ---------------------------------------------------------------- agreement with the store

  /** An object that names every key of the one it lands on, holds no null, and does so wherever object meets
      object below: merging it replaces the other outright. */
  predicate Replaces(base: Object, patch: Json)
    requires patch.Obj?
    decreases patch
  {
    var p := patch.fields;
    && base.Keys <= p.Keys
    && (forall k :: k in p ==> !p[k].Null?)
    && (forall k :: k in p && p[k].Obj? && k in base && base[k].Obj? ==> Replaces(base[k].fields, p[k]))
  }

  lemma {:induction false} MergeReplacesIff(base: Object, patch: Json)
    requires patch.Obj?
    ensures MergePatch(base, patch) == patch.fields <==> Replaces(base, patch)
    decreases patch
  {
    var p, m := patch.fields, MergePatch(base, patch);
    forall k | k in p && p[k].Obj? && k in base && base[k].Obj?
      ensures m[k] == p[k] <==> Replaces(base[k].fields, p[k])
    {
      MergeReplacesIff(base[k].fields, p[k]);
    }
    if Replaces(base, patch) {
      assert m == p;
    } else if m == p {
      forall k | k in base ensures k in p {
        assert k !in p ==> k in m;
      }
      forall k | k in p ensures !p[k].Null? {
        assert k in m;
      }
    }
  }

  /** No member of the patch is null, and where an object lands on an object it replaces it. */
  predicate Flat(state: Object, patch: Object)
  {
    forall k :: k in patch ==>
      && !patch[k].Null?
      && (patch[k].Obj? && k in state && state[k].Obj? ==> Replaces(state[k].fields, patch[k]))
  }

  /** Laying `patch` over `state` is merging it exactly when it is flat. */
  lemma OverlayIsMergeIffFlat(state: Object, patch: Object)
    ensures state + patch == MergePatch(state, Obj(patch)) <==> Flat(state, patch)
  {
    var o, m := state + patch, MergePatch(state, Obj(patch));
    forall k | k in patch && patch[k].Obj? && k in state && state[k].Obj?
      ensures MergePatch(state[k].fields, patch[k]) == patch[k].fields <==> Replaces(state[k].fields, patch[k])
    {
      MergeReplacesIff(state[k].fields, patch[k]);
    }
    if Flat(state, patch) {
      assert o == m;
    } else {
      var k :| k in patch && (patch[k].Null? ||
                              (patch[k].Obj? && k in state && state[k].Obj? && !Replaces(state[k].fields, patch[k])));
      assert k in o && o[k] == patch[k];
      assert k in m ==> m[k] != patch[k];
    }
  }

  /** Every patch of the log was flat on the state it was applied to. */
  predicate FlatLog(log: seq<Event>)
  {
    forall i :: 0 <= i < |log| && IsPatch(log[i]) ==> Flat(Fold(log[..i]), log[i].draft.payload.patch)
  }

  ghost predicate AgreesOn(log: seq<Event>, n: nat)
    requires n <= |log|
  {
    OverlayAll(log[..n]) == Fold(log[..n])
  }

  lemma OverlayStep(log: seq<Event>, n: nat, run: Run)
    requires n < |log| && Faithful(run, log) && AgreesOn(log, n)
    ensures AgreesOn(log, n + 1) <==> (IsPatch(log[n]) ==> Flat(Fold(log[..n]), log[n].draft.payload.patch))
  {
    assert log[..n + 1][..n] == log[..n];
    if IsPatch(log[n]) {
      OverlayIsMergeIffFlat(Fold(log[..n]), log[n].draft.payload.patch);
    } else if n == 0 {
      assert Fold(log[..0]) == map[];
      assert map[] + log[0].draft.payload.state == log[0].draft.payload.state;
    }
  }

  lemma {:induction false} FlatLogAgrees(log: seq<Event>, n: nat, run: Run)
    requires n <= |log| && Faithful(run, log) && FlatLog(log)
    ensures AgreesOn(log, n)
  {
    if n > 0 {
      FlatLogAgrees(log, n - 1, run);
      OverlayStep(log, n - 1, run);
    }
  }

  lemma {:induction false} StateAtPrefix(log: seq<Event>, s: nat)
    requires forall i :: 0 <= i < |log| ==> log[i].seqNo == i + 1
    requires s >= 1
    ensures StateAt(log, s) == OverlayAll(log[..if s < |log| then s else |log|])
  {
    if log != [] && s < |log| {
      var init := log[..|log| - 1];
      StateAtPrefix(init, s);
      assert init[..if s < |init| then s else |init|] == log[..s];
    } else {
      assert log[..|log|] == log;
    }
  }

  /** The event time travel selects: the one with the number asked for, the last one beyond the end, and none at or
      below zero. */
  lemma {:induction false} SelectedIsAsked(log: seq<Event>, s: int)
    requires forall i :: 0 <= i < |log| ==> log[i].seqNo == i + 1
    ensures SelectedAt(log, s) == if log == [] || s <= 0 then None else Some(log[if s <= |log| then s - 1 else |log| - 1])
  {
    if log != [] && s < |log| {
      SelectedIsAsked(log[..|log| - 1], s);
    }
  }

  /** Time travel shows the store's state at every point of a run exactly when every patch was flat. */
  lemma TravelAgreesIffFlat(log: seq<Event>, run: Run)
    requires Faithful(run, log)
    ensures (forall s: nat :: 1 <= s <= |log| ==> StateAt(log, s) == Fold(log[..s])) <==> FlatLog(log)
  {
    if FlatLog(log) {
      forall s: nat | 1 <= s <= |log| ensures StateAt(log, s) == Fold(log[..s]) {
        StateAtPrefix(log, s);
        FlatLogAgrees(log, s, run);
      }
    } else if forall s: nat :: 1 <= s <= |log| ==> StateAt(log, s) == Fold(log[..s]) {
      forall i | 0 <= i < |log| && IsPatch(log[i]) ensures Flat(Fold(log[..i]), log[i].draft.payload.patch) {
        AgreesAt(log, i);
        AgreesAt(log, i + 1);
        OverlayStep(log, i, run);
      }
      assert false;
    }
  }

  lemma AgreesAt(log: seq<Event>, n: nat)
    requires n <= |log| && forall i :: 0 <= i < |log| ==> log[i].seqNo == i + 1
    requires forall s: nat :: 1 <= s <= |log| ==> StateAt(log, s) == Fold(log[..s])
    ensures AgreesOn(log, n)
  {
    if n > 0 {
      StateAtPrefix(log, n);
    } else {
      assert log[..0] == [];
    }
  }

  /** Patches whose values are neither null nor objects. */
  predicate Scalar(patch: Object) { forall k :: k in patch ==> !patch[k].Null? && !patch[k].Obj? }

  predicate ScalarLog(log: seq<Event>) { forall i :: 0 <= i < |log| && IsPatch(log[i]) ==> Scalar(log[i].draft.payload.patch) }

  /** For a run with scalar patches, time travel to the moment any earlier store `w` was in shows the state
      that store held, and time travel to 0 shows the final state. */
  lemma TravelShowsPastStates(w: World, calls: seq<Call>, r: Id, past: nat)
    requires Inv(w) && AllowedAll(w, calls) && r in w.data.runs
    requires ScalarLog(Log(Exec(w, calls).data, r)) && past == |Log(w.data, r)|
    ensures StateAt(Log(Exec(w, calls).data, r), past) == w.data.runs[r].state
    ensures r in Exec(w, calls).data.runs
    ensures StateAt(Log(Exec(w, calls).data, r), 0) == Exec(w, calls).data.runs[r].state
    ensures forall s: nat :: s > |Log(Exec(w, calls).data, r)| ==>
              StateAt(Log(Exec(w, calls).data, r), s) == Exec(w, calls).data.runs[r].state
  {
    RunsMoveForward(w, calls, r);
    CallsKeepInv(w, calls);
    var log, run := Log(Exec(w, calls).data, r), Exec(w, calls).data.runs[r];
    assert Faithful(run, log) && Faithful(w.data.runs[r], Log(w.data, r));
    assert log[..past] == Log(w.data, r);
    TravelOfScalarLog(log, run, past);
  }

  lemma TravelOfScalarLog(log: seq<Event>, run: Run, past: nat)
    requires Faithful(run, log) && ScalarLog(log) && 1 <= past <= |log|
    ensures StateAt(log, past) == Fold(log[..past]) && StateAt(log, 0) == run.state
    ensures forall s: nat :: s > |log| ==> StateAt(log, s) == run.state
  {
    FlatLogAgrees(log, past, run);
    StateAtPrefix(log, past);
    assert log[..|log|] == log;
    FlatLogAgrees(log, |log|, run);
    forall s: nat | s > |log| ensures StateAt(log, s) == run.state {
      StateAtPrefix(log, s);
    }
  }

  lemma ExecOfTwo(w: World, a: Call, b: Call)
    ensures Exec(w, [a, b]) == Apply(Apply(w, a), b)
    ensures AllowedAll(w, [a, b]) <==> Allowed(w, a) && Allowed(Apply(w, a), b)
  {
    assert [a, b][1..] == [b] && [b][1..] == [];
    assert Exec(Apply(w, a), [b]) == Apply(Apply(w, a), b);
    assert AllowedAll(Apply(w, a), [b]) == Allowed(Apply(w, a), b);
  }

  function CreateCall(runId: Id, stepId: Id, initial: Object): Call { Call(CreateRun(runId, stepId, "s", initial), 1) }

  function PatchCall(runId: Id, patch: Object): Call { Call(SystemPatch(runId, patch), 1) }

  function Opening(stepId: Id, initial: Object): seq<Draft>
  {
    [Draft(RunCreated, "s", "", "", 0, InitialState(initial)), Plain(StepCreated, "s", stepId)]
  }

  lemma AfterCreate(runId: Id, stepId: Id, initial: Object)
    requires runId != "" && stepId != "" && runId != stepId
    ensures Allowed(START, CreateCall(runId, stepId, initial))
    ensures var w := Apply(START, CreateCall(runId, stepId, initial));
            && w.clock == 1 && runId in w.data.runs && w.data.runs[runId].state == initial && w.data.runs[runId].stateVersion == 0
            && w.data.runs[runId].sessionId == "s" && Log(w.data, runId) == Numbered(0, 1, Opening(stepId, initial))
  {
  }

  /** The log of a run that was created and then patched once by the system. */
  lemma TwoCalls(runId: Id, stepId: Id, initial: Object, patch: Object)
    requires runId != "" && stepId != "" && runId != stepId
    ensures var calls := [CreateCall(runId, stepId, initial), PatchCall(runId, patch)];
            && AllowedAll(START, calls)
            && var d := Exec(START, calls).data;
               && runId in d.runs && d.runs[runId].state == MergePatch(initial, Obj(patch))
               && Log(d, runId) == Numbered(0, 1, Opening(stepId, initial)) + [Event(3, 1, Draft(SystemPatchApplied, "s", "", "", 1, Patch(patch, 1)))]
  {
    ExecOfTwo(START, CreateCall(runId, stepId, initial), PatchCall(runId, patch));
    AfterCreate(runId, stepId, initial);
    AfterPatch(Apply(START, CreateCall(runId, stepId, initial)).data, runId, patch);
  }

  lemma AfterPatch(d: StoreData, runId: Id, patch: Object)
    requires runId in d.runs && d.runs[runId].stateVersion == 0 && d.runs[runId].sessionId == "s" && |Log(d, runId)| == 2
    ensures var e := SystemPatchEffect(d, runId, patch, 1);
            && runId in e.runs && e.runs[runId].state == MergePatch(d.runs[runId].state, Obj(patch))
            && Log(e, runId) == Log(d, runId) + [Event(3, 1, Draft(SystemPatchApplied, "s", "", "", 1, Patch(patch, 1)))]
  {
    var draft := Draft(SystemPatchApplied, "s", "", "", 1, Patch(patch, 1));
    assert Numbered(2, 1, [draft]) == [Event(3, 1, draft)];
  }

  lemma OverlayOfTwoCalls(log: seq<Event>, initial: Object, patch: Object)
    requires |log| == 3 && (forall i :: 0 <= i < 3 ==> log[i].seqNo == i + 1)
    requires log[0].draft.kind.RunCreated? && log[0].draft.payload == InitialState(initial) && log[1].draft.kind.StepCreated?
    requires log[2].draft.kind.SystemPatchApplied? && log[2].draft.payload.Patch? && log[2].draft.payload.patch == patch
    ensures StateAt(log, 3) == initial + patch
  {
    assert log[..2] == [log[0], log[1]] && log[..2][..1] == [log[0]] && [log[0]][..0] == [];
    assert OverlayAll([log[0]]) == map[] + initial == initial;
    assert OverlayAll(log[..2]) == initial;
  }

  /** A deletion is the simplest patch time travel gets wrong: two calls give a store whose state has lost the key
      that time travel to its last event still shows, as a null. */
  lemma TravelKeepsDeletedKey(runId: Id, stepId: Id, key: string, value: Json)
    requires runId != "" && stepId != "" && runId != stepId && !value.Null?
    ensures var calls := [CreateCall(runId, stepId, map[key := value]), PatchCall(runId, map[key := Null])];
            && AllowedAll(START, calls)
            && var d := Exec(START, calls).data;
               runId in d.runs && d.runs[runId].state == map[] && StateAt(Log(d, runId), |Log(d, runId)|) == map[key := Null]
  {
    var initial, patch := map[key := value], map[key := Null];
    var calls := [CreateCall(runId, stepId, initial), PatchCall(runId, patch)];
    TwoCalls(runId, stepId, initial, patch);
    OverlayOfTwoCalls(Log(Exec(START, calls).data, runId), initial, patch);
    assert initial + patch == patch && MergePatch(initial, Obj(patch)) == map[];
  }
}
