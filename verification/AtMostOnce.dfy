/**
 Tool runs under one idempotency key, over every interleaving of calls, crashes and other clients of the
 store. None of it needs the calls to be well timed or the drawn identifiers to be new.
 */
module AtMostOnce {
  import opened Json
  import opened Text
  import opened Store
  import opened StoreFrames
  import opened Gateway

  // ---------------------------------------------------------------- how often

  /** One run, and as many more as calls can overlap each time the entry is declared to have had no effect. */
  function Allowance(k: nat, declared: nat): nat { 1 + k * declared }

  datatype Entry = Absent | Free | Taken

  /** `Free`: declared to have had no effect, so the next call to reserve the key may run the tool. */
  function EntryOf(ledger: map<Id, LedgerEntry>, key: Id): Entry
  {
    if key !in ledger then Absent else if ledger[key].status == FAILED_NO_EFFECT then Free else Taken
  }

  /** Runs done, about to happen and reserved stay within the allowance; a free entry may still arm `k` calls. */
  predicate Fits(entry: Entry, done: nat, firing: nat, armed: nat, k: nat, declared: nat)
  {
    match entry
    case Absent => done + firing + armed == 0
    case Free => done + firing + k <= Allowance(k, declared)
    case Taken => done + firing + armed <= Allowance(k, declared)
  }

  predicate Bounded(s: Sys, key: Id, k: nat)
  {
    Fits(EntryOf(s.world.data.ledger, key), ExecCount(s.invocations, key), Count(s.frames, Firing, key),
         Count(s.frames, Armed, key), k, s.noEffect[key])
  }

  predicate TouchesLedger(pc: Pc) { pc.ReserveKey? || pc.MarkRunning? || pc.FailMark? || pc.SucceedMark? }

  lemma AdvanceCounts(cfg: Config, s: Sys, i: nat, m: Move, key: Id)
    requires i < |s.frames|
    ensures var f, s' := s.frames[i], AdvanceFrame(cfg, s, i, m);
            && ExecCount(s'.invocations, key) == ExecCount(s.invocations, key) + One(Invokes(cfg, f) && f.managed && f.key == key)
            && Count(s'.frames, Firing, key) + One(In(f, Firing, key)) == Count(s.frames, Firing, key) + One(In(s'.frames[i], Firing, key))
            && Count(s'.frames, Armed, key) + One(In(f, Armed, key)) == Count(s.frames, Armed, key) + One(In(s'.frames[i], Armed, key))
  {
    var f := s.frames[i];
    var f' := f.(pc := Next(cfg, f, s.world.data, m));
    CountUpdate(s.frames, i, f', Armed, key);
    CountUpdate(s.frames, i, f', Firing, key);
    if Invokes(cfg, f) {
      var run := Invocation(f.req, f.key, f.managed, f.pc.RunSandbox?, m.outcome);
      assert (s.invocations + [run])[..|s.invocations|] == s.invocations;
    }
  }

  /** What one advance may do to a key: `before` and `after` are the entry, the flags say whether the call was
      and is in the phase, and `ran` whether it ran the tool. */
  predicate KeyMove(before: Entry, after: Entry, fired: bool, firing: bool, wasArmed: bool, armed: bool, ran: bool)
  {
    && One(ran) + One(firing) <= One(fired) + One(wasArmed && !armed && after == Taken)
    && (armed && !wasArmed ==> (before == Absent && after == Taken) || (before == Free && after == Free))
    && (after == Free ==> before == Free)
    && (after == Absent ==> before == Absent)
  }

  lemma FitsAfter(before: Entry, after: Entry, fired: bool, firing: bool, wasArmed: bool, armed: bool, ran: bool,
                  e: nat, x: nat, a: nat, e': nat, x': nat, a': nat, k: nat, n: nat)
    requires KeyMove(before, after, fired, firing, wasArmed, armed, ran) && Fits(before, e, x, a, k, n)
    requires e' == e + One(ran) && x' + One(fired) == x + One(firing) && a' + One(wasArmed) == a + One(armed)
    requires a + x <= k
    ensures Fits(after, e', x', a', k, n)
  {
  }

  lemma PlainKeyMove(cfg: Config, f: Frame, d: StoreData, m: Move, key: Id)
    requires !TouchesLedger(f.pc)
    ensures var f', entry := f.(pc := Next(cfg, f, d, m)), EntryOf(d.ledger, key);
            KeyMove(entry, entry, In(f, Firing, key), In(f', Firing, key), In(f, Armed, key), In(f', Armed, key),
                    Invokes(cfg, f) && f.managed && f.key == key)
  {
  }

  lemma LedgerAfterReserve(d: StoreData, key: Id, ledgerId: Id, runId: Id, stepId: Id, toolName: string, now: Time, k: Id)
    ensures var ledger := Effect(d, Reserve(key, ledgerId, runId, stepId, toolName), now).ledger;
            EntryOf(ledger, k) == if k == key && key !in d.ledger then Taken else EntryOf(d.ledger, k)
  {
  }

  lemma LedgerAfterUpdate(d: StoreData, key: Id, status: LedgerStatus, errorType: string, response: Json, now: Time, k: Id)
    ensures var ledger := Effect(d, UpdateLedger(key, status, errorType, response), now).ledger;
            EntryOf(ledger, k) == if k == key && key in d.ledger then (if status == FAILED_NO_EFFECT then Free else Taken)
                                  else EntryOf(d.ledger, k)
  {
  }

  /** Reserving arms a call only when the entry is new or free; marking it running makes it taken. */
  lemma LedgerKeyMove(cfg: Config, f: Frame, d: StoreData, m: Move, key: Id)
    requires TouchesLedger(f.pc)
    ensures var f' := f.(pc := Next(cfg, f, d, m));
            KeyMove(EntryOf(d.ledger, key), EntryOf(Effect(d, FrameOp(f, m), m.now).ledger, key),
                    In(f, Firing, key), In(f', Firing, key), In(f, Armed, key), In(f', Armed, key),
                    Invokes(cfg, f) && f.managed && f.key == key)
  {
    match f.pc
    case ReserveKey => LedgerAfterReserve(d, f.key, m.drawn, f.req.runId, f.req.stepId, f.req.spec.name, m.now, key);
    case MarkRunning => LedgerAfterUpdate(d, f.key, RUNNING, "", Null, m.now, key);
    case FailMark => LedgerAfterUpdate(d, f.key, PENDING_VERIFICATION, "error", Null, m.now, key);
    case SucceedMark(v) => LedgerAfterUpdate(d, f.key, SUCCEEDED, "", v, m.now, key);
    case _ =>
  }

  lemma AdvanceKeyMove(cfg: Config, f: Frame, d: StoreData, m: Move, key: Id)
    ensures var f' := f.(pc := Next(cfg, f, d, m));
            KeyMove(EntryOf(d.ledger, key), EntryOf(Effect(d, FrameOp(f, m), m.now).ledger, key),
                    In(f, Firing, key), In(f', Firing, key), In(f, Armed, key), In(f', Armed, key),
                    Invokes(cfg, f) && f.managed && f.key == key)
  {
    if TouchesLedger(f.pc) {
      LedgerKeyMove(cfg, f, d, m, key);
    } else {
      OnlyLedgerCalls(d, FrameOp(f, m), m.now);
      PlainKeyMove(cfg, f, d, m, key);
    }
  }

  lemma AdvanceKeepsBounded(cfg: Config, s: Sys, i: nat, m: Move, key: Id, k: nat)
    requires i < |s.frames| && Bounded(s, key, k) && Count(s.frames, LiveOnKey, key) <= k
    ensures Bounded(AdvanceFrame(cfg, s, i, m), key, k)
  {
    var f, s', d := s.frames[i], AdvanceFrame(cfg, s, i, m), s.world.data;
    AdvanceCounts(cfg, s, i, m, key);
    CountWithin(s.frames, key);
    AdvanceKeyMove(cfg, f, d, m, key);
    FitsAfter(EntryOf(d.ledger, key), EntryOf(s'.world.data.ledger, key),
              In(f, Firing, key), In(s'.frames[i], Firing, key), In(f, Armed, key), In(s'.frames[i], Armed, key),
              Invokes(cfg, f) && f.managed && f.key == key,
              ExecCount(s.invocations, key), Count(s.frames, Firing, key), Count(s.frames, Armed, key),
              ExecCount(s'.invocations, key), Count(s'.frames, Firing, key), Count(s'.frames, Armed, key), k, s.noEffect[key]);
  }

  lemma CrashKeepsBounded(s: Sys, i: nat, key: Id, k: nat)
    requires i < |s.frames| && Bounded(s, key, k)
    ensures Bounded(s.(frames := s.frames[i := s.frames[i].(pc := Crashed)]), key, k)
  {
    CountUpdate(s.frames, i, s.frames[i].(pc := Crashed), Armed, key);
    CountUpdate(s.frames, i, s.frames[i].(pc := Crashed), Firing, key);
  }

  lemma EnvKeepsBounded(cfg: Config, s: Sys, call: Call, key: Id, k: nat)
    requires Bounded(s, key, k) && Count(s.frames, LiveOnKey, key) <= k
    ensures Bounded(Do(cfg, s, Env(call)), key, k)
  {
    CountWithin(s.frames, key);
    var before, after := EntryOf(s.world.data.ledger, key), EntryOf(Do(cfg, s, Env(call)).world.data.ledger, key);
    var n := s.noEffect[key];
    EnvEntry(s.world.data, call.op, call.now, key);
    FitsAfterEnv(before, after, ExecCount(s.invocations, key), Count(s.frames, Firing, key), Count(s.frames, Armed, key), k, n,
                 n + NoEffectSet(s.world.data, call.op)[key]);
  }

  /** Another client frees an entry only by declaring that it had no effect. */
  lemma EnvEntry(d: StoreData, op: Op, now: Time, key: Id)
    ensures var before, after := EntryOf(d.ledger, key), EntryOf(Effect(d, op, now).ledger, key);
            && (after == Absent ==> before == Absent)
            && (after == Free ==> before == Free || (before != Absent && NoEffectSet(d, op)[key] == 1))
  {
    match op
    case Reserve(k, ledgerId, runId, stepId, toolName) => LedgerAfterReserve(d, k, ledgerId, runId, stepId, toolName, now, key);
    case UpdateLedger(k, status, errorType, response) => LedgerAfterUpdate(d, k, status, errorType, response, now, key);
    case _ => OnlyLedgerCalls(d, op, now);
  }

  lemma FitsAfterEnv(before: Entry, after: Entry, e: nat, x: nat, a: nat, k: nat, n: nat, n': nat)
    requires Fits(before, e, x, a, k, n) && x + a <= k && n <= n'
    requires (after == Absent ==> before == Absent) && (after == Free ==> before == Free || (before != Absent && n + 1 <= n'))
    ensures Fits(after, e, x, a, k, n')
  {
    assert k * n' >= k * n && (n + 1 <= n' ==> k * n' >= k * n + k) by {
      Scales(k, n, n');
    }
  }

  lemma {:induction false} Scales(k: nat, n: nat, n': nat)
    requires n <= n'
    ensures k * n <= k * n' && (n < n' ==> k * n + k <= k * n')
    decreases n'
  {
    if n < n' {
      Scales(k, n, n' - 1);
      assert k * n' == k * (n' - 1) + k;
    }
  }

  lemma {:induction false} RunsKeepBounded(cfg: Config, s: Sys, acts: seq<Act>, key: Id, k: nat)
    requires Bounded(s, key, k) && Overlap(cfg, s, acts, LiveOnKey, key, k)
    ensures Bounded(Play(cfg, s, acts), key, k)
    decreases |acts|
  {
    if acts != [] {
      match acts[0] {
        case Begin(req) =>
          CountSnoc(s.frames, Frame(req, IdempotencyKey(req), IsManaged(req.spec), Start), Armed, key);
          CountSnoc(s.frames, Frame(req, IdempotencyKey(req), IsManaged(req.spec), Start), Firing, key);
        case Advance(i, m) => if i < |s.frames| { AdvanceKeepsBounded(cfg, s, i, m, key, k); }
        case Crash(i) => if i < |s.frames| { CrashKeepsBounded(s, i, key, k); }
        case Env(call) => EnvKeepsBounded(cfg, s, call, key, k);
      }
      RunsKeepBounded(cfg, Do(cfg, s, acts[0]), acts[1..], key, k);
    }
  }

  /** With at most `k` calls on a key at once, its tool runs at most `1 + k * declared` times. For `k == 1`,
      calls that do not overlap, that is one more than the declarations of no effect. */
  lemma ExecutionsBounded(cfg: Config, acts: seq<Act>, key: Id, k: nat)
    requires Overlap(cfg, INITIAL, acts, LiveOnKey, key, k)
    ensures ExecCount(Play(cfg, INITIAL, acts).invocations, key) <= 1 + k * Play(cfg, INITIAL, acts).noEffect[key]
  {
    RunsKeepBounded(cfg, INITIAL, acts, key, k);
  }

  lemma {:induction false} FramesNeverShrink(cfg: Config, s: Sys, acts: seq<Act>)
    ensures |s.frames| <= |Play(cfg, s, acts).frames|
    decreases |acts|
  {
    if acts != [] {
      FramesNeverShrink(cfg, Do(cfg, s, acts[0]), acts[1..]);
    }
  }

  lemma {:induction false} OverlapWithinFrames(cfg: Config, s: Sys, acts: seq<Act>, key: Id, k: nat)
    requires |Play(cfg, s, acts).frames| <= k
    ensures Overlap(cfg, s, acts, LiveOnKey, key, k)
    decreases |acts|
  {
    FramesNeverShrink(cfg, s, acts);
    CountWithin(s.frames, key);
    if acts != [] {
      OverlapWithinFrames(cfg, Do(cfg, s, acts[0]), acts[1..], key, k);
    }
  }

  /** However calls interleave and crash: while its entry is never declared to have had no effect, a managed
      tool runs at most once per key. */
  lemma RunsAtMostOnce(cfg: Config, acts: seq<Act>, key: Id)
    requires Play(cfg, INITIAL, acts).noEffect[key] == 0
    ensures ExecCount(Play(cfg, INITIAL, acts).invocations, key) <= 1
  {
    var k := |Play(cfg, INITIAL, acts).frames|;
    OverlapWithinFrames(cfg, INITIAL, acts, key, k);
    ExecutionsBounded(cfg, acts, key, k);
  }

  // ---------------------------------------------------------------- with what result

  /** The value a call is already committed to hand back. */
  function Carried(pc: Pc): Option<Json>
  {
    match pc
    case NoteReplay(v) => Some(v)
    case CostReplay(v) => Some(v)
    case NoteSandbox(outcome) => if outcome.Produced? && outcome.outputOk then Some(outcome.value) else None
    case SucceedMark(v) => Some(v)
    case DoneNote(v) => Some(v)
    case DoneCost(v) => Some(v)
    case Finished(result) => if result.Value? then Some(result.value) else None
    case _ => None
  }

  predicate RanTo(run: Invocation, key: Id, v: Json)
  {
    run.managed && run.key == key && run.outcome == Produced(v, true)
  }

  ghost predicate Backed(s: Sys, key: Id, v: Json)
  {
    (key, v) in s.written || exists i :: 0 <= i < |s.invocations| && RanTo(s.invocations[i], key, v)
  }

  ghost predicate FrameBacked(s: Sys, f: Frame)
  {
    f.managed && Carried(f.pc).Some? ==> Backed(s, f.key, Carried(f.pc).value)
  }

  /** Every value on its way to a caller, and every value the ledger would replay, came from a run under that
      key or from another client. */
  ghost predicate Agreed(s: Sys)
  {
    && (forall f :: f in s.frames ==> FrameBacked(s, f))
    && forall key :: key in s.world.data.ledger && s.world.data.ledger[key].status == SUCCEEDED ==>
                       Backed(s, key, s.world.data.ledger[key].response)
  }

  lemma BackedStays(s: Sys, s': Sys)
    requires s.written <= s'.written && s.invocations <= s'.invocations
    ensures forall key, v :: Backed(s, key, v) ==> Backed(s', key, v)
  {
    forall key, v | Backed(s, key, v) ensures Backed(s', key, v) {
      if (key, v) !in s.written {
        var i :| 0 <= i < |s.invocations| && RanTo(s.invocations[i], key, v);
        assert s'.invocations[i] == s.invocations[i];
      }
    }
  }

  /** Where a call gets the value it carries: it had it, the ledger replays it, or the tool just gave it. */
  lemma CarriedAfter(cfg: Config, f: Frame, d: StoreData, m: Move)
    requires Carried(Next(cfg, f, d, m)).Some?
    ensures var v := Carried(Next(cfg, f, d, m)).value;
            || Carried(f.pc) == Some(v)
            || (f.pc.ReserveKey? && f.key in d.ledger && d.ledger[f.key].status == SUCCEEDED && d.ledger[f.key].response == v)
            || (Invokes(cfg, f) && m.outcome == Produced(v, true))
  {
  }

  lemma AdvanceBacksFrame(cfg: Config, s: Sys, i: nat, m: Move)
    requires i < |s.frames| && Agreed(s)
    ensures FrameBacked(AdvanceFrame(cfg, s, i, m), AdvanceFrame(cfg, s, i, m).frames[i])
  {
    var f, s' := s.frames[i], AdvanceFrame(cfg, s, i, m);
    assert s'.frames[i] == f.(pc := Next(cfg, f, s.world.data, m));
    assert FrameBacked(s, f);
    BackedStays(s, s');
    if f.managed && Carried(s'.frames[i].pc).Some? {
      CarriedAfter(cfg, f, s.world.data, m);
      if Invokes(cfg, f) {
        assert s'.invocations[|s.invocations|] == Invocation(f.req, f.key, f.managed, f.pc.RunSandbox?, m.outcome);
      }
    }
  }

  lemma AdvanceKeepsAgreed(cfg: Config, s: Sys, i: nat, m: Move)
    requires i < |s.frames| && Agreed(s)
    requires s.frames[i].pc.SucceedMark? ==> s.frames[i].managed
    ensures Agreed(AdvanceFrame(cfg, s, i, m))
  {
    var s' := AdvanceFrame(cfg, s, i, m);
    AdvanceBacksFrame(cfg, s, i, m);
    BackedStays(s, s');
    forall g | g in s'.frames ensures FrameBacked(s', g) {
      var j :| 0 <= j < |s'.frames| && s'.frames[j] == g;
      assert j != i ==> s.frames[j] == g && FrameBacked(s, s.frames[j]);
    }
    assert FrameBacked(s, s.frames[i]);
    SuccessesStayBacked(s, s', s.frames[i], m);
  }

  lemma SuccessesStayBacked(s: Sys, s': Sys, f: Frame, m: Move)
    requires Agreed(s) && FrameBacked(s, f) && (f.pc.SucceedMark? ==> f.managed)
    requires s'.world.data.ledger == Effect(s.world.data, FrameOp(f, m), m.now).ledger
    requires s.written <= s'.written && s.invocations <= s'.invocations
    ensures forall key :: key in s'.world.data.ledger && s'.world.data.ledger[key].status == SUCCEEDED ==>
                            Backed(s', key, s'.world.data.ledger[key].response)
  {
    BackedStays(s, s');
    forall key | key in s'.world.data.ledger && s'.world.data.ledger[key].status == SUCCEEDED
      ensures Backed(s', key, s'.world.data.ledger[key].response)
    {
      SuccessAfterAdvance(f, s.world.data, m, key);
    }
  }

  lemma EntryAfterReserve(d: StoreData, key: Id, ledgerId: Id, runId: Id, stepId: Id, toolName: string, now: Time, k: Id)
    ensures var ledger := Effect(d, Reserve(key, ledgerId, runId, stepId, toolName), now).ledger;
            k in ledger ==> if k in d.ledger then ledger[k] == d.ledger[k] else ledger[k].status == RESERVED
  {
  }

  lemma EntryAfterUpdate(d: StoreData, key: Id, status: LedgerStatus, errorType: string, response: Json, now: Time, k: Id)
    ensures var ledger := Effect(d, UpdateLedger(key, status, errorType, response), now).ledger;
            k in ledger ==> k in d.ledger && if k == key then ledger[k].status == status && ledger[k].response == response
                                             else ledger[k] == d.ledger[k]
  {
  }

  /** An advance makes an entry succeed only by recording the value it is about to return. */
  lemma SuccessAfterAdvance(f: Frame, d: StoreData, m: Move, key: Id)
    requires key in Effect(d, FrameOp(f, m), m.now).ledger && Effect(d, FrameOp(f, m), m.now).ledger[key].status == SUCCEEDED
    ensures var after := Effect(d, FrameOp(f, m), m.now).ledger[key];
            || (key in d.ledger && d.ledger[key].status == SUCCEEDED && after.response == d.ledger[key].response)
            || (f.pc.SucceedMark? && f.key == key && after.response == f.pc.value)
  {
    match f.pc
    case ReserveKey => EntryAfterReserve(d, f.key, m.drawn, f.req.runId, f.req.stepId, f.req.spec.name, m.now, key);
    case MarkRunning => EntryAfterUpdate(d, f.key, RUNNING, "", Null, m.now, key);
    case FailMark => EntryAfterUpdate(d, f.key, PENDING_VERIFICATION, "error", Null, m.now, key);
    case SucceedMark(v) => EntryAfterUpdate(d, f.key, SUCCEEDED, "", v, m.now, key);
    case _ => OnlyLedgerCalls(d, FrameOp(f, m), m.now);
  }

  lemma EnvKeepsAgreed(cfg: Config, s: Sys, call: Call)
    requires Agreed(s)
    ensures Agreed(Do(cfg, s, Env(call)))
  {
    var s' := Do(cfg, s, Env(call));
    BackedStays(s, s');
    forall g | g in s'.frames ensures FrameBacked(s', g) {
      assert FrameBacked(s, g);
    }
    if !call.op.Reserve? && !call.op.UpdateLedger? {
      OnlyLedgerCalls(s.world.data, call.op, call.now);
    }
  }

  /** Only managed calls mark the ledger. */
  ghost predicate MarksManaged(s: Sys)
  {
    forall f :: f in s.frames && f.pc.SucceedMark? ==> f.managed
  }

  lemma DoKeepsMarks(cfg: Config, s: Sys, a: Act)
    requires MarksManaged(s)
    ensures MarksManaged(Do(cfg, s, a))
  {
    var s' := Do(cfg, s, a);
    forall g | g in s'.frames && g.pc.SucceedMark? ensures g.managed {
      var j :| 0 <= j < |s'.frames| && s'.frames[j] == g;
      assert j < |s.frames| ==> s.frames[j] in s.frames;
    }
  }

  lemma DoKeepsAgreed(cfg: Config, s: Sys, a: Act)
    requires Agreed(s) && MarksManaged(s)
    ensures Agreed(Do(cfg, s, a))
  {
    var s' := Do(cfg, s, a);
    match a
    case Advance(i, m) => if i < |s.frames| { AdvanceKeepsAgreed(cfg, s, i, m); }
    case Env(call) => EnvKeepsAgreed(cfg, s, call);
    case _ =>
      BackedStays(s, s');
      forall g | g in s'.frames ensures FrameBacked(s', g) {
        assert g in s.frames ==> FrameBacked(s, g);
      }
  }

  lemma {:induction false} RunsKeepAgreed(cfg: Config, s: Sys, acts: seq<Act>)
    requires Agreed(s) && MarksManaged(s)
    ensures Agreed(Play(cfg, s, acts))
    decreases |acts|
  {
    if acts != [] {
      DoKeepsAgreed(cfg, s, acts[0]);
      DoKeepsMarks(cfg, s, acts[0]);
      RunsKeepAgreed(cfg, Do(cfg, s, acts[0]), acts[1..]);
    }
  }

  lemma {:induction false} RunsAreCounted(invocations: seq<Invocation>, key: Id, a: nat, b: nat)
    requires a <= b < |invocations|
    requires invocations[a].managed && invocations[a].key == key && invocations[b].managed && invocations[b].key == key
    ensures ExecCount(invocations, key) >= if a == b then 1 else 2
    decreases |invocations|
  {
    var init := invocations[..|invocations| - 1];
    if b < |init| {
      RunsAreCounted(init, key, a, b);
    } else if a < b {
      RunsAreCounted(init, key, a, a);
    }
  }

  /** Any two managed calls on a key that return values return the same value: that of the one run of the
      tool. It needs that nobody else wrote a success for the key, or declared it to have had no effect. */
  lemma ReturnedValuesAreTheOneRun(cfg: Config, acts: seq<Act>, key: Id, i: nat, j: nat) returns (run: nat)
    requires var s := Play(cfg, INITIAL, acts);
             && s.noEffect[key] == 0 && (forall v :: (key, v) !in s.written)
             && i < |s.frames| && s.frames[i].managed && s.frames[i].key == key
             && j < |s.frames| && s.frames[j].managed && s.frames[j].key == key
             && s.frames[i].pc.Finished? && s.frames[i].pc.result.Value?
             && s.frames[j].pc.Finished? && s.frames[j].pc.result.Value?
    ensures var s := Play(cfg, INITIAL, acts);
            && s.frames[i].pc.result == s.frames[j].pc.result
            && ExecCount(s.invocations, key) == 1
            && run < |s.invocations| && RanTo(s.invocations[run], key, s.frames[i].pc.result.value)
  {
    var s := Play(cfg, INITIAL, acts);
    RunsKeepAgreed(cfg, INITIAL, acts);
    RunsAtMostOnce(cfg, acts, key);
    run := BackingRun(s, s.frames[i]);
    var other := BackingRun(s, s.frames[j]);
    RunsAreCounted(s.invocations, key, if run <= other then run else other, if run <= other then other else run);
  }

  lemma BackingRun(s: Sys, f: Frame) returns (run: nat)
    requires Agreed(s) && f in s.frames && f.managed && f.pc.Finished? && f.pc.result.Value?
    requires forall v :: (f.key, v) !in s.written
    ensures run < |s.invocations| && RanTo(s.invocations[run], f.key, f.pc.result.value)
  {
    assert FrameBacked(s, f);
    run :| 0 <= run < |s.invocations| && RanTo(s.invocations[run], f.key, f.pc.result.value);
  }
}
