/** An operator's denial of an approval, over every run of the system: until someone approves the key, nothing runs under it. */
module GatewayDenial {
  import opened Text
  import opened Store
  import opened StoreFrames
  import opened Gateway

  predicate IsDenied(d: StoreData, key: Id) { key in d.approvals && d.approvals[key].status == DENIED }

  /** Program points from which a call on a denied key no longer reaches its tool. */
  predicate BeforePermit(pc: Pc)
  {
    || pc.Start? || pc.RejectInput? || pc.CheckPolicy? || pc.NoteDenied? || pc.AskApproval? || pc.NoteAsked? || pc.NoteRequired?
    || pc == Permit(false) || Halted(pc)
  }

  /** Where a call that finds the key denied can be: it is refused, or it crashes. */
  predicate BeingRefused(pc: Pc)
  {
    || pc.Start? || pc.RejectInput? || pc.CheckPolicy? || pc.NoteDenied? || pc.Crashed?
    || pc == Finished(Error(InputInvalid)) || pc == Finished(Error(PermissionDenied))
  }

  /** The key is denied, the first `first` calls have not passed the permission check, later ones are being refused, and
      of the tool runs only the first `runs` are under the key. */
  ghost predicate Barred(s: Sys, key: Id, first: nat, runs: nat)
  {
    && IsDenied(s.world.data, key)
    && (forall i :: 0 <= i < |s.frames| && s.frames[i].key == key ==>
          if i < first then BeforePermit(s.frames[i].pc) else BeingRefused(s.frames[i].pc))
    && (forall j :: runs <= j < |s.invocations| ==> s.invocations[j].key != key)
  }

  /** Nobody approves the key. */
  predicate LeavesDenied(op: Op, key: Id) { op.Decide? && op.key == key ==> op.decision.DENIED? }

  predicate NobodyApproves(acts: seq<Act>, key: Id)
  {
    forall a :: a in acts && a.Env? ==> LeavesDenied(a.call.op, key)
  }

  lemma DecisionStaysDenied(d: StoreData, at: Id, decision: ApprovalStatus, approver: string, reason: string, now: Time, key: Id)
    requires IsDenied(d, key) && (at == key ==> decision.DENIED?)
    ensures IsDenied(DecideEffect(d, at, decision, approver, reason, now), key)
  {
  }

  lemma StaysDenied(d: StoreData, op: Op, now: Time, key: Id)
    requires IsDenied(d, key) && LeavesDenied(op, key)
    ensures IsDenied(Effect(d, op, now), key)
  {
    match op {
      case Decide(_, at, decision, approver, reason) => DecisionStaysDenied(d, at, decision, approver, reason, now, key);
      case RequestApproval(_, _, _, _, _, _) =>
      case _ => OnlyApprovalCalls(d, op, now);
    }
  }

  lemma CallsNeverDecide(f: Frame, m: Move)
    ensures !FrameOp(f, m).Decide?
  {
  }

  lemma StepWhileDenied(cfg: Config, f: Frame, d: StoreData, m: Move)
    requires IsDenied(d, f.key)
    ensures BeforePermit(f.pc) ==> BeforePermit(Next(cfg, f, d, m)) && !Invokes(cfg, f)
    ensures BeingRefused(f.pc) ==> BeingRefused(Next(cfg, f, d, m)) && !Invokes(cfg, f)
  {
  }

  lemma AdvanceKeepsBarred(cfg: Config, s: Sys, i: nat, m: Move, key: Id, first: nat, runs: nat)
    requires i < |s.frames| && Barred(s, key, first, runs)
    ensures Barred(AdvanceFrame(cfg, s, i, m), key, first, runs)
  {
    var f := s.frames[i];
    CallsNeverDecide(f, m);
    StaysDenied(s.world.data, FrameOp(f, m), m.now, key);
    if f.key == key {
      StepWhileDenied(cfg, f, s.world.data, m);
    }
  }

  lemma DoKeepsBarred(cfg: Config, s: Sys, a: Act, key: Id, first: nat, runs: nat)
    requires Barred(s, key, first, runs) && first <= |s.frames| && (a.Env? ==> LeavesDenied(a.call.op, key))
    ensures Barred(Do(cfg, s, a), key, first, runs) && first <= |Do(cfg, s, a).frames|
  {
    match a
    case Advance(i, m) => if i < |s.frames| { AdvanceKeepsBarred(cfg, s, i, m, key, first, runs); }
    case Env(call) => StaysDenied(s.world.data, call.op, call.now, key);
    case _ =>
  }

  lemma {:induction false} RunsKeepBarred(cfg: Config, s: Sys, acts: seq<Act>, key: Id, first: nat, runs: nat)
    requires Barred(s, key, first, runs) && first <= |s.frames| && NobodyApproves(acts, key)
    ensures Barred(Play(cfg, s, acts), key, first, runs)
    decreases |acts|
  {
    if acts != [] {
      assert acts[0] in acts;
      DoKeepsBarred(cfg, s, acts[0], key, first, runs);
      RunsKeepBarred(cfg, Do(cfg, s, acts[0]), acts[1..], key, first, runs);
    }
  }

  lemma {:induction false} InvocationsGrow(cfg: Config, s: Sys, acts: seq<Act>)
    ensures s.invocations <= Play(cfg, s, acts).invocations
    decreases |acts|
  {
    if acts != [] {
      InvocationsGrow(cfg, Do(cfg, s, acts[0]), acts[1..]);
    }
  }

  /** From any state in which the key has been denied and no call on it is past the permission check: whatever calls,
      crashes and other clients do, as long as nobody approves the key no tool ever runs under it, whether the policy
      allows it or not, and every call begun on it ends by being refused, if it ends. */
  lemma DenialHolds(cfg: Config, s: Sys, acts: seq<Act>, key: Id)
    requires IsDenied(s.world.data, key) && NobodyApproves(acts, key)
    requires forall f :: f in s.frames && f.key == key ==> BeforePermit(f.pc)
    ensures var t := Play(cfg, s, acts);
            && IsDenied(t.world.data, key)
            && s.invocations <= t.invocations && (forall j :: |s.invocations| <= j < |t.invocations| ==> t.invocations[j].key != key)
            && forall i :: |s.frames| <= i < |t.frames| && t.frames[i].key == key && t.frames[i].pc.Finished? ==>
                 t.frames[i].pc.result == Error(InputInvalid) || t.frames[i].pc.result == Error(PermissionDenied)
  {
    RunsKeepBarred(cfg, s, acts, key, |s.frames|, |s.invocations|);
    InvocationsGrow(cfg, s, acts);
  }

  /** The operator's act itself brings about such a state, and from then on the key stays shut. */
  lemma DenialShutsTheKey(cfg: Config, s: Sys, call: Call, acts: seq<Act>)
    requires Enabled(s, Env(call)) && call.op.Decide? && call.op.decision == DENIED && NobodyApproves(acts, call.op.key)
    requires forall f :: f in s.frames && f.key == call.op.key ==> BeforePermit(f.pc)
    ensures var t := Play(cfg, Do(cfg, s, Env(call)), acts);
            forall j :: |s.invocations| <= j < |t.invocations| ==> t.invocations[j].key != call.op.key
  {
    DenialHolds(cfg, Do(cfg, s, Env(call)), acts, call.op.key);
  }
}
