/** What every tool run had to pass, over every run of the system: policy, approval and sandbox. */
module GatewayPolicy {
  import opened Text
  import opened Store
  import opened StoreFrames
  import opened Gateway

  predicate PolicyAllows(cfg: Config, r: Request)
  {
    CheckTool(cfg.policy, r.agentRole, r.spec.name, r.spec.riskLevel)
  }

  /** The policy allows the tool or someone granted its key, and a tool that asks for approval was asked for. */
  predicate Cleared(cfg: Config, s: Sys, r: Request, key: Id)
  {
    && (PolicyAllows(cfg, r) || key in s.granted)
    && (r.spec.approvalRequired ==> key in s.world.data.approvals)
  }

  /** Program points past the permission check, up to running the tool. */
  predicate PastPermit(pc: Pc)
  {
    pc == Permit(true) || pc.CheckBudget? || pc.ReserveKey? || pc.MarkRunning? || pc.Launch? || pc.RunSandbox?
  }

  predicate FrameCleared(cfg: Config, s: Sys, f: Frame)
  {
    && (PastPermit(f.pc) ==> Cleared(cfg, s, f.req, f.key))
    && (f.pc.RunSandbox? ==> f.req.spec.sandboxRequired)
  }

  predicate RunCleared(cfg: Config, s: Sys, run: Invocation)
  {
    && Cleared(cfg, s, run.req, run.key)
    && (run.req.spec.sandboxRequired ==> run.viaExecutor)
    && (run.viaExecutor ==> cfg.executorConfigured)
  }

  ghost predicate GrantsRecorded(s: Sys)
  {
    forall key :: key in s.world.data.approvals && s.world.data.approvals[key].status == APPROVED ==> key in s.granted
  }

  ghost predicate Permitted(cfg: Config, s: Sys)
  {
    && GrantsRecorded(s)
    && (forall f :: f in s.frames ==> FrameCleared(cfg, s, f))
    && (forall run :: run in s.invocations ==> RunCleared(cfg, s, run))
  }

  lemma ReleaseLeavesApprovals(d: StoreData, approval: Approval, now: Time)
    ensures ReleaseStep(d, approval, now).approvals == d.approvals
  {
  }

  lemma ApprovalsAfterDecide(d: StoreData, key: Id, status: ApprovalStatus, approver: string, reason: string, now: Time)
    ensures var after := DecideEffect(d, key, status, approver, reason, now).approvals;
            && after.Keys == d.approvals.Keys
            && (key in after ==> after[key].status == status)
            && forall k :: k in after && k != key ==> after[k] == d.approvals[k]
  {
    if key in d.approvals {
      var noted := NoteDecision(d, key, status, approver, reason, now);
      ReleaseLeavesApprovals(noted, noted.approvals[key], now);
      assert noted.approvals.Keys == d.approvals.Keys;
    }
  }

  lemma ApprovalsAfterRequest(d: StoreData, key: Id, approval: Approval)
    requires approval.status == PENDING
    ensures var after := RequestApprovalEffect(d, key, approval).approvals;
            && key in after && d.approvals.Keys <= after.Keys
            && forall k :: k in after && k !in d.approvals ==> after[k].status == PENDING
    ensures forall k :: k in d.approvals ==> RequestApprovalEffect(d, key, approval).approvals[k] == d.approvals[k]
  {
  }

  /** No call takes an approval request away, and only a decision makes one approved. */
  lemma ApprovalsAfterCall(d: StoreData, op: Op, now: Time)
    ensures var after := Effect(d, op, now).approvals;
            && d.approvals.Keys <= after.Keys
            && forall k :: k in after && after[k].status == APPROVED ==>
                             (k in d.approvals && d.approvals[k].status == APPROVED) || k in Granted(op)
  {
    match op
    case Decide(_, key, decision, approver, reason) => ApprovalsAfterDecide(d, key, decision, approver, reason, now);
    case RequestApproval(key, approvalId, runId, sessionId, stepId, toolName) =>
      ApprovalsAfterRequest(d, key, Approval(approvalId, runId, sessionId, stepId, toolName, PENDING, "", "", now, now));
    case _ => OnlyApprovalCalls(d, op, now);
  }

  /** The permission check lets a call pass only when it is cleared; nothing after it forgets that. */
  lemma NextIsCleared(cfg: Config, s: Sys, f: Frame, m: Move)
    requires GrantsRecorded(s) && FrameCleared(cfg, s, f)
    ensures FrameCleared(cfg, s, f.(pc := Next(cfg, f, s.world.data, m)))
  {
  }

  lemma StoreMoveKeepsPermitted(cfg: Config, s: Sys, s': Sys, op: Op, now: Time)
    requires Permitted(cfg, s) && s'.world.data == Effect(s.world.data, op, now)
    requires s'.granted == s.granted + Granted(op) && s'.frames == s.frames && s'.invocations == s.invocations
    ensures Permitted(cfg, s')
  {
    ApprovalsAfterCall(s.world.data, op, now);
    forall f | f in s.frames ensures FrameCleared(cfg, s', f) {
      assert FrameCleared(cfg, s, f);
    }
    forall run | run in s.invocations ensures RunCleared(cfg, s', run) {
      assert RunCleared(cfg, s, run);
    }
  }

  lemma FrameNeverGrants(f: Frame, m: Move)
    ensures Granted(FrameOp(f, m)) == {}
  {
  }

  lemma AdvanceKeepsPermitted(cfg: Config, s: Sys, i: nat, m: Move)
    requires i < |s.frames| && Permitted(cfg, s)
    ensures Permitted(cfg, AdvanceFrame(cfg, s, i, m))
  {
    var f := s.frames[i];
    assert FrameCleared(cfg, s, f);
    NextIsCleared(cfg, s, f, m);
    FrameNeverGrants(f, m);
    var moved := s.(frames := AdvanceFrame(cfg, s, i, m).frames, invocations := AdvanceFrame(cfg, s, i, m).invocations);
    forall g | g in moved.frames ensures FrameCleared(cfg, moved, g) {
      var j :| 0 <= j < |moved.frames| && moved.frames[j] == g;
      assert FrameCleared(cfg, s, if j == i then g else s.frames[j]);
    }
    forall run | run in moved.invocations ensures RunCleared(cfg, moved, run) {
      assert run in s.invocations ==> RunCleared(cfg, s, run);
    }
    StoreMoveKeepsPermitted(cfg, moved, AdvanceFrame(cfg, s, i, m), FrameOp(f, m), m.now);
  }

  lemma DoKeepsPermitted(cfg: Config, s: Sys, a: Act)
    requires Permitted(cfg, s)
    ensures Permitted(cfg, Do(cfg, s, a))
  {
    match a
    case Advance(i, m) => if i < |s.frames| { AdvanceKeepsPermitted(cfg, s, i, m); }
    case Env(call) =>
      var s' := Do(cfg, s, a);
      StoreMoveKeepsPermitted(cfg, s, s'.(noEffect := s.noEffect, written := s.written), call.op, call.now);
      forall f | f in s'.frames ensures FrameCleared(cfg, s', f) {
        assert FrameCleared(cfg, s'.(noEffect := s.noEffect, written := s.written), f);
      }
      forall run | run in s'.invocations ensures RunCleared(cfg, s', run) {
        assert RunCleared(cfg, s'.(noEffect := s.noEffect, written := s.written), run);
      }
    case _ =>
      var s' := Do(cfg, s, a);
      forall g | g in s'.frames ensures FrameCleared(cfg, s', g) {
        assert g in s.frames ==> FrameCleared(cfg, s, g);
      }
      forall run | run in s'.invocations ensures RunCleared(cfg, s', run) {
        assert RunCleared(cfg, s, run);
      }
  }

  lemma {:induction false} RunsKeepPermitted(cfg: Config, s: Sys, acts: seq<Act>)
    requires Permitted(cfg, s)
    ensures Permitted(cfg, Play(cfg, s, acts))
    decreases |acts|
  {
    if acts != [] {
      DoKeepsPermitted(cfg, s, acts[0]);
      RunsKeepPermitted(cfg, Do(cfg, s, acts[0]), acts[1..]);
    }
  }

  /** A tool the policy denies never runs unless its key was granted at some point. */
  lemma DeniedToolNeedsGrant(cfg: Config, acts: seq<Act>, i: nat)
    requires i < |Play(cfg, INITIAL, acts).invocations|
    ensures var s := Play(cfg, INITIAL, acts);
            PolicyAllows(cfg, s.invocations[i].req) || s.invocations[i].key in s.granted
  {
    RunsKeepPermitted(cfg, INITIAL, acts);
    assert Play(cfg, INITIAL, acts).invocations[i] in Play(cfg, INITIAL, acts).invocations;
  }

  /** A tool that must be sandboxed only ever runs through an executor, so never when none is configured. */
  lemma SandboxedToolNeedsExecutor(cfg: Config, acts: seq<Act>, i: nat)
    requires i < |Play(cfg, INITIAL, acts).invocations|
    requires Play(cfg, INITIAL, acts).invocations[i].req.spec.sandboxRequired
    ensures Play(cfg, INITIAL, acts).invocations[i].viaExecutor && cfg.executorConfigured
  {
    RunsKeepPermitted(cfg, INITIAL, acts);
    assert Play(cfg, INITIAL, acts).invocations[i] in Play(cfg, INITIAL, acts).invocations;
  }

  /** A tool that needs approval never runs before an approval was at least requested under its key. */
  lemma ApprovalIsAskedFirst(cfg: Config, acts: seq<Act>, i: nat)
    requires i < |Play(cfg, INITIAL, acts).invocations|
    requires Play(cfg, INITIAL, acts).invocations[i].req.spec.approvalRequired
    ensures Play(cfg, INITIAL, acts).invocations[i].key in Play(cfg, INITIAL, acts).world.data.approvals
  {
    RunsKeepPermitted(cfg, INITIAL, acts);
    assert Play(cfg, INITIAL, acts).invocations[i] in Play(cfg, INITIAL, acts).invocations;
  }
}
