/**
 The gateway as the code runs it (go/tools.go): one method after another on the store object. Run alone, a call
 takes exactly the steps of the machine in `Gateway`, so what is proved of the machine under interleaving is
 proved of this code.
 */
module ToolGateways {
  import opened Json
  import opened Text
  import opened Store
  import opened CostAttribution
  import opened Gateway
  import opened JSONStores

  // ---------------------------------------------------------------- policy

  /** Setters of the policy, each of which adds one entry to a role. */
  datatype Setting = Allow(role: string, tool: string) | Deny(role: string, tool: string) | AllowClass(role: string, risk: string)

  const NO_RULES := RolePolicy(map[], map[], map[], map[])

  function RoleOf(p: Policy, role: string): RolePolicy { if role in p.roles then p.roles[role] else NO_RULES }

  function Adjusted(p: Policy, s: Setting): Policy
  {
    var rules := RoleOf(p, s.role);
    p.(roles := p.roles[s.role :=
      match s
      case Allow(_, tool) => rules.(allowTools := rules.allowTools[tool := true])
      case Deny(_, tool) => rules.(denyTools := rules.denyTools[tool := true])
      case AllowClass(_, risk) => rules.(allowRisk := rules.allowRisk[risk := true])])
  }

  function AdjustedAll(p: Policy, settings: seq<Setting>): Policy
    decreases |settings|
  {
    if settings == [] then p else AdjustedAll(Adjusted(p, settings[0]), settings[1..])
  }

  /** An explicit denial is never lifted: whatever is allowed later, the tool stays denied for the role. */
  lemma {:induction false} DenialIsPermanent(p: Policy, settings: seq<Setting>, role: string, tool: string, risk: string)
    requires Flag(RoleOf(p, role).denyTools, tool)
    ensures !CheckTool(AdjustedAll(p, settings), role, tool, risk)
    decreases |settings|
  {
    if settings != [] {
      DenialIsPermanent(Adjusted(p, settings[0]), settings[1..], role, tool, risk);
    }
  }

  /** Allowing a role its first tool closes the role's default: tools that were merely not forbidden are denied. */
  lemma AllowingOneToolClosesTheRest(p: Policy, role: string, tool: string, other: string, risk: string)
    requires other != tool && !Flag(RoleOf(p, role).allowTools, other) && !Flag(RoleOf(p, role).allowRisk, risk)
    ensures !CheckTool(Adjusted(p, Allow(role, tool)), role, other, risk)
  {
    assert tool in Adjusted(p, Allow(role, tool)).roles[role].allowTools;
  }

  /** What each setter does to the tool or class it names: a denial shuts it, an allowance opens it unless the tool is
      denied, and an allowed class opens it unless the tool or, for a tool not itself allowed, the class is denied. */
  lemma SettersTakeEffect(p: Policy, role: string, tool: string, risk: string)
    ensures !CheckTool(Adjusted(p, Deny(role, tool)), role, tool, risk)
    ensures CheckTool(Adjusted(p, Allow(role, tool)), role, tool, risk) <==> !Flag(RoleOf(p, role).denyTools, tool)
    ensures CheckTool(Adjusted(p, AllowClass(role, risk)), role, tool, risk) <==>
            !Flag(RoleOf(p, role).denyTools, tool) && (Flag(RoleOf(p, role).allowTools, tool) || !Flag(RoleOf(p, role).denyRisk, risk))
  {
  }

  /** Settings of one role leave every other role's answers alone. */
  lemma SettersStayInTheirRole(p: Policy, s: Setting, role: string, tool: string, risk: string)
    requires s.role != role
    ensures CheckTool(Adjusted(p, s), role, tool, risk) == CheckTool(p, role, tool, risk)
  {
  }

  /** A role without rules gets the default of the risk class; without a default it is refused the four high classes. */
  lemma DefaultsDecide(p: Policy, role: string, tool: string, risk: string)
    requires RoleOf(p, role) == NO_RULES
    ensures CheckTool(p, role, tool, risk) <==>
            if risk in p.defaultByRisk && p.defaultByRisk[risk] == "allow" then true
            else if risk in p.defaultByRisk && p.defaultByRisk[risk] == "deny" then false
            else risk != "high" && risk != "destructive" && risk != "sensitive" && risk != "financial_or_legal"
  {
  }

  class PolicyEngine {
    var policy: Policy

    constructor ()
      ensures policy == Policy(map[], map[])
    {
      policy := Policy(map[], map[]);
    }

    method AllowTool(role: string, tool: string)
      modifies this
      ensures policy == Adjusted(old(policy), Allow(role, tool))
    {
      var rules := RoleOf(policy, role);
      rules := rules.(allowTools := rules.allowTools[tool := true]);
      policy := policy.(roles := policy.roles[role := rules]);
    }

    method DenyTool(role: string, tool: string)
      modifies this
      ensures policy == Adjusted(old(policy), Deny(role, tool))
    {
      var rules := RoleOf(policy, role);
      rules := rules.(denyTools := rules.denyTools[tool := true]);
      policy := policy.(roles := policy.roles[role := rules]);
    }

    method AllowRisk(role: string, risk: string)
      modifies this
      ensures policy == Adjusted(old(policy), AllowClass(role, risk))
    {
      var rules := RoleOf(policy, role);
      rules := rules.(allowRisk := rules.allowRisk[risk := true]);
      policy := policy.(roles := policy.roles[role := rules]);
    }
  }

  // ---------------------------------------------------------------- a call run alone

  /** A call with the store to itself, after some of its moves. */
  datatype Solo = Solo(frame: Frame, data: StoreData, invoked: int)

  function Moved(cfg: Config, r: Solo, m: Move): Solo
  {
    Solo(r.frame.(pc := Next(cfg, r.frame, r.data, m)), Effect(r.data, FrameOp(r.frame, m), m.now),
        r.invoked + One(Invokes(cfg, r.frame)))
  }

  function Follow(cfg: Config, r: Solo, moves: seq<Move>): Solo
  {
    if moves == [] then r else Moved(cfg, Follow(cfg, r, moves[..|moves| - 1]), moves[|moves| - 1])
  }

  function FrameOf(req: Request): Frame { Frame(req, IdempotencyKey(req), IsManaged(req.spec), Start) }

  function Begun(req: Request, d: StoreData): Solo { Solo(FrameOf(req), d, 0) }

  /** What a call draws from outside: the clock at each of its steps, an identifier, and what the tool does if it
      is run. */
  datatype Inputs = Inputs(clock: nat -> Time, drawn: Id, outcome: ToolOutcome)

  /** A move made of these inputs: their identifier and outcome, and the reading of their clock at some step. */
  ghost predicate Draws(inputs: Inputs, m: Move)
  {
    m.drawn == inputs.drawn && m.outcome == inputs.outcome && exists n: nat :: m.now == inputs.clock(n)
  }

  /** Where a running call stands: the moves so far draw on the inputs only, and lead to this program point, store
      and number of tool runs. */
  ghost predicate Stands(cfg: Config, inputs: Inputs, begun: Solo, moves: seq<Move>, pc: Pc, d: StoreData, invoked: int)
  {
    && (forall m :: m in moves ==> Draws(inputs, m))
    && Follow(cfg, begun, moves) == Solo(begun.frame.(pc := pc), d, invoked)
  }

  /** `Stands`, kept closed inside the methods below: all they need of it is that it follows every move. */
  type Standing = (seq<Move>, Pc, StoreData, int) -> bool

  ghost predicate Closed(cfg: Config, inputs: Inputs, frame: Frame, stands: Standing)
  {
    forall moves, pc, d, invoked, m ::
      stands(moves, pc, d, invoked) && Draws(inputs, m) ==> Carries(cfg, frame, stands, moves, pc, d, invoked, m)
  }

  predicate Carries(cfg: Config, frame: Frame, stands: Standing, moves: seq<Move>, pc: Pc, d: StoreData, invoked: int, m: Move)
  {
    var f := frame.(pc := pc);
    stands(moves + [m], Next(cfg, f, d, m), Effect(d, FrameOp(f, m), m.now), invoked + One(Invokes(cfg, f)))
  }

  function Draw(inputs: Inputs, n: nat): Move { Move(inputs.clock(n), inputs.drawn, inputs.outcome) }

  lemma Advances(cfg: Config, inputs: Inputs, n: nat, frame: Frame, stands: Standing, moves: seq<Move>, pc: Pc, d: StoreData, invoked: int)
    requires Closed(cfg, inputs, frame, stands) && stands(moves, pc, d, invoked)
    ensures var f, m := frame.(pc := pc), Draw(inputs, n);
            stands(moves + [m], Next(cfg, f, d, m), Effect(d, FrameOp(f, m), m.now), invoked + One(Invokes(cfg, f)))
  {
    assert Draw(inputs, n).now == inputs.clock(n) && Draws(inputs, Draw(inputs, n));
    assert Carries(cfg, frame, stands, moves, pc, d, invoked, Draw(inputs, n));
  }

  lemma StandsIsClosed(cfg: Config, inputs: Inputs, begun: Solo)
    ensures Closed(cfg, inputs, begun.frame, (moves, pc, d, invoked) => Stands(cfg, inputs, begun, moves, pc, d, invoked))
  {
    var stands: Standing := (moves, pc, d, invoked) => Stands(cfg, inputs, begun, moves, pc, d, invoked);
    forall moves: seq<Move>, pc, d, invoked, m | stands(moves, pc, d, invoked) && Draws(inputs, m)
      ensures Carries(cfg, begun.frame, stands, moves, pc, d, invoked, m)
    {
      assert (moves + [m])[..|moves|] == moves;
    }
  }

  /** The outcome of reading policy and approvals: an earlier denial, a request to make, or the answer itself. */
  datatype Consultation = Refused | Asks | Decided(allowed: bool)

  function PointOf(c: Consultation): Pc
  {
    match c
    case Refused => NoteDenied
    case Asks => AskApproval
    case Decided(allowed) => Permit(allowed)
  }

  class ToolGateway {
    const store: JSONStore
    const cfg: Config

    constructor (store: JSONStore, cfg: Config)
      ensures this.store == store && this.cfg == cfg
    {
      this.store := store;
      this.cfg := cfg;
    }

    /** One appended event. */
    method Record(req: Request, kind: Kind, n: nat, inputs: Inputs, ghost frame: Frame, ghost stands: Standing, ghost moves: seq<Move>, ghost pc: Pc,
                  ghost invoked: nat)
      returns (ghost moves': seq<Move>)
      requires Closed(cfg, inputs, frame, stands) && stands(moves, pc, store.data, invoked) && frame == FrameOf(req)
      requires FrameOp(frame.(pc := pc), Draw(inputs, n)) == Note(frame, kind)
      modifies store
      ensures var f := frame.(pc := pc);
              stands(moves', Next(cfg, f, old(store.data), Draw(inputs, n)), store.data, invoked + One(Invokes(cfg, f)))
    {
      Advances(cfg, inputs, n, frame, stands, moves, pc, store.data, invoked);
      moves' := moves + [Draw(inputs, n)];
      store.AppendEventLocked(req.runId, Draft(kind, req.sessionId, req.stepId, req.agentRole, req.stateVersion, NoPayload), inputs.clock(n));
    }

    /** The request, and the check of its input. */
    method Admit(req: Request, inputs: Inputs, ghost frame: Frame, ghost stands: Standing) returns (ok: bool, ghost moves: seq<Move>)
      requires Closed(cfg, inputs, frame, stands) && stands([], Start, store.data, 0) && frame == FrameOf(req)
      modifies store
      ensures stands(moves, if ok then CheckPolicy else Finished(Error(InputInvalid)), store.data, 0)
    {
      moves := Record(req, ToolCallRequested, 0, inputs, frame, stands, [], Start, 0);
      ok := req.inputOk;
      if !ok {
        moves := Record(req, ToolCallFailed, 1, inputs, frame, stands, moves, RejectInput, 0);
      }
    }

    /** What policy and approvals say; reading them changes nothing. */
    method Consult(req: Request, inputs: Inputs, ghost frame: Frame, ghost stands: Standing, ghost moves: seq<Move>)
      returns (answer: Consultation, ghost moves': seq<Move>)
      requires Closed(cfg, inputs, frame, stands) && stands(moves, CheckPolicy, store.data, 0) && frame == FrameOf(req)
      ensures stands(moves', PointOf(answer), store.data, 0)
    {
      var allowed := CheckTool(cfg.policy, req.agentRole, req.spec.name, req.spec.riskLevel);
      var approval := store.ApprovalForKey(IdempotencyKey(req));
      Advances(cfg, inputs, 1, frame, stands, moves, CheckPolicy, store.data, 0);
      moves' := moves + [Draw(inputs, 1)];
      if approval.Some? {
        if approval.value.status == DENIED { return Refused, moves'; }
        if approval.value.status == APPROVED {
          allowed := true;
        }
      } else if req.spec.approvalRequired {
        return Asks, moves';
      }
      answer := Decided(allowed);
    }

    /** The permission: a refusal, or the call goes on to its budget check. */
    method Permission(req: Request, inputs: Inputs, ghost frame: Frame, ghost stands: Standing, ghost moves: seq<Move>)
      returns (refusal: Option<CallResult>, ghost moves': seq<Move>)
      requires Closed(cfg, inputs, frame, stands) && stands(moves, CheckPolicy, store.data, 0) && frame == FrameOf(req)
      modifies store
      ensures stands(moves', if refusal.Some? then Finished(refusal.value) else CheckBudget, store.data, 0)
    {
      var answer: Consultation;
      answer, moves' := Consult(req, inputs, frame, stands, moves);
      match answer
      case Refused =>
        moves' := Record(req, PermissionDecided, 2, inputs, frame, stands, moves', NoteDenied, 0);
        refusal := Some(Error(PermissionDenied));
      case Asks =>
        moves' := Ask(req, inputs, frame, stands, moves');
        refusal := Some(Error(ApprovalNeeded));
      case Decided(allowed) =>
        moves' := Record(req, PermissionDecided, 2, inputs, frame, stands, moves', Permit(allowed), 0);
        refusal := if allowed then None else Some(Error(PermissionDenied));
    }

    method Request(req: Request, inputs: Inputs, ghost frame: Frame, ghost stands: Standing, ghost moves: seq<Move>)
      returns (ghost moves': seq<Move>)
      requires Closed(cfg, inputs, frame, stands) && stands(moves, AskApproval, store.data, 0) && frame == FrameOf(req)
      modifies store
      ensures stands(moves', NoteAsked, store.data, 0)
    {
      Advances(cfg, inputs, 2, frame, stands, moves, AskApproval, store.data, 0);
      moves' := moves + [Draw(inputs, 2)];
      var _ := store.RequestApproval(IdempotencyKey(req), inputs.drawn, req.runId, req.sessionId, req.stepId, req.spec.name, inputs.clock(2));
    }

    method Ask(req: Request, inputs: Inputs, ghost frame: Frame, ghost stands: Standing, ghost moves: seq<Move>) returns (ghost moves': seq<Move>)
      requires Closed(cfg, inputs, frame, stands) && stands(moves, AskApproval, store.data, 0) && frame == FrameOf(req)
      modifies store
      ensures stands(moves', Finished(Error(ApprovalNeeded)), store.data, 0)
    {
      moves' := Request(req, inputs, frame, stands, moves);
      moves' := Record(req, PermissionDecided, 3, inputs, frame, stands, moves', NoteAsked, 0);
      moves' := Record(req, ApprovalRequired, 4, inputs, frame, stands, moves', NoteRequired, 0);
    }

    /** The budget check and, for a managed tool, the reservation: an answer, or the call may run its tool. */
    method Reserve(req: Request, inputs: Inputs, ghost frame: Frame, ghost stands: Standing, ghost moves: seq<Move>)
      returns (answer: Option<CallResult>, ghost moves': seq<Move>)
      requires Closed(cfg, inputs, frame, stands) && stands(moves, CheckBudget, store.data, 0) && frame == FrameOf(req)
      modifies store
      ensures stands(moves', if answer.Some? then Finished(answer.value) else Launch, store.data, 0)
    {
      var over: bool;
      over, moves' := BeforeToolCall(req, inputs, frame, stands, moves);
      if over { return Some(Error(OverBudget)), moves'; }
      if !IsManaged(req.spec) { return None, moves'; }
      answer, moves' := TakeKey(req, inputs, frame, stands, moves');
      if answer.Some? { return answer, moves'; }
      var marked: bool;
      marked, moves' := Mark(req, RUNNING, "", Null, 5, inputs, frame, stands, moves', MarkRunning, 0);
      answer := if marked then None else Some(Error(LedgerMissing));
    }

    method BeforeToolCall(req: Request, inputs: Inputs, ghost frame: Frame, ghost stands: Standing, ghost moves: seq<Move>)
      returns (over: bool, ghost moves': seq<Move>)
      requires Closed(cfg, inputs, frame, stands) && stands(moves, CheckBudget, store.data, 0) && frame == FrameOf(req)
      modifies store
      ensures stands(moves', if over then Finished(Error(OverBudget)) else if frame.managed then ReserveKey else Launch, store.data, 0)
    {
      var summary := CostSummary(Costs(store.data, req.runId));
      over := cfg.maxToolCalls > 0 && Truncate(summary.toolCalls) >= cfg.maxToolCalls;
      Advances(cfg, inputs, 3, frame, stands, moves, CheckBudget, store.data, 0);
      moves' := moves + [Draw(inputs, 3)];
      if over {
        moves' := Record(req, BudgetCheckFailed, 4, inputs, frame, stands, moves', NoteOverBudget, 0);
      }
    }

    /** The reservation: a new or free entry lets the call go on, any other answers it. */
    method TakeKey(req: Request, inputs: Inputs, ghost frame: Frame, ghost stands: Standing, ghost moves: seq<Move>)
      returns (answer: Option<CallResult>, ghost moves': seq<Move>)
      requires Closed(cfg, inputs, frame, stands) && stands(moves, ReserveKey, store.data, 0) && frame == FrameOf(req)
      modifies store
      ensures stands(moves', if answer.Some? then Finished(answer.value) else MarkRunning, store.data, 0)
    {
      Advances(cfg, inputs, 4, frame, stands, moves, ReserveKey, store.data, 0);
      moves' := moves + [Draw(inputs, 4)];
      var existing := store.ReserveLedger(IdempotencyKey(req), inputs.drawn, req.runId, req.stepId, req.spec.name, inputs.clock(4));
      if existing.None? { return None, moves'; }
      if existing.value.status == SUCCEEDED {
        moves' := Replay(req, existing.value.response, inputs, frame, stands, moves');
        return Some(Value(existing.value.response)), moves';
      }
      if existing.value.status == PENDING_VERIFICATION { return Some(Error(AwaitsVerification)), moves'; }
      answer := if existing.value.status == FAILED_NO_EFFECT then None else Some(Error(InProgress));
    }

    /** One change of the reserved entry. */
    method Mark(req: Request, status: LedgerStatus, errorType: string, response: Json, n: nat, inputs: Inputs, ghost frame: Frame,
                ghost stands: Standing, ghost moves: seq<Move>, ghost pc: Pc, ghost invoked: nat)
      returns (marked: bool, ghost moves': seq<Move>)
      requires Closed(cfg, inputs, frame, stands) && stands(moves, pc, store.data, invoked) && frame == FrameOf(req)
      requires FrameOp(frame.(pc := pc), Draw(inputs, n)) == UpdateLedger(frame.key, status, errorType, response)
      modifies store
      ensures var f := frame.(pc := pc);
              stands(moves', Next(cfg, f, old(store.data), Draw(inputs, n)), store.data, invoked + One(Invokes(cfg, f)))
      ensures marked <==> frame.key in old(store.data).ledger
    {
      Advances(cfg, inputs, n, frame, stands, moves, pc, store.data, invoked);
      moves' := moves + [Draw(inputs, n)];
      var r := store.UpdateLedger(IdempotencyKey(req), status, errorType, response, inputs.clock(n));
      marked := r.Ok?;
    }

    method Charge(req: Request, n: nat, inputs: Inputs, ghost frame: Frame, ghost stands: Standing, ghost moves: seq<Move>, ghost pc: Pc, value: Json, ghost invoked: nat)
      returns (ghost moves': seq<Move>)
      requires pc == CostReplay(value) || pc == DoneCost(value)
      requires Closed(cfg, inputs, frame, stands) && stands(moves, pc, store.data, invoked) && frame == FrameOf(req)
      modifies store
      ensures stands(moves', Finished(Value(value)), store.data, invoked)
    {
      Advances(cfg, inputs, n, frame, stands, moves, pc, store.data, invoked);
      moves' := moves + [Draw(inputs, n)];
      store.RecordCost(req.runId, req.sessionId, CostRecord(req.stepId, "tool", req.spec.name, 1.0, "call"), inputs.clock(n));
    }

    method Replay(req: Request, value: Json, inputs: Inputs, ghost frame: Frame, ghost stands: Standing, ghost moves: seq<Move>) returns (ghost moves': seq<Move>)
      requires Closed(cfg, inputs, frame, stands) && stands(moves, NoteReplay(value), store.data, 0) && frame == FrameOf(req)
      modifies store
      ensures stands(moves', Finished(Value(value)), store.data, 0)
    {
      moves' := Record(req, ToolCallCompleted, 5, inputs, frame, stands, moves, NoteReplay(value), 0);
      moves' := Charge(req, 6, inputs, frame, stands, moves', CostReplay(value), value, 0);
    }

    /** `executeTool`: the tool's own function, or the executor. */
    method Execute(req: Request, inputs: Inputs, ghost frame: Frame, ghost stands: Standing, ghost moves: seq<Move>)
      returns (outcome: ToolOutcome, ghost moves': seq<Move>, ghost invoked: nat)
      requires Closed(cfg, inputs, frame, stands) && stands(moves, Launch, store.data, 0) && frame == FrameOf(req)
      modifies store
      ensures stands(moves', AfterRun(frame, outcome), store.data, invoked)
      ensures invoked == One(!req.spec.sandboxRequired || cfg.executorConfigured)
    {
      if req.spec.sandboxRequired {
        outcome, moves', invoked := Sandboxed(req, inputs, frame, stands, moves);
      } else {
        Advances(cfg, inputs, 6, frame, stands, moves, Launch, store.data, 0);
        outcome, moves', invoked := inputs.outcome, moves + [Draw(inputs, 6)], 1;
      }
    }

    /** The executor between two events; without one the tool does not run. */
    method Sandboxed(req: Request, inputs: Inputs, ghost frame: Frame, ghost stands: Standing, ghost moves: seq<Move>)
      returns (outcome: ToolOutcome, ghost moves': seq<Move>, ghost invoked: nat)
      requires Closed(cfg, inputs, frame, stands) && stands(moves, Launch, store.data, 0) && frame == FrameOf(req)
      requires req.spec.sandboxRequired
      modifies store
      ensures stands(moves', AfterRun(frame, outcome), store.data, invoked)
      ensures invoked == One(cfg.executorConfigured)
    {
      moves' := Record(req, SandboxStarted, 6, inputs, frame, stands, moves, Launch, 0);
      Advances(cfg, inputs, 7, frame, stands, moves', RunSandbox, store.data, 0);
      moves' := moves' + [Draw(inputs, 7)];
      outcome := if cfg.executorConfigured then inputs.outcome else Raised;
      invoked := One(cfg.executorConfigured);
      moves' := Record(req, SandboxCompleted, 8, inputs, frame, stands, moves', NoteSandbox(outcome), invoked);
    }

    method Fail(req: Request, inputs: Inputs, ghost frame: Frame, ghost stands: Standing, ghost moves: seq<Move>, ghost invoked: nat) returns (ghost moves': seq<Move>)
      requires Closed(cfg, inputs, frame, stands) && stands(moves, if IsManaged(req.spec) then FailMark else FailNote, store.data, invoked)
      requires frame == FrameOf(req)
      modifies store
      ensures stands(moves', Finished(Error(if IsManaged(req.spec) then MayRetry else ToolFailed)), store.data, invoked)
    {
      moves' := moves;
      if IsManaged(req.spec) {
        var _, noted := Mark(req, PENDING_VERIFICATION, "error", Null, 9, inputs, frame, stands, moves, FailMark, invoked);
        moves' := noted;
      }
      moves' := Record(req, ToolCallFailed, 10, inputs, frame, stands, moves', FailNote, invoked);
    }

    method Succeed(req: Request, value: Json, inputs: Inputs, ghost frame: Frame, ghost stands: Standing, ghost moves: seq<Move>, ghost invoked: nat)
      returns (result: CallResult, ghost moves': seq<Move>)
      requires Closed(cfg, inputs, frame, stands) && stands(moves, if IsManaged(req.spec) then SucceedMark(value) else DoneNote(value), store.data, invoked)
      requires frame == FrameOf(req)
      modifies store
      ensures stands(moves', Finished(result), store.data, invoked)
    {
      moves' := moves;
      if IsManaged(req.spec) {
        var marked: bool;
        marked, moves' := Mark(req, SUCCEEDED, "", value, 9, inputs, frame, stands, moves, SucceedMark(value), invoked);
        if !marked { return Error(LedgerMissing), moves'; }
      }
      moves' := Record(req, ToolCallCompleted, 10, inputs, frame, stands, moves', DoneNote(value), invoked);
      moves' := Charge(req, 11, inputs, frame, stands, moves', DoneCost(value), value, invoked);
      result := Value(value);
    }

    /** `ToolGateway.Call`. Its result, what it leaves in the store and how often it ran the tool are what the
        machine gives on the call's own inputs when no other step comes in between. */
    method Call(req: Request, inputs: Inputs) returns (result: CallResult, ghost moves: seq<Move>, ghost invoked: nat)
      modifies store
      ensures Stands(cfg, inputs, Begun(req, old(store.data)), moves, Finished(result), store.data, invoked)
    {
      ghost var begun, frame := Begun(req, store.data), FrameOf(req);
      ghost var stands: Standing := (moves, pc, d, invoked) => Stands(cfg, inputs, begun, moves, pc, d, invoked);
      StandsIsClosed(cfg, inputs, begun);
      result, moves, invoked := Steps(req, inputs, frame, stands);
    }

    method Steps(req: Request, inputs: Inputs, ghost frame: Frame, ghost stands: Standing)
      returns (result: CallResult, ghost moves: seq<Move>, ghost invoked: nat)
      requires Closed(cfg, inputs, frame, stands) && stands([], Start, store.data, 0) && frame == FrameOf(req)
      modifies store
      ensures stands(moves, Finished(result), store.data, invoked)
    {
      invoked := 0;
      var ok: bool;
      ok, moves := Admit(req, inputs, frame, stands);
      if !ok { return Error(InputInvalid), moves, 0; }
      var refusal: Option<CallResult>;
      refusal, moves := Permission(req, inputs, frame, stands, moves);
      if refusal.Some? { return refusal.value, moves, 0; }
      var answer: Option<CallResult>;
      answer, moves := Reserve(req, inputs, frame, stands, moves);
      if answer.Some? { return answer.value, moves, 0; }
      var outcome: ToolOutcome;
      outcome, moves, invoked := Execute(req, inputs, frame, stands, moves);
      if outcome.Raised? || !outcome.outputOk {
        moves := Fail(req, inputs, frame, stands, moves, invoked);
        return Error(if IsManaged(req.spec) then MayRetry else ToolFailed), moves, invoked;
      }
      result, moves := Succeed(req, outcome.value, inputs, frame, stands, moves, invoked);
    }
  }
}
