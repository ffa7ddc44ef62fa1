/** Failure envelopes, their deduplication by slug, and the replay plan drawn from them (go/evidence.go). */
module ReplayPlan {
  import opened Text
  import opened Store

  // ---------------------------------------------------------------- slug

  /** Go's lower case as far as it can reach an ASCII letter. */
  function Lower(c: char): char
  {
    if 'A' <= c <= 'Z' then c - 'A' + 'a' else if c == '\U{212A}' then 'k' else if c == '\U{130}' then 'i' else c
  }

  predicate IsWord(c: char) { 'a' <= c <= 'z' || '0' <= c <= '9' }

  /** Word characters are kept, every run of others becomes one dash. */
  function Squeeze(s: string, afterDash: bool): string
  {
    if s == "" then ""
    else if IsWord(Lower(s[0])) then [Lower(s[0])] + Squeeze(s[1..], false)
    else (if afterDash then "" else "-") + Squeeze(s[1..], true)
  }

  function TrimLeft(s: string): string { if s != "" && s[0] == '-' then TrimLeft(s[1..]) else s }

  function TrimRight(s: string): string { if s != "" && s[|s| - 1] == '-' then TrimRight(s[..|s| - 1]) else s }

  function Slug(s: string): string
  {
    var out := TrimRight(TrimLeft(Squeeze(s, false)));
    if out == "" then "unknown" else out
  }

  method SlugLoop(value: string) returns (out: string)
    ensures out == Slug(value)
  {
    var builder, previousDash := "", false;
    for i := 0 to |value|
      invariant builder + Squeeze(value[i..], previousDash) == Squeeze(value, false)
    {
      assert value[i..][1..] == value[i + 1..];
      var ch := Lower(value[i]);
      if IsWord(ch) {
        assert builder + ([ch] + Squeeze(value[i + 1..], false)) == (builder + [ch]) + Squeeze(value[i + 1..], false);
        builder := builder + [ch];
        previousDash := false;
        continue;
      }
      if !previousDash {
        assert builder + ("-" + Squeeze(value[i + 1..], true)) == (builder + "-") + Squeeze(value[i + 1..], true);
        builder := builder + "-";
        previousDash := true;
      }
    }
    assert value[|value|..] == "" && builder + "" == builder;
    out := TrimRight(TrimLeft(builder));
    if out == "" {
      out := "unknown";
    }
  }

  predicate EndsInDash(s: string, afterDash: bool)
  {
    if s == "" then afterDash else !IsWord(Lower(s[|s| - 1]))
  }

  lemma {:induction false} SqueezeConcat(a: string, b: string, afterDash: bool)
    ensures Squeeze(a + b, afterDash) == Squeeze(a, afterDash) + Squeeze(b, EndsInDash(a, afterDash))
  {
    if a == "" {
      assert a + b == b;
    } else {
      assert (a + b)[1..] == a[1..] + b;
      SqueezeConcat(a[1..], b, !IsWord(Lower(a[0])));
    }
  }

  lemma {:induction false} TrimLeftStops(a: string, c: char, b: string)
    requires c != '-'
    ensures TrimLeft(a + [c] + b) == TrimLeft(a) + [c] + b
  {
    if a == "" {
      assert (a + [c] + b)[0] == c;
    } else if a[0] == '-' {
      assert (a + [c] + b)[1..] == a[1..] + [c] + b;
      TrimLeftStops(a[1..], c, b);
    }
  }

  lemma {:induction false} TrimRightStops(a: string, c: char, b: string)
    requires c != '-'
    ensures TrimRight(a + [c] + b) == a + [c] + TrimRight(b)
  {
    var s := a + [c] + b;
    if b == "" {
      assert s[|s| - 1] == c;
    } else if b[|b| - 1] == '-' {
      assert s[..|s| - 1] == a + [c] + b[..|b| - 1];
      TrimRightStops(a, c, b[..|b| - 1]);
    }
  }

  /** A slug splits at any word character that follows a dash. */
  lemma SlugSplits(p: string, c: char, rest: string)
    requires EndsInDash(p, false) && IsWord(c) && c == Lower(c)
    ensures Slug(p + [c] + rest) == TrimLeft(Squeeze(p, false)) + [c] + TrimRight(Squeeze(rest, false))
  {
    SqueezeConcat(p + [c], rest, false);
    SqueezeConcat(p, [c], false);
    assert Squeeze([c], true) == [c] by { assert [c][1..] == ""; }
    assert Squeeze(p + [c] + rest, false) == Squeeze(p, false) + [c] + Squeeze(rest, false);
    TrimLeftStops(Squeeze(p, false), c, Squeeze(rest, false));
    TrimRightStops(TrimLeft(Squeeze(p, false)), c, Squeeze(rest, false));
  }

  lemma {:induction false} SqueezeWords(s: string, afterDash: bool)
    requires forall i :: 0 <= i < |s| ==> IsWord(s[i])
    ensures Squeeze(s, afterDash) == s
  {
    if s != "" {
      SqueezeWords(s[1..], false);
    }
  }

  /** The word characters of a text, in lower case. */
  function Words(s: string): string
  {
    if s == "" then "" else (if IsWord(Lower(s[0])) then [Lower(s[0])] else "") + Words(s[1..])
  }

  function Dashless(s: string): string { if s == "" then "" else (if s[0] == '-' then "" else [s[0]]) + Dashless(s[1..]) }

  /** Word characters, and dashes that stand alone. */
  predicate IsSpaced(s: string)
  {
    && (forall i :: 0 <= i < |s| ==> IsWord(s[i]) || s[i] == '-')
    && (forall i :: 0 <= i < |s| - 1 ==> s[i] != '-' || s[i + 1] != '-')
  }

  lemma {:induction false} SqueezeIsSpaced(s: string, afterDash: bool)
    ensures IsSpaced(Squeeze(s, afterDash)) && Dashless(Squeeze(s, afterDash)) == Words(s)
    ensures afterDash && Squeeze(s, afterDash) != "" ==> Squeeze(s, afterDash)[0] != '-'
  {
    if s != "" {
      SqueezeIsSpaced(s[1..], !IsWord(Lower(s[0])));
      var rest := Squeeze(s[1..], !IsWord(Lower(s[0])));
      var head := if IsWord(Lower(s[0])) then [Lower(s[0])] else if afterDash then "" else "-";
      assert Squeeze(s, afterDash) == head + rest;
      if head == "" {
        assert head + rest == rest;
      } else {
        assert (head + rest)[1..] == rest;
      }
    }
  }

  lemma {:induction false} TrimLeftKeeps(s: string)
    requires IsSpaced(s)
    ensures IsSpaced(TrimLeft(s)) && Dashless(TrimLeft(s)) == Dashless(s) && (TrimLeft(s) != "" ==> TrimLeft(s)[0] != '-')
  {
    if s != "" && s[0] == '-' {
      TrimLeftKeeps(s[1..]);
    }
  }

  lemma {:induction false} DashlessSnoc(s: string, c: char)
    ensures Dashless(s + [c]) == Dashless(s) + if c == '-' then "" else [c]
  {
    if s != "" {
      assert (s + [c])[1..] == s[1..] + [c];
      DashlessSnoc(s[1..], c);
    } else {
      assert (s + [c])[1..] == "";
    }
  }

  lemma {:induction false} TrimRightKeeps(s: string)
    requires IsSpaced(s) && (s != "" ==> s[0] != '-')
    ensures IsSpaced(TrimRight(s)) && Dashless(TrimRight(s)) == Dashless(s)
    ensures TrimRight(s) != "" ==> TrimRight(s)[0] != '-' && TrimRight(s)[|TrimRight(s)| - 1] != '-'
  {
    if s != "" && s[|s| - 1] == '-' {
      var init := s[..|s| - 1];
      assert s == init + [s[|s| - 1]];
      DashlessSnoc(init, s[|s| - 1]);
      TrimRightKeeps(init);
    }
  }

  lemma {:induction false} NoDashes(s: string)
    requires Dashless(s) == "" && IsSpaced(s) && (s != "" ==> s[0] != '-')
    ensures s == ""
  {
  }

  /** A slug holds the word characters of its text in order, with single dashes only between them; a text without any gets
      the slug `unknown`. */
  lemma SlugHoldsTheWords(s: string)
    ensures Slug(s) != "" && IsSpaced(Slug(s)) && Slug(s)[0] != '-' && Slug(s)[|Slug(s)| - 1] != '-'
    ensures if Words(s) == "" then Slug(s) == "unknown" else Dashless(Slug(s)) == Words(s)
  {
    SqueezeIsSpaced(s, false);
    TrimKeeps(Squeeze(s, false));
    if Words(s) == "" {
      NoDashes(TrimRight(TrimLeft(Squeeze(s, false))));
    }
    UnknownIsSpaced();
  }

  lemma TrimKeeps(s: string)
    requires IsSpaced(s)
    ensures var out := TrimRight(TrimLeft(s));
            IsSpaced(out) && Dashless(out) == Dashless(s) && (out != "" ==> out[0] != '-' && out[|out| - 1] != '-')
  {
    TrimLeftKeeps(s);
    TrimRightKeeps(TrimLeft(s));
  }

  lemma UnknownIsSpaced()
    ensures IsSpaced("unknown") && "unknown"[0] != '-' && "unknown"[|"unknown"| - 1] != '-'
  {
  }

  // ---------------------------------------------------------------- envelopes

  datatype FailureStatus =
    | IsTerminal | RecoveryScheduled | UnknownSideEffect | AwaitsHuman | Blocked | Classified | IsFailed

  datatype Recoverability =
    | NoRecovery | AutoRetry | ManualVerification | HumanRequired | ManualIntervention | UnknownRecovery

  datatype Envelope = Envelope(failureId: string, status: FailureStatus, recoverability: Recoverability)

  function FailureId(runId: Id, sourceKind: string, sourceId: string): string
  {
    "failure-" + Slug(runId + "-" + sourceKind + "-" + sourceId)
  }

  function FirstText(a: string, b: string, c: string): string
  {
    if a != "" then a else if b != "" then b else c
  }

  function StepEnvelopes(runId: Id, steps: seq<(Id, Step)>): seq<Envelope>
  {
    if steps == [] then []
    else
      var (stepId, step) := steps[|steps| - 1];
      StepEnvelopes(runId, steps[..|steps| - 1]) +
      match step.status
      case Failed => [Envelope(FailureId(runId, "step", stepId), IsTerminal, NoRecovery)]
      case RetryScheduled => [Envelope(FailureId(runId, "step", stepId), RecoveryScheduled, AutoRetry)]
      case _ => []
  }

  predicate Reported(entry: LedgerEntry)
  {
    entry.status == PENDING_VERIFICATION || entry.status == LedgerStatus.FAILED || entry.status == ERROR
  }

  function LedgerFailureId(runId: Id, entry: LedgerEntry): string
  {
    FailureId(runId, "tool_ledger", FirstText(entry.ledgerId, entry.toolName, entry.stepId))
  }

  function LedgerEnvelope(runId: Id, entry: LedgerEntry): Envelope
  {
    if entry.status == PENDING_VERIFICATION then Envelope(LedgerFailureId(runId, entry), UnknownSideEffect, ManualVerification)
    else Envelope(LedgerFailureId(runId, entry), IsTerminal, NoRecovery)
  }

  function LedgerEnvelopes(runId: Id, ledger: seq<LedgerEntry>): seq<Envelope>
  {
    if ledger == [] then []
    else
      var entry := ledger[|ledger| - 1];
      LedgerEnvelopes(runId, ledger[..|ledger| - 1]) + if Reported(entry) then [LedgerEnvelope(runId, entry)] else []
  }

  function ApprovalEnvelopes(runId: Id, approvals: seq<Approval>): seq<Envelope>
  {
    if approvals == [] then []
    else
      var a := approvals[|approvals| - 1];
      var id := FailureId(runId, "approval", FirstText(a.approvalId, a.toolName, a.stepId));
      ApprovalEnvelopes(runId, approvals[..|approvals| - 1]) +
      match a.status
      case PENDING => [Envelope(id, AwaitsHuman, HumanRequired)]
      case DENIED => [Envelope(id, Blocked, HumanRequired)]
      case APPROVED => []
  }

  predicate IsFailureEvent(kind: Kind)
  {
    match kind
    case FailureClassified | ErrorRaised | StepFailed | StepRetryScheduled | StepWaitingHuman | LeaseExpired
       | RunCancelRequested | RunCancelled | ModelCallFailed | ToolCallFailed | ApprovalRequired | BudgetCheckFailed => true
    case _ => false
  }

  function EventStatus(kind: Kind, runStatus: Status): FailureStatus
  {
    match kind
    case StepFailed | RunCancelled | StepCancelled => IsTerminal
    case StepRetryScheduled | LeaseExpired => RecoveryScheduled
    case StepWaitingHuman | ApprovalRequired => AwaitsHuman
    case FailureClassified => Classified
    case Custom(name) => if name == "tool_call_blocked" then Blocked else IsFailed
    case _ => if runStatus.Failed? && kind.ErrorRaised? then IsTerminal else IsFailed
  }

  function EventRecoverability(kind: Kind, runStatus: Status): Recoverability
  {
    if runStatus.Failed? && (kind.StepFailed? || kind.RunCancelled? || kind.StepCancelled?) then NoRecovery
    else
      match kind
      case StepRetryScheduled | LeaseExpired => AutoRetry
      case StepWaitingHuman | ApprovalRequired => HumanRequired
      case Custom(name) => if name == "tool_call_blocked" then ManualIntervention else UnknownRecovery
      case _ => UnknownRecovery
  }

  function EventEnvelopes(runId: Id, runStatus: Status, events: seq<Event>): seq<Envelope>
  {
    if events == [] then []
    else
      var e := events[|events| - 1];
      EventEnvelopes(runId, runStatus, events[..|events| - 1]) +
      if IsFailureEvent(e.draft.kind)
      then [Envelope(FailureId(runId, "event", Decimal(e.seqNo)), EventStatus(e.draft.kind, runStatus), EventRecoverability(e.draft.kind, runStatus))]
      else []
  }

  function AllEnvelopes(runId: Id, runStatus: Status, steps: seq<(Id, Step)>, ledger: seq<LedgerEntry>,
                        approvals: seq<Approval>, events: seq<Event>): seq<Envelope>
  {
    StepEnvelopes(runId, steps) + LedgerEnvelopes(runId, ledger) + ApprovalEnvelopes(runId, approvals)
    + EventEnvelopes(runId, runStatus, events)
  }

  /** What each source of failures reports: failed steps and steps waiting for a retry, */
  lemma {:induction false} StepsReported(runId: Id, steps: seq<(Id, Step)>, e: Envelope)
    ensures e in StepEnvelopes(runId, steps) <==> exists i :: 0 <= i < |steps| && IsOfStep(runId, steps[i], e)
  {
    if steps != [] {
      StepsReported(runId, steps[..|steps| - 1], e);
      LastStepReported(runId, steps, e);
      assert forall i :: 0 <= i < |steps| - 1 ==> steps[..|steps| - 1][i] == steps[i];
    }
  }

  lemma LastStepReported(runId: Id, steps: seq<(Id, Step)>, e: Envelope)
    requires steps != []
    ensures e in StepEnvelopes(runId, steps) <==> e in StepEnvelopes(runId, steps[..|steps| - 1]) || IsOfStep(runId, steps[|steps| - 1], e)
  {
  }

  predicate IsOfStep(runId: Id, row: (Id, Step), e: Envelope)
  {
    && e.failureId == FailureId(runId, "step", row.0)
    && ((row.1.status == Status.Failed && e.status == IsTerminal && e.recoverability == NoRecovery)
        || (row.1.status == Status.RetryScheduled && e.status == RecoveryScheduled && e.recoverability == AutoRetry))
  }

  /** ledger entries that failed or wait for verification, */
  lemma {:induction false} LedgerReported(runId: Id, ledger: seq<LedgerEntry>, e: Envelope)
    ensures e in LedgerEnvelopes(runId, ledger) <==> exists i :: 0 <= i < |ledger| && IsOfEntry(runId, ledger[i], e)
  {
    if ledger != [] {
      LedgerReported(runId, ledger[..|ledger| - 1], e);
      LastEntryReported(runId, ledger, e);
      assert forall i :: 0 <= i < |ledger| - 1 ==> ledger[..|ledger| - 1][i] == ledger[i];
    }
  }

  lemma LastEntryReported(runId: Id, ledger: seq<LedgerEntry>, e: Envelope)
    requires ledger != []
    ensures e in LedgerEnvelopes(runId, ledger) <==> e in LedgerEnvelopes(runId, ledger[..|ledger| - 1]) || IsOfEntry(runId, ledger[|ledger| - 1], e)
  {
  }

  predicate IsOfEntry(runId: Id, entry: LedgerEntry, e: Envelope)
  {
    && e.failureId == LedgerFailureId(runId, entry)
    && ((entry.status == PENDING_VERIFICATION && e.status == UnknownSideEffect && e.recoverability == ManualVerification)
        || ((entry.status == LedgerStatus.FAILED || entry.status == ERROR) && e.status == IsTerminal && e.recoverability == NoRecovery))
  }

  /** and approvals that are pending or denied. */
  lemma {:induction false} ApprovalsReported(runId: Id, approvals: seq<Approval>, e: Envelope)
    ensures e in ApprovalEnvelopes(runId, approvals) <==> exists i :: 0 <= i < |approvals| && IsOfApproval(runId, approvals[i], e)
  {
    if approvals != [] {
      ApprovalsReported(runId, approvals[..|approvals| - 1], e);
      LastApprovalReported(runId, approvals, e);
      assert forall i :: 0 <= i < |approvals| - 1 ==> approvals[..|approvals| - 1][i] == approvals[i];
    }
  }

  lemma LastApprovalReported(runId: Id, approvals: seq<Approval>, e: Envelope)
    requires approvals != []
    ensures e in ApprovalEnvelopes(runId, approvals) <==> e in ApprovalEnvelopes(runId, approvals[..|approvals| - 1]) || IsOfApproval(runId, approvals[|approvals| - 1], e)
  {
  }

  predicate IsOfApproval(runId: Id, a: Approval, e: Envelope)
  {
    && e.failureId == FailureId(runId, "approval", FirstText(a.approvalId, a.toolName, a.stepId))
    && ((a.status == ApprovalStatus.PENDING && e.status == AwaitsHuman && e.recoverability == HumanRequired)
        || (a.status == DENIED && e.status == Blocked && e.recoverability == HumanRequired))
  }

  /** Events of the failing kinds are reported under their number, by kind: what waits for people, what is scheduled to be
      retried, what has ended, and the rest as failed. */
  lemma {:induction false} EventsReported(runId: Id, runStatus: Status, events: seq<Event>, e: Envelope)
    ensures e in EventEnvelopes(runId, runStatus, events) <==> exists i :: 0 <= i < |events| && IsOfEvent(runId, runStatus, events[i], e)
  {
    if events != [] {
      EventsReported(runId, runStatus, events[..|events| - 1], e);
      LastEventReported(runId, runStatus, events, e);
      assert forall i :: 0 <= i < |events| - 1 ==> events[..|events| - 1][i] == events[i];
    }
  }

  lemma LastEventReported(runId: Id, runStatus: Status, events: seq<Event>, e: Envelope)
    requires events != []
    ensures e in EventEnvelopes(runId, runStatus, events) <==>
            e in EventEnvelopes(runId, runStatus, events[..|events| - 1]) || IsOfEvent(runId, runStatus, events[|events| - 1], e)
  {
    KindCallsFor(events[|events| - 1].draft.kind, runStatus, e.status, e.recoverability);
  }

  predicate IsOfEvent(runId: Id, runStatus: Status, event: Event, e: Envelope)
  {
    e.failureId == FailureId(runId, "event", Decimal(event.seqNo)) && CallsFor(event.draft.kind, runStatus, e.status, e.recoverability)
  }

  predicate CallsFor(kind: Kind, runStatus: Status, status: FailureStatus, recoverability: Recoverability)
  {
    if kind == StepWaitingHuman || kind == ApprovalRequired then status == AwaitsHuman && recoverability == HumanRequired
    else if kind == StepRetryScheduled || kind == LeaseExpired then status == RecoveryScheduled && recoverability == AutoRetry
    else if kind == StepFailed || kind == RunCancelled then
      status == IsTerminal && recoverability == if runStatus == Status.Failed then NoRecovery else UnknownRecovery
    else if kind == FailureClassified then status == Classified && recoverability == UnknownRecovery
    else if kind == ErrorRaised then
      status == (if runStatus == Status.Failed then IsTerminal else IsFailed) && recoverability == UnknownRecovery
    else
      && (kind == RunCancelRequested || kind == ModelCallFailed || kind == ToolCallFailed || kind == BudgetCheckFailed)
      && status == IsFailed && recoverability == UnknownRecovery
  }

  lemma FailingKindCallsFor(kind: Kind, runStatus: Status, status: FailureStatus, recoverability: Recoverability)
    requires IsFailureEvent(kind)
    ensures CallsFor(kind, runStatus, status, recoverability) <==>
            status == EventStatus(kind, runStatus) && recoverability == EventRecoverability(kind, runStatus)
  {
  }

  lemma OtherKindCallsForNothing(kind: Kind, runStatus: Status, status: FailureStatus, recoverability: Recoverability)
    requires !IsFailureEvent(kind)
    ensures !CallsFor(kind, runStatus, status, recoverability)
  {
  }

  lemma KindCallsFor(kind: Kind, runStatus: Status, status: FailureStatus, recoverability: Recoverability)
    ensures CallsFor(kind, runStatus, status, recoverability) <==>
            IsFailureEvent(kind) && status == EventStatus(kind, runStatus) && recoverability == EventRecoverability(kind, runStatus)
  {
    if IsFailureEvent(kind) {
      FailingKindCallsFor(kind, runStatus, status, recoverability);
    } else {
      OtherKindCallsForNothing(kind, runStatus, status, recoverability);
    }
  }

  // ---------------------------------------------------------------- deduplication and plan

  ghost predicate FirstOfItsId(rows: seq<Envelope>, i: nat)
    requires i < |rows|
  {
    forall j :: 0 <= j < i ==> rows[j].failureId != rows[i].failureId
  }

  /** The first row of every identifier, in order; a row whose identifier is empty is dropped. */
  ghost function FirstRows(rows: seq<Envelope>): seq<Envelope>
  {
    if rows == [] then []
    else
      var last := |rows| - 1;
      FirstRows(rows[..last]) + if rows[last].failureId != "" && FirstOfItsId(rows, last) then [rows[last]] else []
  }

  method Dedupe(rows: seq<Envelope>) returns (out: seq<Envelope>)
    ensures out == FirstRows(rows)
  {
    out := [];
    var seen: set<string> := {};
    for n := 0 to |rows|
      invariant forall v :: v in seen <==> v != "" && exists i :: 0 <= i < n && rows[i].failureId == v
      invariant out == FirstRows(rows[..n])
    {
      assert rows[..n + 1][..n] == rows[..n];
      var row := rows[n];
      assert row.failureId != "" ==> (FirstOfItsId(rows[..n + 1], n) <==> row.failureId !in seen);
      if row.failureId == "" || row.failureId in seen {
        continue;
      }
      seen := seen + {row.failureId};
      out := out + [row];
    }
    assert rows[..|rows|] == rows;
  }

  ghost predicate KeptRow(rows: seq<Envelope>, i: nat)
    requires i < |rows|
  {
    rows[i].failureId != "" && FirstOfItsId(rows, i)
  }

  lemma PrefixKeeps(rows: seq<Envelope>, n: nat, i: nat)
    requires i < n <= |rows|
    ensures KeptRow(rows[..n], i) <==> KeptRow(rows, i)
  {
  }

  /** What deduplication keeps: every identifier that occurs keeps exactly one row, its first. */
  lemma {:induction false} FirstRowsAreDistinct(rows: seq<Envelope>)
    ensures forall e :: e in FirstRows(rows) <==> exists i :: 0 <= i < |rows| && rows[i] == e && KeptRow(rows, i)
    ensures forall i, j :: 0 <= i < j < |FirstRows(rows)| ==> FirstRows(rows)[i].failureId != FirstRows(rows)[j].failureId
  {
    if rows != [] {
      var n := |rows| - 1;
      var init := rows[..n];
      FirstRowsAreDistinct(init);
      forall i | 0 <= i < n ensures KeptRow(init, i) <==> KeptRow(rows, i) {
        PrefixKeeps(rows, n, i);
      }
      var before := FirstRows(init);
      forall e | e in before && KeptRow(rows, n) ensures e.failureId != rows[n].failureId {
        var i :| 0 <= i < n && init[i] == e && KeptRow(init, i);
        assert rows[i] == e;
      }
      forall e ensures e in FirstRows(rows) <==> exists i :: 0 <= i < |rows| && rows[i] == e && KeptRow(rows, i) {
        if i :| 0 <= i < n && rows[i] == e && KeptRow(rows, i) {
          assert init[i] == e;
        }
        if e in before {
          var i :| 0 <= i < n && init[i] == e && KeptRow(init, i);
          assert rows[i] == e;
        }
        assert e == rows[n] && KeptRow(rows, n) ==> e in FirstRows(rows);
      }
    }
  }

  predicate Unsafe(e: Envelope) { e.status.UnknownSideEffect? || e.recoverability.ManualVerification? }

  function CountUnsafe(envelopes: seq<Envelope>): nat
  {
    if envelopes == [] then 0
    else CountUnsafe(envelopes[..|envelopes| - 1]) + if Unsafe(envelopes[|envelopes| - 1]) then 1 else 0
  }

  /** The counting loop of the replay plan. */
  method PlanIsSafe(envelopes: seq<Envelope>) returns (safe: bool, unsafeCount: nat)
    ensures safe <==> forall e :: e in envelopes ==> !Unsafe(e)
    ensures unsafeCount == CountUnsafe(envelopes)
  {
    unsafeCount := 0;
    for i := 0 to |envelopes|
      invariant unsafeCount == CountUnsafe(envelopes[..i])
      invariant unsafeCount == 0 <==> forall e :: e in envelopes[..i] ==> !Unsafe(e)
    {
      assert envelopes[..i + 1] == envelopes[..i] + [envelopes[i]];
      assert envelopes[i] in envelopes[..i + 1] && envelopes[..i + 1][..i] == envelopes[..i];
      if Unsafe(envelopes[i]) {
        unsafeCount := unsafeCount + 1;
      }
    }
    assert envelopes[..|envelopes|] == envelopes;
    safe := unsafeCount == 0;
  }

  /** Some row that the plan counts as unsafe is the first of its identifier. */
  ghost predicate BlocksReplay(rows: seq<Envelope>)
  {
    exists i :: 0 <= i < |rows| && Unsafe(rows[i]) && FirstOfItsId(rows, i)
  }

  method SafeToReplay(runId: Id, runStatus: Status, steps: seq<(Id, Step)>, ledger: seq<LedgerEntry>,
                      approvals: seq<Approval>, events: seq<Event>) returns (safe: bool)
    ensures safe <==> !BlocksReplay(AllEnvelopes(runId, runStatus, steps, ledger, approvals, events))
  {
    var rows := AllEnvelopes(runId, runStatus, steps, ledger, approvals, events);
    var kept := Dedupe(rows);
    var unsafeCount: nat;
    safe, unsafeCount := PlanIsSafe(kept);
    NoEmptyId(runId, runStatus, steps, ledger, approvals, events);
    FirstRowsAreDistinct(rows);
    if BlocksReplay(rows) {
      var i :| 0 <= i < |rows| && Unsafe(rows[i]) && FirstOfItsId(rows, i);
      assert rows[i] in rows && KeptRow(rows, i);
      assert rows[i] in kept;
    }
  }

  lemma {:induction false} NoEmptyId(runId: Id, runStatus: Status, steps: seq<(Id, Step)>, ledger: seq<LedgerEntry>,
                                     approvals: seq<Approval>, events: seq<Event>)
    ensures forall e :: e in AllEnvelopes(runId, runStatus, steps, ledger, approvals, events) ==> e.failureId != ""
    decreases |steps|, |ledger|, |approvals|, |events|
  {
    StepRowsAreSafe(runId, steps);
    LedgerRows(runId, ledger);
    ApprovalRowsAreSafe(runId, approvals);
    EventRowsAreSafe(runId, runStatus, events);
  }

  ghost predicate FromKind(runId: Id, kind: string, e: Envelope)
  {
    e.failureId != "" && exists x :: e.failureId == FailureId(runId, kind, x)
  }

  lemma {:induction false} StepRowsAreSafe(runId: Id, steps: seq<(Id, Step)>)
    ensures forall e :: e in StepEnvelopes(runId, steps) ==> !Unsafe(e) && FromKind(runId, "step", e)
  {
    if steps != [] {
      StepRowsAreSafe(runId, steps[..|steps| - 1]);
      var id := steps[|steps| - 1].0;
      assert forall e: Envelope :: e.failureId == FailureId(runId, "step", id) ==> FromKind(runId, "step", e);
    }
  }

  lemma {:induction false} LedgerRows(runId: Id, ledger: seq<LedgerEntry>)
    ensures forall e :: e in LedgerEnvelopes(runId, ledger) ==> FromKind(runId, "tool_ledger", e)
  {
    if ledger != [] {
      LedgerRows(runId, ledger[..|ledger| - 1]);
      var last := ledger[|ledger| - 1];
      var id := FirstText(last.ledgerId, last.toolName, last.stepId);
      assert forall e: Envelope :: e.failureId == FailureId(runId, "tool_ledger", id) ==> FromKind(runId, "tool_ledger", e);
    }
  }

  lemma {:induction false} ApprovalRowsAreSafe(runId: Id, approvals: seq<Approval>)
    ensures forall e :: e in ApprovalEnvelopes(runId, approvals) ==> !Unsafe(e) && e.failureId != ""
  {
    if approvals != [] {
      ApprovalRowsAreSafe(runId, approvals[..|approvals| - 1]);
    }
  }

  lemma {:induction false} EventRowsAreSafe(runId: Id, runStatus: Status, events: seq<Event>)
    ensures forall e :: e in EventEnvelopes(runId, runStatus, events) ==> !Unsafe(e) && e.failureId != ""
  {
    if events != [] {
      EventRowsAreSafe(runId, runStatus, events[..|events| - 1]);
    }
  }

  // ---------------------------------------------------------------- exactness

  /** A step failure and a ledger failure never share an identifier, whatever the run, step and ledger ids. */
  lemma StepAndLedgerIdsDiffer(runId: Id, x: string, y: string)
    ensures FailureId(runId, "step", x) != FailureId(runId, "tool_ledger", y)
  {
    var p := runId + "-";
    var a, b := "tep-" + x, "ool_ledger-" + y;
    assert runId + "-" + "step" + "-" + x == p + ['s'] + a;
    assert runId + "-" + "tool_ledger" + "-" + y == p + ['t'] + b;
    SlugSplits(p, 's', a);
    SlugSplits(p, 't', b);
    var head := TrimLeft(Squeeze(p, false));
    assert Slug(p + ['s'] + a)[|head|] == 's' && Slug(p + ['t'] + b)[|head|] == 't';
    FailureIdIsSlug(runId, "step", x);
    FailureIdIsSlug(runId, "tool_ledger", y);
  }

  lemma FailureIdIsSlug(runId: Id, kind: string, x: string)
    ensures FailureId(runId, kind, x)[8..] == Slug(runId + "-" + kind + "-" + x)
  {
  }

  /** An entry hidden from the plan: one of the entries before it is reported under its failure identifier. */
  ghost predicate Shadowed(runId: Id, before: seq<LedgerEntry>, entry: LedgerEntry)
  {
    exists j :: 0 <= j < |before| && Reported(before[j]) && LedgerFailureId(runId, before[j]) == LedgerFailureId(runId, entry)
  }

  ghost predicate AllPendingShadowed(runId: Id, ledger: seq<LedgerEntry>)
  {
    forall i :: 0 <= i < |ledger| && ledger[i].status == PENDING_VERIFICATION ==> Shadowed(runId, ledger[..i], ledger[i])
  }

  ghost predicate LedgerBlocks(runId: Id, ledger: seq<LedgerEntry>)
  {
    BlocksReplay(LedgerEnvelopes(runId, ledger))
  }

  lemma {:induction false} LedgerIdsInEnvelopes(runId: Id, ledger: seq<LedgerEntry>, id: string)
    ensures (exists i :: 0 <= i < |LedgerEnvelopes(runId, ledger)| && LedgerEnvelopes(runId, ledger)[i].failureId == id)
       <==> exists j :: 0 <= j < |ledger| && Reported(ledger[j]) && LedgerFailureId(runId, ledger[j]) == id
  {
    if ledger != [] {
      var init, last := ledger[..|ledger| - 1], ledger[|ledger| - 1];
      LedgerIdsInEnvelopes(runId, init, id);
      var before, rows := LedgerEnvelopes(runId, init), LedgerEnvelopes(runId, ledger);
      if Reported(last) {
        assert rows[|before|] == LedgerEnvelope(runId, last);
        assert ledger[|init|] == last;
      }
      assert forall i :: 0 <= i < |before| ==> rows[i] == before[i];
      assert forall j :: 0 <= j < |init| ==> ledger[j] == init[j];
    }
  }

  lemma {:induction false} LedgerBlocksIff(runId: Id, ledger: seq<LedgerEntry>)
    ensures LedgerBlocks(runId, ledger) <==> !AllPendingShadowed(runId, ledger)
  {
    if ledger != [] {
      var init, last := ledger[..|ledger| - 1], ledger[|ledger| - 1];
      LedgerBlocksIff(runId, init);
      LedgerIdsInEnvelopes(runId, init, LedgerFailureId(runId, last));
      BlocksGrows(runId, ledger);
      ShadowGrows(runId, ledger);
    }
  }

  lemma BlocksSnoc(before: seq<Envelope>, row: Envelope)
    ensures BlocksReplay(before + [row]) <==>
            BlocksReplay(before) || (Unsafe(row) && !exists i :: 0 <= i < |before| && before[i].failureId == row.failureId)
  {
    var rows := before + [row];
    forall i | 0 <= i < |before| ensures FirstOfItsId(rows, i) <==> FirstOfItsId(before, i) {
      if FirstOfItsId(rows, i) {
        forall j | 0 <= j < i ensures before[j].failureId != before[i].failureId { assert rows[j] == before[j]; }
      }
    }
    if FirstOfItsId(rows, |before|) {
      forall j | 0 <= j < |before| ensures before[j].failureId != row.failureId { assert rows[j] == before[j]; }
    }
    if BlocksReplay(before) {
      var i :| 0 <= i < |before| && Unsafe(before[i]) && FirstOfItsId(before, i);
      assert Unsafe(rows[i]) && FirstOfItsId(rows, i);
    }
    assert Unsafe(rows[|before|]) == Unsafe(row);
  }

  lemma BlocksGrows(runId: Id, ledger: seq<LedgerEntry>)
    requires ledger != []
    ensures var init, last := ledger[..|ledger| - 1], ledger[|ledger| - 1];
            var before := LedgerEnvelopes(runId, init);
            LedgerBlocks(runId, ledger) <==>
              LedgerBlocks(runId, init) ||
              (last.status == PENDING_VERIFICATION &&
               !exists i :: 0 <= i < |before| && before[i].failureId == LedgerFailureId(runId, last))
  {
    var init, last := ledger[..|ledger| - 1], ledger[|ledger| - 1];
    BlocksSnoc(LedgerEnvelopes(runId, init), LedgerEnvelope(runId, last));
    assert LedgerEnvelopes(runId, init) + [] == LedgerEnvelopes(runId, init);
  }

  /** Each entry stands in the relation to those before it. */
  ghost predicate EachFollows(ledger: seq<LedgerEntry>, follows: (seq<LedgerEntry>, LedgerEntry) -> bool)
  {
    forall i :: 0 <= i < |ledger| ==> follows(ledger[..i], ledger[i])
  }

  lemma EachFollowsSnoc(init: seq<LedgerEntry>, last: LedgerEntry, follows: (seq<LedgerEntry>, LedgerEntry) -> bool)
    ensures EachFollows(init + [last], follows) <==> EachFollows(init, follows) && follows(init, last)
  {
    var ledger := init + [last];
    assert forall i :: 0 <= i < |init| ==> ledger[..i] == init[..i] && ledger[i] == init[i];
    assert ledger[..|init|] == init;
    if EachFollows(ledger, follows) {
      forall i | 0 <= i < |init| ensures follows(init[..i], init[i]) {
        assert follows(ledger[..i], ledger[i]);
      }
      assert follows(ledger[..|init|], ledger[|init|]);
    }
  }

  lemma ShadowGrows(runId: Id, ledger: seq<LedgerEntry>)
    requires ledger != []
    ensures var init, last := ledger[..|ledger| - 1], ledger[|ledger| - 1];
            AllPendingShadowed(runId, ledger) <==>
              AllPendingShadowed(runId, init) && (last.status == PENDING_VERIFICATION ==> Shadowed(runId, init, last))
  {
    var init, last := ledger[..|ledger| - 1], ledger[|ledger| - 1];
    ghost var follows := (before: seq<LedgerEntry>, entry: LedgerEntry) => entry.status == PENDING_VERIFICATION ==> Shadowed(runId, before, entry);
    assert ledger == init + [last];
    EachFollowsSnoc(init, last, follows);
  }

  /** For all inputs: the plan is unsafe exactly when some pending entry is not shadowed. Steps, approvals and
      events can neither block replay nor hide a ledger entry. */
  lemma ReplaySafetyExact(runId: Id, runStatus: Status, steps: seq<(Id, Step)>, ledger: seq<LedgerEntry>,
                          approvals: seq<Approval>, events: seq<Event>)
    ensures !BlocksReplay(AllEnvelopes(runId, runStatus, steps, ledger, approvals, events)) <==> AllPendingShadowed(runId, ledger)
  {
    var rows := AllEnvelopes(runId, runStatus, steps, ledger, approvals, events);
    var first, mid := StepEnvelopes(runId, steps), LedgerEnvelopes(runId, ledger);
    var last := ApprovalEnvelopes(runId, approvals) + EventEnvelopes(runId, runStatus, events);
    assert rows == first + mid + last;
    StepRowsAreSafe(runId, steps);
    ApprovalRowsAreSafe(runId, approvals);
    EventRowsAreSafe(runId, runStatus, events);
    LedgerRows(runId, ledger);
    assert forall e :: e in last ==> !Unsafe(e);
    forall a, b | a in first && b in mid ensures a.failureId != b.failureId {
      var s :| a.failureId == FailureId(runId, "step", s);
      var y :| b.failureId == FailureId(runId, "tool_ledger", y);
      StepAndLedgerIdsDiffer(runId, s, y);
    }
    MiddleBlocks(first, mid, last);
    LedgerBlocksIff(runId, ledger);
  }

  lemma FirstInTheMiddle(first: seq<Envelope>, mid: seq<Envelope>, last: seq<Envelope>, i: nat)
    requires i < |mid| && forall a, b :: a in first && b in mid ==> a.failureId != b.failureId
    ensures FirstOfItsId(first + mid + last, |first| + i) <==> FirstOfItsId(mid, i)
  {
    var rows, n := first + mid + last, |first|;
    assert rows[n + i] == mid[i] && mid[i] in mid;
    forall j | 0 <= j < n ensures rows[j].failureId != rows[n + i].failureId {
      assert rows[j] in first;
    }
    if FirstOfItsId(rows, n + i) {
      forall j | 0 <= j < i ensures mid[j].failureId != mid[i].failureId {
        assert rows[n + j] == mid[j];
      }
    }
  }

  ghost predicate BlocksAt(rows: seq<Envelope>, i: nat)
    requires i < |rows|
  {
    Unsafe(rows[i]) && FirstOfItsId(rows, i)
  }

  lemma MiddleBlocks(first: seq<Envelope>, mid: seq<Envelope>, last: seq<Envelope>)
    requires forall e :: e in first || e in last ==> !Unsafe(e)
    requires forall a, b :: a in first && b in mid ==> a.failureId != b.failureId
    ensures BlocksReplay(first + mid + last) <==> BlocksReplay(mid)
  {
    var rows, n := first + mid + last, |first|;
    forall i | 0 <= i < |mid| ensures BlocksAt(rows, n + i) <==> BlocksAt(mid, i) {
      FirstInTheMiddle(first, mid, last, i);
      assert rows[n + i] == mid[i];
    }
    if BlocksReplay(mid) {
      var i :| 0 <= i < |mid| && Unsafe(mid[i]) && FirstOfItsId(mid, i);
      assert BlocksAt(mid, i) && BlocksAt(rows, n + i);
    }
    if BlocksReplay(rows) {
      var k :| 0 <= k < |rows| && Unsafe(rows[k]) && FirstOfItsId(rows, k);
      UnsafeIsInTheMiddle(first, mid, last, k);
      assert BlocksAt(rows, n + (k - n)) && BlocksAt(mid, k - n);
    }
  }

  lemma UnsafeIsInTheMiddle(first: seq<Envelope>, mid: seq<Envelope>, last: seq<Envelope>, k: nat)
    requires forall e :: e in first || e in last ==> !Unsafe(e)
    requires k < |first + mid + last| && Unsafe((first + mid + last)[k])
    ensures |first| <= k < |first| + |mid|
  {
    var rows, n := first + mid + last, |first|;
    assert forall j :: 0 <= j < n ==> rows[j] == first[j] && !Unsafe(rows[j]);
    assert forall j :: n + |mid| <= j < |rows| ==> rows[j] == last[j - n - |mid|] && !Unsafe(rows[j]);
  }

  /** The form `newID("ledger")` gives: lower-case hex after the prefix. */
  ghost predicate IssuedLedgerId(id: Id)
  {
    exists hex :: IssuedAs(id, hex)
  }

  predicate IssuedAs(id: Id, hex: string)
  {
    id == "ledger_" + hex && hex != "" && forall i :: 0 <= i < |hex| ==> '0' <= hex[i] <= '9' || 'a' <= hex[i] <= 'f'
  }

  lemma SqueezeThen(a: string, dash: char, b: string, afterDash: bool)
    requires a != "" && (forall i :: 0 <= i < |a| ==> IsWord(a[i])) && !IsWord(Lower(dash))
    ensures Squeeze(a + [dash] + b, afterDash) == a + "-" + Squeeze(b, true)
  {
    SqueezeConcat(a + [dash], b, afterDash);
    SqueezeConcat(a, [dash], afterDash);
    SqueezeWords(a, afterDash);
    assert Squeeze([dash], false) == "-" by { assert [dash][1..] == ""; }
  }

  predicate Wordy(s: string) { s != "" && forall i :: 0 <= i < |s| ==> IsWord(s[i]) }

  lemma SqueezeChain(a: string, b: string, c: string, hex: string)
    requires Wordy(a) && Wordy(b) && Wordy(c) && Wordy(hex)
    ensures Squeeze(a + ['_'] + (b + ['-'] + (c + ['_'] + hex)), false) == a + "-" + (b + "-" + (c + "-" + hex))
  {
    SqueezeThen(a, '_', b + ['-'] + (c + ['_'] + hex), false);
    SqueezeThen(b, '-', c + ['_'] + hex, true);
    SqueezeThen(c, '_', hex, true);
    SqueezeWords(hex, true);
  }

  function IssuedSlugHead(runId: Id): string
  {
    "failure-" + (TrimLeft(Squeeze(runId + "-", false)) + ['t'])
  }

  lemma SlugOfIssuedId(runId: Id, id: Id, hex: string, a: string, b: string)
    requires IssuedAs(id, hex) && a == "ool" && b == "ledger"
    ensures FailureId(runId, "tool_ledger", id) == IssuedSlugHead(runId) + (a + "-" + (b + "-" + (b + "-" + hex)))
  {
    var p := runId + "-";
    var rest := a + ['_'] + (b + ['-'] + (b + ['_'] + hex));
    assert runId + "-" + "tool_ledger" + "-" + id == p + ['t'] + rest;
    SlugSplits(p, 't', rest);
    SqueezeChain(a, b, b, hex);
    var sq := a + "-" + (b + "-" + (b + "-" + hex));
    assert sq[|sq| - 1] == hex[|hex| - 1];
  }

  lemma IssuedIdsKeepDistinct(runId: Id, a: Id, b: Id)
    requires IssuedLedgerId(a) && IssuedLedgerId(b) && a != b
    ensures FailureId(runId, "tool_ledger", a) != FailureId(runId, "tool_ledger", b)
  {
    var ha :| IssuedAs(a, ha);
    var hb :| IssuedAs(b, hb);
    SlugOfIssuedId(runId, a, ha, "ool", "ledger");
    SlugOfIssuedId(runId, b, hb, "ool", "ledger");
    var head := IssuedSlugHead(runId) + ("ool" + "-" + ("ledger" + "-" + ("ledger" + "-")));
    assert FailureId(runId, "tool_ledger", a) == head + ha && FailureId(runId, "tool_ledger", b) == head + hb;
    assert (head + ha)[|head|..] == ha && (head + hb)[|head|..] == hb;
  }

  /** With ledger identifiers as the store issues them, replay is safe exactly when nothing is pending. */
  lemma ReplaySafeIffNothingPending(runId: Id, runStatus: Status, steps: seq<(Id, Step)>, ledger: seq<LedgerEntry>,
                                    approvals: seq<Approval>, events: seq<Event>)
    requires forall i :: 0 <= i < |ledger| ==> IssuedLedgerId(ledger[i].ledgerId)
    requires forall i, j :: 0 <= i < j < |ledger| ==> ledger[i].ledgerId != ledger[j].ledgerId
    ensures !BlocksReplay(AllEnvelopes(runId, runStatus, steps, ledger, approvals, events)) <==>
            forall i :: 0 <= i < |ledger| ==> ledger[i].status != PENDING_VERIFICATION
  {
    ReplaySafetyExact(runId, runStatus, steps, ledger, approvals, events);
    forall i | 0 <= i < |ledger| ensures !Shadowed(runId, ledger[..i], ledger[i]) {
      forall j | 0 <= j < i ensures LedgerFailureId(runId, ledger[j]) != LedgerFailureId(runId, ledger[i]) {
        assert IssuedLedgerId(ledger[i].ledgerId) && IssuedLedgerId(ledger[j].ledgerId);
        IssuedIdsKeepDistinct(runId, ledger[j].ledgerId, ledger[i].ledgerId);
      }
    }
  }

  /** Identifiers of another form can be confused: case is lost, and a pending entry disappears behind a failed one. */
  lemma ShadowedPendingEntry(runId: Id, failed: LedgerEntry, pending: LedgerEntry)
    requires failed.ledgerId == "L" && failed.status == ERROR && pending.ledgerId == "l" && pending.status == PENDING_VERIFICATION
    ensures !BlocksReplay(AllEnvelopes(runId, Pending, [], [failed, pending], [], []))
  {
    var p := runId + "-" + "tool_ledger" + "-";
    SqueezeConcat(p, "L", false);
    SqueezeConcat(p, "l", false);
    assert "L"[1..] == "" && "l"[1..] == "";
    assert LedgerFailureId(runId, failed) == LedgerFailureId(runId, pending);
    var ledger := [failed, pending];
    assert Reported(ledger[0]) && Shadowed(runId, ledger[..1], ledger[1]);
    ReplaySafetyExact(runId, Pending, [], ledger, [], []);
  }
}
