/** Cost records, their summary, and the attribution report (go/evidence.go, go/store.go). Amounts are exact. */
module CostAttribution {
  import opened Store

  datatype Summary = Summary(toolCalls: real, modelTokens: real, totalUsd: real, byCategory: map<string, real>)

  const ZERO := Summary(0.0, 0.0, 0.0, map[])

  function CategoryKey(r: CostRecord): string { r.category + ":" + r.unitName }

  predicate IsToolCall(r: CostRecord) { (r.category == "tool" || r.category == "tool_shadow") && r.unitName == "call" }

  function At(m: map<string, real>, k: string): real { if k in m then m[k] else 0.0 }

  function AddCost(s: Summary, r: CostRecord): Summary
  {
    Summary(
      if IsToolCall(r) then s.toolCalls + r.amount else s.toolCalls,
      if r.category == "model" && r.unitName == "token" then s.modelTokens + r.amount else s.modelTokens,
      if r.unitName == "usd" then s.totalUsd + r.amount else s.totalUsd,
      s.byCategory[CategoryKey(r) := At(s.byCategory, CategoryKey(r)) + r.amount])
  }

  function Summarize(records: seq<CostRecord>): Summary
  {
    if records == [] then ZERO else AddCost(Summarize(records[..|records| - 1]), records[|records| - 1])
  }

  /** The summary the store computes by its own loop. */
  method CostSummary(records: seq<CostRecord>) returns (s: Summary)
    ensures s == Summarize(records)
  {
    s := ZERO;
    for i := 0 to |records|
      invariant s == Summarize(records[..i])
    {
      assert records[..i + 1][..i] == records[..i];
      var r := records[i];
      var calls, tokens, usd := s.toolCalls, s.modelTokens, s.totalUsd;
      if (r.category == "tool" || r.category == "tool_shadow") && r.unitName == "call" {
        calls := calls + r.amount;
      }
      if r.category == "model" && r.unitName == "token" {
        tokens := tokens + r.amount;
      }
      if r.unitName == "usd" {
        usd := usd + r.amount;
      }
      s := Summary(calls, tokens, usd, s.byCategory[CategoryKey(r) := At(s.byCategory, CategoryKey(r)) + r.amount]);
    }
    assert records[..|records|] == records;
  }

  // ---------------------------------------------------------------- breakdowns

  type Groups = map<string, Summary>

  function GroupAt(g: Groups, k: string): Summary { if k in g then g[k] else ZERO }

  function Grouped(records: seq<CostRecord>, key: CostRecord -> string): Groups
  {
    if records == [] then map[]
    else
      var r := records[|records| - 1];
      var g := Grouped(records[..|records| - 1], key);
      g[key(r) := AddCost(GroupAt(g, key(r)), r)]
  }

  /** The role of a step: the last one any event of the step carries. */
  function Roles(events: seq<Event>): map<Id, string>
  {
    if events == [] then map[]
    else
      var e := events[|events| - 1].draft;
      var roles := Roles(events[..|events| - 1]);
      if e.stepId != "" && e.agentRole != "" then roles[e.stepId := e.agentRole] else roles
  }

  function AgentKey(roles: map<Id, string>): CostRecord -> string
  {
    (r: CostRecord) => if r.stepId in roles && roles[r.stepId] != "" then roles[r.stepId] else "<unknown>"
  }

  function StepKey(r: CostRecord): string { if r.stepId == "" then "<run>" else r.stepId }

  function NameKey(r: CostRecord): string { r.name }

  datatype Report = Report(
    total: Summary, byAgent: Groups, byStep: Groups, byCategory: map<string, map<string, real>>, byName: Groups)

  function Bucket(m: map<string, map<string, real>>, c: string): map<string, real> { if c in m then m[c] else map[] }

  function ByCategory(records: seq<CostRecord>): map<string, map<string, real>>
  {
    if records == [] then map[]
    else
      var r := records[|records| - 1];
      var m := ByCategory(records[..|records| - 1]);
      m[r.category := Bucket(m, r.category)[r.unitName := At(Bucket(m, r.category), r.unitName) + r.amount]]
  }

  function ReportOf(records: seq<CostRecord>, agentKey: CostRecord -> string): Report
  {
    Report(Summarize(records), Grouped(records, agentKey), Grouped(records, StepKey), ByCategory(records),
           Grouped(records, NameKey))
  }

  function AddToGroup(g: Groups, k: string, r: CostRecord): Groups { g[k := AddCost(GroupAt(g, k), r)] }

  function AddToReport(report: Report, r: CostRecord, agent: string): Report
  {
    var bucket := Bucket(report.byCategory, r.category);
    Report(AddCost(report.total, r),
           AddToGroup(report.byAgent, agent, r),
           AddToGroup(report.byStep, StepKey(r), r),
           report.byCategory[r.category := bucket[r.unitName := At(bucket, r.unitName) + r.amount]],
           AddToGroup(report.byName, NameKey(r), r))
  }

  lemma ReportGrows(records: seq<CostRecord>, i: nat, agentKey: CostRecord -> string)
    requires i < |records|
    ensures ReportOf(records[..i + 1], agentKey) == AddToReport(ReportOf(records[..i], agentKey), records[i], agentKey(records[i]))
  {
    assert records[..i + 1][..i] == records[..i];
  }

  method StepRoles(events: seq<Event>) returns (roles: map<Id, string>)
    ensures roles == Roles(events)
  {
    roles := map[];
    for i := 0 to |events|
      invariant roles == Roles(events[..i])
    {
      assert events[..i + 1][..i] == events[..i];
      var e := events[i].draft;
      if e.stepId != "" && e.agentRole != "" {
        roles := roles[e.stepId := e.agentRole];
      }
    }
    assert events[..|events|] == events;
  }

  method Attribute(events: seq<Event>, records: seq<CostRecord>) returns (report: Report)
    ensures report == ReportOf(records, AgentKey(Roles(events)))
  {
    var roles := StepRoles(events);
    var agentKey := AgentKey(roles);
    report := Report(ZERO, map[], map[], map[], map[]);
    for i := 0 to |records|
      invariant report == ReportOf(records[..i], agentKey)
    {
      ReportGrows(records, i, agentKey);
      report := AddToReport(report, records[i], agentKey(records[i]));
    }
    assert records[..|records|] == records;
  }

  // ---------------------------------------------------------------- conservation

  /** A field of a summary; a category bucket is a field of its own. */
  datatype Field = ToolCalls | ModelTokens | TotalUsd | Category(key: string)

  function Get(s: Summary, f: Field): real
  {
    match f
    case ToolCalls => s.toolCalls
    case ModelTokens => s.modelTokens
    case TotalUsd => s.totalUsd
    case Category(k) => At(s.byCategory, k)
  }

  /** What one record adds to a field. */
  function Share(r: CostRecord, f: Field): real
  {
    match f
    case ToolCalls => if (r.category == "tool" || r.category == "tool_shadow") && r.unitName == "call" then r.amount else 0.0
    case ModelTokens => if r.category == "model" && r.unitName == "token" then r.amount else 0.0
    case TotalUsd => if r.unitName == "usd" then r.amount else 0.0
    case Category(k) => if CategoryKey(r) == k then r.amount else 0.0
  }

  function Amount(records: seq<CostRecord>, f: Field): real
  {
    if records == [] then 0.0 else Amount(records[..|records| - 1], f) + Share(records[|records| - 1], f)
  }

  lemma {:induction false} SummaryIsAmount(records: seq<CostRecord>, f: Field)
    ensures Get(Summarize(records), f) == Amount(records, f)
  {
    if records != [] {
      SummaryIsAmount(records[..|records| - 1], f);
    }
  }

  ghost function SumOver(g: Groups, keys: set<string>, f: Field): real
  {
    if keys == {} then 0.0
    else
      var k :| k in keys;
      Get(GroupAt(g, k), f) + SumOver(g, keys - {k}, f)
  }

  lemma {:induction false} SumOverSplit(g: Groups, keys: set<string>, k: string, f: Field)
    requires k in keys
    ensures SumOver(g, keys, f) == Get(GroupAt(g, k), f) + SumOver(g, keys - {k}, f)
  {
    var x :| x in keys && SumOver(g, keys, f) == Get(GroupAt(g, x), f) + SumOver(g, keys - {x}, f);
    if x != k {
      SumOverSplit(g, keys - {x}, k, f);
      SumOverSplit(g, keys - {k}, x, f);
      assert keys - {x} - {k} == keys - {k} - {x};
    }
  }

  lemma {:induction false} SumOverSame(g: Groups, h: Groups, keys: set<string>, f: Field)
    requires forall k :: k in keys ==> GroupAt(g, k) == GroupAt(h, k)
    ensures SumOver(g, keys, f) == SumOver(h, keys, f)
  {
    if keys != {} {
      var k :| k in keys && SumOver(g, keys, f) == Get(GroupAt(g, k), f) + SumOver(g, keys - {k}, f);
      SumOverSame(g, h, keys - {k}, f);
      SumOverSplit(h, keys, k, f);
    }
  }

  /** Every breakdown sums back to the total, field by field, whatever the grouping. */
  lemma {:induction false} BreakdownConserves(records: seq<CostRecord>, key: CostRecord -> string, f: Field)
    ensures var g := Grouped(records, key); SumOver(g, g.Keys, f) == Get(Summarize(records), f)
  {
    if records != [] {
      var init, r := records[..|records| - 1], records[|records| - 1];
      var g, h := Grouped(init, key), Grouped(records, key);
      var k := key(r);
      BreakdownConserves(init, key, f);
      SumOverSplit(h, h.Keys, k, f);
      assert h.Keys - {k} == g.Keys - {k};
      SumOverSame(g, h, g.Keys - {k}, f);
      if k in g { SumOverSplit(g, g.Keys, k, f); } else { assert g.Keys - {k} == g.Keys; }
    }
  }

  function Select(records: seq<CostRecord>, key: CostRecord -> string, k: string): seq<CostRecord>
  {
    if records == [] then []
    else
      var rest := Select(records[..|records| - 1], key, k);
      if key(records[|records| - 1]) == k then rest + [records[|records| - 1]] else rest
  }

  /** Each entry of a breakdown is the summary of exactly the records of its group. */
  lemma {:induction false} GroupIsSummaryOfItsRecords(records: seq<CostRecord>, key: CostRecord -> string, k: string)
    ensures GroupAt(Grouped(records, key), k) == Summarize(Select(records, key, k))
    ensures k in Grouped(records, key) <==> Select(records, key, k) != []
  {
    if records != [] {
      var init, r := records[..|records| - 1], records[|records| - 1];
      GroupIsSummaryOfItsRecords(init, key, k);
      if key(r) == k {
        var sel := Select(records, key, k);
        assert sel[..|sel| - 1] == Select(init, key, k);
      }
    }
  }

  // ---------------------------------------------------------------- where a record goes

  /** The event names a role for the step. */
  predicate GivesRole(e: Event, stepId: Id) { stepId != "" && e.draft.stepId == stepId && e.draft.agentRole != "" }

  /** The role the last such event names, or the unknown one if there is none. */
  ghost predicate IsRoleOf(events: seq<Event>, stepId: Id, role: string)
  {
    || (exists i :: 0 <= i < |events| && GivesRole(events[i], stepId) && role == events[i].draft.agentRole && NoRoleAfter(events, i, stepId))
    || (role == "<unknown>" && forall i :: 0 <= i < |events| ==> !GivesRole(events[i], stepId))
  }

  predicate NoRoleAfter(events: seq<Event>, i: nat, stepId: Id) { forall j :: i < j < |events| ==> !GivesRole(events[j], stepId) }

  lemma {:induction false} RolesAreLast(events: seq<Event>, stepId: Id)
    ensures stepId in Roles(events) ==> stepId != "" && Roles(events)[stepId] != "" && IsRoleOf(events, stepId, Roles(events)[stepId])
    ensures stepId !in Roles(events) ==> forall i :: 0 <= i < |events| ==> !GivesRole(events[i], stepId)
  {
    if events != [] {
      var init, last := events[..|events| - 1], events[|events| - 1];
      RolesAreLast(init, stepId);
      if GivesRole(last, stepId) {
        assert events[|init|] == last && NoRoleAfter(events, |init|, stepId);
      } else if stepId in Roles(init) {
        RoleStays(init, last, stepId, Roles(init)[stepId]);
        assert events == init + [last];
      }
    }
  }

  lemma RoleStays(events: seq<Event>, e: Event, stepId: Id, role: string)
    requires IsRoleOf(events, stepId, role) && !GivesRole(e, stepId)
    ensures IsRoleOf(events + [e], stepId, role)
  {
    if i :| 0 <= i < |events| && GivesRole(events[i], stepId) && role == events[i].draft.agentRole && NoRoleAfter(events, i, stepId) {
      assert (events + [e])[i] == events[i] && NoRoleAfter(events + [e], i, stepId);
    }
  }

  lemma RoleIsOne(events: seq<Event>, stepId: Id, a: string, b: string)
    requires IsRoleOf(events, stepId, a) && IsRoleOf(events, stepId, b)
    ensures a == b
  {
  }

  lemma AgentIsRole(events: seq<Event>, r: CostRecord)
    ensures IsRoleOf(events, r.stepId, AgentKey(Roles(events))(r))
  {
    RolesAreLast(events, r.stepId);
  }

  lemma {:induction false} SelectAgree(records: seq<CostRecord>, a: CostRecord -> string, b: CostRecord -> string, k: string)
    requires forall r :: r in records ==> a(r) == b(r)
    ensures Select(records, a, k) == Select(records, b, k)
  {
    if records != [] {
      SelectAgree(records[..|records| - 1], a, b, k);
    }
  }

  /** The entries of the report, with their keys told by what a record and the log say: by agent, the role the last event
      of the record's step names; by step, the step, or the run if there is none; and by name. */
  lemma ReportEntries(events: seq<Event>, records: seq<CostRecord>, agent: CostRecord -> string, step: CostRecord -> string,
                      name: CostRecord -> string, k: string)
    requires forall r :: r in records ==> IsRoleOf(events, r.stepId, agent(r))
    requires forall r :: r in records ==> step(r) == (if r.stepId == "" then "<run>" else r.stepId) && name(r) == r.name
    ensures var report := ReportOf(records, AgentKey(Roles(events)));
            && GroupAt(report.byAgent, k) == Summarize(Select(records, agent, k))
            && GroupAt(report.byStep, k) == Summarize(Select(records, step, k))
            && GroupAt(report.byName, k) == Summarize(Select(records, name, k))
  {
    forall r | r in records ensures AgentKey(Roles(events))(r) == agent(r) {
      AgentIsRole(events, r);
      RoleIsOne(events, r.stepId, AgentKey(Roles(events))(r), agent(r));
    }
    SelectAgree(records, AgentKey(Roles(events)), agent, k);
    SelectAgree(records, StepKey, step, k);
    SelectAgree(records, NameKey, name, k);
    GroupIsSummaryOfItsRecords(records, AgentKey(Roles(events)), k);
    GroupIsSummaryOfItsRecords(records, StepKey, k);
    GroupIsSummaryOfItsRecords(records, NameKey, k);
  }

  /** The three breakdowns of a report, for every event log and every record list. */
  lemma ReportConserves(events: seq<Event>, records: seq<CostRecord>, f: Field)
    ensures var report := ReportOf(records, AgentKey(Roles(events)));
            && SumOver(report.byAgent, report.byAgent.Keys, f) == Get(report.total, f)
            && SumOver(report.byStep, report.byStep.Keys, f) == Get(report.total, f)
            && SumOver(report.byName, report.byName.Keys, f) == Get(report.total, f)
            && Get(report.total, f) == Amount(records, f)
  {
    BreakdownConserves(records, AgentKey(Roles(events)), f);
    BreakdownConserves(records, StepKey, f);
    BreakdownConserves(records, NameKey, f);
    SummaryIsAmount(records, f);
  }

  /** The nested category table agrees with the flat one as long as no other category and unit join to the same key. */
  lemma {:induction false} NestedCategoryMatchesFlat(records: seq<CostRecord>, c: string, u: string)
    requires forall r :: r in records && CategoryKey(r) == c + ":" + u ==> r.category == c && r.unitName == u
    ensures At(Bucket(ByCategory(records), c), u) == Get(Summarize(records), Category(c + ":" + u))
  {
    if records != [] {
      var init, r := records[..|records| - 1], records[|records| - 1];
      assert r in records;
      assert forall x :: x in init ==> x in records;
      NestedCategoryMatchesFlat(init, c, u);
    }
  }
}
