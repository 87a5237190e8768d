/** The profit report: revenue, costs and margin over a period, and the same figures grouped by project. */
module Relatorios {
  import opened Wrappers
  import opened Seqs
  import opened Text
  import opened Financeiro

  datatype ProjectReport = ProjectReport(id: string, project: string, revenue: real, costs: real, profit: real,
                                         margin: real, period: string)

  datatype Summary = Summary(revenue: real, costs: real, profit: real, margin: real)

  const NoProject := "Sem Projeto"

  /** profit / revenue * 100 when there is revenue, 0 otherwise. */
  function Margin(revenue: real, costs: real): (r: real)
    ensures revenue > 0.0 ==> r * revenue == (revenue - costs) * 100.0
    ensures revenue <= 0.0 ==> r == 0.0
  {
    if revenue > 0.0 then (revenue - costs) / revenue * 100.0 else 0.0
  }

  /** A margin never exceeds 100% when costs are not negative, and is negative exactly when costs exceed
      a positive revenue. */
  lemma MarginBounds(revenue: real, costs: real)
    ensures costs >= 0.0 ==> Margin(revenue, costs) <= 100.0
    ensures revenue > 0.0 ==> (Margin(revenue, costs) < 0.0 <==> costs > revenue)
  {
    if revenue > 0.0 {
      var r := Margin(revenue, costs);
      if costs >= 0.0 {
        assert r * revenue <= 100.0 * revenue;
      }
      if r < 0.0 {
        assert r * revenue < 0.0;
      }
      if costs > revenue {
        assert r * revenue < 0.0;
      }
    }
  }

  /** The four cards over the period's transactions. */
  function Summarize(ts: seq<Transaction>): (r: Summary)
    ensures r.profit == r.revenue - r.costs
    ensures r.revenue > 0.0 ==> r.margin * r.revenue == r.profit * 100.0
    ensures r.revenue <= 0.0 ==> r.margin == 0.0
  {
    var revenue := Total(ts, IsKind(Entrada));
    var costs := Total(ts, IsKind(Saida));
    Summary(revenue, costs, revenue - costs, Margin(revenue, costs))
  }

  /** t.project || "Sem Projeto" */
  function ProjectOf(t: Transaction): (r: string)
    ensures t.project.Some? && t.project.value != "" ==> r == t.project.value
    ensures t.project.None? || t.project.value == "" ==> r == NoProject
  {
    if t.project.Some? && t.project.value != "" then t.project.value else NoProject
  }

  /** The map's keys in insertion order: each project the first time it occurs. */
  function Keys(ts: seq<Transaction>): (r: seq<string>)
    ensures Distinct(r)
    ensures forall g :: g in r <==> exists t :: t in ts && ProjectOf(t) == g
    decreases |ts|
  {
    if ts == [] then [] else
      var init := ts[..|ts| - 1];
      var last := ts[|ts| - 1];
      var k := Keys(init);
      assert ts == init + [last];
      assert forall t :: t in ts <==> t in init || t == last;
      if ProjectOf(last) in k then k else k + [ProjectOf(last)]
  }

  /** The keys of a prefix of the transactions are a prefix of the keys of all of them. */
  lemma {:induction false} KeysPrefix(ts: seq<Transaction>, n: nat)
    requires n <= |ts|
    ensures Keys(ts[..n]) <= Keys(ts)
    decreases |ts|
  {
    if n < |ts| {
      var init := ts[..|ts| - 1];
      KeysPrefix(init, n);
      assert init[..n] == ts[..n];
    } else {
      assert ts[..n] == ts;
    }
  }

  /** A key comes after another one exactly when it first occurs later: transaction i's project is keyed
      from then on, and when it is new it is appended after every key seen before it. */
  lemma {:induction false} KeysFirstOccurrence(ts: seq<Transaction>, i: nat)
    requires i < |ts|
    ensures ProjectOf(ts[i]) in Keys(ts[..i + 1])
    ensures Keys(ts[..i + 1]) <= Keys(ts)
    ensures ProjectOf(ts[i]) !in Keys(ts[..i]) ==> Keys(ts[..i + 1]) == Keys(ts[..i]) + [ProjectOf(ts[i])]
  {
    PrefixSnoc(ts, i);
    KeysSnoc(ts[..i], ts[i]);
    KeysPrefix(ts, i + 1);
  }

  lemma KeysSnoc(p: seq<Transaction>, t: Transaction)
    ensures Keys(p + [t]) == if ProjectOf(t) in Keys(p) then Keys(p) else Keys(p) + [ProjectOf(t)]
  {
    assert (p + [t])[..|p|] == p;
  }

  function PeriodLabel(selected: string): string
  {
    if selected == "all" then "Todos" else FormatMonthYear(selected)
  }

  function MakeReport(index: nat, project: string, revenue: real, costs: real, selected: string): (r: ProjectReport)
    ensures r.id == NatToString(index + 1) && r.project == project && r.revenue == revenue && r.costs == costs
    ensures r.profit == revenue - costs && r.margin == Margin(revenue, costs) && r.period == PeriodLabel(selected)
  {
    ProjectReport(NatToString(index + 1), project, revenue, costs, revenue - costs, Margin(revenue, costs), PeriodLabel(selected))
  }

  /** projectReports over the period's transactions, stated through the group sums. */
  function ProjectReports(ts: seq<Transaction>, selected: string): (r: seq<ProjectReport>)
    ensures |r| == |Keys(ts)|
    ensures forall i :: 0 <= i < |r| ==>
              r[i] == MakeReport(i, Keys(ts)[i], GroupTotal(ts, ProjectOf, Keys(ts)[i], Entrada),
                                 GroupTotal(ts, ProjectOf, Keys(ts)[i], Saida), selected)
  {
    var keys := Keys(ts);
    seq(|keys|, i requires 0 <= i < |keys| =>
      MakeReport(i, keys[i], GroupTotal(ts, ProjectOf, keys[i], Entrada), GroupTotal(ts, ProjectOf, keys[i], Saida), selected))
  }

  lemma GroupTotalStep(ts: seq<Transaction>, i: nat, g: string, k: Kind)
    requires i < |ts|
    ensures GroupTotal(ts[..i + 1], ProjectOf, g, k) == GroupTotal(ts[..i], ProjectOf, g, k) + KeyPart(ProjectOf, g, k)(ts[i])
  {
    assert ts[..i + 1] == ts[..i] + [ts[i]];
    SumConcat(ts[..i], [ts[i]], KeyPart(ProjectOf, g, k));
  }

  /** One transaction added to its project's (revenue, costs) pair. */
  function Added(base: (real, real), t: Transaction): (r: (real, real))
    ensures t.kind == Entrada ==> r == (base.0 + t.value, base.1)
    ensures t.kind == Saida ==> r == (base.0, base.1 + t.value)
  {
    if t.kind == Entrada then (base.0 + t.value, base.1) else (base.0, base.1 + t.value)
  }

  /** The project map after a forEach over ts: each project's entry created at zero when first seen. */
  function Sums(ts: seq<Transaction>): map<string, (real, real)>
    decreases |ts|
  {
    if ts == [] then map[] else
      var m := Sums(ts[..|ts| - 1]);
      var n := ProjectOf(ts[|ts| - 1]);
      m[n := Added(if n in m then m[n] else (0.0, 0.0), ts[|ts| - 1])]
  }

  /** The map holds exactly the listed projects, and each entry is that project's income and expense
      totals. */
  lemma {:induction false} SumsAreGroupTotals(ts: seq<Transaction>)
    ensures forall g :: g in Sums(ts) <==> g in Keys(ts)
    ensures forall g :: g in Sums(ts) ==>
              Sums(ts)[g] == (GroupTotal(ts, ProjectOf, g, Entrada), GroupTotal(ts, ProjectOf, g, Saida))
    ensures forall g :: g !in Sums(ts) ==>
              GroupTotal(ts, ProjectOf, g, Entrada) == 0.0 && GroupTotal(ts, ProjectOf, g, Saida) == 0.0
    decreases |ts|
  {
    if ts != [] {
      var p := ts[..|ts| - 1];
      SumsAreGroupTotals(p);
      forall g
        ensures g in Sums(ts) <==> g in Keys(ts)
        ensures g in Sums(ts) ==>
                  Sums(ts)[g] == (GroupTotal(ts, ProjectOf, g, Entrada), GroupTotal(ts, ProjectOf, g, Saida))
        ensures g !in Sums(ts) ==>
                  GroupTotal(ts, ProjectOf, g, Entrada) == 0.0 && GroupTotal(ts, ProjectOf, g, Saida) == 0.0
      {
        SumsStepAt(ts, g);
      }
    }
  }

  /** The induction step of SumsAreGroupTotals for one project name. */
  lemma SumsStepAt(ts: seq<Transaction>, g: string)
    requires ts != []
    requires var p := ts[..|ts| - 1];
             && (g in Sums(p) <==> g in Keys(p))
             && (g in Sums(p) ==> Sums(p)[g] == (GroupTotal(p, ProjectOf, g, Entrada), GroupTotal(p, ProjectOf, g, Saida)))
             && (g !in Sums(p) ==> GroupTotal(p, ProjectOf, g, Entrada) == 0.0 && GroupTotal(p, ProjectOf, g, Saida) == 0.0)
    requires var p := ts[..|ts| - 1]; var n := ProjectOf(ts[|ts| - 1]);
             && (n in Sums(p) <==> n in Keys(p))
             && (n in Sums(p) ==> Sums(p)[n] == (GroupTotal(p, ProjectOf, n, Entrada), GroupTotal(p, ProjectOf, n, Saida)))
             && (n !in Sums(p) ==> GroupTotal(p, ProjectOf, n, Entrada) == 0.0 && GroupTotal(p, ProjectOf, n, Saida) == 0.0)
    ensures g in Sums(ts) <==> g in Keys(ts)
    ensures g in Sums(ts) ==>
              Sums(ts)[g] == (GroupTotal(ts, ProjectOf, g, Entrada), GroupTotal(ts, ProjectOf, g, Saida))
    ensures g !in Sums(ts) ==>
              GroupTotal(ts, ProjectOf, g, Entrada) == 0.0 && GroupTotal(ts, ProjectOf, g, Saida) == 0.0
  {
    var i := |ts| - 1;
    var p := ts[..i];
    var n := ProjectOf(ts[i]);
    assert ts[..i + 1] == ts;
    var m := Sums(p);
    if g == n {
      var base := if n in m then m[n] else (0.0, 0.0);
      OwnGroupStep(ts, i, base, Added(base, ts[i]));
    } else {
      OtherGroupStep(ts, i, g);
    }
  }

  /** A transaction of another project leaves a group's sums as they were. */
  lemma OtherGroupStep(ts: seq<Transaction>, i: nat, g: string)
    requires i < |ts| && ProjectOf(ts[i]) != g
    ensures GroupTotal(ts[..i + 1], ProjectOf, g, Entrada) == GroupTotal(ts[..i], ProjectOf, g, Entrada)
    ensures GroupTotal(ts[..i + 1], ProjectOf, g, Saida) == GroupTotal(ts[..i], ProjectOf, g, Saida)
  {
    GroupTotalStep(ts, i, g, Entrada);
    GroupTotalStep(ts, i, g, Saida);
  }

  /** A transaction adds its value to its own project's revenue or costs. */
  lemma OwnGroupStep(ts: seq<Transaction>, i: nat, base: (real, real), current: (real, real))
    requires i < |ts|
    requires base == (GroupTotal(ts[..i], ProjectOf, ProjectOf(ts[i]), Entrada),
                      GroupTotal(ts[..i], ProjectOf, ProjectOf(ts[i]), Saida))
    requires current == Added(base, ts[i])
    ensures current == (GroupTotal(ts[..i + 1], ProjectOf, ProjectOf(ts[i]), Entrada),
                        GroupTotal(ts[..i + 1], ProjectOf, ProjectOf(ts[i]), Saida))
  {
    GroupTotalStep(ts, i, ProjectOf(ts[i]), Entrada);
    GroupTotalStep(ts, i, ProjectOf(ts[i]), Saida);
  }

  /** One forEach step: the keys and the map of the first i transactions become those of the first
      i + 1. */
  lemma AccumulateStep(ts: seq<Transaction>, i: nat, keys: seq<string>, sums: map<string, (real, real)>,
                       current: (real, real), keys': seq<string>)
    requires i < |ts| && keys == Keys(ts[..i]) && sums == Sums(ts[..i])
    requires current == Added(if ProjectOf(ts[i]) in sums then sums[ProjectOf(ts[i])] else (0.0, 0.0), ts[i])
    requires keys' == if ProjectOf(ts[i]) in sums then keys else keys + [ProjectOf(ts[i])]
    ensures keys' == Keys(ts[..i + 1]) && sums[ProjectOf(ts[i]) := current] == Sums(ts[..i + 1])
  {
    var q := ts[..i + 1];
    assert q[..i] == ts[..i] && q[i] == ts[i];
    SumsAreGroupTotals(ts[..i]);
  }

  /** The rows read off the keys and the map are the project reports. */
  lemma ReportsFromSums(ts: seq<Transaction>, selected: string)
    ensures var keys, sums := Keys(ts), Sums(ts);
            && (forall j :: 0 <= j < |keys| ==> keys[j] in sums)
            && seq(|keys|, j requires 0 <= j < |keys| && keys[j] in sums =>
                 MakeReport(j, keys[j], sums[keys[j]].0, sums[keys[j]].1, selected)) == ProjectReports(ts, selected)
  {
    SumsAreGroupTotals(ts);
  }

  /** The forEach over the transactions that fills the project map, then the numbered rows read off it. */
  method ComputeProjectReports(ts: seq<Transaction>, selected: string) returns (reports: seq<ProjectReport>)
    ensures reports == ProjectReports(ts, selected)
  {
    var keys: seq<string> := [];
    var sums: map<string, (real, real)> := map[];
    var i := 0;
    assert ts[..0] == [];
    while i < |ts|
      invariant 0 <= i <= |ts|
      invariant keys == Keys(ts[..i]) && sums == Sums(ts[..i])
    {
      var t := ts[i];
      var name := ProjectOf(t);
      var current := if name in sums then sums[name] else (0.0, 0.0);
      if t.kind == Entrada {
        current := (current.0 + t.value, current.1);
      } else {
        current := (current.0, current.1 + t.value);
      }
      var keys' := if name in sums then keys else keys + [name];
      AccumulateStep(ts, i, keys, sums, current, keys');
      keys := keys';
      sums := sums[name := current];
      i := i + 1;
    }
    assert ts[..i] == ts;
    ReportsFromSums(ts, selected);
    reports := seq(|keys|, j requires 0 <= j < |keys| && keys[j] in sums =>
                     MakeReport(j, keys[j], sums[keys[j]].0, sums[keys[j]].1, selected));
  }

  /** Every transaction falls into exactly one group: its project's, which is listed once. */
  lemma EachTransactionInOneGroup(ts: seq<Transaction>, t: Transaction)
    requires t in ts
    ensures exists i :: 0 <= i < |ProjectReports(ts, "all")| && ProjectReports(ts, "all")[i].project == ProjectOf(t)
    ensures forall i, j :: 0 <= i < j < |ProjectReports(ts, "all")| ==> ProjectReports(ts, "all")[i].project != ProjectReports(ts, "all")[j].project
  {
    var keys := Keys(ts);
    assert ProjectOf(t) in keys;
    var i :| 0 <= i < |keys| && keys[i] == ProjectOf(t);
    assert ProjectReports(ts, "all")[i].project == ProjectOf(t);
  }

  function RevenueOf(r: ProjectReport): real
  {
    r.revenue
  }

  function CostsOf(r: ProjectReport): real
  {
    r.costs
  }

  lemma {:induction false} ReportsSum(ts: seq<Transaction>, selected: string, keys: seq<string>, from: nat)
    requires keys == Keys(ts) && from <= |keys|
    ensures Sum(ProjectReports(ts, selected)[from..], RevenueOf) == OverGroups(ts, ProjectOf, keys[from..], Entrada)
    ensures Sum(ProjectReports(ts, selected)[from..], CostsOf) == OverGroups(ts, ProjectOf, keys[from..], Saida)
    decreases |keys| - from
  {
    var r := ProjectReports(ts, selected);
    if from < |keys| {
      ReportsSum(ts, selected, keys, from + 1);
      assert r[from..][1..] == r[from + 1..];
      assert keys[from..][1..] == keys[from + 1..];
    }
  }

  /** The project rows add up to the period's totals: group revenues give the total revenue and group
      costs the total costs. */
  lemma GroupsAddUpToTotals(ts: seq<Transaction>, selected: string)
    ensures Sum(ProjectReports(ts, selected), RevenueOf) == Summarize(ts).revenue
    ensures Sum(ProjectReports(ts, selected), CostsOf) == Summarize(ts).costs
  {
    var keys := Keys(ts);
    ReportsSum(ts, selected, keys, 0);
    assert ProjectReports(ts, selected)[0..] == ProjectReports(ts, selected);
    assert keys[0..] == keys;
    OverGroupsTotal(ts, ProjectOf, keys, Entrada);
    OverGroupsTotal(ts, ProjectOf, keys, Saida);
    TotalOfKind(ts, Entrada);
    TotalOfKind(ts, Saida);
  }

  /** The rows are numbered "1".."n", so no two share an id. */
  lemma ReportIdsDistinct(ts: seq<Transaction>, selected: string, i: nat, j: nat)
    requires i < j < |ProjectReports(ts, selected)|
    ensures ProjectReports(ts, selected)[i].id != ProjectReports(ts, selected)[j].id
  {
    if NatToString(i + 1) == NatToString(j + 1) {
      NatToStringInjective(i + 1, j + 1);
    }
  }

  predicate IsNamed(r: ProjectReport)
  {
    r.project != NoProject
  }

  /** The "active projects" card: groups other than "Sem Projeto". */
  function ActiveProjects(reports: seq<ProjectReport>): (n: nat)
    ensures n <= |reports|
  {
    Count(reports, IsNamed)
  }

  /** Among distinct project names at most one is "Sem Projeto": the card counts every group but that one. */
  lemma {:induction false} ActiveProjectsCount(reports: seq<ProjectReport>)
    requires forall i, j :: 0 <= i < j < |reports| ==> reports[i].project != reports[j].project
    ensures ActiveProjects(reports) == |reports| - (if exists i :: 0 <= i < |reports| && reports[i].project == NoProject then 1 else 0)
  {
    if reports != [] {
      var rest := reports[1..];
      assert forall i, j :: 0 <= i < j < |rest| ==> rest[i].project != rest[j].project by {
        forall i, j | 0 <= i < j < |rest| ensures rest[i].project != rest[j].project {
          assert rest[i] == reports[i + 1] && rest[j] == reports[j + 1];
        }
      }
      ActiveProjectsCount(rest);
      assert Count(reports, IsNamed) == (if IsNamed(reports[0]) then 1 else 0) + Count(rest, IsNamed);
      if reports[0].project == NoProject {
        forall i | 0 <= i < |rest| ensures rest[i].project != NoProject {
          assert rest[i] == reports[i + 1];
        }
      } else {
        assert (exists i :: 0 <= i < |reports| && reports[i].project == NoProject)
           <==> (exists i :: 0 <= i < |rest| && rest[i].project == NoProject) by {
          forall i | 0 < i < |reports| ensures reports[i] == rest[i - 1] {}
        }
      }
    }
  }
}
