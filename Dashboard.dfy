/**
 * The dashboard (components/dashboard.tsx): the list of targets, the report
 * filter by time range and target, and the metrics computed over the
 * filtered reports (finding counts, the most vulnerable target, the most
 * common vulnerability, the security trend, the top five vulnerabilities and
 * the five most recent reports).
 */
module Dashboard {
  import Seqs
  import Text
  import OrderedMap
  import Sorting
  import opened ReportContext

  // ---------------------------------------------------------------------
  // Targets and filtering
  // ---------------------------------------------------------------------

  function TargetOf(r: Report): string
  {
    r.target
  }

  /**
   * `targets`: every report target once, in order of first occurrence,
   * built by adding each report's target to a set.
   */
  method Targets(reports: seq<Report>) returns (targets: seq<string>)
    ensures targets == OrderedMap.Dedup(Seqs.Map(reports, TargetOf))
    ensures OrderedMap.NoDup(targets)
    ensures forall t :: t in targets <==> exists i :: 0 <= i < |reports| && reports[i].target == t
  {
    targets := [];
    var i := 0;
    while i < |reports|
      invariant 0 <= i <= |reports|
      invariant targets == OrderedMap.Dedup(Seqs.Map(reports[..i], TargetOf))
    {
      assert Seqs.Map(reports[..i + 1], TargetOf) == Seqs.Map(reports[..i], TargetOf) + [reports[i].target];
      OrderedMap.DedupSnoc(Seqs.Map(reports[..i], TargetOf), reports[i].target);
      targets := OrderedMap.AddUnique(targets, reports[i].target);
      i := i + 1;
    }
    assert reports[..i] == reports;
    OrderedMap.DedupSpec(Seqs.Map(reports, TargetOf));
    forall t ensures t in targets <==> exists i :: 0 <= i < |reports| && reports[i].target == t {
      if exists i :: 0 <= i < |reports| && reports[i].target == t {
        var i :| 0 <= i < |reports| && reports[i].target == t;
        assert Seqs.Map(reports, TargetOf)[i] == t;
      }
    }
  }

  /** The filter's test: at or after the range start, and the selected target unless "all" is selected. */
  function InView(rangeStart: int, selectedTarget: string): Report -> bool
  {
    (r: Report) => r.timestamp >= rangeStart && (selectedTarget == "all" || r.target == selectedTarget)
  }

  /** `filteredReports`; the range start is the instant the selected time range begins. */
  function FilteredReports(reports: seq<Report>, rangeStart: int, selectedTarget: string): seq<Report>
  {
    Seqs.Filter(reports, InView(rangeStart, selectedTarget))
  }

  /**
   * A report is shown exactly when it is recent enough and matches the
   * selected target (any target for "all"); with "all" and a range starting
   * no later than every report, nothing is hidden.
   */
  lemma {:induction false} FilteredReportsSpec(reports: seq<Report>, rangeStart: int, selectedTarget: string)
    ensures forall r :: r in FilteredReports(reports, rangeStart, selectedTarget) <==>
      r in reports && r.timestamp >= rangeStart && (selectedTarget == "all" || r.target == selectedTarget)
    ensures selectedTarget == "all" && (forall i :: 0 <= i < |reports| ==> reports[i].timestamp >= rangeStart) ==>
      FilteredReports(reports, rangeStart, selectedTarget) == reports
  {
    var p := InView(rangeStart, selectedTarget);
    forall r | r in reports && p(r) ensures r in FilteredReports(reports, rangeStart, selectedTarget) {
      var i :| 0 <= i < |reports| && reports[i] == r;
    }
    if selectedTarget == "all" && (forall i :: 0 <= i < |reports| ==> reports[i].timestamp >= rangeStart) {
      Seqs.FilterAll(reports, p);
    }
  }

  // ---------------------------------------------------------------------
  // Counting findings
  // ---------------------------------------------------------------------

  /** A finding together with the target of the report it belongs to. */
  datatype TaggedFinding = TaggedFinding(target: string, finding: Finding)

  function TagWith(target: string): Finding -> TaggedFinding
  {
    (f: Finding) => TaggedFinding(target, f)
  }

  /** The findings of all reports in visiting order, each with its report's target. */
  function TaggedFindings(rs: seq<Report>): seq<TaggedFinding>
  {
    if rs == [] then []
    else TaggedFindings(rs[..|rs| - 1]) + Seqs.Map(rs[|rs| - 1].findings, TagWith(rs[|rs| - 1].target))
  }

  /** The vulnerability type of a finding: its title up to the first ':', trimmed. */
  function VulnType(f: Finding): (t: string)
  {
    Text.Trim(Text.BeforeFirst(f.title, ':'))
  }

  /** The type holds no ':' and no whitespace at either end, and is a slice of the title's part before the first ':'. */
  lemma {:induction false} VulnTypeSpec(f: Finding)
    ensures ':' !in VulnType(f)
    ensures VulnType(f) == [] || (!Text.IsJsWhitespace(VulnType(f)[0]) && !Text.IsJsWhitespace(VulnType(f)[|VulnType(f)| - 1]))
    ensures exists a, b :: 0 <= a <= b <= |Text.BeforeFirst(f.title, ':')| && VulnType(f) == Text.BeforeFirst(f.title, ':')[a..b]
  {
    var s := Text.BeforeFirst(f.title, ':');
    var r := VulnType(f);
    Text.TrimSpec(s);
    var a := |s| - |Text.TrimStart(s, Text.IsJsWhitespace)|;
    var b := a + |r|;
    assert r == s[a..b];
    forall i | 0 <= i < |r| ensures r[i] != ':' {
      assert r[i] == s[a + i];
    }
  }

  /** The counters the metrics loop keeps. */
  datatype Counters = Counters(
    total: nat, critical: nat, high: nat, medium: nat, low: nat,
    byTarget: OrderedMap.Entries<nat>, byType: OrderedMap.Entries<nat>)

  /** The severity part of one visit: the total and the counter of the first severity that matches. */
  function RateSeverity(c: Counters, sev: string): Counters
  {
    c.(total := c.total + 1,
       critical := c.critical + (if sev == "Critical" then 1 else 0),
       high := c.high + (if sev != "Critical" && sev == "High" then 1 else 0),
       medium := c.medium + (if sev != "Critical" && sev != "High" && sev == "Medium" then 1 else 0),
       low := c.low + (if sev != "Critical" && sev != "High" && sev != "Medium" && sev == "Low" then 1 else 0))
  }

  /** One visit of the inner loop. */
  function CountFinding(c: Counters, t: TaggedFinding): Counters
  {
    var r := RateSeverity(c, t.finding.severity);
    r.(byTarget := OrderedMap.Bump(r.byTarget, t.target),
       byType := OrderedMap.Bump(r.byType, VulnType(t.finding)))
  }

  /** The counters after visiting every finding of `ts`, in order. */
  function CountAll(ts: seq<TaggedFinding>): Counters
  {
    if ts == [] then Counters(0, 0, 0, 0, 0, [], [])
    else CountFinding(CountAll(ts[..|ts| - 1]), ts[|ts| - 1])
  }

  function HasSeverity(sev: string): TaggedFinding -> bool
  {
    (t: TaggedFinding) => t.finding.severity == sev
  }

  /** One of the four severities the dashboard counts. */
  predicate IsRated(sev: string)
  {
    sev == "Critical" || sev == "High" || sev == "Medium" || sev == "Low"
  }

  /** A finding of a severity outside Critical, High, Medium and Low. */
  function HasOtherSeverity(): TaggedFinding -> bool
  {
    (t: TaggedFinding) => !IsRated(t.finding.severity)
  }

  lemma {:induction false} CountSnoc(ts: seq<TaggedFinding>, p: TaggedFinding -> bool)
    requires ts != []
    ensures Seqs.Count(ts, p) == Seqs.Count(ts[..|ts| - 1], p) + (if p(ts[|ts| - 1]) then 1 else 0)
  {
    Seqs.FilterSnoc(ts, |ts| - 1, p);
    assert ts[..|ts|] == ts;
  }

  /** Each severity counter counts the findings of exactly that severity; the total counts them all. */
  lemma {:induction false} CountAllSeverities(ts: seq<TaggedFinding>)
    ensures CountAll(ts).total == |ts|
    ensures CountAll(ts).critical == Seqs.Count(ts, HasSeverity("Critical"))
    ensures CountAll(ts).high == Seqs.Count(ts, HasSeverity("High"))
    ensures CountAll(ts).medium == Seqs.Count(ts, HasSeverity("Medium"))
    ensures CountAll(ts).low == Seqs.Count(ts, HasSeverity("Low"))
  {
    if ts != [] {
      var n := |ts| - 1;
      CountAllSeverities(ts[..n]);
      CountSnoc(ts, HasSeverity("Critical"));
      CountSnoc(ts, HasSeverity("High"));
      CountSnoc(ts, HasSeverity("Medium"));
      CountSnoc(ts, HasSeverity("Low"));
    }
  }

  /** The four severity counters and the findings of any other severity account for every finding once. */
  lemma {:induction false} CountAllPartition(ts: seq<TaggedFinding>)
    ensures CountAll(ts).critical + CountAll(ts).high + CountAll(ts).medium + CountAll(ts).low
      + Seqs.Count(ts, HasOtherSeverity()) == |ts|
  {
    if ts != [] {
      CountAllPartition(ts[..|ts| - 1]);
      CountSnoc(ts, HasOtherSeverity());
    }
  }

  function TaggedTarget(t: TaggedFinding): string
  {
    t.target
  }

  function TaggedType(t: TaggedFinding): string
  {
    VulnType(t.finding)
  }

  lemma {:induction false} MapSnoc<T, U>(ts: seq<T>, f: T -> U)
    requires ts != []
    ensures Seqs.Map(ts, f) == Seqs.Map(ts[..|ts| - 1], f) + [f(ts[|ts| - 1])]
  {
  }

  /** The two counting records are the tallies of the findings' targets and of their vulnerability types. */
  lemma {:induction false} CountAllTallies(ts: seq<TaggedFinding>)
    ensures CountAll(ts).byTarget == OrderedMap.Tally(Seqs.Map(ts, TaggedTarget))
    ensures CountAll(ts).byType == OrderedMap.Tally(Seqs.Map(ts, TaggedType))
  {
    if ts != [] {
      var n := |ts| - 1;
      CountAllTallies(ts[..n]);
      MapSnoc(ts, TaggedTarget);
      MapSnoc(ts, TaggedType);
      assert (Seqs.Map(ts[..n], TaggedTarget) + [TaggedTarget(ts[n])])[..n] == Seqs.Map(ts[..n], TaggedTarget);
      assert (Seqs.Map(ts[..n], TaggedType) + [TaggedType(ts[n])])[..n] == Seqs.Map(ts[..n], TaggedType);
    }
  }

  /** Some report has this target and this finding. */
  predicate FromReport(rs: seq<Report>, t: TaggedFinding)
  {
    exists i :: 0 <= i < |rs| && t.target == rs[i].target && t.finding in rs[i].findings
  }

  lemma {:induction false} FromReportSnoc(rs: seq<Report>, n: nat, t: TaggedFinding)
    requires n < |rs|
    ensures FromReport(rs[..n + 1], t) <==> FromReport(rs[..n], t) || (t.target == rs[n].target && t.finding in rs[n].findings)
  {
    if FromReport(rs[..n + 1], t) {
      var i :| 0 <= i < n + 1 && t.target == rs[..n + 1][i].target && t.finding in rs[..n + 1][i].findings;
      if i < n {
        assert rs[..n][i] == rs[i];
      }
    }
    if FromReport(rs[..n], t) {
      var i :| 0 <= i < n && t.target == rs[..n][i].target && t.finding in rs[..n][i].findings;
      assert rs[..n + 1][i] == rs[i];
    }
    if t.target == rs[n].target && t.finding in rs[n].findings {
      assert rs[..n + 1][n] == rs[n];
    }
  }

  lemma {:induction false} TagMembership(target: string, fs: seq<Finding>, t: TaggedFinding)
    ensures t in Seqs.Map(fs, TagWith(target)) <==> t.target == target && t.finding in fs
  {
    if t.target == target && t.finding in fs {
      var k :| 0 <= k < |fs| && fs[k] == t.finding;
      assert Seqs.Map(fs, TagWith(target))[k] == t;
    }
  }

  /** Where each tagged finding comes from: a finding of a report, with that report's target. */
  lemma {:induction false} TaggedFindingsSpec(rs: seq<Report>, t: TaggedFinding)
    ensures t in TaggedFindings(rs) <==> FromReport(rs, t)
  {
    if rs != [] {
      var n := |rs| - 1;
      TaggedFindingsSpec(rs[..n], t);
      TagMembership(rs[n].target, rs[n].findings, t);
      FromReportSnoc(rs, n, t);
      assert rs[..n + 1] == rs;
    }
  }

  // ---------------------------------------------------------------------
  // Arg-max
  // ---------------------------------------------------------------------

  /**
   * The entry the arg-max loop keeps: it starts from ("", 0) and takes an
   * entry only when its count is strictly greater.
   */
  function ArgMax(m: OrderedMap.Entries<nat>): (string, nat)
  {
    if m == [] then ("", 0)
    else
      var best := ArgMax(m[..|m| - 1]);
      if m[|m| - 1].1 > best.1 then m[|m| - 1] else best
  }

  /**
   * The arg-max is the earliest entry with the maximal count; when every
   * count is zero (or there are no entries) it is ("", 0).
   */
  lemma {:induction false} ArgMaxSpec(m: OrderedMap.Entries<nat>)
    ensures forall i :: 0 <= i < |m| ==> m[i].1 <= ArgMax(m).1
    ensures ArgMax(m).1 == 0 ==> ArgMax(m) == ("", 0)
    ensures ArgMax(m).1 > 0 ==> exists k :: 0 <= k < |m| && m[k] == ArgMax(m) && forall j :: 0 <= j < k ==> m[j].1 < ArgMax(m).1
  {
    if m != [] {
      var n := |m| - 1;
      ArgMaxSpec(m[..n]);
      var best := ArgMax(m[..n]);
      if m[n].1 > best.1 {
        forall j | 0 <= j < n ensures m[j].1 < m[n].1 {
          assert m[..n][j] == m[j];
        }
      } else {
        forall i | 0 <= i < n ensures m[i].1 <= best.1 {
          assert m[..n][i] == m[i];
        }
        if best.1 > 0 {
          var k :| 0 <= k < n && m[..n][k] == best && forall j :: 0 <= j < k ==> m[..n][j].1 < best.1;
          assert m[k] == best;
          assert forall j :: 0 <= j < k ==> m[j] == m[..n][j];
        }
      }
    }
  }

  /** The arg-max loop over the entries of a counting record. */
  method MostFrequent(m: OrderedMap.Entries<nat>) returns (name: string, maxCount: nat)
    ensures (name, maxCount) == ArgMax(m)
  {
    name, maxCount := "", 0;
    var i := 0;
    while i < |m|
      invariant 0 <= i <= |m|
      invariant (name, maxCount) == ArgMax(m[..i])
    {
      assert m[..i + 1][..i] == m[..i];
      if m[i].1 > maxCount {
        name, maxCount := m[i].0, m[i].1;
      }
      i := i + 1;
    }
    assert m[..i] == m;
  }

  // ---------------------------------------------------------------------
  // Trend, top vulnerabilities, recent reports
  // ---------------------------------------------------------------------

  datatype Trend = Positive | Negative | Neutral

  function Timestamp(r: Report): int
  {
    r.timestamp
  }

  function EntryCount(e: (string, nat)): int
  {
    e.1
  }

  /** The reports newest first (`sort((a, b) => b.timestamp - a.timestamp)` on a copy). */
  function NewestFirst(rs: seq<Report>): seq<Report>
  {
    Sorting.SortDesc(rs, Timestamp)
  }

  predicate IsSevere(f: Finding)
  {
    f.severity == "Critical" || f.severity == "High"
  }

  /** How many Critical or High findings a report holds. */
  function SevereCount(r: Report): nat
  {
    Seqs.Count(r.findings, IsSevere)
  }

  /**
   * The trend: neutral with fewer than two reports; otherwise positive when
   * the newest report has fewer Critical or High findings than the one
   * before it, negative when it has more, neutral when equal.
   */
  function TrendOf(rs: seq<Report>): Trend
  {
    if |rs| < 2 then Neutral
    else
      var sorted := NewestFirst(rs);
      var recent, previous := SevereCount(sorted[0]), SevereCount(sorted[1]);
      if recent < previous then Positive
      else if recent > previous then Negative
      else Neutral
  }

  /** The two reports the trend compares are two distinct reports of the list, the newest and the next newest. */
  lemma {:induction false} TrendComparesNewest(rs: seq<Report>)
    requires |rs| >= 2
    ensures var s := NewestFirst(rs);
      && multiset{s[0], s[1]} <= multiset(rs)
      && (forall i :: 0 <= i < |rs| ==> rs[i].timestamp <= s[0].timestamp)
      && (forall i :: 2 <= i < |s| ==> s[i].timestamp <= s[1].timestamp)
  {
    Sorting.SortDescHead(rs, Timestamp);
  }

  /** `topVulnerabilities`: the type counts by decreasing count (ties in record order), at most five. */
  function TopVulnerabilities(byType: OrderedMap.Entries<nat>): seq<(string, nat)>
  {
    Sorting.Take(Sorting.SortDesc(byType, EntryCount), 5)
  }

  /** `recentReports`: the five newest reports, newest first. */
  function RecentReports(rs: seq<Report>): seq<Report>
  {
    Sorting.Take(NewestFirst(rs), 5)
  }

  /**
   * At most five entries, by non-increasing count, taken from the record,
   * none with a smaller count than an entry left out.
   */
  lemma {:induction false} TopVulnerabilitiesSpec(byType: OrderedMap.Entries<nat>)
    ensures var top := TopVulnerabilities(byType);
      var sorted := Sorting.SortDesc(byType, EntryCount);
      && |top| <= 5
      && (|byType| >= 5 ==> |top| == 5)
      && Sorting.SortedDesc(top, EntryCount)
      && multiset(top) <= multiset(byType)
      && (forall i, j :: 0 <= i < |top| <= j < |sorted| ==> top[i].1 >= sorted[j].1)
  {
    Sorting.TopOfSorted(byType, EntryCount, 5);
  }

  /** Equal counts keep the record's order in the ranking. */
  lemma {:induction false} TopVulnerabilitiesStable(byType: OrderedMap.Entries<nat>, count: int)
    ensures Seqs.Filter(Sorting.SortDesc(byType, EntryCount), Sorting.HasKey(EntryCount, count))
      == Seqs.Filter(byType, Sorting.HasKey(EntryCount, count))
  {
    Sorting.SortDescStable(byType, EntryCount, count);
  }

  /** At most five reports, newest first, each from the list, none older than a report left out. */
  lemma {:induction false} RecentReportsSpec(rs: seq<Report>)
    ensures var recent := RecentReports(rs);
      && |recent| <= 5
      && (|rs| >= 5 ==> |recent| == 5)
      && Sorting.SortedDesc(recent, Timestamp)
      && multiset(recent) <= multiset(rs)
      && (forall i, j :: 0 <= i < |recent| <= j < |rs| ==> recent[i].timestamp >= NewestFirst(rs)[j].timestamp)
  {
    Sorting.TopOfSorted(rs, Timestamp, 5);
  }

  // ---------------------------------------------------------------------
  // Metrics
  // ---------------------------------------------------------------------

  /** The metrics the dashboard shows (averages and the per-month breakdown are not modelled). */
  datatype Metrics = Metrics(
    totalReports: nat,
    totalFindings: nat,
    criticalFindings: nat,
    highFindings: nat,
    mediumFindings: nat,
    lowFindings: nat,
    mostVulnerableTarget: string,
    mostCommonVulnerability: string,
    securityTrend: Trend,
    totalTargets: nat,
    totalTools: nat,
    topVulnerabilities: seq<(string, nat)>,
    recentReports: seq<Report>)

  const EmptyMetrics := Metrics(0, 0, 0, 0, 0, 0, "", "", Neutral, 0, 0, [], [])

  /** Every tool of every report, in visiting order. */
  function AllTools(rs: seq<Report>): seq<string>
  {
    if rs == [] then [] else AllTools(rs[..|rs| - 1]) + rs[|rs| - 1].selectedTools
  }

  /** `metrics` as specified. */
  function MetricsOf(rs: seq<Report>): Metrics
  {
    if rs == [] then EmptyMetrics
    else
      var c := CountAll(TaggedFindings(rs));
      Metrics(
        |rs|, c.total, c.critical, c.high, c.medium, c.low,
        ArgMax(c.byTarget).0, ArgMax(c.byType).0, TrendOf(rs),
        |c.byTarget|, |OrderedMap.Dedup(AllTools(rs))|,
        TopVulnerabilities(c.byType), RecentReports(rs))
  }

  /** Counting one more finding applies one counting step. */
  lemma {:induction false} CountAllSnoc(ts: seq<TaggedFinding>, t: TaggedFinding)
    ensures CountAll(ts + [t]) == CountFinding(CountAll(ts), t)
  {
    assert (ts + [t])[..|ts|] == ts;
  }

  /** Visiting one more finding of the current report applies one counting step. */
  lemma {:induction false} VisitStep(done: seq<TaggedFinding>, target: string, fs: seq<Finding>, j: nat)
    requires j < |fs|
    ensures CountAll(done + Seqs.Map(fs[..j + 1], TagWith(target)))
      == CountFinding(CountAll(done + Seqs.Map(fs[..j], TagWith(target))), TaggedFinding(target, fs[j]))
  {
    var before := done + Seqs.Map(fs[..j], TagWith(target));
    assert Seqs.Map(fs[..j + 1], TagWith(target)) == Seqs.Map(fs[..j], TagWith(target)) + [TaggedFinding(target, fs[j])];
    assert done + Seqs.Map(fs[..j + 1], TagWith(target)) == before + [TaggedFinding(target, fs[j])];
    CountAllSnoc(before, TaggedFinding(target, fs[j]));
  }

  /** Adding one more tool of the current report to the set. */
  lemma {:induction false} ToolStep(used: seq<string>, tools: seq<string>, k: nat)
    requires k < |tools|
    ensures OrderedMap.Dedup(used + tools[..k + 1]) == OrderedMap.AddUnique(OrderedMap.Dedup(used + tools[..k]), tools[k])
  {
    assert used + tools[..k + 1] == (used + tools[..k]) + [tools[k]];
    OrderedMap.DedupSnoc(used + tools[..k], tools[k]);
  }

  /** The total and the counter of the first severity that matches. */
  method CountSeverity(c0: Counters, sev: string) returns (c: Counters)
    ensures c == RateSeverity(c0, sev)
  {
    c := c0.(total := c0.total + 1);
    if sev == "Critical" {
      c := c.(critical := c.critical + 1);
    } else if sev == "High" {
      c := c.(high := c.high + 1);
    } else if sev == "Medium" {
      c := c.(medium := c.medium + 1);
    } else if sev == "Low" {
      c := c.(low := c.low + 1);
    }
  }

  /** One visit of the inner loop: the severity counters, then the two counting records. */
  method CountOne(c0: Counters, target: string, finding: Finding) returns (c: Counters)
    ensures c == CountFinding(c0, TaggedFinding(target, finding))
  {
    c := CountSeverity(c0, finding.severity);
    c := c.(byTarget := OrderedMap.Bump(c.byTarget, target),
            byType := OrderedMap.Bump(c.byType, VulnType(finding)));
  }

  /**
   * The inner loop over one report's findings, one visit each.
   */
  method CountReportFindings(c0: Counters, report: Report, ghost done: seq<TaggedFinding>) returns (c: Counters)
    requires c0 == CountAll(done)
    ensures c == CountAll(done + Seqs.Map(report.findings, TagWith(report.target)))
  {
    c := c0;
    var j := 0;
    assert done + Seqs.Map(report.findings[..0], TagWith(report.target)) == done;
    while j < |report.findings|
      invariant 0 <= j <= |report.findings|
      invariant c == CountAll(done + Seqs.Map(report.findings[..j], TagWith(report.target)))
    {
      VisitStep(done, report.target, report.findings, j);
      c := CountOne(c, report.target, report.findings[j]);
      j := j + 1;
    }
    assert report.findings[..j] == report.findings;
  }

  /** The inner loop over one report's tools: add each to the set of tools used. */
  method AddTools(used0: seq<string>, tools: seq<string>, ghost seen: seq<string>) returns (used: seq<string>)
    requires used0 == OrderedMap.Dedup(seen)
    ensures used == OrderedMap.Dedup(seen + tools)
  {
    used := used0;
    var k := 0;
    assert seen + tools[..0] == seen;
    while k < |tools|
      invariant 0 <= k <= |tools|
      invariant used == OrderedMap.Dedup(seen + tools[..k])
    {
      ToolStep(seen, tools, k);
      used := OrderedMap.AddUnique(used, tools[k]);
      k := k + 1;
    }
    assert tools[..k] == tools;
  }

  /**
   * The metrics computation: visit every finding of every report, updating
   * the counters and the two counting records, and collect the tools used;
   * then the two arg-max loops, the trend and the two top-five lists.
   */
  method ComputeMetrics(rs: seq<Report>) returns (m: Metrics)
    ensures m == MetricsOf(rs)
  {
    if |rs| == 0 {
      return EmptyMetrics;
    }
    var c := Counters(0, 0, 0, 0, 0, [], []);
    var toolsUsed: seq<string> := [];
    var i := 0;
    while i < |rs|
      invariant 0 <= i <= |rs|
      invariant c == CountAll(TaggedFindings(rs[..i]))
      invariant toolsUsed == OrderedMap.Dedup(AllTools(rs[..i]))
    {
      c := CountReportFindings(c, rs[i], TaggedFindings(rs[..i]));
      toolsUsed := AddTools(toolsUsed, rs[i].selectedTools, AllTools(rs[..i]));
      assert rs[..i + 1][..i] == rs[..i];
      i := i + 1;
    }
    assert rs[..i] == rs;
    var mostVulnerableTarget, _ := MostFrequent(c.byTarget);
    var mostCommonVulnerability, _ := MostFrequent(c.byType);
    m := Metrics(
      |rs|, c.total, c.critical, c.high, c.medium, c.low,
      mostVulnerableTarget, mostCommonVulnerability, TrendOf(rs),
      |c.byTarget|, |toolsUsed|,
      TopVulnerabilities(c.byType), RecentReports(rs));
  }

  /** With no reports every count is zero, both names are empty and the trend is neutral. */
  lemma {:induction false} MetricsOfEmpty()
    ensures var m := MetricsOf([]);
      m.totalReports == 0 && m.totalFindings == 0 && m.criticalFindings == 0 && m.highFindings == 0
      && m.mediumFindings == 0 && m.lowFindings == 0 && m.mostVulnerableTarget == ""
      && m.mostCommonVulnerability == "" && m.securityTrend == Neutral && m.totalTargets == 0
      && m.totalTools == 0 && m.topVulnerabilities == [] && m.recentReports == []
  {
  }

  /** The metric fields read straight off the counters. */
  lemma {:induction false} MetricsOfCounters(rs: seq<Report>)
    requires rs != []
    ensures var m, c := MetricsOf(rs), CountAll(TaggedFindings(rs));
      && m.totalFindings == c.total && m.criticalFindings == c.critical && m.highFindings == c.high
      && m.mediumFindings == c.medium && m.lowFindings == c.low
      && m.mostVulnerableTarget == ArgMax(c.byTarget).0 && m.mostCommonVulnerability == ArgMax(c.byType).0
      && m.totalTargets == |c.byTarget| && m.topVulnerabilities == TopVulnerabilities(c.byType)
  {
  }

  /**
   * The four severity counts never exceed the number of findings, and add up
   * to it exactly when no finding has another severity.
   */
  lemma {:induction false} SeverityCountsBound(rs: seq<Report>)
    ensures var m := MetricsOf(rs);
      m.criticalFindings + m.highFindings + m.mediumFindings + m.lowFindings <= m.totalFindings
    ensures var m := MetricsOf(rs);
      (m.criticalFindings + m.highFindings + m.mediumFindings + m.lowFindings == m.totalFindings) <==>
      (forall t :: t in TaggedFindings(rs) ==> IsRated(t.finding.severity))
  {
    if rs == [] {
      assert TaggedFindings(rs) == [];
    } else {
      var ts := TaggedFindings(rs);
      MetricsOfCounters(rs);
      CountAllSeverities(ts);
      CountAllPartition(ts);
      AllRatedIffNoOther(ts);
    }
  }

  lemma {:induction false} AllRatedIffNoOther(ts: seq<TaggedFinding>)
    ensures Seqs.Count(ts, HasOtherSeverity()) == 0 <==> forall t :: t in ts ==> IsRated(t.finding.severity)
  {
    Seqs.FilterNonEmpty(ts, HasOtherSeverity());
    if exists t :: t in ts && !IsRated(t.finding.severity) {
      var t :| t in ts && !IsRated(t.finding.severity);
      var k :| 0 <= k < |ts| && ts[k] == t;
      assert HasOtherSeverity()(ts[k]);
    }
  }

  /**
   * `totalTargets` counts the targets that have at least one finding, and the
   * most vulnerable target is the earliest of those with the most findings
   * (empty when there are none).
   */
  lemma {:induction false} TargetMetricsSpec(rs: seq<Report>)
    requires rs != []
    ensures forall t :: t in OrderedMap.Keys(CountAll(TaggedFindings(rs)).byTarget) <==>
        exists i :: 0 <= i < |rs| && rs[i].target == t && |rs[i].findings| > 0
    ensures MetricsOf(rs).totalTargets == |OrderedMap.Dedup(Seqs.Map(TaggedFindings(rs), TaggedTarget))|
  {
    var ts := TaggedFindings(rs);
    var targets := Seqs.Map(ts, TaggedTarget);
    MetricsOfCounters(rs);
    CountAllTallies(ts);
    OrderedMap.TallyKeys(targets);
    OrderedMap.DedupSpec(targets);
    forall t ensures t in targets <==> exists i :: 0 <= i < |rs| && rs[i].target == t && |rs[i].findings| > 0 {
      TargetHasFinding(rs, t);
    }
  }

  lemma {:induction false} TargetHasFinding(rs: seq<Report>, t: string)
    ensures t in Seqs.Map(TaggedFindings(rs), TaggedTarget) <==> exists i :: 0 <= i < |rs| && rs[i].target == t && |rs[i].findings| > 0
  {
    var ts := TaggedFindings(rs);
    var targets := Seqs.Map(ts, TaggedTarget);
    if t in targets {
      var k :| 0 <= k < |targets| && targets[k] == t;
      TaggedFindingsSpec(rs, ts[k]);
      var i :| 0 <= i < |rs| && ts[k].target == rs[i].target && ts[k].finding in rs[i].findings;
    }
    if exists i :: 0 <= i < |rs| && rs[i].target == t && |rs[i].findings| > 0 {
      var i :| 0 <= i < |rs| && rs[i].target == t && |rs[i].findings| > 0;
      var tf := TaggedFinding(t, rs[i].findings[0]);
      TaggedFindingsSpec(rs, tf);
      var k :| 0 <= k < |ts| && ts[k] == tf;
      assert targets[k] == t;
    }
  }
}
