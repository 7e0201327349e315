/**
 * The report store (contexts/report-context.tsx): turns the findings and
 * console log of a finished pentest into a report (duration, severity
 * sections, keyword-matched recommendations), keeps the list of reports and
 * the one being viewed.
 */
module ReportContext {
  import opened Wrappers
  import Seqs
  import Text
  import OrderedMap
  import ToolsContext

  /** A finding of the pentest session; its full shape lives in the pentest store, outside this model. */
  datatype Finding = Finding(title: string, severity: string, description: string, timestamp: int)

  datatype ConsoleEntry = ConsoleEntry(entryType: string, content: string, timestamp: int)

  /** An alert of the pentest session, kept opaque: reports only carry alerts along. */
  datatype Alert = Alert(payload: string)

  datatype ReportSection = ReportSection(title: string, content: string)

  datatype Report = Report(
    id: string,
    target: string,
    timestamp: int,
    duration: int,
    findings: seq<Finding>,
    consoleEntries: seq<ConsoleEntry>,
    alerts: seq<Alert>,
    selectedTools: seq<string>,
    vulnerabilitySummary: seq<ReportSection>,
    recommendations: seq<ReportSection>,
    isGenerating: bool)

  /** What the pentest store exposes to report generation. */
  datatype PentestSnapshot = PentestSnapshot(
    target: string,
    consoleEntries: seq<ConsoleEntry>,
    findings: seq<Finding>,
    alerts: seq<Alert>,
    isRunning: bool)

  /** The outcome `generateReport` announces: a new report, or the reason it refused. */
  datatype GenerateResult = Generated | PentestInProgress | NoData

  // ---------------------------------------------------------------------
  // Duration
  // ---------------------------------------------------------------------

  /**
   * Whole seconds from the first to the last console entry (rounded down);
   * zero without entries.
   */
  function Duration(entries: seq<ConsoleEntry>): (d: int)
    ensures entries == [] ==> d == 0
    ensures entries != [] ==>
      var span := entries[|entries| - 1].timestamp - entries[0].timestamp;
      d * 1000 <= span < d * 1000 + 1000
  {
    if entries == [] then 0 else (entries[|entries| - 1].timestamp - entries[0].timestamp) / 1000
  }

  // ---------------------------------------------------------------------
  // Severity counts
  // ---------------------------------------------------------------------

  function Severities(fs: seq<Finding>): seq<string>
  {
    Seqs.Map(fs, (f: Finding) => f.severity)
  }

  /**
   * The severity tally of the AI summary: one entry per severity that occurs,
   * in order of first occurrence, counting its findings; the counts add up
   * to the number of findings.
   */
  method CountBySeverity(fs: seq<Finding>) returns (counts: OrderedMap.Entries<nat>)
    ensures counts == OrderedMap.Tally(Severities(fs))
    ensures OrderedMap.Total(counts) == |fs|
    ensures OrderedMap.Keys(counts) == OrderedMap.Dedup(Severities(fs))
    ensures forall s :: (OrderedMap.Get(counts, s) ==
      if s in Severities(fs) then Some(OrderedMap.Occurrences(Severities(fs), s)) else None)
  {
    var sevs := Severities(fs);
    counts := [];
    var i := 0;
    while i < |fs|
      invariant 0 <= i <= |fs|
      invariant counts == OrderedMap.Tally(sevs[..i])
    {
      assert sevs[..i + 1][..i] == sevs[..i];
      counts := OrderedMap.Bump(counts, fs[i].severity);
      i := i + 1;
    }
    assert sevs[..i] == sevs;
    OrderedMap.TallyTotal(sevs);
    OrderedMap.TallyKeys(sevs);
    forall s ensures OrderedMap.Get(counts, s) ==
      if s in sevs then Some(OrderedMap.Occurrences(sevs, s)) else None
    {
      OrderedMap.TallyGet(sevs, s);
    }
  }

  // ---------------------------------------------------------------------
  // Vulnerability sections
  // ---------------------------------------------------------------------

  const SeverityOrder: seq<string> := ["Critical", "High", "Medium", "Low"]

  function HasSeverity(sev: string): Finding -> bool
  {
    (f: Finding) => f.severity == sev
  }

  /** The findings of one severity, in their original order. */
  function WithSeverity(fs: seq<Finding>, sev: string): seq<Finding>
  {
    Seqs.Filter(fs, HasSeverity(sev))
  }

  /** The grouping record the section builder fills: severity -> its findings, keys in order of first occurrence. */
  function GroupBySeverity(fs: seq<Finding>): OrderedMap.Entries<seq<Finding>>
  {
    if fs == [] then []
    else
      var g := GroupBySeverity(fs[..|fs| - 1]);
      var f := fs[|fs| - 1];
      OrderedMap.Put(g, f.severity, OrderedMap.Get(g, f.severity).GetOr([]) + [f])
  }

  /** Each severity's group holds exactly that severity's findings, in order. */
  lemma {:induction false} GroupBySeverityGet(fs: seq<Finding>, sev: string)
    ensures OrderedMap.Get(GroupBySeverity(fs), sev).GetOr([]) == WithSeverity(fs, sev)
  {
    if fs != [] {
      var n := |fs| - 1;
      var g := GroupBySeverity(fs[..n]);
      var f := fs[n];
      GroupBySeverityGet(fs[..n], sev);
      GroupBySeverityGet(fs[..n], f.severity);
      OrderedMap.GetPut(g, f.severity, OrderedMap.Get(g, f.severity).GetOr([]) + [f], sev);
      Seqs.FilterSnoc(fs, n, HasSeverity(sev));
      assert fs[..n + 1] == fs;
    }
  }

  /** One finding as the section text shows it; `formatTime` is the locale's date-time rendering. */
  function RenderFinding(f: Finding, formatTime: int -> string): string
  {
    "\n            ### " + f.title + "\n            \n            **Description:** " + f.description
    + "\n            \n            **Timestamp:** " + formatTime(f.timestamp) + "\n          "
  }

  function Renderer(formatTime: int -> string): Finding -> string
  {
    (f: Finding) => RenderFinding(f, formatTime)
  }

  function SectionTitle(sev: string): string
  {
    sev + " Severity Findings"
  }

  /** The section of one severity: present only when that severity has findings. */
  function SectionFor(fs: seq<Finding>, sev: string, formatTime: int -> string): seq<ReportSection>
  {
    var group := WithSeverity(fs, sev);
    if |group| > 0 then
      [ReportSection(SectionTitle(sev), Text.Join(Seqs.Map(group, Renderer(formatTime)), "\n\n"))]
    else []
  }

  function SectionsFor(order: seq<string>, fs: seq<Finding>, formatTime: int -> string): seq<ReportSection>
  {
    if order == [] then []
    else SectionsFor(order[..|order| - 1], fs, formatTime) + SectionFor(fs, order[|order| - 1], formatTime)
  }

  /** `generateVulnerabilitySections` as specified: a section per severity of the fixed order that has findings. */
  function VulnerabilitySections(fs: seq<Finding>, formatTime: int -> string): seq<ReportSection>
  {
    SectionsFor(SeverityOrder, fs, formatTime)
  }

  /** The grouping pass of the section builder. */
  method GroupFindings(fs: seq<Finding>) returns (groups: OrderedMap.Entries<seq<Finding>>)
    ensures groups == GroupBySeverity(fs)
  {
    groups := [];
    var i := 0;
    while i < |fs|
      invariant 0 <= i <= |fs|
      invariant groups == GroupBySeverity(fs[..i])
    {
      assert fs[..i + 1][..i] == fs[..i];
      var current := OrderedMap.Get(groups, fs[i].severity).GetOr([]);
      groups := OrderedMap.Put(groups, fs[i].severity, current + [fs[i]]);
      i := i + 1;
    }
    assert fs[..i] == fs;
  }

  lemma SectionsForSnoc(order: seq<string>, j: nat, fs: seq<Finding>, formatTime: int -> string)
    requires j < |order|
    ensures SectionsFor(order[..j + 1], fs, formatTime) == SectionsFor(order[..j], fs, formatTime) + SectionFor(fs, order[j], formatTime)
  {
    assert order[..j + 1][..j] == order[..j];
  }

  /**
   * The section builder: group the findings by severity, then walk the fixed
   * order Critical, High, Medium, Low and emit a section for each non-empty
   * group.
   */
  method GenerateVulnerabilitySections(fs: seq<Finding>, formatTime: int -> string) returns (sections: seq<ReportSection>)
    ensures sections == VulnerabilitySections(fs, formatTime)
  {
    var groups := GroupFindings(fs);
    var order := SeverityOrder;
    sections := [];
    var j := 0;
    while j < |order|
      invariant 0 <= j <= |order|
      invariant sections == SectionsFor(order[..j], fs, formatTime)
    {
      var sev := order[j];
      var group := OrderedMap.Get(groups, sev).GetOr([]);
      GroupBySeverityGet(fs, sev);
      SectionsForSnoc(order, j, fs, formatTime);
      if |group| > 0 {
        var content := Text.Join(Seqs.Map(group, Renderer(formatTime)), "\n\n");
        sections := sections + [ReportSection(SectionTitle(sev), content)];
      }
      j := j + 1;
    }
    assert order[..j] == order;
  }

  function Titles(ss: seq<ReportSection>): seq<string>
  {
    Seqs.Map(ss, (s: ReportSection) => s.title)
  }

  function OccursIn(fs: seq<Finding>): string -> bool
  {
    (sev: string) => sev in Severities(fs)
  }

  lemma WithSeverityNonEmpty(fs: seq<Finding>, sev: string)
    ensures |WithSeverity(fs, sev)| > 0 <==> sev in Severities(fs)
  {
    Seqs.FilterNonEmpty(fs, HasSeverity(sev));
    if sev in Severities(fs) {
      var i :| 0 <= i < |fs| && Severities(fs)[i] == sev;
      assert HasSeverity(sev)(fs[i]);
    }
  }

  lemma {:induction false} SectionsForTitles(order: seq<string>, fs: seq<Finding>, formatTime: int -> string)
    ensures Titles(SectionsFor(order, fs, formatTime)) == Seqs.Map(Seqs.Filter(order, OccursIn(fs)), SectionTitle)
  {
    if order != [] {
      var n := |order| - 1;
      SectionsForTitles(order[..n], fs, formatTime);
      Seqs.MapConcat(SectionsFor(order[..n], fs, formatTime), SectionFor(fs, order[n], formatTime), (s: ReportSection) => s.title);
      Seqs.FilterSnoc(order, n, OccursIn(fs));
      assert order[..n + 1] == order;
      Seqs.MapConcat(Seqs.Filter(order[..n], OccursIn(fs)), if OccursIn(fs)(order[n]) then [order[n]] else [], SectionTitle);
      WithSeverityNonEmpty(fs, order[n]);
    }
  }

  /**
   * Sections appear only for Critical, High, Medium and Low, in that order,
   * each exactly when that severity has a finding; so there are at most four,
   * and findings of any other severity produce none.
   */
  lemma VulnerabilitySectionsSpec(fs: seq<Finding>, formatTime: int -> string)
    ensures Titles(VulnerabilitySections(fs, formatTime))
      == Seqs.Map(Seqs.Filter(SeverityOrder, OccursIn(fs)), SectionTitle)
    ensures |VulnerabilitySections(fs, formatTime)| <= 4
  {
    SectionsForTitles(SeverityOrder, fs, formatTime);
  }

  // ---------------------------------------------------------------------
  // Recommendations
  // ---------------------------------------------------------------------

  /** The keys of the recommendation record, in its order. */
  const Categories: seq<string> := ["SQL Injection", "XSS", "CSRF", "Insecure Cookie", "Authentication", "Authorization"]

  /** The remediation advice of each category of the record. */
  function RecommendationText(category: string): string
  {
    if category == "SQL Injection" then
      "Implement prepared statements or parameterized queries. Use an ORM or database abstraction layer. Apply input validation and sanitization."
    else if category == "XSS" then
      "Implement Content Security Policy (CSP). Use context-specific output encoding. Sanitize user input. Use modern frameworks that automatically escape output."
    else if category == "CSRF" then
      "Implement anti-CSRF tokens. Use SameSite cookie attribute. Verify Origin and Referer headers."
    else if category == "Insecure Cookie" then
      "Set the HttpOnly, Secure, and SameSite attributes on cookies. Use proper cookie scoping with Domain and Path attributes."
    else if category == "Authentication" then
      "Implement multi-factor authentication. Use secure password storage with strong hashing algorithms. Implement account lockout policies."
    else if category == "Authorization" then
      "Implement proper access control checks. Use principle of least privilege. Implement role-based access control (RBAC)."
    else ""
  }

  const GeneralSection := ReportSection(
    "General Security Recommendations",
    "\n          - Keep all systems and software up to date with security patches\n          - Implement a security awareness training program\n          - Conduct regular security assessments and penetration tests\n          - Develop and maintain a security incident response plan\n          - Implement defense-in-depth security controls\n        ")

  /** A finding title mentions a category when it contains it, ignoring case. */
  predicate Mentions(title: string, category: string)
  {
    Text.Contains(Text.Lower(title), Text.Lower(category))
  }

  function MentionedIn(title: string): string -> bool
  {
    (c: string) => Mentions(title, c)
  }

  /** The categories the nested loop adds, in the order it adds them (repeats included). */
  function AllMentions(fs: seq<Finding>): seq<string>
  {
    if fs == [] then []
    else AllMentions(fs[..|fs| - 1]) + Seqs.Filter(Categories, MentionedIn(fs[|fs| - 1].title))
  }

  /** The category set: each mentioned category once, in order of first mention. */
  function MatchedCategories(fs: seq<Finding>): seq<string>
  {
    OrderedMap.Dedup(AllMentions(fs))
  }

  function RemediationSection(category: string): ReportSection
  {
    ReportSection(category + " Remediation", RecommendationText(category))
  }

  /** `generateRecommendations` as specified. */
  function RecommendationSections(fs: seq<Finding>): seq<ReportSection>
  {
    Seqs.Map(MatchedCategories(fs), RemediationSection) + (if |fs| > 0 then [GeneralSection] else [])
  }

  /** One step of the inner loop: key `j` is added to the set exactly when the title mentions it. */
  lemma MentionStep(prefix: seq<string>, keys: seq<string>, title: string, j: nat)
    requires j < |keys|
    ensures OrderedMap.Dedup(prefix + Seqs.Filter(keys[..j + 1], MentionedIn(title)))
      == if Mentions(title, keys[j])
         then OrderedMap.AddUnique(OrderedMap.Dedup(prefix + Seqs.Filter(keys[..j], MentionedIn(title))), keys[j])
         else OrderedMap.Dedup(prefix + Seqs.Filter(keys[..j], MentionedIn(title)))
  {
    Seqs.FilterSnoc(keys, j, MentionedIn(title));
    var before := prefix + Seqs.Filter(keys[..j], MentionedIn(title));
    if Mentions(title, keys[j]) {
      assert MentionedIn(title)(keys[j]);
      OrderedMap.DedupSnoc(before, keys[j]);
      assert before + [keys[j]] == prefix + Seqs.Filter(keys[..j + 1], MentionedIn(title));
    } else {
      assert !MentionedIn(title)(keys[j]);
      assert before == prefix + Seqs.Filter(keys[..j + 1], MentionedIn(title));
    }
  }

  lemma AllMentionsSnoc(fs: seq<Finding>, i: nat)
    requires i < |fs|
    ensures AllMentions(fs[..i + 1]) == AllMentions(fs[..i]) + Seqs.Filter(Categories, MentionedIn(fs[i].title))
  {
    assert fs[..i + 1][..i] == fs[..i];
  }

  /** One remediation section per category of the set, in the set's order. */
  method RemediationSections(cats: seq<string>) returns (sections: seq<ReportSection>)
    ensures sections == Seqs.Map(cats, RemediationSection)
  {
    sections := [];
    var k := 0;
    while k < |cats|
      invariant 0 <= k <= |cats|
      invariant sections == Seqs.Map(cats[..k], RemediationSection)
    {
      assert cats[..k + 1] == cats[..k] + [cats[k]];
      Seqs.MapConcat(cats[..k], [cats[k]], RemediationSection);
      sections := sections + [RemediationSection(cats[k])];
      k := k + 1;
    }
    assert cats[..k] == cats;
  }

  /** The inner loop of `generateRecommendations`: the categories one finding title mentions, added in catalogue order. */
  method AddMentions(cats0: seq<string>, ghost prefix: seq<string>, title: string) returns (cats: seq<string>)
    requires cats0 == OrderedMap.Dedup(prefix)
    ensures cats == OrderedMap.Dedup(prefix + Seqs.Filter(Categories, MentionedIn(title)))
  {
    cats := cats0;
    assert prefix + Seqs.Filter(Categories[..0], MentionedIn(title)) == prefix;
    var j := 0;
    while j < |Categories|
      invariant 0 <= j <= |Categories|
      invariant cats == OrderedMap.Dedup(prefix + Seqs.Filter(Categories[..j], MentionedIn(title)))
    {
      MentionStep(prefix, Categories, title, j);
      if Mentions(title, Categories[j]) {
        cats := OrderedMap.AddUnique(cats, Categories[j]);
      }
      j := j + 1;
    }
    assert Categories[..j] == Categories;
  }

  /**
   * The recommendation builder: for every finding and every catalogue
   * category, add the category to a set when the title mentions it; then one
   * section per category in the set, then the general section if there are
   * findings.
   */
  method GenerateRecommendations(fs: seq<Finding>) returns (sections: seq<ReportSection>)
    ensures sections == RecommendationSections(fs)
  {
    var cats := MatchCategories(fs);
    sections := RemediationSections(cats);
    if |fs| > 0 {
      sections := sections + [GeneralSection];
    }
  }

  /** The outer loop of `generateRecommendations`: every finding's mentions, deduplicated in order of first mention. */
  method MatchCategories(fs: seq<Finding>) returns (cats: seq<string>)
    ensures cats == MatchedCategories(fs)
  {
    cats := [];
    var i := 0;
    while i < |fs|
      invariant 0 <= i <= |fs|
      invariant cats == OrderedMap.Dedup(AllMentions(fs[..i]))
    {
      cats := AddMentions(cats, AllMentions(fs[..i]), fs[i].title);
      AllMentionsSnoc(fs, i);
      i := i + 1;
    }
    assert fs[..i] == fs;
  }

  /** Some finding title mentions the category. */
  predicate MentionedBy(fs: seq<Finding>, c: string)
  {
    exists i :: 0 <= i < |fs| && Mentions(fs[i].title, c)
  }

  lemma MentionedBySnoc(fs: seq<Finding>, i: nat, c: string)
    requires i < |fs|
    ensures MentionedBy(fs[..i + 1], c) <==> MentionedBy(fs[..i], c) || Mentions(fs[i].title, c)
  {
    if MentionedBy(fs[..i + 1], c) {
      var k :| 0 <= k < i + 1 && Mentions(fs[..i + 1][k].title, c);
      if k < i {
        assert fs[..i][k] == fs[k];
      }
    }
    if MentionedBy(fs[..i], c) {
      var k :| 0 <= k < i && Mentions(fs[..i][k].title, c);
      assert fs[..i + 1][k] == fs[k];
    }
    if Mentions(fs[i].title, c) {
      assert fs[..i + 1][i] == fs[i];
    }
  }

  lemma MentionedInFilter(title: string, c: string)
    ensures c in Seqs.Filter(Categories, MentionedIn(title)) <==> c in Categories && Mentions(title, c)
  {
    if c in Categories && Mentions(title, c) {
      var k :| 0 <= k < |Categories| && Categories[k] == c;
      assert MentionedIn(title)(Categories[k]);
    }
  }

  lemma {:induction false} AllMentionsSpec(fs: seq<Finding>, c: string)
    ensures c in AllMentions(fs) <==> c in Categories && MentionedBy(fs, c)
  {
    if fs == [] {
    } else {
      var n := |fs| - 1;
      AllMentionsSpec(fs[..n], c);
      MentionedInFilter(fs[n].title, c);
      MentionedBySnoc(fs, n, c);
      assert fs[..n + 1] == fs;
    }
  }

  lemma SuffixInjective(a: string, b: string, suffix: string)
    requires a + suffix == b + suffix
    ensures a == b
  {
    assert |a| == |b|;
    assert forall i :: 0 <= i < |a| ==> a[i] == (a + suffix)[i] == (b + suffix)[i] == b[i];
  }

  /** A catalogue category gets a remediation section exactly when some finding title mentions it (ignoring case). */
  lemma MatchedCategoriesSpec(fs: seq<Finding>, c: string)
    ensures c in MatchedCategories(fs) <==> c in Categories && MentionedBy(fs, c)
  {
    OrderedMap.DedupSpec(AllMentions(fs));
    AllMentionsSpec(fs, c);
  }

  /**
   * Recommendations open with one "<category> Remediation" section per matched
   * category, each once, and hold nothing else but the general section.
   */
  lemma RecommendationTitlesSpec(fs: seq<Finding>)
    ensures var cats := MatchedCategories(fs);
      var r := RecommendationSections(fs);
      && |r| == |cats| + (if |fs| > 0 then 1 else 0)
      && (forall i :: 0 <= i < |cats| ==> r[i].title == cats[i] + " Remediation")
      && (forall i, j :: 0 <= i < j < |cats| ==> r[i].title != r[j].title)
  {
    var cats := MatchedCategories(fs);
    var r := RecommendationSections(fs);
    OrderedMap.DedupSpec(AllMentions(fs));
    forall i, j | 0 <= i < j < |cats| ensures r[i].title != r[j].title {
      if r[i].title == r[j].title {
        SuffixInjective(cats[i], cats[j], " Remediation");
      }
    }
  }

  /** The general section closes the recommendations exactly when there are findings; without findings there are none. */
  lemma GeneralSectionLast(fs: seq<Finding>)
    ensures |fs| > 0 <==> (|RecommendationSections(fs)| > 0
      && RecommendationSections(fs)[|RecommendationSections(fs)| - 1] == GeneralSection)
    ensures |fs| == 0 ==> RecommendationSections(fs) == []
  {
    if |fs| == 0 {
      assert AllMentions(fs) == [];
    } else {
      OrderedMap.DedupSpec(AllMentions(fs));
      forall c | c in MatchedCategories(fs) ensures RemediationSection(c) != GeneralSection {
        MatchedCategoriesSpec(fs, c);
      }
    }
  }

  // ---------------------------------------------------------------------
  // Duration formatting
  // ---------------------------------------------------------------------

  /** JavaScript's `%`: the remainder takes the sign of the dividend. */
  function JsRem(a: int, b: int): int
    requires b > 0
  {
    if a >= 0 then a % b else -((-a) % b)
  }

  datatype TimeUnit = Hour | Minute | Second

  datatype DurationPart = DurationPart(amount: int, unit: TimeUnit)

  /**
   * The parts `formatDuration` pushes: hours and minutes when positive, then
   * seconds when positive or when nothing else was pushed. Division rounds
   * down (`Math.floor`); remainders are JavaScript's.
   */
  function DurationParts(seconds: int): seq<DurationPart>
  {
    var hours := seconds / 3600;
    var minutes := JsRem(seconds, 3600) / 60;
    var remaining := JsRem(seconds, 60);
    var parts := (if hours > 0 then [DurationPart(hours, Hour)] else [])
      + (if minutes > 0 then [DurationPart(minutes, Minute)] else []);
    if remaining > 0 || parts == [] then parts + [DurationPart(remaining, Second)] else parts
  }

  function UnitName(u: TimeUnit): string
  {
    match u
    case Hour => "hour"
    case Minute => "minute"
    case Second => "second"
  }

  /** `"<n> <unit>"`, with the plural `s` exactly when `n` is not 1. */
  function RenderPart(p: DurationPart): string
  {
    Text.IntToString(p.amount) + " " + UnitName(p.unit) + (if p.amount != 1 then "s" else "")
  }

  /** `formatDuration`: the parts, rendered, joined by ", ". */
  function FormatDuration(seconds: int): string
  {
    Text.Join(Seqs.Map(DurationParts(seconds), RenderPart), ", ")
  }

  function UnitSeconds(u: TimeUnit): int
  {
    match u
    case Hour => 3600
    case Minute => 60
    case Second => 1
  }

  /** The number of seconds one part spells out. */
  function PartValue(p: DurationPart): int
  {
    match p.unit
    case Hour => 3600 * p.amount
    case Minute => 60 * p.amount
    case Second => p.amount
  }

  /** The number of seconds the parts spell out. */
  function PartsValue(parts: seq<DurationPart>): int
  {
    if parts == [] then 0 else PartValue(parts[0]) + PartsValue(parts[1..])
  }

  lemma {:induction false} PartsValueConcat(a: seq<DurationPart>, b: seq<DurationPart>)
    ensures PartsValue(a + b) == PartsValue(a) + PartsValue(b)
  {
    if a == [] {
      assert a + b == b;
    } else {
      assert (a + b)[1..] == a[1..] + b;
      PartsValueConcat(a[1..], b);
    }
  }

  /** A number written as 60·k + q with 0 <= q < 60 leaves remainder q modulo 60. */
  lemma Mod60Unique(a: int, k: int, q: int)
    requires a == 60 * k + q && 0 <= q < 60
    ensures a % 60 == q
  {
  }

  /** Hours, minutes and seconds of a non-negative duration recombine to it, minutes and seconds below 60. */
  lemma DurationSplit(seconds: int)
    requires seconds >= 0
    ensures seconds == 3600 * (seconds / 3600) + 60 * (JsRem(seconds, 3600) / 60) + JsRem(seconds, 60)
    ensures 0 <= JsRem(seconds, 3600) / 60 < 60 && 0 <= JsRem(seconds, 60) < 60
  {
    var h, r := seconds / 3600, seconds % 3600;
    assert JsRem(seconds, 3600) == r && 0 <= r < 3600;
    var m, q := r / 60, r % 60;
    assert seconds == 60 * (60 * h + m) + q;
    Mod60Unique(seconds, 60 * h + m, q);
  }

  /** One value per unit, in hour, minute, second order. */
  lemma DurationPartsValue(h: int, m: int, sec: int, hs: seq<DurationPart>, ms: seq<DurationPart>, ss: seq<DurationPart>)
    requires hs == [] || hs == [DurationPart(h, Hour)]
    requires ms == [] || ms == [DurationPart(m, Minute)]
    requires ss == [] || ss == [DurationPart(sec, Second)]
    ensures PartsValue(hs + ms + ss)
      == (if hs == [] then 0 else 3600 * h) + (if ms == [] then 0 else 60 * m) + (if ss == [] then 0 else sec)
  {
    PartsValueConcat(hs, ms);
    PartsValueConcat(hs + ms, ss);
  }

  /** The optional hour, minute and second parts are in unit order and non-zero, except a lone zero-second part. */
  lemma DurationPartsShape(h: int, m: int, sec: int, hs: seq<DurationPart>, ms: seq<DurationPart>, ss: seq<DurationPart>)
    requires hs == (if h > 0 then [DurationPart(h, Hour)] else [])
    requires ms == (if m > 0 then [DurationPart(m, Minute)] else [])
    requires ss == (if sec > 0 || hs + ms == [] then [DurationPart(sec, Second)] else [])
    requires 0 <= m < 60 && 0 <= sec < 60
    ensures var ps := hs + ms + ss;
      |ps| >= 1
      && (forall i, j :: 0 <= i < j < |ps| ==> UnitSeconds(ps[i].unit) > UnitSeconds(ps[j].unit))
      && (forall i :: 0 <= i < |ps| && ps[i].unit != Hour ==> 0 <= ps[i].amount < 60)
      && (forall i :: 0 <= i < |ps| ==> ps[i].amount > 0 || ps == [DurationPart(0, Second)])
  {
    var ps := hs + ms + ss;
    var a, b := |hs|, |hs| + |ms|;
    forall i | 0 <= i < |ps|
      ensures i < a ==> ps[i] == DurationPart(h, Hour) && h > 0
      ensures a <= i < b ==> ps[i] == DurationPart(m, Minute) && m > 0
      ensures b <= i ==> ps[i] == DurationPart(sec, Second)
    {
      if i < a {
        assert ps[i] == hs[i];
      } else if i < b {
        assert ps[i] == ms[i - a];
      } else {
        assert ps[i] == ss[i - b];
      }
    }
    assert |hs| <= 1 && |ms| <= 1 && |ss| <= 1;
    forall i, j | 0 <= i < j < |ps| ensures UnitSeconds(ps[i].unit) > UnitSeconds(ps[j].unit) {
      if i < a {
        assert a <= j;
      } else if i < b {
        assert b <= j;
      } else {
        assert false;
      }
    }
    forall i | 0 <= i < |ps| ensures ps[i].amount > 0 || ps == [DurationPart(0, Second)] {
      if b <= i && sec == 0 {
        assert hs + ms == [];
        assert ps == ss;
      }
    }
  }

  /**
   * For a non-negative duration the parts spell it out exactly
   * (3600·h + 60·m + s, with m and s below 60), list hours, minutes and seconds
   * in that order, and omit every zero part except a lone "0 seconds".
   */
  lemma DurationPartsSpec(seconds: int)
    requires seconds >= 0
    ensures PartsValue(DurationParts(seconds)) == seconds
    ensures var ps := DurationParts(seconds);
      |ps| >= 1
      && (forall i, j :: 0 <= i < j < |ps| ==> UnitSeconds(ps[i].unit) > UnitSeconds(ps[j].unit))
      && (forall i :: 0 <= i < |ps| && ps[i].unit != Hour ==> 0 <= ps[i].amount < 60)
      && (forall i :: 0 <= i < |ps| ==> ps[i].amount > 0 || ps == [DurationPart(0, Second)])
  {
    var hours := seconds / 3600;
    var minutes := JsRem(seconds, 3600) / 60;
    var remaining := JsRem(seconds, 60);
    DurationSplit(seconds);
    var hs := if hours > 0 then [DurationPart(hours, Hour)] else [];
    var ms := if minutes > 0 then [DurationPart(minutes, Minute)] else [];
    var ss := if remaining > 0 || hs + ms == [] then [DurationPart(remaining, Second)] else [];
    assert DurationParts(seconds) == hs + ms + ss;
    DurationPartsValue(hours, minutes, remaining, hs, ms, ss);
    DurationPartsShape(hours, minutes, remaining, hs, ms, ss);
  }

  /** A negative duration (console entries out of order) prints only its remainder modulo a minute, as seconds. */
  lemma DurationPartsNegative(seconds: int)
    requires seconds < 0
    ensures DurationParts(seconds) == [DurationPart(JsRem(seconds, 60), Second)]
    ensures JsRem(seconds, 60) <= 0
  {
  }

  /** Zero prints as "0 seconds", one second as "1 second". */
  lemma FormatDurationSmall()
    ensures FormatDuration(0) == "0 seconds"
    ensures FormatDuration(1) == "1 second"
  {
    assert DurationParts(0) == [DurationPart(0, Second)];
    assert DurationParts(1) == [DurationPart(1, Second)];
  }

  // ---------------------------------------------------------------------
  // The store
  // ---------------------------------------------------------------------

  /** The report a successful generation appends. */
  function BuildReport(
    session: PentestSnapshot, tools: seq<ToolsContext.PentestTool>, stamp: string, now: int,
    formatTime: int -> string): Report
  {
    Report(
      "report-" + stamp,
      session.target,
      now,
      Duration(session.consoleEntries),
      session.findings,
      session.consoleEntries,
      session.alerts,
      ToolsContext.SelectedTools(tools),
      VulnerabilitySections(session.findings, formatTime),
      RecommendationSections(session.findings),
      false)
  }

  function LacksReportId(id: string): Report -> bool
  {
    (r: Report) => r.id != id
  }

  /** `reports.find(r => r.id === id)`. */
  function FindReport(rs: seq<Report>, id: string): (r: Option<Report>)
    ensures r.Some? ==> r.value in rs && r.value.id == id
    ensures r.None? <==> forall i :: 0 <= i < |rs| ==> rs[i].id != id
  {
    var k := Seqs.FirstIndex(rs, (x: Report) => x.id == id);
    if k < |rs| then Some(rs[k]) else None
  }

  /** Deleting the report just appended under a fresh id gives back the previous list. */
  lemma DeleteUndoesAppend(rs: seq<Report>, r: Report)
    requires forall i :: 0 <= i < |rs| ==> rs[i].id != r.id
    ensures Seqs.Filter(rs + [r], LacksReportId(r.id)) == rs
  {
    Seqs.FilterConcat(rs, [r], LacksReportId(r.id));
    Seqs.FilterAll(rs, LacksReportId(r.id));
    Seqs.FilterSingleton(r, LacksReportId(r.id));
  }

  /** The provider component's state. */
  class ReportStore {
    var reports: seq<Report>
    var currentReport: Option<Report>
    var isGeneratingReport: bool

    constructor ()
      ensures reports == [] && currentReport == None && !isGeneratingReport
    {
      reports := [];
      currentReport := None;
      isGeneratingReport := false;
    }

    /**
     * `generateReport`: refused while the pentest runs or when there is
     * nothing to report (no findings and no console entries); otherwise one
     * report is appended and becomes the current one.
     */
    method GenerateReport(
      session: PentestSnapshot, tools: seq<ToolsContext.PentestTool>, stamp: string, now: int,
      formatTime: int -> string) returns (result: GenerateResult)
      modifies this
      ensures result == (if session.isRunning then PentestInProgress
                         else if session.findings == [] && session.consoleEntries == [] then NoData
                         else Generated)
      ensures result != Generated ==>
        reports == old(reports) && currentReport == old(currentReport) && isGeneratingReport == old(isGeneratingReport)
      ensures result == Generated ==>
        var report := BuildReport(session, tools, stamp, now, formatTime);
        reports == old(reports) + [report] && currentReport == Some(report) && !isGeneratingReport
    {
      if session.isRunning {
        return PentestInProgress;
      }
      if |session.findings| == 0 && |session.consoleEntries| == 0 {
        return NoData;
      }
      isGeneratingReport := true;
      var duration := Duration(session.consoleEntries);
      var vulnerabilitySummary := GenerateVulnerabilitySections(session.findings, formatTime);
      var recommendations := GenerateRecommendations(session.findings);
      var report := Report(
        "report-" + stamp, session.target, now, duration, session.findings, session.consoleEntries,
        session.alerts, ToolsContext.SelectedTools(tools), vulnerabilitySummary, recommendations, false);
      reports := reports + [report];
      currentReport := Some(report);
      isGeneratingReport := false;
      result := Generated;
    }

    /** `viewReport`: shows the first report with this id; an unknown id changes nothing. */
    method ViewReport(id: string) returns (found: bool)
      modifies this
      ensures found == FindReport(reports, id).Some?
      ensures reports == old(reports) && isGeneratingReport == old(isGeneratingReport)
      ensures currentReport == if found then FindReport(reports, id) else old(currentReport)
    {
      var r := FindReport(reports, id);
      found := r.Some?;
      if found {
        currentReport := r;
      }
    }

    /** `deleteReport`: removes every report with this id and clears the view if it showed that id. */
    method DeleteReport(id: string)
      modifies this
      ensures reports == Seqs.Filter(old(reports), LacksReportId(id))
      ensures currentReport == if old(currentReport).Some? && old(currentReport).value.id == id then None else old(currentReport)
      ensures isGeneratingReport == old(isGeneratingReport)
    {
      reports := Seqs.Filter(reports, LacksReportId(id));
      if currentReport.Some? && currentReport.value.id == id {
        currentReport := None;
      }
    }
  }
}
