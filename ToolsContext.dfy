/**
 * The tool catalogue store (contexts/tools-context.tsx): an ordered list of
 * pentest tools, each with an enabled flag and editable parameters, plus the
 * autonomous ("headless") mode flag. The updates are pure list rewrites,
 * given as functions; `ToolsStore` holds the state and is specified by them.
 */
module ToolsContext {
  import Seqs

  datatype Category = Reconnaissance | Scanning | Vulnerability | Exploitation | PostExploitation | Web

  /** The category as the string the catalogue stores. */
  function CategoryName(c: Category): string
  {
    match c
    case Reconnaissance => "reconnaissance"
    case Scanning => "scanning"
    case Vulnerability => "vulnerability"
    case Exploitation => "exploitation"
    case PostExploitation => "post-exploitation"
    case Web => "web"
  }

  datatype ParamType = StringParam | NumberParam | BooleanParam

  /** A parameter value: `string | number | boolean` (numbers come from integer-step sliders). */
  datatype ParamValue = Str(s: string) | Num(n: int) | Bool(b: bool)

  datatype ToolParameter = ToolParameter(
    name: string,
    description: string,
    paramType: ParamType,
    defaultValue: ParamValue,
    value: ParamValue)

  datatype PentestTool = PentestTool(
    id: string,
    name: string,
    description: string,
    category: Category,
    command: string,
    parameters: seq<ToolParameter>,
    enabled: bool,
    risky: bool)

  const DefaultTools: seq<PentestTool> := [
    PentestTool("nmap-basic", "Nmap (Basic)", "Basic port scanning and service detection", Reconnaissance,
      "nmap -sV [TARGET]",
      [ToolParameter("ports", "Port range to scan", StringParam, Str("1-1000"), Str("1-1000"))],
      true, false),
    PentestTool("nmap-full", "Nmap (Full)", "Comprehensive port scanning and service detection", Reconnaissance,
      "nmap -sV -p- --min-rate 1000 [TARGET]",
      [ToolParameter("rate", "Packet rate", NumberParam, Num(1000), Num(1000))],
      false, true),
    PentestTool("whois", "WHOIS", "Domain registration information lookup", Reconnaissance,
      "whois [TARGET]",
      [],
      true, false),
    PentestTool("dig", "DNS Lookup", "DNS record lookup", Reconnaissance,
      "dig [TARGET]",
      [ToolParameter("record", "DNS record type", StringParam, Str("ANY"), Str("ANY"))],
      true, false),
    PentestTool("nikto", "Nikto", "Web server scanner", Scanning,
      "nikto -h [TARGET]",
      [ToolParameter("ssl", "Use SSL", BooleanParam, Bool(false), Bool(false))],
      true, false),
    PentestTool("dirb", "Dirb", "Web content scanner", Scanning,
      "dirb http://[TARGET]",
      [ToolParameter("wordlist", "Wordlist to use", StringParam, Str("common.txt"), Str("common.txt"))],
      false, false),
    PentestTool("wpscan", "WPScan", "WordPress vulnerability scanner", Scanning,
      "wpscan --url http://[TARGET]",
      [ToolParameter("enumerate", "Enumeration options", StringParam, Str("vp,u"), Str("vp,u"))],
      false, false),
    PentestTool("nessus", "Nessus (Simulated)", "Vulnerability scanner", Vulnerability,
      "nessus_scan [TARGET]",
      [ToolParameter("policy", "Scan policy", StringParam, Str("basic"), Str("basic"))],
      false, true),
    PentestTool("openvas", "OpenVAS", "Open vulnerability assessment system", Vulnerability,
      "openvas_scan [TARGET]",
      [],
      false, true),
    PentestTool("sqlmap", "SQLMap", "SQL injection detection and exploitation", Web,
      "sqlmap -u http://[TARGET]",
      [
        ToolParameter("risk", "Risk level (1-3)", NumberParam, Num(1), Num(1)),
        ToolParameter("level", "Level of tests (1-5)", NumberParam, Num(1), Num(1))],
      false, true),
    PentestTool("xsser", "XSSer", "Cross-site scripting detection", Web,
      "xsser --url http://[TARGET]",
      [],
      false, true),
    PentestTool("owasp-zap", "OWASP ZAP", "Web application security scanner", Web,
      "zap-cli quick-scan --self-contained --start-options '-config api.disablekey=true' http://[TARGET]",
      [],
      false, true),
    PentestTool("metasploit", "Metasploit", "Exploitation framework", Exploitation,
      "msfconsole -q -x 'use auxiliary/scanner/[MODULE]; set RHOSTS [TARGET]; run; exit'",
      [ToolParameter("module", "Metasploit module", StringParam, Str("smb/smb_version"), Str("smb/smb_version"))],
      false, true),
    PentestTool("linpeas", "LinPEAS", "Linux privilege escalation assistant", PostExploitation,
      "linpeas.sh",
      [],
      false, true),
    PentestTool("winpeas", "WinPEAS", "Windows privilege escalation assistant", PostExploitation,
      "winpeas.exe",
      [],
      false, true)
  ]

  /** `tools.filter(t => t.enabled).map(t => t.id)`: the ids of the enabled tools, in catalogue order. */
  function SelectedTools(ts: seq<PentestTool>): (r: seq<string>)
    ensures |r| <= |ts|
  {
    if ts == [] then [] else (if ts[0].enabled then [ts[0].id] else []) + SelectedTools(ts[1..])
  }

  /** An id is selected exactly when some enabled tool carries it. */
  lemma {:induction false} SelectedToolsMembership(ts: seq<PentestTool>, x: string)
    ensures x in SelectedTools(ts) <==> exists i :: 0 <= i < |ts| && ts[i].enabled && ts[i].id == x
  {
    if ts != [] {
      SelectedToolsMembership(ts[1..], x);
      if x in SelectedTools(ts[1..]) {
        var i :| 0 <= i < |ts[1..]| && ts[1..][i].enabled && ts[1..][i].id == x;
        assert ts[i + 1] == ts[1..][i];
      }
      if exists i :: 0 <= i < |ts| && ts[i].enabled && ts[i].id == x {
        var i :| 0 <= i < |ts| && ts[i].enabled && ts[i].id == x;
        if i > 0 {
          assert ts[1..][i - 1] == ts[i];
        }
      }
    }
  }

  /** The selection of a concatenation is the concatenation of the selections: catalogue order is kept. */
  lemma {:induction false} SelectedToolsConcat(a: seq<PentestTool>, b: seq<PentestTool>)
    ensures SelectedTools(a + b) == SelectedTools(a) + SelectedTools(b)
  {
    if a == [] {
      assert a + b == b;
    } else {
      var h := if a[0].enabled then [a[0].id] else [];
      assert (a + b)[0] == a[0] && (a + b)[1..] == a[1..] + b;
      SelectedToolsConcat(a[1..], b);
      assert SelectedTools(a + b) == h + (SelectedTools(a[1..]) + SelectedTools(b));
      assert h + (SelectedTools(a[1..]) + SelectedTools(b)) == (h + SelectedTools(a[1..])) + SelectedTools(b);
    }
  }

  /** `toggleTool`: flips `enabled` on every tool with this id. */
  function ToggleTool(ts: seq<PentestTool>, id: string): (r: seq<PentestTool>)
    ensures |r| == |ts|
    ensures forall i :: 0 <= i < |ts| ==>
      r[i] == if ts[i].id == id then ts[i].(enabled := !ts[i].enabled) else ts[i]
  {
    Seqs.Map(ts, (t: PentestTool) => if t.id == id then t.(enabled := !t.enabled) else t)
  }

  /** Toggling twice restores the catalogue. */
  lemma ToggleToolTwice(ts: seq<PentestTool>, id: string)
    ensures ToggleTool(ToggleTool(ts, id), id) == ts
  {
    var r := ToggleTool(ToggleTool(ts, id), id);
    assert forall i :: 0 <= i < |ts| ==> r[i] == ts[i];
  }

  /** Toggling an id no tool carries changes nothing. */
  lemma ToggleUnknownTool(ts: seq<PentestTool>, id: string)
    requires forall i :: 0 <= i < |ts| ==> ts[i].id != id
    ensures ToggleTool(ts, id) == ts
  {
    var r := ToggleTool(ts, id);
    assert forall i :: 0 <= i < |ts| ==> r[i] == ts[i];
  }

  /**
   * Toggling a tool whose id is unique moves exactly that id in or out of the
   * selection; every other id keeps its selection status.
   */
  lemma ToggleToolSelection(ts: seq<PentestTool>, k: nat, x: string)
    requires k < |ts|
    requires forall i :: 0 <= i < |ts| && i != k ==> ts[i].id != ts[k].id
    ensures x in SelectedTools(ToggleTool(ts, ts[k].id)) <==>
      if x == ts[k].id then !ts[k].enabled else x in SelectedTools(ts)
  {
    var r := ToggleTool(ts, ts[k].id);
    SelectedToolsMembership(ts, x);
    SelectedToolsMembership(r, x);
    if x == ts[k].id {
      if !ts[k].enabled {
        assert r[k].enabled && r[k].id == x;
      }
    } else {
      if x in SelectedTools(ts) {
        var i :| 0 <= i < |ts| && ts[i].enabled && ts[i].id == x;
        assert r[i] == ts[i];
      }
      if x in SelectedTools(r) {
        var i :| 0 <= i < |r| && r[i].enabled && r[i].id == x;
        assert r[i] == ts[i];
      }
    }
  }

  /** `{ ...param, value }` on the parameters named `paramName`. */
  function SetParameter(ps: seq<ToolParameter>, paramName: string, v: ParamValue): (r: seq<ToolParameter>)
    ensures |r| == |ps|
    ensures forall j :: 0 <= j < |ps| ==>
      r[j] == if ps[j].name == paramName then ps[j].(value := v) else ps[j]
  {
    Seqs.Map(ps, (p: ToolParameter) => if p.name == paramName then p.(value := v) else p)
  }

  /** `updateToolParameter`: sets `value` on the parameters named `paramName` of the tools with id `toolId`. */
  function UpdateToolParameter(ts: seq<PentestTool>, toolId: string, paramName: string, v: ParamValue): (r: seq<PentestTool>)
    ensures |r| == |ts|
    ensures forall i :: 0 <= i < |ts| ==>
      r[i] == if ts[i].id == toolId then ts[i].(parameters := SetParameter(ts[i].parameters, paramName, v)) else ts[i]
  {
    Seqs.Map(ts, (t: PentestTool) => if t.id == toolId then t.(parameters := SetParameter(t.parameters, paramName, v)) else t)
  }

  /**
   * A parameter update touches only values: every tool keeps its id, enabled
   * flag and category, every parameter keeps its name, type and default, and
   * the targeted parameters then hold `v`.
   */
  lemma UpdateToolParameterFrame(ts: seq<PentestTool>, toolId: string, paramName: string, v: ParamValue)
    ensures var r := UpdateToolParameter(ts, toolId, paramName, v);
      forall i :: 0 <= i < |ts| ==>
        r[i].(parameters := ts[i].parameters) == ts[i]
        && |r[i].parameters| == |ts[i].parameters|
        && forall j :: 0 <= j < |ts[i].parameters| ==>
          var (p, p') := (ts[i].parameters[j], r[i].parameters[j]);
          p'.(value := p.value) == p
          && p'.value == (if ts[i].id == toolId && p.name == paramName then v else p.value)
    ensures SelectedTools(UpdateToolParameter(ts, toolId, paramName, v)) == SelectedTools(ts)
  {
    var r := UpdateToolParameter(ts, toolId, paramName, v);
    SameEnabledSameSelection(ts, r);
  }

  /** The selection depends only on ids and enabled flags. */
  lemma {:induction false} SameEnabledSameSelection(ts: seq<PentestTool>, us: seq<PentestTool>)
    requires |ts| == |us|
    requires forall i :: 0 <= i < |ts| ==> ts[i].id == us[i].id && ts[i].enabled == us[i].enabled
    ensures SelectedTools(ts) == SelectedTools(us)
  {
    if ts != [] {
      SameEnabledSameSelection(ts[1..], us[1..]);
    }
  }

  function InCategory(category: string): PentestTool -> bool
  {
    (t: PentestTool) => CategoryName(t.category) == category
  }

  /** `getToolsByCategory`: the tools whose category is `category`, in catalogue order. */
  function GetToolsByCategory(ts: seq<PentestTool>, category: string): (r: seq<PentestTool>)
    ensures forall i :: 0 <= i < |r| ==> r[i] in ts && CategoryName(r[i].category) == category
    ensures forall i :: 0 <= i < |ts| && CategoryName(ts[i].category) == category ==> ts[i] in r
  {
    Seqs.Filter(ts, InCategory(category))
  }

  /** Category filtering distributes over concatenation, so it keeps catalogue order. */
  lemma GetToolsByCategoryConcat(a: seq<PentestTool>, b: seq<PentestTool>, category: string)
    ensures GetToolsByCategory(a + b, category) == GetToolsByCategory(a, category) + GetToolsByCategory(b, category)
  {
    Seqs.FilterConcat(a, b, InCategory(category));
  }

  /** The provider component's state. */
  class ToolsStore {
    var tools: seq<PentestTool>
    var headlessMode: bool

    /** The initial state: the default catalogue, headless mode off. */
    constructor ()
      ensures tools == DefaultTools && !headlessMode
    {
      tools := DefaultTools;
      headlessMode := false;
    }

    /** The derived `selectedTools` value. */
    function Selected(): seq<string>
      reads this
    {
      SelectedTools(tools)
    }

    method ToggleHeadlessMode()
      modifies this
      ensures headlessMode == !old(headlessMode) && tools == old(tools)
    {
      headlessMode := !headlessMode;
    }

    method Toggle(id: string)
      modifies this
      ensures tools == ToggleTool(old(tools), id) && headlessMode == old(headlessMode)
    {
      tools := ToggleTool(tools, id);
    }

    method UpdateParameter(toolId: string, paramName: string, v: ParamValue)
      modifies this
      ensures tools == UpdateToolParameter(old(tools), toolId, paramName, v)
      ensures headlessMode == old(headlessMode)
    {
      tools := UpdateToolParameter(tools, toolId, paramName, v);
    }

    method ToolsByCategory(category: string) returns (r: seq<PentestTool>)
      ensures r == GetToolsByCategory(tools, category)
    {
      r := GetToolsByCategory(tools, category);
    }

    method ResetTools()
      modifies this
      ensures tools == DefaultTools && !headlessMode
    {
      tools := DefaultTools;
      headlessMode := false;
    }
  }
}
