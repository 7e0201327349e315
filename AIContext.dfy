/**
 * The AI settings store (contexts/ai-context.tsx): provider settings plus an
 * ordered registry of prompt templates, some of them built in ("default")
 * and protected from deletion, and a pointer to the active template.
 *
 * Every operation of the store replaces the whole configuration with a new
 * value computed from the previous one; those computations are the pure
 * functions below, and the class `AIStore` at the end holds the mutable
 * `config` and is specified by them.
 */
module AIContext {
  import opened Wrappers
  import Seqs

  datatype Provider = OpenAI | DeepSeek | Flowise | Ollama

  datatype PromptTemplate = PromptTemplate(
    id: string,
    name: string,
    description: string,
    systemPrompt: string,
    variables: seq<string>,
    isDefault: bool)

  /** What a caller supplies for a new template: a template without `id` and `isDefault`. */
  datatype TemplateDraft = TemplateDraft(
    name: string,
    description: string,
    systemPrompt: string,
    variables: seq<string>)

  /** A partial template: the fields to overwrite (never `id` or `isDefault`). */
  datatype TemplateUpdate = TemplateUpdate(
    name: Option<string>,
    description: Option<string>,
    systemPrompt: Option<string>,
    variables: Option<seq<string>>)

  datatype AIConfig = AIConfig(
    provider: Provider,
    model: string,
    apiKey: string,
    temperature: real,
    maxTokens: int,
    activePromptTemplate: string,
    promptTemplates: seq<PromptTemplate>,
    rememberSettings: bool,
    flowiseEndpoint: string,
    flowiseChatflowId: string)

  /** A partial configuration: the fields an update (or a saved configuration) supplies. */
  datatype ConfigUpdate = ConfigUpdate(
    provider: Option<Provider>,
    model: Option<string>,
    apiKey: Option<string>,
    temperature: Option<real>,
    maxTokens: Option<int>,
    activePromptTemplate: Option<string>,
    promptTemplates: Option<seq<PromptTemplate>>,
    rememberSettings: Option<bool>,
    flowiseEndpoint: Option<string>,
    flowiseChatflowId: Option<string>)

  const NoUpdate := ConfigUpdate(None, None, None, None, None, None, None, None, None, None)

  /** The id the active pointer falls back to when its template is deleted. */
  const FallbackTemplateId := "default-pentest"

  const DefaultTemplates: seq<PromptTemplate> := [
    PromptTemplate(
      "default-pentest",
      "Standard Pentesting",
      "General-purpose pentesting prompt for most scenarios",
      "You are an AI security assistant helping with a penetration test on {{TARGET}}. \nYour goal is to identify security vulnerabilities and suggest appropriate tools and techniques.\n\nFollow these guidelines:\n1. Prioritize reconnaissance before suggesting invasive tests\n2. Recommend appropriate tools based on discovered information\n3. Explain your reasoning and findings clearly\n4. Request approval before suggesting potentially disruptive tests\n5. Focus on identifying real security issues, not theoretical ones\n6. Provide clear remediation advice for any vulnerabilities found\n\nAdditional context: {{ADDITIONAL_INFO}}",
      ["TARGET", "ADDITIONAL_INFO"],
      true),
    PromptTemplate(
      "web-app-pentest",
      "Web Application Testing",
      "Specialized for web application security testing",
      "You are an AI security assistant helping with a web application penetration test on {{TARGET}}.\nYour goal is to identify web security vulnerabilities like XSS, CSRF, SQLi, and other OWASP Top 10 issues.\n\nFollow these guidelines:\n1. Start with passive reconnaissance (directory structure, technologies used)\n2. Suggest appropriate web scanning tools (Nikto, OWASP ZAP, etc.)\n3. Focus on input validation, authentication, and session management issues\n4. Request approval before suggesting tests that might affect application functionality\n5. Provide clear remediation advice for any vulnerabilities found\n\nAdditional context: {{ADDITIONAL_INFO}}",
      ["TARGET", "ADDITIONAL_INFO"],
      true),
    PromptTemplate(
      "network-pentest",
      "Network Infrastructure",
      "Focused on network infrastructure security testing",
      "You are an AI security assistant helping with a network infrastructure penetration test on {{TARGET}}.\nYour goal is to identify network security vulnerabilities, misconfigurations, and potential entry points.\n\nFollow these guidelines:\n1. Start with network reconnaissance (port scanning, service enumeration)\n2. Identify network services and potential vulnerabilities\n3. Suggest appropriate network testing tools (nmap, Nessus, etc.)\n4. Request approval before suggesting tests that might disrupt network services\n5. Provide clear remediation advice for any vulnerabilities found\n\nAdditional context: {{ADDITIONAL_INFO}}",      ["TARGET", "ADDITIONAL_INFO"],
      true)
  ]

  const DefaultTemplateIds: seq<string> := ["default-pentest", "web-app-pentest", "network-pentest"]

  const DefaultConfig := AIConfig(
    OpenAI, "gpt-4o", "", 0.7, 4000, FallbackTemplateId, DefaultTemplates,
    false, "http://localhost:3000", "")

  predicate IsCustom(t: PromptTemplate)
  {
    !t.isDefault
  }

  function HasId(id: string): PromptTemplate -> bool
  {
    (t: PromptTemplate) => t.id == id
  }

  function LacksId(id: string): PromptTemplate -> bool
  {
    (t: PromptTemplate) => t.id != id
  }

  // ---------------------------------------------------------------------
  // Registry invariants
  // ---------------------------------------------------------------------

  /**
   * No custom template comes before a default template with the same id, so
   * looking an id up always finds the default one first.
   */
  predicate NoCustomShadowsDefault(ts: seq<PromptTemplate>)
  {
    forall i, j :: 0 <= i < j < |ts| && ts[j].isDefault && ts[i].id == ts[j].id ==> ts[i].isDefault
  }

  /** Every built-in template id is present, carried by a default template. */
  predicate HasDefaultIds(ts: seq<PromptTemplate>)
  {
    forall d :: d in DefaultTemplateIds ==> exists i :: 0 <= i < |ts| && ts[i].id == d && ts[i].isDefault
  }

  predicate ValidTemplates(ts: seq<PromptTemplate>)
  {
    NoCustomShadowsDefault(ts) && HasDefaultIds(ts)
  }

  // ---------------------------------------------------------------------
  // Operations on configuration values
  // ---------------------------------------------------------------------

  /** `{ ...c, ...u }`: every field `u` supplies is overwritten, every other one kept. */
  function ApplyUpdate(c: AIConfig, u: ConfigUpdate): (r: AIConfig)
    ensures u == NoUpdate ==> r == c
    ensures u.promptTemplates.None? ==> r.promptTemplates == c.promptTemplates
  {
    AIConfig(
      u.provider.GetOr(c.provider),
      u.model.GetOr(c.model),
      u.apiKey.GetOr(c.apiKey),
      u.temperature.GetOr(c.temperature),
      u.maxTokens.GetOr(c.maxTokens),
      u.activePromptTemplate.GetOr(c.activePromptTemplate),
      u.promptTemplates.GetOr(c.promptTemplates),
      u.rememberSettings.GetOr(c.rememberSettings),
      u.flowiseEndpoint.GetOr(c.flowiseEndpoint),
      u.flowiseChatflowId.GetOr(c.flowiseChatflowId))
  }

  /** `{ ...u1, ...u2 }` on partial configurations. */
  function ComposeUpdates(u1: ConfigUpdate, u2: ConfigUpdate): ConfigUpdate
  {
    ConfigUpdate(
      if u2.provider.Some? then u2.provider else u1.provider,
      if u2.model.Some? then u2.model else u1.model,
      if u2.apiKey.Some? then u2.apiKey else u1.apiKey,
      if u2.temperature.Some? then u2.temperature else u1.temperature,
      if u2.maxTokens.Some? then u2.maxTokens else u1.maxTokens,
      if u2.activePromptTemplate.Some? then u2.activePromptTemplate else u1.activePromptTemplate,
      if u2.promptTemplates.Some? then u2.promptTemplates else u1.promptTemplates,
      if u2.rememberSettings.Some? then u2.rememberSettings else u1.rememberSettings,
      if u2.flowiseEndpoint.Some? then u2.flowiseEndpoint else u1.flowiseEndpoint,
      if u2.flowiseChatflowId.Some? then u2.flowiseChatflowId else u1.flowiseChatflowId)
  }

  /** Two successive updates act as one update with the later fields winning; repeating an update changes nothing. */
  lemma ApplyUpdateCompose(c: AIConfig, u1: ConfigUpdate, u2: ConfigUpdate)
    ensures ApplyUpdate(ApplyUpdate(c, u1), u2) == ApplyUpdate(c, ComposeUpdates(u1, u2))
    ensures ApplyUpdate(ApplyUpdate(c, u1), u1) == ApplyUpdate(c, u1)
  {
  }

  /** The template list a saved configuration loads into: the defaults, then the saved custom templates. */
  function MergedTemplates(saved: Option<seq<PromptTemplate>>): seq<PromptTemplate>
  {
    DefaultTemplates + Seqs.Filter(saved.GetOr([]), IsCustom)
  }

  /**
   * The initial configuration: the defaults when nothing (or nothing
   * parsable) was saved, otherwise the defaults overwritten by the saved
   * fields, with the template list merged.
   */
  function LoadConfig(saved: Option<ConfigUpdate>): AIConfig
  {
    match saved
    case None => DefaultConfig
    case Some(u) => ApplyUpdate(DefaultConfig, u).(promptTemplates := MergedTemplates(u.promptTemplates))
  }

  function NewTemplate(draft: TemplateDraft, stamp: string): PromptTemplate
  {
    PromptTemplate("custom-" + stamp, draft.name, draft.description, draft.systemPrompt, draft.variables, false)
  }

  /** `addPromptTemplate`: appends one custom template with id `custom-<stamp>`. */
  function AddTemplate(c: AIConfig, draft: TemplateDraft, stamp: string): (r: AIConfig)
    ensures |r.promptTemplates| == |c.promptTemplates| + 1
    ensures r.promptTemplates[..|c.promptTemplates|] == c.promptTemplates
    ensures var t := r.promptTemplates[|c.promptTemplates|];
      t.id == "custom-" + stamp && !t.isDefault && t.name == draft.name
      && t.description == draft.description && t.systemPrompt == draft.systemPrompt
      && t.variables == draft.variables
    ensures r.(promptTemplates := c.promptTemplates) == c
  {
    c.(promptTemplates := c.promptTemplates + [NewTemplate(draft, stamp)])
  }

  /** `{ ...template, ...updates }` for one template. */
  function ApplyTemplateUpdate(t: PromptTemplate, u: TemplateUpdate): PromptTemplate
  {
    t.(name := u.name.GetOr(t.name),
       description := u.description.GetOr(t.description),
       systemPrompt := u.systemPrompt.GetOr(t.systemPrompt),
       variables := u.variables.GetOr(t.variables))
  }

  /** `updatePromptTemplate`: rewrites the templates carrying `id`, in place. */
  function UpdateTemplate(c: AIConfig, id: string, u: TemplateUpdate): (r: AIConfig)
    ensures |r.promptTemplates| == |c.promptTemplates|
    ensures forall i :: 0 <= i < |c.promptTemplates| ==>
      var (old_, new_) := (c.promptTemplates[i], r.promptTemplates[i]);
      new_.id == old_.id && new_.isDefault == old_.isDefault
      && new_ == (if old_.id == id then ApplyTemplateUpdate(old_, u) else old_)
    ensures r.(promptTemplates := c.promptTemplates) == c
  {
    c.(promptTemplates := Seqs.Map(c.promptTemplates, (t: PromptTemplate) => if t.id == id then ApplyTemplateUpdate(t, u) else t))
  }

  /** `promptTemplates.find(t => t.id === id)`. */
  function FindTemplate(ts: seq<PromptTemplate>, id: string): (r: Option<PromptTemplate>)
    ensures r.Some? ==> r.value in ts && r.value.id == id
    ensures r.None? <==> forall i :: 0 <= i < |ts| ==> ts[i].id != id
  {
    var k := Seqs.FirstIndex(ts, HasId(id));
    if k < |ts| then Some(ts[k]) else None
  }

  /**
   * `deletePromptTemplate`: refused (no change) when the first template with
   * this id is a default one; otherwise every template with this id goes, and
   * the active pointer falls back to "default-pentest" if it pointed at `id`.
   */
  function DeleteTemplate(c: AIConfig, id: string): (r: AIConfig)
    ensures var f := FindTemplate(c.promptTemplates, id); f.Some? && f.value.isDefault ==> r == c
    ensures var f := FindTemplate(c.promptTemplates, id); !(f.Some? && f.value.isDefault) ==>
      r.promptTemplates == Seqs.Filter(c.promptTemplates, LacksId(id))
      && (forall i :: 0 <= i < |r.promptTemplates| ==> r.promptTemplates[i].id != id)
      && r.activePromptTemplate == (if c.activePromptTemplate == id then FallbackTemplateId else c.activePromptTemplate)
      && r.(promptTemplates := c.promptTemplates, activePromptTemplate := c.activePromptTemplate) == c
  {
    var f := FindTemplate(c.promptTemplates, id);
    if f.Some? && f.value.isDefault then c
    else
      c.(promptTemplates := Seqs.Filter(c.promptTemplates, LacksId(id)),
         activePromptTemplate := if c.activePromptTemplate == id then FallbackTemplateId else c.activePromptTemplate)
  }

  /** `setActivePromptTemplate`: moves the pointer only onto an id some template carries. */
  function SetActive(c: AIConfig, id: string): (r: AIConfig)
    ensures (exists i :: 0 <= i < |c.promptTemplates| && c.promptTemplates[i].id == id) ==> r == c.(activePromptTemplate := id)
    ensures (forall i :: 0 <= i < |c.promptTemplates| ==> c.promptTemplates[i].id != id) ==> r == c
  {
    if FindTemplate(c.promptTemplates, id).Some? then c.(activePromptTemplate := id) else c
  }

  /** `getActivePromptTemplate`: the first template carrying the active id, if any. */
  function GetActive(c: AIConfig): (r: Option<PromptTemplate>)
    ensures r.Some? ==> r.value.id == c.activePromptTemplate
    ensures r.Some? ==> exists k :: (0 <= k < |c.promptTemplates| && c.promptTemplates[k] == r.value
      && forall j :: 0 <= j < k ==> c.promptTemplates[j].id != c.activePromptTemplate)
    ensures r.None? <==> forall i :: 0 <= i < |c.promptTemplates| ==> c.promptTemplates[i].id != c.activePromptTemplate
  {
    var k := Seqs.FirstIndex(c.promptTemplates, HasId(c.activePromptTemplate));
    if k < |c.promptTemplates| then Some(c.promptTemplates[k]) else None
  }

  /** `resetConfig`: every setting back to its default; the defaults followed by the previous custom templates. */
  function Reset(c: AIConfig): (r: AIConfig)
    ensures r.(promptTemplates := DefaultTemplates) == DefaultConfig
  {
    DefaultConfig.(promptTemplates := DefaultTemplates + Seqs.Filter(c.promptTemplates, IsCustom))
  }

  // ---------------------------------------------------------------------
  // Properties
  // ---------------------------------------------------------------------

  lemma DefaultTemplatesValid()
    ensures forall i :: 0 <= i < |DefaultTemplates| ==> DefaultTemplates[i].isDefault
    ensures forall i :: 0 <= i < |DefaultTemplates| ==> DefaultTemplates[i].id == DefaultTemplateIds[i]
  {
  }

  /** The defaults followed by any list of custom templates form a valid registry. */
  lemma DefaultsThenCustomValid(cs: seq<PromptTemplate>)
    requires forall i :: 0 <= i < |cs| ==> !cs[i].isDefault
    ensures ValidTemplates(DefaultTemplates + cs)
  {
    DefaultTemplatesValid();
    var ts := DefaultTemplates + cs;
    forall d | d in DefaultTemplateIds
      ensures exists i :: 0 <= i < |ts| && ts[i].id == d && ts[i].isDefault
    {
      var i :| 0 <= i < 3 && DefaultTemplateIds[i] == d;
      assert ts[i] == DefaultTemplates[i];
    }
  }

  lemma {:induction false} FilterCustomIsCustom(ts: seq<PromptTemplate>)
    ensures forall i :: 0 <= i < |Seqs.Filter(ts, IsCustom)| ==> !Seqs.Filter(ts, IsCustom)[i].isDefault
  {
  }

  /** A loaded configuration holds the defaults first and then exactly the saved custom templates, so it is valid. */
  lemma LoadConfigValid(saved: Option<ConfigUpdate>)
    ensures LoadConfig(saved).promptTemplates[..|DefaultTemplates|] == DefaultTemplates
    ensures LoadConfig(saved).promptTemplates[|DefaultTemplates|..] == Seqs.Filter(
      if saved.Some? then saved.value.promptTemplates.GetOr([]) else [], IsCustom)
    ensures ValidTemplates(LoadConfig(saved).promptTemplates)
  {
    FilterCustomIsCustom(if saved.Some? then saved.value.promptTemplates.GetOr([]) else []);
    DefaultsThenCustomValid(Seqs.Filter(if saved.Some? then saved.value.promptTemplates.GetOr([]) else [], IsCustom));
    if saved.None? {
      assert Seqs.Filter([], IsCustom) == [];
      assert DefaultTemplates + [] == DefaultTemplates;
    }
  }

  /**
   * Saving and loading round-trips: a configuration whose list is the
   * defaults followed by custom templates is restored field for field.
   */
  lemma LoadSavedRoundTrip(c: AIConfig, cs: seq<PromptTemplate>)
    requires c.promptTemplates == DefaultTemplates + cs
    requires forall i :: 0 <= i < |cs| ==> !cs[i].isDefault
    ensures LoadConfig(Some(Saved(c))) == c
  {
    assert ApplyUpdate(DefaultConfig, Saved(c)) == c;
    calc {
      MergedTemplates(Some(c.promptTemplates));
      DefaultTemplates + Seqs.Filter(DefaultTemplates + cs, IsCustom);
      { Seqs.FilterConcat(DefaultTemplates, cs, IsCustom); }
      DefaultTemplates + (Seqs.Filter(DefaultTemplates, IsCustom) + Seqs.Filter(cs, IsCustom));
      { DefaultsFilterEmpty(); Seqs.FilterAll(cs, IsCustom); }
      DefaultTemplates + ([] + cs);
      c.promptTemplates;
    }
  }

  lemma DefaultsFilterEmpty()
    ensures Seqs.Filter(DefaultTemplates, IsCustom) == []
  {
    DefaultTemplatesValid();
    NoCustomFiltersEmpty(DefaultTemplates);
  }

  /** The partial configuration that carries every field of `c` (what gets written to storage). */
  function Saved(c: AIConfig): ConfigUpdate
  {
    ConfigUpdate(Some(c.provider), Some(c.model), Some(c.apiKey), Some(c.temperature),
      Some(c.maxTokens), Some(c.activePromptTemplate), Some(c.promptTemplates),
      Some(c.rememberSettings), Some(c.flowiseEndpoint), Some(c.flowiseChatflowId))
  }

  lemma {:induction false} NoCustomFiltersEmpty(ts: seq<PromptTemplate>)
    requires forall i :: 0 <= i < |ts| ==> ts[i].isDefault
    ensures Seqs.Filter(ts, IsCustom) == []
  {
    if ts != [] {
      NoCustomFiltersEmpty(ts[1..]);
    }
  }

  /** Adding a template keeps the registry valid. */
  lemma AddTemplateValid(c: AIConfig, draft: TemplateDraft, stamp: string)
    requires ValidTemplates(c.promptTemplates)
    ensures ValidTemplates(AddTemplate(c, draft, stamp).promptTemplates)
  {
    var ts := c.promptTemplates;
    var ts' := AddTemplate(c, draft, stamp).promptTemplates;
    forall d | d in DefaultTemplateIds
      ensures exists i :: 0 <= i < |ts'| && ts'[i].id == d && ts'[i].isDefault
    {
      var i :| 0 <= i < |ts| && ts[i].id == d && ts[i].isDefault;
      assert ts'[i] == ts[i];
    }
  }

  /** Updating templates never touches ids or the default flag, so the registry stays valid. */
  lemma UpdateTemplateValid(c: AIConfig, id: string, u: TemplateUpdate)
    requires ValidTemplates(c.promptTemplates)
    ensures ValidTemplates(UpdateTemplate(c, id, u).promptTemplates)
  {
    var ts := c.promptTemplates;
    var ts' := UpdateTemplate(c, id, u).promptTemplates;
    forall d | d in DefaultTemplateIds
      ensures exists i :: 0 <= i < |ts'| && ts'[i].id == d && ts'[i].isDefault
    {
      var i :| 0 <= i < |ts| && ts[i].id == d && ts[i].isDefault;
      assert ts'[i].id == d && ts'[i].isDefault;
    }
  }

  /**
   * Default templates can never be removed: in a valid registry, deleting any
   * id keeps every default template, and the registry stays valid.
   */
  lemma DeleteKeepsDefaults(c: AIConfig, id: string)
    requires ValidTemplates(c.promptTemplates)
    ensures forall t :: t in c.promptTemplates && t.isDefault ==> t in DeleteTemplate(c, id).promptTemplates
    ensures ValidTemplates(DeleteTemplate(c, id).promptTemplates)
  {
    var ts := c.promptTemplates;
    var f := FindTemplate(ts, id);
    if !(f.Some? && f.value.isDefault) {
      var ts' := Seqs.Filter(ts, LacksId(id));
      // No default template carries `id`: the first one that does is custom,
      // and no custom template precedes a default one with the same id.
      forall j | 0 <= j < |ts| && ts[j].isDefault ensures ts[j].id != id {
      }
      forall t | t in ts && t.isDefault ensures t in ts' {
        var j :| 0 <= j < |ts| && ts[j] == t;
        assert LacksId(id)(ts[j]);
      }
      FilterKeepsNoShadow(ts, LacksId(id));
      forall d | d in DefaultTemplateIds
        ensures exists i :: 0 <= i < |ts'| && ts'[i].id == d && ts'[i].isDefault
      {
        var i :| 0 <= i < |ts| && ts[i].id == d && ts[i].isDefault;
        assert ts[i] in ts';
      }
    }
  }

  /** Filtering keeps the relative order, hence cannot put a custom template before a default one of the same id. */
  lemma {:induction false} FilterKeepsNoShadow(ts: seq<PromptTemplate>, p: PromptTemplate -> bool)
    requires NoCustomShadowsDefault(ts)
    ensures NoCustomShadowsDefault(Seqs.Filter(ts, p))
  {
    if ts != [] {
      FilterKeepsNoShadow(ts[1..], p);
      var rest := Seqs.Filter(ts[1..], p);
      if p(ts[0]) && !ts[0].isDefault {
        forall j | 0 <= j < |rest| && rest[j].isDefault ensures rest[j].id != ts[0].id {
          var k :| 0 <= k < |ts[1..]| && ts[1..][k] == rest[j];
          assert ts[k + 1] == rest[j];
        }
      }
    }
  }

  /** Changing the active pointer or resetting keeps the registry valid. */
  lemma SetActiveAndResetValid(c: AIConfig, id: string)
    ensures SetActive(c, id).promptTemplates == c.promptTemplates
    ensures ValidTemplates(Reset(c).promptTemplates)
  {
    FilterCustomIsCustom(c.promptTemplates);
    DefaultsThenCustomValid(Seqs.Filter(c.promptTemplates, IsCustom));
  }

  /**
   * A reset keeps the custom templates: the list becomes the built-in
   * templates followed by exactly the previous custom ones, in their order.
   */
  lemma ResetKeepsCustom(c: AIConfig)
    ensures Reset(c).promptTemplates[..|DefaultTemplates|] == DefaultTemplates
    ensures Reset(c).promptTemplates[|DefaultTemplates|..] == Seqs.Filter(c.promptTemplates, IsCustom)
    ensures Seqs.Filter(Reset(c).promptTemplates, IsCustom) == Seqs.Filter(c.promptTemplates, IsCustom)
  {
    var cs := Seqs.Filter(c.promptTemplates, IsCustom);
    var ts := DefaultTemplates + cs;
    assert ts[..|DefaultTemplates|] == DefaultTemplates;
    assert ts[|DefaultTemplates|..] == cs;
    FilterCustomIsCustom(c.promptTemplates);
    Seqs.FilterConcat(DefaultTemplates, cs, IsCustom);
    DefaultsFilterEmpty();
    Seqs.FilterAll(cs, IsCustom);
    assert [] + cs == cs;
  }

  /** Resetting twice is resetting once. */
  lemma ResetIdempotent(c: AIConfig)
    ensures Reset(Reset(c)) == Reset(c)
  {
    ResetKeepsCustom(c);
  }

  /** After pointing at an existing id, the active template is the first template with that id. */
  lemma SetActiveThenGet(c: AIConfig, id: string, k: nat)
    requires k < |c.promptTemplates| && c.promptTemplates[k].id == id
    requires forall j :: 0 <= j < k ==> c.promptTemplates[j].id != id
    ensures GetActive(SetActive(c, id)) == Some(c.promptTemplates[k])
  {
    var k' := Seqs.FirstIndex(c.promptTemplates, HasId(id));
    assert HasId(id)(c.promptTemplates[k]);
  }

  /** Deleting the active custom template leaves the pointer on the fallback default, which a valid registry still holds. */
  lemma DeleteActiveFallsBack(c: AIConfig)
    requires ValidTemplates(c.promptTemplates)
    requires GetActive(c).Some? && !GetActive(c).value.isDefault
    ensures var r := DeleteTemplate(c, c.activePromptTemplate);
      r.activePromptTemplate == FallbackTemplateId && GetActive(r).Some? && GetActive(r).value.isDefault
  {
    var id := c.activePromptTemplate;
    DeleteKeepsDefaults(c, id);
    var r := DeleteTemplate(c, id);
    assert FindTemplate(c.promptTemplates, id) == GetActive(c);
    FallbackActiveIsDefault(r);
  }

  /** In a valid registry, pointing at the fallback id finds a default template. */
  lemma FallbackActiveIsDefault(c: AIConfig)
    requires ValidTemplates(c.promptTemplates)
    requires c.activePromptTemplate == FallbackTemplateId
    ensures GetActive(c).Some? && GetActive(c).value.isDefault
  {
    var ts := c.promptTemplates;
    assert FallbackTemplateId in DefaultTemplateIds;
    var i :| 0 <= i < |ts| && ts[i].id == FallbackTemplateId && ts[i].isDefault;
    var k := Seqs.FirstIndex(ts, HasId(FallbackTemplateId));
    assert HasId(FallbackTemplateId)(ts[i]);
    assert ts[k].isDefault;
  }

  // ---------------------------------------------------------------------
  // The store
  // ---------------------------------------------------------------------

  /** The provider component's state: the current configuration. */
  class AIStore {
    var config: AIConfig

    ghost predicate Valid()
      reads this
    {
      ValidTemplates(config.promptTemplates)
    }

    /** The initial state, from what storage held (`None` when nothing parsable was saved). */
    constructor Load(saved: Option<ConfigUpdate>)
      ensures config == LoadConfig(saved)
      ensures Valid()
    {
      match saved {
        case None =>
          config := DefaultConfig;
        case Some(u) =>
          var merged := MergeSavedTemplates(u.promptTemplates.GetOr([]));
          config := ApplyUpdate(DefaultConfig, u).(promptTemplates := merged);
      }
      LoadConfigValid(saved);
    }

    method UpdateConfig(u: ConfigUpdate)
      modifies this
      ensures config == ApplyUpdate(old(config), u)
      ensures old(Valid()) && u.promptTemplates.None? ==> Valid()
    {
      config := ApplyUpdate(config, u);
    }

    method AddPromptTemplate(draft: TemplateDraft, stamp: string)
      modifies this
      ensures config == AddTemplate(old(config), draft, stamp)
      ensures old(Valid()) ==> Valid()
    {
      if Valid() {
        AddTemplateValid(config, draft, stamp);
      }
      config := AddTemplate(config, draft, stamp);
    }

    method UpdatePromptTemplate(id: string, u: TemplateUpdate)
      modifies this
      ensures config == UpdateTemplate(old(config), id, u)
      ensures old(Valid()) ==> Valid()
    {
      if Valid() {
        UpdateTemplateValid(config, id, u);
      }
      config := UpdateTemplate(config, id, u);
    }

    method DeletePromptTemplate(id: string)
      modifies this
      ensures config == DeleteTemplate(old(config), id)
      ensures old(Valid()) ==> Valid()
    {
      if Valid() {
        DeleteKeepsDefaults(config, id);
      }
      config := DeleteTemplate(config, id);
    }

    method SetActivePromptTemplate(id: string)
      modifies this
      ensures config == SetActive(old(config), id)
      ensures old(Valid()) ==> Valid()
    {
      config := SetActive(config, id);
    }

    method GetActivePromptTemplate() returns (t: Option<PromptTemplate>)
      ensures t == GetActive(config)
    {
      t := GetActive(config);
    }

    method ResetConfig()
      modifies this
      ensures config == Reset(old(config))
      ensures Seqs.Filter(config.promptTemplates, IsCustom) == Seqs.Filter(old(config).promptTemplates, IsCustom)
      ensures Valid()
    {
      SetActiveAndResetValid(config, "");
      ResetKeepsCustom(config);
      config := Reset(config);
    }
  }

  /**
   * The saved-configuration merge loop: start from the defaults and push each
   * saved template that is not a default one, in saved order.
   */
  method MergeSavedTemplates(saved: seq<PromptTemplate>) returns (merged: seq<PromptTemplate>)
    ensures merged == MergedTemplates(Some(saved))
  {
    merged := DefaultTemplates;
    var i := 0;
    while i < |saved|
      invariant 0 <= i <= |saved|
      invariant merged == DefaultTemplates + Seqs.Filter(saved[..i], IsCustom)
    {
      assert saved[..i + 1] == saved[..i] + [saved[i]];
      Seqs.FilterConcat(saved[..i], [saved[i]], IsCustom);
      Seqs.FilterSingleton(saved[i], IsCustom);
      if !saved[i].isDefault {
        merged := merged + [saved[i]];
      }
      i := i + 1;
    }
    assert saved[..i] == saved;
  }
}
