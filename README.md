# Penetration-testing dashboard: client-side state, modelled in Dafny

The dashboard is a browser application. It drives an automated penetration
test, collects its findings and turns them into reports. Its behaviour lives
in a handful of React state containers and the components beside them. This
project models that client-side core:

- **Prompt-template registry** (`AIContext`). The AI settings hold an ordered
  list of prompt templates and a pointer to the active one. Some of the
  templates are protected defaults. The model covers add, update, delete,
  set-active, get-active, reset, and the merge of a saved configuration with
  the defaults on load.
- **Tool catalogue** (`ToolsContext`). A list of tools, each with an enabled
  flag and parameters, plus the autonomous ("headless") mode flag. The model
  covers toggling a tool, updating one parameter, the derived list of
  selected ids, filtering by category, and reset.
- **Connection settings** (`ConnectionContext`). The per-method validity rule
  for a connection configuration, and the connection status: disconnected,
  connecting or connected.
- **Reports** (`ReportContext`):
  - the guards on report generation;
  - appending, viewing and deleting reports;
  - the severity counts;
  - the severity sections, in a fixed order;
  - the keyword-matched remediation sections;
  - the scan duration and how it is formatted.
- **Dashboard metrics** (`Dashboard`):
  - the list of targets;
  - the filter by time range and target;
  - the finding counts;
  - the most vulnerable target and the most common vulnerability;
  - the security trend;
  - the top five vulnerabilities and the five most recent reports.
- **Template form** (`AIConfigView`). The `{{NAME}}` placeholder scanner and
  the create, save, cancel and prompt-change handlers of the AI settings
  dialog.
- **Tool dialog** (`ToolSelectionView`):
  - the two-step confirmation for autonomous mode;
  - the category labels and the partition of the catalogue into category tabs;
  - the parameter controls, with their slider bounds and the disabled rule.
- **WebSocket hook** (`WebSocketHook`). The connection status, the bounded
  reconnect policy with at most one pending timer, message delivery, and
  "send only when open". Sockets and timers are modelled as an event source.
  Every socket created keeps its own ready state, and its handlers stay
  attached after the hook has moved on to another socket.

## How the model is written

Each state container is a class. The class has the container's state
fields. Every operation that changes state is a method with a `modifies`
clause. The queries (`GetActivePromptTemplate`, `ToolsByCategory`,
`TestConnection`) are methods without one and change nothing. Each changing
method's `ensures` ties the new state to a pure function of the old state,
for example `config == DeleteTemplate(old(config), id)`. The properties the
application relies on are proved about those functions as lemmas:

- default templates survive every operation;
- toggling a tool twice is the identity;
- the severity counts add up to the number of findings.

The loops of the source are methods with `while` loops. Their invariants tie
them to fold-shaped specification functions. These loops are:

- the `forEach` grouping and counting loops;
- the two arg-max loops;
- the `Set.add` loops that build the targets, the tool set and the
  remediation categories.

JavaScript objects used as dictionaries are modelled as insertion-ordered
sequences of key/value pairs (`OrderedMap`), which is the order in which
`Object.entries` and `Set` iteration visit them. `Array.prototype.sort` is
modelled by a stable insertion sort, because the sort in the language
standard is stable. Timestamps are integers counting milliseconds. Ids built
from `Date.now()` take the clock reading as a `stamp` parameter.

Helper modules:

- `Wrappers`: `Option`.
- `Seqs`: `filter`, `map`, counting and `find` on sequences.
- `Text`: ASCII case mapping, substring search, the JavaScript `trim`,
  decimal rendering.
- `OrderedMap`: the insertion-ordered records.
- `Sorting`: the stable descending sort and `slice(0, n)`.

## Model

| member | source | states |
|---|---|---|
| AIContext.ApplyUpdate | contexts/ai-context.tsx:164-166 | An empty update leaves the configuration as it is; an update without templates keeps the template list |
| AIContext.ApplyUpdateCompose | contexts/ai-context.tsx:164-166 | Two successive partial updates equal one update with the later fields winning; applying the same update twice equals applying it once |
| AIContext.LoadConfigValid | contexts/ai-context.tsx:127-140 | A loaded configuration lists every default template first, then exactly the saved templates that are not defaults, in saved order; the result keeps every default and no custom template shadows a default id |
| AIContext.LoadSavedRoundTrip | contexts/ai-context.tsx:127-140 | Saving a configuration made of the defaults followed by custom templates, then loading it, gives back the same configuration |
| AIContext.MergeSavedTemplates | contexts/ai-context.tsx:127-134 | The merge loop (copy the defaults, push every saved template whose `isDefault` is false) yields the specified merged list |
| AIContext.DefaultTemplatesValid | contexts/ai-context.tsx:44-100 | Every built-in template is flagged default and carries its fixed id |
| AIContext.DefaultsThenCustomValid | contexts/ai-context.tsx:127-140 | Defaults followed by any list of non-default templates satisfy the registry invariant |
| AIContext.FilterCustomIsCustom | contexts/ai-context.tsx:130-134 | The templates kept by the `!isDefault` filter are all non-default |
| AIContext.DefaultsFilterEmpty | contexts/ai-context.tsx:322 | Filtering the built-in templates for custom ones leaves nothing |
| AIContext.NoCustomFiltersEmpty | contexts/ai-context.tsx:322 | A list made only of defaults has no custom templates |
| AIContext.AddTemplate | contexts/ai-context.tsx:250-260 | Exactly one template is appended at the end, non-default, with id `custom-` plus the clock reading and the draft's fields; earlier templates and every other setting are unchanged |
| AIContext.AddTemplateValid | contexts/ai-context.tsx:250-260 | Adding a template preserves the registry invariant (defaults present, no custom template with a default id) |
| AIContext.UpdateTemplate | contexts/ai-context.tsx:268-274 | Same length; each template with the id gets the supplied fields, every other template is unchanged; ids and default flags never change; other settings unchanged |
| AIContext.UpdateTemplateValid | contexts/ai-context.tsx:268-274 | An update preserves the registry invariant |
| AIContext.FindTemplate | contexts/ai-context.tsx:283 | A found template is in the list and has the id; nothing is found exactly when no template has the id |
| AIContext.DeleteTemplate | contexts/ai-context.tsx:282-299 | Deleting a default template changes nothing; otherwise every template with the id is removed, the active pointer falls back to "default-pentest" when it pointed at that id and is kept otherwise, and nothing else changes |
| AIContext.DeleteKeepsDefaults | contexts/ai-context.tsx:282-299 | No delete ever removes a default template, and the registry invariant is preserved |
| AIContext.FilterKeepsNoShadow | contexts/ai-context.tsx:296 | Removing templates cannot make a custom template shadow a default id |
| AIContext.DeleteActiveFallsBack | contexts/ai-context.tsx:294-299 | Deleting the active custom template points the configuration at "default-pentest", which then resolves to a default template |
| AIContext.SetActive | contexts/ai-context.tsx:307-314 | The pointer moves to the id exactly when some template has it; for an unknown id nothing changes |
| AIContext.GetActive | contexts/ai-context.tsx:316-318 | The result is the first template whose id is the active id, and there is none exactly when no template has that id |
| AIContext.SetActiveThenGet | contexts/ai-context.tsx:307-318 | After selecting a known id, the active template is the first template carrying it |
| AIContext.Reset | contexts/ai-context.tsx:320-327 | Every setting other than the template list returns to its default |
| AIContext.SetActiveAndResetValid | contexts/ai-context.tsx:307-327 | Selecting a template never touches the list; after a reset the registry invariant holds |
| AIContext.ResetKeepsCustom | contexts/ai-context.tsx:321-326 | After a reset the template list is the built-in templates followed by exactly the previous custom (non-default) templates, in their original order |
| AIContext.ResetIdempotent | contexts/ai-context.tsx:320-327 | Resetting twice equals resetting once |
| AIContext.AIStore.Load | contexts/ai-context.tsx:119-147 | The initial configuration is the loaded one and satisfies the registry invariant |
| AIContext.AIStore.UpdateConfig | contexts/ai-context.tsx:164-166 | The configuration becomes the partial update of the old one; the invariant is kept when the update carries no templates |
| AIContext.AIStore.AddPromptTemplate | contexts/ai-context.tsx:250-260 | The configuration becomes `AddTemplate` of the old one, and the invariant is kept |
| AIContext.AIStore.UpdatePromptTemplate | contexts/ai-context.tsx:268-274 | The configuration becomes `UpdateTemplate` of the old one, and the invariant is kept |
| AIContext.AIStore.DeletePromptTemplate | contexts/ai-context.tsx:282-299 | The configuration becomes `DeleteTemplate` of the old one, and the invariant is kept |
| AIContext.AIStore.SetActivePromptTemplate | contexts/ai-context.tsx:307-314 | The configuration becomes `SetActive` of the old one, and the invariant is kept |
| AIContext.AIStore.GetActivePromptTemplate | contexts/ai-context.tsx:316-318 | Returns `GetActive` of the configuration |
| AIContext.AIStore.ResetConfig | contexts/ai-context.tsx:320-327 | The configuration becomes `Reset` of the old one, keeps exactly the old custom templates in order, and satisfies the invariant |
| ToolsContext.SelectedTools | contexts/tools-context.tsx:285 | At most one id per tool |
| ToolsContext.SelectedToolsMembership | contexts/tools-context.tsx:285 | An id is selected exactly when some enabled tool has it |
| ToolsContext.SelectedToolsConcat | contexts/tools-context.tsx:285 | The selection of a concatenated catalogue is the concatenation of the selections, so catalogue order is kept |
| ToolsContext.ToggleTool | contexts/tools-context.tsx:291-293 | Same length; tools with the id have `enabled` flipped and nothing else changed; every other tool is unchanged |
| ToolsContext.ToggleToolTwice | contexts/tools-context.tsx:291-293 | Toggling the same id twice restores the catalogue |
| ToolsContext.ToggleUnknownTool | contexts/tools-context.tsx:292 | Toggling an id no tool has leaves the catalogue unchanged |
| ToolsContext.ToggleToolSelection | contexts/tools-context.tsx:285-293 | With unique ids, toggling a tool moves exactly that id into or out of the selection |
| ToolsContext.SetParameter | contexts/tools-context.tsx:301 | Same length; parameters with the name get the new value, every other parameter is unchanged |
| ToolsContext.UpdateToolParameter | contexts/tools-context.tsx:295-306 | Same length; only tools with the id have their parameters rewritten by `SetParameter`; every other tool is unchanged |
| ToolsContext.UpdateToolParameterFrame | contexts/tools-context.tsx:295-306 | A parameter update changes only values: tool ids, flags and categories, and parameter names, types and defaults stay; the targeted values become the new value; the selection is unchanged |
| ToolsContext.SameEnabledSameSelection | contexts/tools-context.tsx:285 | Catalogues that agree on ids and enabled flags have the same selection |
| ToolsContext.GetToolsByCategory | contexts/tools-context.tsx:308-310 | Every returned tool is from the catalogue with that category, and every catalogue tool of that category is returned |
| ToolsContext.GetToolsByCategoryConcat | contexts/tools-context.tsx:308-310 | Filtering distributes over concatenation, so catalogue order is preserved |
| ToolsContext.ToolsStore.constructor | contexts/tools-context.tsx:282-283 | Starts with the default catalogue and autonomous mode off |
| ToolsContext.ToolsStore.ToggleHeadlessMode | contexts/tools-context.tsx:287-289 | The flag is negated and the catalogue kept, so two toggles restore it |
| ToolsContext.ToolsStore.Toggle | contexts/tools-context.tsx:291-293 | The catalogue becomes `ToggleTool` of the old one; the mode is kept |
| ToolsContext.ToolsStore.UpdateParameter | contexts/tools-context.tsx:295-306 | The catalogue becomes `UpdateToolParameter` of the old one; the mode is kept |
| ToolsContext.ToolsStore.ToolsByCategory | contexts/tools-context.tsx:308-310 | Returns `GetToolsByCategory` of the catalogue |
| ToolsContext.ToolsStore.ResetTools | contexts/tools-context.tsx:312-315 | The default catalogue is restored and autonomous mode is off |
| ConnectionContext.IsConfigValid | contexts/connection-context.tsx:83-102 | SSH: valid iff host and username are set and the chosen credential (key when `useSshKey`, else password) is set; API: iff host and API key are set; Docker: iff the image is set; local: always |
| ConnectionContext.ValidityOnlyDependsOnMethodFields | contexts/connection-context.tsx:34-46 | Changing only the port, the timeout or the remember flag keeps validity; the default configuration (SSH without a password) is invalid, and supplying a password makes it valid |
| ConnectionContext.ConnectionStore.constructor | contexts/connection-context.tsx:66 | The status starts as disconnected |
| ConnectionContext.ConnectionStore.UpdateConfig | contexts/connection-context.tsx:79-81 | Only the supplied fields are overwritten; the status is unchanged |
| ConnectionContext.ConnectionStore.Connect | contexts/connection-context.tsx:104-137 | Returns true iff the configuration is valid; an invalid one leaves the status unchanged; a valid one passes through connecting to connected |
| ConnectionContext.ConnectionStore.Disconnect | contexts/connection-context.tsx:139-146 | The status becomes disconnected from any state; the configuration is kept |
| ConnectionContext.ConnectionStore.TestConnection | contexts/connection-context.tsx:148-182 | Returns whether the configuration is valid and changes nothing |
| ConnectionContext.ConnectionStore.ResetConfig | contexts/connection-context.tsx:184-189 | The default configuration is restored; the status is unchanged |
| ReportContext.Duration | contexts/report-context.tsx:82-85 | Zero without console entries; otherwise the whole seconds between the first and last entry, rounded down (also for a negative span) |
| ReportContext.CountBySeverity | contexts/report-context.tsx:153-156 | The counting loop yields, per severity in first-occurrence order, its number of findings; the counts add up to the number of findings |
| ReportContext.GroupFindings | contexts/report-context.tsx:216-223 | The grouping loop yields the severity groups |
| ReportContext.GroupBySeverityGet | contexts/report-context.tsx:216-223 | The group of a severity holds exactly that severity's findings in their original order, and is empty when the severity is absent |
| ReportContext.WithSeverityNonEmpty | contexts/report-context.tsx:232 | A severity's group is non-empty exactly when some finding has that severity |
| ReportContext.SectionsForSnoc | contexts/report-context.tsx:231-250 | Visiting one more severity appends that severity's section, if any |
| ReportContext.GenerateVulnerabilitySections | contexts/report-context.tsx:214-253 | The section loop yields the specified sections |
| ReportContext.SectionsForTitles | contexts/report-context.tsx:229-250 | The section titles are "<severity> Severity Findings" for the listed severities that occur, in the listed order |
| ReportContext.VulnerabilitySectionsSpec | contexts/report-context.tsx:214-253 | Sections appear only for Critical, High, Medium and Low that occur, in that order, so there are at most four |
| ReportContext.MentionStep | contexts/report-context.tsx:277-281 | Checking one more category against a title adds it to the category set when the title mentions it |
| ReportContext.AllMentionsSnoc | contexts/report-context.tsx:276-282 | Visiting one more finding adds the categories its title mentions, in table order |
| ReportContext.RemediationSections | contexts/report-context.tsx:287-292 | The loop yields one "<category> Remediation" section per collected category, in order |
| ReportContext.GenerateRecommendations | contexts/report-context.tsx:256-309 | The loops yield the specified recommendation sections |
| ReportContext.MatchCategories | contexts/report-context.tsx:274-282 | The outer loop leaves the set holding every mentioned category once, in order of first mention over the findings |
| ReportContext.AddMentions | contexts/report-context.tsx:277-281 | One finding's pass adds exactly the categories its title mentions (case-insensitively), in catalogue order, skipping those already present |
| ReportContext.MentionedBySnoc | contexts/report-context.tsx:276-282 | Some finding among the first i+1 mentions a category iff one among the first i does or finding i does |
| ReportContext.MentionedInFilter | contexts/report-context.tsx:277-279 | A category is matched against a title iff it is in the table and occurs in the title, ignoring case |
| ReportContext.AllMentionsSpec | contexts/report-context.tsx:274-282 | A category is collected iff it is in the table and some finding's title mentions it, ignoring case |
| ReportContext.SuffixInjective | contexts/report-context.tsx:289 | Different categories get different section titles |
| ReportContext.MatchedCategoriesSpec | contexts/report-context.tsx:274-282 | The set of categories holds each mentioned table category, and only those |
| ReportContext.RecommendationTitlesSpec | contexts/report-context.tsx:284-306 | One "<category> Remediation" section per matched category, with no two titles equal, plus one general section when there are findings |
| ReportContext.GeneralSectionLast | contexts/report-context.tsx:294-306 | The general section closes the list iff there are findings; without findings there are no sections at all |
| ReportContext.PartsValueConcat | contexts/report-context.tsx:484-488 | The seconds spelled by a list of parts add up across concatenation |
| ReportContext.DurationSplit | contexts/report-context.tsx:480-482 | For a non-negative number of seconds, hours, minutes and remaining seconds recombine to it, minutes and seconds below 60 |
| ReportContext.DurationPartsSpec | contexts/report-context.tsx:479-491 | For a non-negative duration the parts spell exactly 3600·h + 60·m + s with m and s below 60, in hour, minute, second order, omitting zero parts except a lone "0 seconds" |
| ReportContext.DurationPartsNegative | contexts/report-context.tsx:479-488 | A negative duration prints only its truncated remainder modulo 60, as seconds |
| ReportContext.FormatDurationSmall | contexts/report-context.tsx:485-490 | Zero prints as "0 seconds" and one second as "1 second", the unit singular exactly for 1 |
| ReportContext.FindReport | contexts/report-context.tsx:495 | A found report is in the list and has the id; none is found iff no report has it |
| ReportContext.DeleteUndoesAppend | contexts/report-context.tsx:508-512 | Deleting the report just appended under a fresh id restores the list |
| ReportContext.ReportStore.constructor | contexts/report-context.tsx:44-46 | No reports, no current report, not generating |
| ReportContext.ReportStore.GenerateReport | contexts/report-context.tsx:53-143 | Refused while a pentest runs, and refused when there are neither findings nor console entries, with nothing changed; otherwise exactly one report is appended at the end and becomes current |
| ReportContext.ReportStore.ViewReport | contexts/report-context.tsx:494-505 | A known id makes its first report current; an unknown id changes nothing; the list is never changed |
| ReportContext.ReportStore.DeleteReport | contexts/report-context.tsx:508-517 | Every report with the id is removed; the current report is cleared iff it had that id |
| Dashboard.Targets | components/dashboard.tsx:43-47 | Each report target exactly once, in order of first occurrence, and only report targets |
| Dashboard.FilteredReportsSpec | components/dashboard.tsx:50-57 | A report is kept iff its time is at or after the range start and the selected target is "all" or its own; with "all" and an early enough start nothing is dropped |
| Dashboard.VulnTypeSpec | components/dashboard.tsx:121 | The type holds no ':', has no surrounding whitespace, and is a slice of the title before the first ':' |
| Dashboard.CountSnoc | components/dashboard.tsx:108-115 | Counting one more finding adds one exactly when it matches |
| Dashboard.CountAllSeverities | components/dashboard.tsx:108-115 | The total is the number of findings, and each severity counter is the number of findings with exactly that severity |
| Dashboard.CountAllPartition | components/dashboard.tsx:108-115 | The four severity counters plus the findings of any other severity make up the total |
| Dashboard.MapSnoc | components/dashboard.tsx:106-108 | Tagging one more finding appends one tagged finding |
| Dashboard.CountAllTallies | components/dashboard.tsx:118-122 | The per-target and per-type records are the first-occurrence tallies of the findings' targets and types |
| Dashboard.FromReportSnoc | components/dashboard.tsx:106-108 | A tagged finding comes from the first n+1 reports iff it comes from the first n or from report n |
| Dashboard.TagMembership | components/dashboard.tsx:108 | A tagged finding is among one report's tagged findings iff it carries that report's target and one of its findings |
| Dashboard.TaggedFindingsSpec | components/dashboard.tsx:106-108 | The visited findings are exactly the findings of the filtered reports, each tagged with its report's target |
| Dashboard.ArgMaxSpec | components/dashboard.tsx:137-154 | The winner has the maximal count and is the earliest entry with it, because only a strictly greater count replaces; with no positive count the name is empty |
| Dashboard.MostFrequent | components/dashboard.tsx:137-144 | The arg-max loop yields `ArgMax` of the record |
| Dashboard.TrendComparesNewest | components/dashboard.tsx:162-178 | The trend compares two distinct reports of the list: the newest, and one at least as new as every other |
| Dashboard.TopVulnerabilitiesSpec | components/dashboard.tsx:188-191 | At most five entries, exactly five when there are five types, by non-increasing count, taken from the record, none below an entry left out |
| Dashboard.TopVulnerabilitiesStable | components/dashboard.tsx:188-189 | Types with equal counts keep their record order |
| Dashboard.RecentReportsSpec | components/dashboard.tsx:194-196 | At most five reports, newest first, taken from the list, none older than a report left out |
| Dashboard.CountAllSnoc | components/dashboard.tsx:108-126 | Counting one more finding is one counting step |
| Dashboard.VisitStep | components/dashboard.tsx:108-126 | The inner loop's step over a report's next finding is one counting step |
| Dashboard.ToolStep | components/dashboard.tsx:130 | Adding one more tool to the set adds it if it is new |
| Dashboard.CountSeverity | components/dashboard.tsx:109-115 | The if-chain counts the finding in the total and in at most one severity counter |
| Dashboard.CountOne | components/dashboard.tsx:108-126 | One pass of the inner loop body is one counting step |
| Dashboard.CountReportFindings | components/dashboard.tsx:108-127 | The inner loop over a report's findings continues the count over them |
| Dashboard.AddTools | components/dashboard.tsx:130 | The tool loop continues the set of tools used |
| Dashboard.ComputeMetrics | components/dashboard.tsx:60-216 | The metrics block yields the specified metrics |
| Dashboard.MetricsOfEmpty | components/dashboard.tsx:61-81 | With no reports every count is zero, both names are empty, the trend is neutral and both lists are empty |
| Dashboard.MetricsOfCounters | components/dashboard.tsx:198-210 | The metric fields are read off the counters and the two arg-maxes |
| Dashboard.SeverityCountsBound | components/dashboard.tsx:106-115 | critical + high + medium + low ≤ total findings, with equality exactly when every severity is one of the four |
| Dashboard.AllRatedIffNoOther | components/dashboard.tsx:112-115 | No finding has another severity iff every finding is rated Critical, High, Medium or Low |
| Dashboard.TargetMetricsSpec | components/dashboard.tsx:118-209 | `totalTargets` counts the targets that have at least one finding, each once |
| Dashboard.TargetHasFinding | components/dashboard.tsx:118 | A target appears among the findings iff one of its reports has a finding |
| AIConfigView.NameRun | components/ai-config.tsx:118 | The longest prefix made of `A-Z` and `_` |
| AIConfigView.PlaceholderAt | components/ai-config.tsx:118 | A match at the front is `{{`, a non-empty name and `}}` |
| AIConfigView.ExtractVariables | components/ai-config.tsx:117-121 | Every extracted variable is non-empty and made only of `A-Z` and `_` |
| AIConfigView.NoOpeningNoVariables | components/ai-config.tsx:119 | Text without `{{` yields no variables |
| AIConfigView.VariablesOccur | components/ai-config.tsx:117-121 | Every extracted name X occurs in the prompt as `{{X}}` |
| AIConfigView.PlainPrefix | components/ai-config.tsx:118-119 | Text without `{` in front of the rest contributes no variables |
| AIConfigView.PlaceholderFront | components/ai-config.tsx:118-120 | A placeholder at the front contributes its name, then the scan resumes after it |
| AIConfigView.NameRunOf | components/ai-config.tsx:118 | A name followed by a non-name character is matched whole |
| AIConfigView.ExtractTemplate | components/ai-config.tsx:117-121 | A prompt made of brace-free text pieces and placeholders yields exactly the placeholder names, in order of appearance, with duplicates kept (the all-prompts form is ScanFindsEveryPlaceholder) |
| AIConfigView.NoPlaceholderInside | components/ai-config.tsx:118 | No match of `\{\{([A-Z_]+)\}\}` starts strictly inside another match |
| AIConfigView.SkipUnmatched | components/ai-config.tsx:118-119 | Positions where no match starts contribute nothing to the matches |
| AIConfigView.ScanFindsEveryPlaceholder | components/ai-config.tsx:117-121 | For every prompt, the global scan (resuming after each match) returns exactly the names of the placeholders starting at each position, by increasing position, with duplicates |
| AIConfigView.PlaceholderAtFound | components/ai-config.tsx:118-119 | A placeholder starting at any position is among the names found at all positions |
| AIConfigView.PlaceholderAnywhere | components/ai-config.tsx:117-121 | For every prompt, whatever text surrounds it (stray braces included), a written `{{X}}` with X in `[A-Z_]+` is extracted |
| AIConfigView.EditedFields | components/ai-config.tsx:80-85 | The forwarded fields reproduce the edited template exactly |
| AIConfigView.TemplateForm.constructor | components/ai-config.tsx:63-70 | Nothing is being edited, the draft is the empty form with variables TARGET and ADDITIONAL_INFO, and creation mode is off |
| AIConfigView.TemplateForm.BeginEdit | components/ai-config.tsx:748 | The chosen template goes under edit |
| AIConfigView.TemplateForm.BeginCreate | components/ai-config.tsx:707 | Creation mode opens |
| AIConfigView.TemplateForm.SaveTemplate | components/ai-config.tsx:78-88 | Without a template under edit nothing happens; otherwise its name, description, prompt and variables overwrite the registry's template of that id and edit mode ends |
| AIConfigView.TemplateForm.CreateTemplate | components/ai-config.tsx:90-101 | Only with a name and a system prompt: the draft is added to the registry, the form is reset to the empty draft and creation mode closes; otherwise nothing changes |
| AIConfigView.TemplateForm.CancelEdit | components/ai-config.tsx:103-105 | Edit mode ends |
| AIConfigView.TemplateForm.CancelCreate | components/ai-config.tsx:107-115 | Creation mode closes and the empty form is restored |
| AIConfigView.TemplateForm.PromptChange | components/ai-config.tsx:123-135 | The prompt is stored, and its extracted variables set, on the draft when new, else on the template under edit; not new and nothing under edit: no effect |
| ToolSelectionView.UnknownCategoryLabel | components/tool-selection.tsx:91-92 | Any string that is not a category gets its first character upper-cased and the rest unchanged; the empty string stays empty |
| ToolSelectionView.CategoriesComplete | components/tool-selection.tsx:157-164 | Every category has a tab, and category names are unique |
| ToolSelectionView.LabelsDistinct | components/tool-selection.tsx:77-90 | The six categories get six different labels |
| ToolSelectionView.ToolsByCategory | components/tool-selection.tsx:157-164 | One bucket per category |
| ToolSelectionView.ToolsByCategoryPartition | components/tool-selection.tsx:157-164 | A catalogue tool is in a bucket iff the bucket is its category's, so each tool lands in exactly one |
| ToolSelectionView.BucketStep | components/tool-selection.tsx:158-163 | The first tool adds one to its own category's bucket and nothing to the others |
| ToolSelectionView.BucketTotalStep | components/tool-selection.tsx:157-164 | Over distinct categories, the first tool adds at most one to the bucket sizes |
| ToolSelectionView.BucketTotalEmpty | components/tool-selection.tsx:157-164 | An empty catalogue fills no bucket |
| ToolSelectionView.ToolsByCategoryTotal | components/tool-selection.tsx:157-164 | The bucket sizes add up to the catalogue size, so no tool is lost or counted twice |
| ToolSelectionView.RenderParameterInput | components/tool-selection.tsx:113-155 | Text field for string, slider for number, checkbox for boolean parameters; each control is disabled exactly in autonomous mode |
| ToolSelectionView.DefaultSlidersInRange | components/tool-selection.tsx:128-133 | Every number parameter of the default catalogue lies between its slider's minimum 1 and its maximum (3 for risk, 5 for level, else 10000) |
| ToolSelectionView.ToolSelectionDialog.constructor | components/tool-selection.tsx:56 | The warning starts closed |
| ToolSelectionView.ToolSelectionDialog.HeadlessModeToggle | components/tool-selection.tsx:100-106 | Switching on only opens the warning and leaves the mode off; switching off takes effect at once |
| ToolSelectionView.ToolSelectionDialog.ConfirmHeadlessMode | components/tool-selection.tsx:108-111 | The mode flips and the warning closes |
| ToolSelectionView.ToolSelectionDialog.DismissWarning | components/tool-selection.tsx:355 | The warning closes, the mode stays |
| ToolSelectionView.ToolSelectionDialog.ToolSwitch | components/tool-selection.tsx:279 | The catalogue becomes `ToggleTool` of the old one |
| ToolSelectionView.ToolSelectionDialog.ParameterChange | components/tool-selection.tsx:96-98 | The catalogue becomes `UpdateToolParameter` of the old one |
| WebSocketHook.Hook.constructor | hooks/use-websocket.tsx:24-32 | Disconnected, no data, no socket, no attempts and no timer |
| WebSocketHook.Hook.Connect | hooks/use-websocket.tsx:34-83 | No effect while the current socket is open; otherwise a new connecting socket becomes current, or the status is error when the socket cannot be created |
| WebSocketHook.Hook.Mount | hooks/use-websocket.tsx:108-112 | Without `autoConnect`, or with the current socket open, nothing changes. With `autoConnect`, the outcome is that of `connect`: a new CONNECTING socket is appended and becomes current with status `connecting`, or, when the URL is rejected, the status is `error` and the sockets and reference are kept. Counters, timers, data and outbox are unchanged |
| WebSocketHook.Hook.OnOpen | hooks/use-websocket.tsx:43-47 | Connected, and the attempt counter is reset to 0 |
| WebSocketHook.Hook.OnClose | hooks/use-websocket.tsx:49-63 | Disconnected; a reconnect is scheduled exactly after an unclean close with attempts left, counting one more attempt, so attempts never exceed the bound |
| WebSocketHook.Hook.ScheduleReconnect | hooks/use-websocket.tsx:56-61 | Any pending timer is cleared before the new one is set, so exactly one is pending |
| WebSocketHook.Hook.OnMessage | hooks/use-websocket.tsx:65-73 | A parsed message becomes the data and is delivered; an unparsable one changes nothing |
| WebSocketHook.Hook.OnError | hooks/use-websocket.tsx:75-78 | The status becomes error, and nothing else changes |
| WebSocketHook.Hook.OnTimer | hooks/use-websocket.tsx:58-60 | The fired timer is spent, so none is pending; the timer reference and attempts are kept. Then the outcome is that of `connect`: nothing when the socket is open; otherwise a new CONNECTING socket becomes current with status `connecting`, or status `error` with sockets and reference kept when the URL is rejected. Data, deliveries, outbox and the timer counter are unchanged |
| WebSocketHook.Hook.Disconnect | hooks/use-websocket.tsx:85-98 | The current socket starts closing and is dropped, the timer is cleared, attempts are reset to 0 and the status is disconnected |
| WebSocketHook.Hook.Send | hooks/use-websocket.tsx:100-106 | Transmits and returns true iff the current socket is open; otherwise sends nothing and returns false |
| WebSocketHook.Closing | hooks/use-websocket.tsx:87 | `close()` moves a socket that is not yet closed to closing, and leaves a closed one closed |
| WebSocketHook.AtMostOnePending | hooks/use-websocket.tsx:56-94 | In every reachable state at most one reconnect timer is pending |
| WebSocketHook.DisconnectWhileConnecting | hooks/use-websocket.tsx:49-98 | As written: after connect, disconnect and the stale socket's unclean close, a reconnect is pending and one attempt is counted |
| WebSocketHook.Hook.OnCloseCurrent | hooks/use-websocket.tsx:48-61 | The guarded close handler: the socket is CLOSED; the status becomes `disconnected` exactly when it was the current socket, else it is kept; an unclean close of the current socket with attempts left counts one attempt and replaces the timer with exactly one new pending timer; in every other case attempts, timer reference, pending timers and timer counter are unchanged |
| WebSocketHook.DisconnectWhileConnectingGuarded | hooks/use-websocket.tsx:49-98 | With the guarded handler the same events leave no reconnect pending and no attempt counted |
| OrderedMap.DedupSpec | components/dashboard.tsx:43-47 | A `Set` built by `add` holds each element once, exactly the elements added, in order of first insertion |
| OrderedMap.TallyGet | components/dashboard.tsx:118-122 | A record counted by incrementing one key per item holds, per key, its number of occurrences, and has no other keys |
| OrderedMap.TallyTotal | contexts/report-context.tsx:153-156 | The counts of a tally add up to the number of items tallied |
| Sorting.SortDescSorted | components/dashboard.tsx:164-166 | The descending sort is ordered and a permutation of its input |
| Sorting.SortDescStable | components/dashboard.tsx:188-189 | Items with equal keys keep their input order |
| Text.ParseNatToString | contexts/report-context.tsx:485-487 | The decimal rendering of a count in a template literal reads back as that count, so distinct counts render differently |
| Text.TrimStartSpec | components/dashboard.tsx:121 | Dropping leading characters keeps a suffix, drops only characters passing the test, and stops at the first that fails it |
| Text.TrimEndSpec | components/dashboard.tsx:121 | Dropping trailing characters keeps a prefix, drops only characters passing the test, and stops at the last that fails it |
| Text.TrimSpec | components/dashboard.tsx:121 | `trim` removes exactly the leading and trailing whitespace |

## Left out

- Browser persistence (`localStorage`, `JSON.parse` and `JSON.stringify` of the saved AI and connection settings) is storage I/O. The saved AI configuration enters `AIContext.LoadConfig` as an optional parameter; the connection store takes its initial configuration as a constructor parameter.
- The AI provider connection test (`fetch` against Flowise and friends) is network I/O, and the simulated `setTimeout` delays of the connection and report contexts carry no logic. Toast notifications have no effect on state.
- The `catch` branch of the connection context's `connect` is not modelled: the simulated delay never rejects, so the branch cannot run.
- PDF and text export (Blob, DOM and download APIs) are left out, as are `generateReportContent` and the prose of the AI summary. The prose is template text around `toLocaleString` dates. Only the summary's severity counts are modelled (`CountBySeverity`). The executive-summary strings of a report are left out of the modelled `Report`.
- `toLocaleString` formatting of finding timestamps is a parameter (`formatTime`) of the section builders.
- Floating-point values are left out. These are the average findings per report and the average duration, the bar-width percentages, and the AI temperature slider.
- Calendar arithmetic is left out: the date ranges of the time filter become an integer range start, and the per-month finding keys are dropped.
- The counting records written at components/dashboard.tsx:118 and :122 and contexts/report-context.tsx:154 and :217-222 are plain `{}` objects, which inherit the members of `Object.prototype`. The model treats every key as absent until it is put, so a target, vulnerability type or severity named after an inherited member (`toString`, `__proto__`, `constructor`, ...) is counted like any other key. In the source such a key reads the inherited member instead: the count becomes a string, an assignment to `__proto__` is dropped, or `push` on the inherited value throws and report generation stops.
- Keys of JavaScript objects that look like array indices are iterated before other keys, in numeric order. The model keeps insertion order for every key. Severities and category names are never such keys; targets and vulnerability types could be.
- Case mapping covers ASCII letters only. Non-ASCII titles and category strings are compared as given.
- `Finding` and `ConsoleEntry` come from the pentest context, which is not part of this model. A finding is a record with a title, a severity, a description and a timestamp. An alert is an opaque payload.
- The text fields of the template and tool forms (name, description, parameter text) are plain setters and carry no logic. JSX, icons and styling are not part of this model either.
- `WebSocketHook.Hook.Send`: the caller supplies the text, so the choice between the string as-is and `JSON.stringify` of a value is not modelled.
- `WebSocketHook.Hook`: the `onOpen`, `onClose`, `onMessage` and `onError` callbacks supplied by the caller are not modelled. Delivered messages are recorded in `delivered` instead. The unmount cleanup is `Disconnect`.
- The reconnect interval is carried but not used: time is not modelled, so a timer fires whenever `OnTimer` is called.
- The server (`backend/server.js`) only answers one fixed request and is not part of this model; the presentation-only components (report viewer, findings and alerts panels, approval dialog, connection form, page layout) are not either.

## Findings

| source | as written | input that shows it | evidently intended | confidence | as-written member | corrected member |
|---|---|---|---|---|---|---|
| hooks/use-websocket.tsx:49-62 | The `onclose` handler of every socket schedules a reconnect after an unclean close, even for a socket the hook has already let go of with `disconnect()` | `connect()` and then `disconnect()` while the socket is still connecting. The browser then fails that connection and fires an unclean close on it. `disconnect()` reset the attempt counter to 0, so the stale handler counts one attempt and schedules a reconnect | `disconnect()` stops reconnection: only the current socket's close should schedule one | medium, not executed | WebSocketHook.DisconnectWhileConnecting | WebSocketHook.Hook.OnCloseCurrent |
