/**
 * The tool-selection dialog: its category tabs and labels, the inputs it
 * renders for tool parameters, and the confirmation step that guards
 * switching autonomous ("headless") mode on.
 */
module ToolSelectionView {
  import Seqs
  import Text
  import ToolsContext

  // ----- category tabs -----

  /** `getCategoryLabel`: fixed labels for the six categories, otherwise the first character upper-cased. */
  function GetCategoryLabel(category: string): string
  {
    if category == "reconnaissance" then "Reconnaissance"
    else if category == "scanning" then "Scanning"
    else if category == "vulnerability" then "Vulnerability"
    else if category == "exploitation" then "Exploitation"
    else if category == "post-exploitation" then "Post-Exploitation"
    else if category == "web" then "Web Testing"
    else Text.UpperFirst(category)
  }

  /** The tabs, in the order the dialog lists them. */
  const Categories: seq<ToolsContext.Category> := [
    ToolsContext.Reconnaissance, ToolsContext.Scanning, ToolsContext.Vulnerability,
    ToolsContext.Exploitation, ToolsContext.PostExploitation, ToolsContext.Web]

  /**
   * A string that names no category is shown with only its first character
   * upper-cased; the empty string stays empty.
   */
  lemma UnknownCategoryLabel(category: string)
    requires forall c :: ToolsContext.CategoryName(c) != category
    ensures var shown := GetCategoryLabel(category);
      |shown| == |category| && (category != [] ==>
        shown[0] == Text.UpperChar(category[0]) && shown[1..] == category[1..])
  {
    assert category != ToolsContext.CategoryName(ToolsContext.Reconnaissance);
    assert category != ToolsContext.CategoryName(ToolsContext.Scanning);
    assert category != ToolsContext.CategoryName(ToolsContext.Vulnerability);
    assert category != ToolsContext.CategoryName(ToolsContext.Exploitation);
    assert category != ToolsContext.CategoryName(ToolsContext.PostExploitation);
    assert category != ToolsContext.CategoryName(ToolsContext.Web);
  }

  /** Every category has a tab, and the six names differ (their lengths already do). */
  lemma CategoriesComplete(c: ToolsContext.Category)
    ensures c in Categories
    ensures forall d :: ToolsContext.CategoryName(d) == ToolsContext.CategoryName(c) ==> d == c
  {
    forall d | ToolsContext.CategoryName(d) == ToolsContext.CategoryName(c) ensures d == c {
      assert |ToolsContext.CategoryName(d)| == |ToolsContext.CategoryName(c)|;
    }
  }

  /** The six tabs carry six different labels. */
  lemma {:induction false} LabelsDistinct(c: ToolsContext.Category, d: ToolsContext.Category)
    requires GetCategoryLabel(ToolsContext.CategoryName(c)) == GetCategoryLabel(ToolsContext.CategoryName(d))
    ensures c == d
  {
    assert |GetCategoryLabel(ToolsContext.CategoryName(c))| == |GetCategoryLabel(ToolsContext.CategoryName(d))|;
  }

  /**
   * `toolsByCategory`: one bucket per tab, keyed by the category name, each
   * holding that category's tools in catalogue order.
   */
  function ToolsByCategory(ts: seq<ToolsContext.PentestTool>): (r: seq<(string, seq<ToolsContext.PentestTool>)>)
    ensures |r| == |Categories|
  {
    Seqs.Map(Categories, BucketFor(ts))
  }

  function BucketFor(ts: seq<ToolsContext.PentestTool>): ToolsContext.Category -> (string, seq<ToolsContext.PentestTool>)
  {
    (c: ToolsContext.Category) => (ToolsContext.CategoryName(c), ToolsContext.GetToolsByCategory(ts, ToolsContext.CategoryName(c)))
  }

  /** A tool of the catalogue sits in the bucket of its own category and in no other. */
  lemma ToolsByCategoryPartition(ts: seq<ToolsContext.PentestTool>, t: ToolsContext.PentestTool, k: nat)
    requires t in ts && k < |Categories|
    ensures t in ToolsByCategory(ts)[k].1 <==> Categories[k] == t.category
  {
    var r := ToolsByCategory(ts);
    assert r[k] == BucketFor(ts)(Categories[k]);
    CategoriesComplete(t.category);
    var i :| 0 <= i < |ts| && ts[i] == t;
  }

  /** Sum of the bucket sizes. */
  function BucketTotal(r: seq<(string, seq<ToolsContext.PentestTool>)>): nat
  {
    if r == [] then 0 else |r[0].1| + BucketTotal(r[1..])
  }

  /** One bucket loses the first tool exactly when the tool is of its category. */
  lemma BucketStep(ts: seq<ToolsContext.PentestTool>, c: ToolsContext.Category)
    requires ts != []
    ensures |BucketFor(ts)(c).1| == |BucketFor(ts[1..])(c).1| + (if ts[0].category == c then 1 else 0)
  {
    CategoriesComplete(ts[0].category);
  }

  /** Dropping the first tool shrinks exactly the bucket of its category, by one. */
  lemma {:induction false} BucketTotalStep(ts: seq<ToolsContext.PentestTool>, cs: seq<ToolsContext.Category>)
    requires ts != []
    requires forall i, j :: 0 <= i < j < |cs| ==> cs[i] != cs[j]
    ensures BucketTotal(Seqs.Map(cs, BucketFor(ts)))
      == BucketTotal(Seqs.Map(cs, BucketFor(ts[1..]))) + (if ts[0].category in cs then 1 else 0)
  {
    if cs != [] {
      var m, m' := Seqs.Map(cs, BucketFor(ts)), Seqs.Map(cs, BucketFor(ts[1..]));
      assert m[1..] == Seqs.Map(cs[1..], BucketFor(ts));
      assert m'[1..] == Seqs.Map(cs[1..], BucketFor(ts[1..]));
      assert cs[0] !in cs[1..];
      assert ts[0].category in cs <==> ts[0].category == cs[0] || ts[0].category in cs[1..];
      BucketStep(ts, cs[0]);
      BucketTotalStep(ts, cs[1..]);
    }
  }

  /** With no tools every bucket is empty. */
  lemma {:induction false} BucketTotalEmpty(cs: seq<ToolsContext.Category>)
    ensures BucketTotal(Seqs.Map(cs, BucketFor([]))) == 0
  {
    if cs != [] {
      assert Seqs.Map(cs, BucketFor([]))[1..] == Seqs.Map(cs[1..], BucketFor([]));
      BucketTotalEmpty(cs[1..]);
    }
  }

  /** The buckets hold every tool exactly once between them. */
  lemma {:induction false} ToolsByCategoryTotal(ts: seq<ToolsContext.PentestTool>)
    ensures BucketTotal(ToolsByCategory(ts)) == |ts|
  {
    if ts == [] {
      BucketTotalEmpty(Categories);
    } else {
      CategoriesComplete(ts[0].category);
      BucketTotalStep(ts, Categories);
      ToolsByCategoryTotal(ts[1..]);
    }
  }

  // ----- parameter inputs -----

  /** The control rendered for one parameter. */
  datatype ParamInput =
    | TextInput(text: ToolsContext.ParamValue, disabled: bool)
    | SliderInput(position: ToolsContext.ParamValue, min: int, max: int, step: int, disabled: bool)
    | CheckboxInput(checked: ToolsContext.ParamValue, disabled: bool)

  /** The slider's upper bound: 3 for `risk`, 5 for `level`, 10000 for any other number. */
  function SliderMax(paramName: string): int
  {
    if paramName == "risk" then 3 else if paramName == "level" then 5 else 10000
  }

  /** `renderParameterInput`: the control for the parameter's type, disabled in autonomous mode. */
  function RenderParameterInput(p: ToolsContext.ToolParameter, headlessMode: bool): (r: ParamInput)
    ensures r.disabled == headlessMode
    ensures r.TextInput? <==> p.paramType == ToolsContext.StringParam
    ensures r.SliderInput? <==> p.paramType == ToolsContext.NumberParam
    ensures r.CheckboxInput? <==> p.paramType == ToolsContext.BooleanParam
  {
    match p.paramType
    case StringParam => TextInput(p.value, headlessMode)
    case NumberParam => SliderInput(p.value, 1, SliderMax(p.name), 1, headlessMode)
    case BooleanParam => CheckboxInput(p.value, headlessMode)
  }

  /** A value a slider can show: a number between its bounds. */
  predicate OnSlider(input: ParamInput)
  {
    input.SliderInput? && input.position.Num? && input.min <= input.position.n <= input.max
  }

  /** Every number parameter of the default catalogue starts at a position its slider can show. */
  lemma DefaultSlidersInRange(i: nat, j: nat, headlessMode: bool)
    requires i < |ToolsContext.DefaultTools| && j < |ToolsContext.DefaultTools[i].parameters|
    requires ToolsContext.DefaultTools[i].parameters[j].paramType == ToolsContext.NumberParam
    ensures OnSlider(RenderParameterInput(ToolsContext.DefaultTools[i].parameters[j], headlessMode))
  {
  }

  // ----- the dialog -----

  class ToolSelectionDialog {
    const store: ToolsContext.ToolsStore
    var showHeadlessWarning: bool

    constructor (store: ToolsContext.ToolsStore)
      ensures this.store == store && !showHeadlessWarning
    {
      this.store := store;
      showHeadlessWarning := false;
    }

    /**
     * The mode switch: switching on only opens the warning and leaves the
     * mode off; switching off takes effect at once.
     */
    method HeadlessModeToggle()
      modifies this, store
      ensures store.tools == old(store.tools)
      ensures !old(store.headlessMode) ==> showHeadlessWarning && !store.headlessMode
      ensures old(store.headlessMode) ==>
        !store.headlessMode && showHeadlessWarning == old(showHeadlessWarning)
    {
      if !store.headlessMode {
        showHeadlessWarning := true;
      } else {
        store.ToggleHeadlessMode();
      }
    }

    /** The warning's confirm button: flip the mode and close the warning. */
    method ConfirmHeadlessMode()
      modifies this, store
      ensures store.headlessMode == !old(store.headlessMode) && store.tools == old(store.tools)
      ensures !showHeadlessWarning
    {
      store.ToggleHeadlessMode();
      showHeadlessWarning := false;
    }

    /** The warning's cancel button (or closing it): the mode stays as it is. */
    method DismissWarning()
      modifies this
      ensures !showHeadlessWarning
    {
      showHeadlessWarning := false;
    }

    /** A tool card's switch. */
    method ToolSwitch(tool: ToolsContext.PentestTool)
      modifies store
      ensures store.tools == ToolsContext.ToggleTool(old(store.tools), tool.id)
      ensures store.headlessMode == old(store.headlessMode)
    {
      store.Toggle(tool.id);
    }

    /** `handleParameterChange`: forwards to the store. */
    method ParameterChange(tool: ToolsContext.PentestTool, paramName: string, v: ToolsContext.ParamValue)
      modifies store
      ensures store.tools == ToolsContext.UpdateToolParameter(old(store.tools), tool.id, paramName, v)
      ensures store.headlessMode == old(store.headlessMode)
    {
      store.UpdateParameter(tool.id, paramName, v);
    }
  }
}
