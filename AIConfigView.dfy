/**
 * The prompt-template editor of the AI configuration dialog: the scanner
 * that pulls `{{NAME}}` placeholders out of a system prompt, and the form
 * state (the template being edited, the new-template draft and the
 * creation flag) that its handlers update before handing the result to
 * the prompt-template registry.
 */
module AIConfigView {
  import opened Wrappers
  import Seqs
  import Text
  import AIContext

  // ----- extractVariables: prompt.match(/\{\{([A-Z_]+)\}\}/g), braces stripped -----

  predicate IsNameChar(c: char)
  {
    'A' <= c <= 'Z' || c == '_'
  }

  /** What `[A-Z_]+` matches. */
  predicate IsName(x: string)
  {
    |x| > 0 && forall i :: 0 <= i < |x| ==> IsNameChar(x[i])
  }

  /** The length of the longest run of name characters at the start of `s`. */
  function NameRun(s: string): (n: nat)
    ensures n <= |s|
    ensures forall i :: 0 <= i < n ==> IsNameChar(s[i])
    ensures n < |s| ==> !IsNameChar(s[n])
  {
    if s != [] && IsNameChar(s[0]) then 1 + NameRun(s[1..]) else 0
  }

  /**
   * The length of the name when a placeholder starts at the front of `s`.
   * The name run is taken greedily; a shorter run cannot be followed by `}`
   * either, so the regular expression's backtracking finds nothing more.
   */
  function PlaceholderAt(s: string): (r: Option<nat>)
    ensures r.Some? ==>
      (r.value + 4 <= |s| && s[..2] == "{{" && IsName(s[2..r.value + 2]) && s[r.value + 2..r.value + 4] == "}}")
  {
    if |s| >= 2 && s[0] == '{' && s[1] == '{' then
      var n := NameRun(s[2..]);
      if n > 0 && n + 4 <= |s| && s[n + 2] == '}' && s[n + 3] == '}' then Some(n) else None
    else None
  }

  /**
   * The global match scans from the left: a match at the front is taken
   * whole and the scan resumes after it; otherwise the scan moves on by one
   * character. Each match `{{NAME}}` contributes `NAME`.
   */
  function ExtractVariables(prompt: string): (vs: seq<string>)
    ensures forall i :: 0 <= i < |vs| ==> IsName(vs[i])
    decreases |prompt|
  {
    if prompt == [] then []
    else match PlaceholderAt(prompt)
      case Some(n) => [prompt[2..n + 2]] + ExtractVariables(prompt[n + 4..])
      case None => ExtractVariables(prompt[1..])
  }

  /** `s` holds `{{` somewhere. */
  predicate HasOpening(s: string)
  {
    exists i :: 0 <= i < |s| - 1 && s[i] == '{' && s[i + 1] == '{'
  }

  /** A prompt without `{{` has no variables. */
  lemma {:induction false} NoOpeningNoVariables(prompt: string)
    requires !HasOpening(prompt)
    ensures ExtractVariables(prompt) == []
  {
    if prompt != [] {
      assert PlaceholderAt(prompt).None? by {
        if |prompt| >= 2 && prompt[0] == '{' && prompt[1] == '{' {
          assert HasOpening(prompt);
        }
      }
      NoOpeningNoVariables(prompt[1..]);
    }
  }

  /** Every variable found is spelled out, braces and all, somewhere in the prompt. */
  lemma {:induction false} VariablesOccur(prompt: string, v: string)
    requires v in ExtractVariables(prompt)
    ensures Text.Contains(prompt, "{{" + v + "}}")
    decreases |prompt|
  {
    var p := "{{" + v + "}}";
    match PlaceholderAt(prompt)
    case Some(n) =>
      if v == prompt[2..n + 2] {
        assert prompt[..|p|] == p;
      } else {
        VariablesOccur(prompt[n + 4..], v);
        Text.ContainsDrop(prompt, n + 4, p);
      }
    case None =>
      VariablesOccur(prompt[1..], v);
      Text.ContainsDrop(prompt, 1, p);
  }

  /** Text with no `{` in front of the rest contributes no variables. */
  lemma {:induction false} PlainPrefix(plain: string, rest: string)
    requires '{' !in plain
    ensures ExtractVariables(plain + rest) == ExtractVariables(rest)
  {
    if plain != [] {
      assert plain[0] in plain;
      assert (plain + rest)[0] == plain[0];
      assert (plain + rest)[1..] == plain[1..] + rest;
      assert PlaceholderAt(plain + rest) == None;
      assert '{' !in plain[1..] by {
        forall c | c in plain[1..] ensures c in plain { }
      }
      PlainPrefix(plain[1..], rest);
    } else {
      assert plain + rest == rest;
    }
  }

  /** A placeholder at the front is found whole, and the scan resumes after it. */
  lemma PlaceholderFront(name: string, rest: string)
    requires IsName(name)
    ensures ExtractVariables("{{" + name + "}}" + rest) == [name] + ExtractVariables(rest)
  {
    var s := "{{" + name + "}}" + rest;
    assert s[2..] == name + ("}}" + rest);
    NameRunOf(name, "}}" + rest);
    assert s[2..|name| + 2] == name;
    assert s[|name| + 4..] == rest;
  }

  lemma {:induction false} NameRunOf(name: string, rest: string)
    requires forall i :: 0 <= i < |name| ==> IsNameChar(name[i])
    requires rest == [] || !IsNameChar(rest[0])
    ensures NameRun(name + rest) == |name|
  {
    if name != [] {
      assert (name + rest)[1..] == name[1..] + rest;
      NameRunOf(name[1..], rest);
    }
  }

  /** A prompt written as pieces of plain text, each followed by a placeholder, then a plain tail. */
  function Template(pieces: seq<(string, string)>, tail: string): string
  {
    if pieces == [] then tail
    else pieces[0].0 + "{{" + pieces[0].1 + "}}" + Template(pieces[1..], tail)
  }

  function PieceName(piece: (string, string)): string
  {
    piece.1
  }

  /**
   * The round trip: scanning a prompt built from placeholders finds exactly
   * their names, in order of appearance and with repetitions.
   */
  lemma {:induction false} ExtractTemplate(pieces: seq<(string, string)>, tail: string)
    requires forall i :: 0 <= i < |pieces| ==> '{' !in pieces[i].0 && IsName(pieces[i].1)
    requires '{' !in tail
    ensures ExtractVariables(Template(pieces, tail)) == Seqs.Map(pieces, PieceName)
  {
    if pieces == [] {
      NoOpeningNoVariables(tail);
    } else {
      var (plain, name) := pieces[0];
      var rest := Template(pieces[1..], tail);
      assert Template(pieces, tail) == plain + ("{{" + name + "}}" + rest);
      PlainPrefix(plain, "{{" + name + "}}" + rest);
      PlaceholderFront(name, rest);
      ExtractTemplate(pieces[1..], tail);
      assert Seqs.Map(pieces, PieceName) == [name] + Seqs.Map(pieces[1..], PieceName);
    }
  }

  /**
   * An independent reading of the global match: the name of every
   * placeholder that starts at some position of the prompt, by increasing
   * position, with no skipping.
   */
  function EveryPlaceholder(p: string): (vs: seq<string>)
    decreases |p|
  {
    if p == [] then []
    else
      (match PlaceholderAt(p)
       case Some(n) => [p[2..n + 2]]
       case None => [])
      + EveryPlaceholder(p[1..])
  }

  /** No placeholder starts strictly inside a placeholder. */
  lemma NoPlaceholderInside(p: string, n: nat)
    requires PlaceholderAt(p) == Some(n)
    ensures forall i :: 1 <= i < n + 4 ==> PlaceholderAt(p[i..]).None?
  {
    forall i | 1 <= i < n + 4
      ensures PlaceholderAt(p[i..]).None?
    {
      if i == 1 {
        assert p[2..n + 2][0] == p[2];
        assert p[i..][1] == p[2];
      } else if i < n + 2 {
        assert p[2..n + 2][i - 2] == p[i];
        assert p[i..][0] == p[i];
      } else {
        assert p[n + 2..n + 4][i - n - 2] == p[i];
        assert p[i..][0] == p[i];
      }
    }
  }

  /** Positions where no placeholder starts contribute nothing. */
  lemma {:induction false} SkipUnmatched(s: string, j: nat)
    requires j <= |s|
    requires forall i :: 0 <= i < j ==> PlaceholderAt(s[i..]).None?
    ensures EveryPlaceholder(s) == EveryPlaceholder(s[j..])
  {
    if j > 0 {
      assert s[0..] == s;
      assert PlaceholderAt(s).None?;
      forall i | 0 <= i < j - 1
        ensures PlaceholderAt(s[1..][i..]).None?
      {
        assert s[1..][i..] == s[i + 1..];
      }
      SkipUnmatched(s[1..], j - 1);
      assert s[1..][j - 1..] == s[j..];
    }
  }

  /**
   * The scan that resumes after each match finds exactly the placeholders
   * starting at any position, in order and with repetitions: a resumed scan
   * loses nothing, because no placeholder starts inside another.
   */
  lemma {:induction false} ScanFindsEveryPlaceholder(p: string)
    ensures ExtractVariables(p) == EveryPlaceholder(p)
    decreases |p|
  {
    if p != [] {
      match PlaceholderAt(p)
      case Some(n) =>
        ScanFindsEveryPlaceholder(p[n + 4..]);
        NoPlaceholderInside(p, n);
        forall i | 0 <= i < n + 3
          ensures PlaceholderAt(p[1..][i..]).None?
        {
          assert p[1..][i..] == p[i + 1..];
        }
        SkipUnmatched(p[1..], n + 3);
        assert p[1..][n + 3..] == p[n + 4..];
      case None =>
        ScanFindsEveryPlaceholder(p[1..]);
    }
  }

  /** A placeholder starting at position `k` is in the reading of every position. */
  lemma {:induction false} PlaceholderAtFound(p: string, k: nat, n: nat)
    requires k < |p| && PlaceholderAt(p[k..]) == Some(n)
    ensures p[k + 2..k + n + 2] in EveryPlaceholder(p)
  {
    if k == 0 {
      assert p[0..] == p;
    } else {
      assert p[1..][k - 1..] == p[k..];
      PlaceholderAtFound(p[1..], k - 1, n);
      assert p[1..][k - 1 + 2..k - 1 + n + 2] == p[k + 2..k + n + 2];
    }
  }

  /** Every `{{NAME}}` written anywhere in a prompt, whatever surrounds it, is extracted. */
  lemma PlaceholderAnywhere(a: string, x: string, b: string)
    requires IsName(x)
    ensures x in ExtractVariables(a + "{{" + x + "}}" + b)
  {
    var p := a + "{{" + x + "}}" + b;
    var s := "{{" + x + "}}" + b;
    assert p[|a|..] == s;
    assert s[2..] == x + ("}}" + b);
    NameRunOf(x, "}}" + b);
    assert PlaceholderAt(s) == Some(|x|);
    PlaceholderAtFound(p, |a|, |x|);
    assert p[|a| + 2..|a| + |x| + 2] == x;
    ScanFindsEveryPlaceholder(p);
  }

  // ----- the template form -----

  /** The empty new-template form. */
  const EmptyDraft := AIContext.TemplateDraft("", "", "", ["TARGET", "ADDITIONAL_INFO"])

  /** The whole of an edited template handed to `updatePromptTemplate`. */
  function EditedFields(t: AIContext.PromptTemplate): (u: AIContext.TemplateUpdate)
    ensures AIContext.ApplyTemplateUpdate(t, u) == t
  {
    AIContext.TemplateUpdate(Some(t.name), Some(t.description), Some(t.systemPrompt), Some(t.variables))
  }

  /** The dialog's template form, writing through to the prompt-template registry. */
  class TemplateForm {
    const store: AIContext.AIStore
    var editingTemplate: Option<AIContext.PromptTemplate>
    var newTemplate: AIContext.TemplateDraft
    var isCreatingTemplate: bool

    constructor (store: AIContext.AIStore)
      ensures this.store == store
      ensures editingTemplate == None && newTemplate == EmptyDraft && !isCreatingTemplate
    {
      this.store := store;
      editingTemplate := None;
      newTemplate := EmptyDraft;
      isCreatingTemplate := false;
    }

    /** The edit button of a listed template. */
    method BeginEdit(t: AIContext.PromptTemplate)
      modifies this
      ensures editingTemplate == Some(t)
      ensures newTemplate == old(newTemplate) && isCreatingTemplate == old(isCreatingTemplate)
    {
      editingTemplate := Some(t);
    }

    /** The "new template" button. */
    method BeginCreate()
      modifies this
      ensures isCreatingTemplate
      ensures editingTemplate == old(editingTemplate) && newTemplate == old(newTemplate)
    {
      isCreatingTemplate := true;
    }

    /**
     * Save: with a template under edit, overwrite the registry's template of
     * that id with the edited name, description, prompt and variables and
     * leave edit mode; without one, nothing happens.
     */
    method SaveTemplate()
      modifies this, store
      ensures editingTemplate == None
      ensures newTemplate == old(newTemplate) && isCreatingTemplate == old(isCreatingTemplate)
      ensures match old(editingTemplate)
        case None => store.config == old(store.config)
        case Some(t) => store.config == AIContext.UpdateTemplate(old(store.config), t.id, EditedFields(t))
      ensures old(store.Valid()) ==> store.Valid()
    {
      match editingTemplate
      case Some(t) =>
        store.UpdatePromptTemplate(t.id, EditedFields(t));
        editingTemplate := None;
      case None =>
    }

    /**
     * Create: only when the draft has a name and a system prompt; the draft
     * is added to the registry, the form is emptied and creation mode ends.
     */
    method CreateTemplate(stamp: string)
      modifies this, store
      ensures editingTemplate == old(editingTemplate)
      ensures if old(newTemplate).name != "" && old(newTemplate).systemPrompt != "" then
          store.config == AIContext.AddTemplate(old(store.config), old(newTemplate), stamp)
          && newTemplate == EmptyDraft && !isCreatingTemplate
        else
          store.config == old(store.config)
          && newTemplate == old(newTemplate) && isCreatingTemplate == old(isCreatingTemplate)
      ensures old(store.Valid()) ==> store.Valid()
    {
      if newTemplate.name != "" && newTemplate.systemPrompt != "" {
        store.AddPromptTemplate(newTemplate, stamp);
        newTemplate := EmptyDraft;
        isCreatingTemplate := false;
      }
    }

    method CancelEdit()
      modifies this
      ensures editingTemplate == None
      ensures newTemplate == old(newTemplate) && isCreatingTemplate == old(isCreatingTemplate)
    {
      editingTemplate := None;
    }

    /** Cancel creation: close creation mode and restore the empty form. */
    method CancelCreate()
      modifies this
      ensures !isCreatingTemplate && newTemplate == EmptyDraft
      ensures editingTemplate == old(editingTemplate)
    {
      isCreatingTemplate := false;
      newTemplate := EmptyDraft;
    }

    /**
     * A change of the prompt text, on the new-template form (`isNew`) or on
     * the template under edit: the prompt is stored and the variables are
     * re-extracted from it. Not new and nothing under edit: no effect.
     */
    method PromptChange(prompt: string, isNew: bool)
      modifies this
      ensures isCreatingTemplate == old(isCreatingTemplate)
      ensures isNew ==>
        (newTemplate == old(newTemplate).(systemPrompt := prompt, variables := ExtractVariables(prompt))
         && editingTemplate == old(editingTemplate))
      ensures !isNew ==>
        (newTemplate == old(newTemplate)
         && editingTemplate == match old(editingTemplate)
           case None => None
           case Some(t) => Some(t.(systemPrompt := prompt, variables := ExtractVariables(prompt))))
    {
      var variables := ExtractVariables(prompt);
      if isNew {
        newTemplate := newTemplate.(systemPrompt := prompt, variables := variables);
      } else if editingTemplate.Some? {
        editingTemplate := Some(editingTemplate.value.(systemPrompt := prompt, variables := variables));
      }
    }
  }
}
