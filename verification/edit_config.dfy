/** The config editor form (`EditConfigForm`): its state, the tool-dependent
    defaulting of the file path and language, the field setters and the
    submit/save cycle, as a pure transition function over events. */
module EditConfig {
  import opened Js

  datatype Tool = VSCode | Neovim | Zed | Other

  datatype Language = Json | Yaml | Toml | Lua | Vim

  /** The optional `initial` prop; every field of it may be absent. */
  datatype Initial = Initial(
    name: Option<string>,
    tool: Option<Tool>,
    filePath: Option<string>,
    language: Option<Language>,
    isPublic: Option<bool>,
    description: Option<string>,
    content: Option<string>)

  /** The component's props (without the save callback, which is modelled
      by the outcome of `SaveSettled`). Props never change while mounted. */
  datatype Props = Props(id: string, initial: Option<Initial>)

  /** The component's state: the seven form fields and the `saving` flag. */
  datatype Form = Form(
    name: string,
    tool: Tool,
    filePath: string,
    language: Language,
    isPublic: bool,
    description: string,
    content: string,
    saving: bool)

  /** How the save started by a submit ends: the `onSave` promise resolved,
      it rejected, or there was no `onSave` and the payload was only logged. */
  datatype SaveOutcome = Saved | Rejected | Logged

  datatype Event =
    | SetTool(tool: Tool)
    | SetFilePath(filePath: string)
    | SetLanguage(language: Language)
    | SetName(name: string)
    | SetIsPublic(isPublic: bool)
    | SetDescription(description: string)
    | SetContent(content: string)
    | Submit(updatedAt: string)
    | SaveSettled(outcome: SaveOutcome)

  /** The object handed to `onSave`; `updatedAt` is the submit's timestamp. */
  datatype Payload = Payload(
    id: string,
    name: string,
    tool: Tool,
    filePath: string,
    language: Language,
    isPublic: bool,
    description: string,
    content: string,
    updatedAt: string)

  /** The result of one event: the next state and the payload sent, if any. */
  datatype Transition = Transition(form: Form, sent: Option<Payload>)

  const NoInitial := Initial(None, None, None, None, None, None, None)

  /** `initial?.x` reads field x of this record: an absent `initial`
      behaves as a record with every field absent. */
  function Given(p: Props): Initial
  {
    match p.initial
    case Some(i) => i
    case None => NoInitial
  }

  const DefaultName := "User Settings"
  const DefaultTool := VSCode

  /** The file path the state initialiser falls back to: only two cases. */
  function InitialiserFilePath(tool: Tool): string
  {
    if tool == VSCode then "settings.json" else "init.lua"
  }

  /** The file path the tool-change effect installs: three cases. */
  function ToolFilePath(tool: Tool): string
  {
    match tool
    case VSCode => "settings.json"
    case Neovim => "init.lua"
    case _ => "config"
  }

  /** The language used both by the initialiser and by the effect. */
  function ToolLanguage(tool: Tool): Language
  {
    match tool
    case VSCode => Json
    case Neovim => Lua
    case _ => Json
  }

  /** The starter content shown when no initial content is given. */
  function StarterContent(tool: Tool): string
  {
    match tool
    case VSCode => "{\n  \"editor.fontSize\": 14,\n  \"files.exclude\": { \"**/.DS_Store\": true }\n}"
    case Neovim => "-- init.lua\nvim.o.number = true\nvim.o.tabstop = 2\n"
    case _ => "# config here\n"
  }

  /** The values the `useState` initialisers produce on the first render,
      before any effect has run. */
  function InitialState(p: Props): (r: Form)
    ensures r.name == Coalesce(Given(p).name, DefaultName)
    ensures r.tool == Coalesce(Given(p).tool, DefaultTool)
    ensures Given(p).filePath.Some? ==> r.filePath == Given(p).filePath.value
    ensures Given(p).filePath.None? ==> r.filePath == InitialiserFilePath(r.tool)
    ensures Given(p).language.Some? ==> r.language == Given(p).language.value
    ensures Given(p).language.None? ==> r.language == ToolLanguage(r.tool)
    ensures r.isPublic == Coalesce(Given(p).isPublic, true)
    ensures r.description == Coalesce(Given(p).description, "")
    ensures Given(p).content.Some? ==> r.content == Given(p).content.value
    ensures Given(p).content.None? ==> r.content == StarterContent(r.tool)
    ensures !r.saving
  {
    var i := Given(p);
    var tool := Coalesce(i.tool, DefaultTool);
    Form(
      name := Coalesce(i.name, DefaultName),
      tool := tool,
      filePath := Coalesce(i.filePath, InitialiserFilePath(tool)),
      language := Coalesce(i.language, ToolLanguage(tool)),
      isPublic := Coalesce(i.isPublic, true),
      description := Coalesce(i.description, ""),
      content := Coalesce(i.content, StarterContent(tool)),
      saving := false)
  }

  /** The effect that runs on mount and whenever `tool` changes: each of the
      two dependent fields is re-derived from the current tool unless the
      matching initial prop is truthy. Nothing else is touched. */
  function Effect(p: Props, s: Form): (r: Form)
    ensures r.filePath == if Truthy(Given(p).filePath) then s.filePath else ToolFilePath(s.tool)
    ensures r.language == if Given(p).language.Some? then s.language else ToolLanguage(s.tool)
    ensures r == s.(filePath := r.filePath, language := r.language)
  {
    var filePath := if !Truthy(Given(p).filePath) then ToolFilePath(s.tool) else s.filePath;
    var language := if Given(p).language.None? then ToolLanguage(s.tool) else s.language;
    s.(filePath := filePath, language := language)
  }

  /** The state once the component has mounted: the first render's state
      followed by the effect, which always runs after the first render. */
  function Mount(p: Props): (r: Form)
    ensures r.tool == Coalesce(Given(p).tool, DefaultTool)
    ensures FilePathSynced(p, r) && LanguageSynced(p, r)
    ensures !r.saving
  {
    Effect(p, InitialState(p))
  }

  /** Selecting a tool. Selecting the current tool changes nothing (the
      state setter bails out and the effect's dependency is unchanged);
      selecting another tool stores it and runs the effect. */
  function ChangeTool(p: Props, s: Form, t: Tool): (r: Form)
    ensures r.tool == t
    ensures t == s.tool ==> r == s
    ensures r.name == s.name && r.isPublic == s.isPublic && r.description == s.description
    ensures r.content == s.content && r.saving == s.saving
    ensures t != s.tool && !Truthy(Given(p).filePath) ==> r.filePath == ToolFilePath(t)
    ensures t != s.tool && Given(p).language.None? ==> r.language == ToolLanguage(t)
    ensures Truthy(Given(p).filePath) ==> r.filePath == s.filePath
    ensures Given(p).language.Some? ==> r.language == s.language
  {
    if t == s.tool then s else Effect(p, s.(tool := t))
  }

  /** The payload carries the props' id and the current value of every
      form field. */
  predicate Carries(pl: Payload, id: string, s: Form)
  {
    && pl.id == id
    && pl.name == s.name
    && pl.tool == s.tool
    && pl.filePath == s.filePath
    && pl.language == s.language
    && pl.isPublic == s.isPublic
    && pl.description == s.description
    && pl.content == s.content
  }

  /** Submitting the form: `saving` is raised and the payload is built from
      the current fields and the given timestamp. */
  function BeginSubmit(p: Props, s: Form, updatedAt: string): (r: Transition)
    ensures r.form == s.(saving := true)
    ensures r.sent.Some? && Carries(r.sent.value, p.id, s)
    ensures r.sent.value.updatedAt == updatedAt
  {
    var payload := Payload(p.id, s.name, s.tool, s.filePath, s.language,
                           s.isPublic, s.description, s.content, updatedAt);
    Transition(s.(saving := true), Some(payload))
  }

  /** One event. Field setters store their value; a submit is ignored while
      a save is running, because the submit button is disabled then; a
      settled save clears `saving` whatever its outcome. */
  function Step(p: Props, s: Form, e: Event): (r: Transition)
    ensures r.sent.Some? <==> e.Submit? && !s.saving
    ensures r.sent.Some? ==> Carries(r.sent.value, p.id, s) && r.sent.value.updatedAt == e.updatedAt
    ensures e.Submit? ==> r.form.saving
    ensures e.SaveSettled? ==> !r.form.saving
    ensures !e.Submit? && !e.SaveSettled? ==> r.form.saving == s.saving
    ensures !e.SetTool? && !e.SetFilePath? ==> r.form.filePath == s.filePath
    ensures !e.SetTool? && !e.SetLanguage? ==> r.form.language == s.language
    ensures !e.SetTool? ==> r.form.tool == s.tool
    ensures e.SetFilePath? ==> r.form.filePath == e.filePath
    ensures e.SetLanguage? ==> r.form.language == e.language
    ensures e.SetName? ==> r.form.name == e.name
    ensures e.SetIsPublic? ==> r.form.isPublic == e.isPublic
    ensures e.SetDescription? ==> r.form.description == e.description
    ensures e.SetContent? ==> r.form.content == e.content
    ensures e.SetTool? ==> r.form == ChangeTool(p, s, e.tool)
    ensures !e.SetName? ==> r.form.name == s.name
    ensures !e.SetIsPublic? ==> r.form.isPublic == s.isPublic
    ensures !e.SetDescription? ==> r.form.description == s.description
    ensures !e.SetContent? ==> r.form.content == s.content
  {
    match e
    case SetTool(t) => Transition(ChangeTool(p, s, t), None)
    case SetFilePath(v) => Transition(s.(filePath := v), None)
    case SetLanguage(v) => Transition(s.(language := v), None)
    case SetName(v) => Transition(s.(name := v), None)
    case SetIsPublic(v) => Transition(s.(isPublic := v), None)
    case SetDescription(v) => Transition(s.(description := v), None)
    case SetContent(v) => Transition(s.(content := v), None)
    case Submit(u) => if s.saving then Transition(s, None) else BeginSubmit(p, s, u)
    case SaveSettled(_) => Transition(s.(saving := false), None)
  }

  /** The state after a sequence of events. The tool only ever changes to
      one that some event selected, and `saving` only becomes true through
      a submit. */
  function Run(p: Props, s: Form, events: seq<Event>): (r: Form)
    ensures r.tool != s.tool ==> exists i :: 0 <= i < |events| && events[i] == SetTool(r.tool)
    ensures r.saving && !s.saving ==> exists i :: 0 <= i < |events| && events[i].Submit?
    decreases |events|
  {
    if events == [] then s else Run(p, Step(p, s, events[0]).form, events[1..])
  }

  /** Running one event and then another. */
  lemma RunTwo(p: Props, s: Form, a: Event, b: Event)
    ensures Run(p, s, [a]) == Step(p, s, a).form
    ensures Run(p, s, [a, b]) == Step(p, Step(p, s, a).form, b).form
  {
    assert [a][1..] == [];
    assert [b][1..] == [];
    assert [a, b][1..] == [b];
    var mid := Step(p, s, a).form;
    assert Run(p, mid, [b]) == Run(p, Step(p, mid, b).form, []);
  }

  /** No event in the sequence is the file-path setter. */
  predicate NoFilePathEdit(events: seq<Event>)
  {
    forall i :: 0 <= i < |events| ==> !events[i].SetFilePath?
  }

  /** No event in the sequence is the language setter. */
  predicate NoLanguageEdit(events: seq<Event>)
  {
    forall i :: 0 <= i < |events| ==> !events[i].SetLanguage?
  }

  /** The file path the form shows when nobody has typed into it: the truthy
      initial value, or else the current tool's default. */
  predicate FilePathSynced(p: Props, s: Form)
  {
    s.filePath == if Truthy(Given(p).filePath) then Given(p).filePath.value else ToolFilePath(s.tool)
  }

  /** The language the form shows when nobody has picked one: the initial
      value, or else the current tool's default. */
  predicate LanguageSynced(p: Props, s: Form)
  {
    s.language == if Given(p).language.Some? then Given(p).language.value else ToolLanguage(s.tool)
  }

  /** Initial `tool` is the supplied one, else VS Code; once mounted, both
      dependent fields are synced and `saving` is false. The initial name,
      visibility, description and content survive the effect. */
  lemma MountState(p: Props)
    ensures Mount(p).tool == (if Given(p).tool.Some? then Given(p).tool.value else VSCode)
    ensures FilePathSynced(p, Mount(p)) && LanguageSynced(p, Mount(p))
    ensures Mount(p).name == Coalesce(Given(p).name, "User Settings")
    ensures Mount(p).isPublic == Coalesce(Given(p).isPublic, true)
    ensures Mount(p).description == Coalesce(Given(p).description, "")
    ensures Mount(p).content == Coalesce(Given(p).content, StarterContent(Mount(p).tool))
    ensures !Mount(p).saving
  {
  }

  /** For Zed and Other with no initial file path the initialiser picks
      "init.lua", but the effect that runs on mount replaces it with "config". */
  lemma MountedZedShowsConfig(p: Props)
    requires Given(p).filePath.None?
    requires Given(p).tool == Some(Zed) || Given(p).tool == Some(Other)
    ensures InitialState(p).filePath == "init.lua"
    ensures Mount(p).filePath == "config"
  {
  }

  /** An empty-string initial file path is kept by `??` on the first
      render but counts as absent for the effect, which replaces it. */
  lemma EmptyInitialFilePathReplaced(p: Props)
    requires Given(p).filePath == Some("")
    ensures InitialState(p).filePath == ""
    ensures Mount(p).filePath == ToolFilePath(Mount(p).tool)
    ensures Mount(p).filePath != ""
  {
  }

  /** Running the effect twice is the same as running it once. */
  lemma EffectIdempotent(p: Props, s: Form)
    ensures Effect(p, Effect(p, s)) == Effect(p, s)
  {
  }

  /** A truthy initial file path pins the field: no sequence of events
      without the file-path setter changes it, however the tool moves. */
  lemma {:induction false} PinnedFilePath(p: Props, s: Form, events: seq<Event>)
    requires Truthy(Given(p).filePath)
    requires NoFilePathEdit(events)
    ensures Run(p, s, events).filePath == s.filePath
    decreases |events|
  {
    if events != [] {
      PinnedFilePath(p, Step(p, s, events[0]).form, events[1..]);
    }
  }

  /** A supplied initial language pins the field: no sequence of events
      without the language setter changes it. */
  lemma {:induction false} PinnedLanguage(p: Props, s: Form, events: seq<Event>)
    requires Given(p).language.Some?
    requires NoLanguageEdit(events)
    ensures Run(p, s, events).language == s.language
    decreases |events|
  {
    if events != [] {
      PinnedLanguage(p, Step(p, s, events[0]).form, events[1..]);
    }
  }

  /** As long as nobody types a file path, the field keeps tracking the
      current tool (or keeps the truthy initial value). */
  lemma {:induction false} FilePathStaysSynced(p: Props, s: Form, events: seq<Event>)
    requires FilePathSynced(p, s)
    requires NoFilePathEdit(events)
    ensures FilePathSynced(p, Run(p, s, events))
    decreases |events|
  {
    if events != [] {
      var next := Step(p, s, events[0]).form;
      assert FilePathSynced(p, next);
      FilePathStaysSynced(p, next, events[1..]);
    }
  }

  /** As long as nobody picks a language, the field keeps tracking the
      current tool (or keeps the initial value). */
  lemma {:induction false} LanguageStaysSynced(p: Props, s: Form, events: seq<Event>)
    requires LanguageSynced(p, s)
    requires NoLanguageEdit(events)
    ensures LanguageSynced(p, Run(p, s, events))
    decreases |events|
  {
    if events != [] {
      var next := Step(p, s, events[0]).form;
      assert LanguageSynced(p, next);
      LanguageStaysSynced(p, next, events[1..]);
    }
  }

  /** After mounting and any events that leave both dependent fields alone,
      the file path and the language are the defaults of the current tool,
      unless the matching initial prop pinned them. */
  lemma DefaultsFollowTool(p: Props, events: seq<Event>)
    requires NoFilePathEdit(events) && NoLanguageEdit(events)
    ensures !Truthy(Given(p).filePath) ==>
      Run(p, Mount(p), events).filePath == ToolFilePath(Run(p, Mount(p), events).tool)
    ensures Given(p).language.None? ==>
      Run(p, Mount(p), events).language == ToolLanguage(Run(p, Mount(p), events).tool)
  {
    MountState(p);
    FilePathStaysSynced(p, Mount(p), events);
    LanguageStaysSynced(p, Mount(p), events);
  }

  /** With no truthy initial file path, a typed file path is overwritten by
      the next change to a different tool but survives re-selecting the
      current tool. The same holds for a picked language. */
  lemma ManualEditLostOnToolChange(p: Props, s: Form, path: string, lang: Language, t: Tool)
    requires !Truthy(Given(p).filePath) && Given(p).language.None?
    ensures var edited := Run(p, s, [SetFilePath(path), SetLanguage(lang)]);
      && Run(p, edited, [SetTool(s.tool)]).filePath == path
      && Run(p, edited, [SetTool(s.tool)]).language == lang
      && (t != s.tool ==> Run(p, edited, [SetTool(t)]).filePath == ToolFilePath(t))
      && (t != s.tool ==> Run(p, edited, [SetTool(t)]).language == ToolLanguage(t))
  {
    var edited := Run(p, s, [SetFilePath(path), SetLanguage(lang)]);
    RunTwo(p, s, SetFilePath(path), SetLanguage(lang));
    RunTwo(p, edited, SetTool(s.tool), SetTool(t));
    RunTwo(p, edited, SetTool(t), SetTool(s.tool));
  }

  /** Switching to another tool and back restores a synced form exactly:
      the defaults depend only on the current tool, so nothing drifts. */
  lemma SwitchBackRestores(p: Props, s: Form, t: Tool)
    requires FilePathSynced(p, s) && LanguageSynced(p, s)
    ensures Run(p, s, [SetTool(t), SetTool(s.tool)]) == s
  {
    RunTwo(p, s, SetTool(t), SetTool(s.tool));
  }

  /** A form mounted with no initial values, switched from VS Code to Neovim
      and back, shows "settings.json" and JSON again. */
  lemma VSCodeNeovimVSCode()
    ensures Mount(Props("1", None)).filePath == "settings.json"
    ensures Mount(Props("1", None)).language == Json
    ensures Run(Props("1", None), Mount(Props("1", None)), [SetTool(Neovim), SetTool(VSCode)]).filePath == "settings.json"
    ensures Run(Props("1", None), Mount(Props("1", None)), [SetTool(Neovim), SetTool(VSCode)]).language == Json
  {
    var p := Props("1", None);
    MountState(p);
    SwitchBackRestores(p, Mount(p), Neovim);
  }

  /** Submit then settle: `saving` is true while the save runs and false
      afterwards whatever the outcome, the payload carries the form's
      values, and the form fields are left as they were. */
  lemma SubmitCycle(p: Props, s: Form, updatedAt: string, outcome: SaveOutcome)
    requires !s.saving
    ensures Step(p, s, Submit(updatedAt)).form.saving
    ensures Step(p, s, Submit(updatedAt)).sent.Some?
    ensures Carries(Step(p, s, Submit(updatedAt)).sent.value, p.id, s)
    ensures Run(p, s, [Submit(updatedAt), SaveSettled(outcome)]) == s
  {
    RunTwo(p, s, Submit(updatedAt), SaveSettled(outcome));
  }

  /** The `initial` prop an edit page builds from a saved payload. */
  function AsInitial(pl: Payload): Initial
  {
    Initial(Some(pl.name), Some(pl.tool), Some(pl.filePath), Some(pl.language),
            Some(pl.isPublic), Some(pl.description), Some(pl.content))
  }

  /** Reopening the editor on a saved payload shows every saved value again,
      except that an empty file path is replaced by the tool's default. */
  lemma ReopenRoundTrip(pl: Payload)
    ensures var m := Mount(Props(pl.id, Some(AsInitial(pl))));
      && m.name == pl.name && m.tool == pl.tool && m.language == pl.language
      && m.isPublic == pl.isPublic && m.description == pl.description
      && m.content == pl.content && !m.saving
      && m.filePath == (if pl.filePath == "" then ToolFilePath(pl.tool) else pl.filePath)
  {
  }
}
