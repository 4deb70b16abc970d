# Dotfile manager: a Dafny model of its logic

The dotfile manager is a dashboard for code snippets and editor configs.
Most of it is presentation. This project models the four pieces of it that
have behaviour you can state, and proves properties of them:

- **The config editor form** (`EditConfigForm`). Its state holds the seven form fields
  (`name`, `tool`, `filePath`, `language`, `isPublic`, `description`,
  `content`) and the `saving` flag. The props, including the optional
  `initial` values, never change. The form is a pure transition function
  `Step(props, state, event)` over these events: the field setters, submit,
  and the end of a save. `Mount` is the first render's state followed by the
  effect that runs after it. The model follows the code as written:
  - The tool-change effect re-derives `filePath` and `language` from the
    current tool.
  - The effect checks only whether the matching *initial prop* is truthy. It
    does not check whether the user has edited the field since.
  - An empty initial `filePath` is kept by `??` but counts as absent in the
    effect.
  - The initialiser's two-way file-path default differs from the effect's
    three-way default.
- **The navigation shell's active-link predicate** (`isActive`) and the three
  primary links it is applied to.
- **The access gate**: the middleware's route matcher and its redirect
  handler, composed. The matcher is a regular expression with a negative
  lookahead. It is modelled as a small pattern language (literal characters
  and `.`), read as a JavaScript regular expression without flags, anchored
  at both ends.
- **The toaster's theme**, clamped to `dark`, `light` or `system`, with
  `dark` as the fallback.

Modules (one per source file, plus `Js`):

- `Js` models JavaScript semantics: nullish values and `??`, string
  truthiness, `startsWith`, line terminators and single UTF-16 code units.
- `EditConfig`, `AppShell`, `Middleware` and `ToasterProvider` follow the
  source files of the same names.

Modelling choices:

- **The effect runs as one step with its tool change.** React runs the effect
  after the render, and the model lets no user event in between.
- **Selecting the current tool changes nothing.** The state setter bails out,
  and the effect's dependency has not changed.
- **A submit is ignored while `saving` is true.** The submit button is
  disabled while saving. A disabled default button also blocks implicit
  submission, such as pressing Enter in a field.
- **The save callback is reduced to how it ends.** `SaveSettled` carries one
  of three outcomes: `Saved` (resolved), `Rejected`, or `Logged` (there was
  no callback). The `finally` clears `saving` in all three cases.
- **The timestamp is a parameter.** It is an opaque string passed with the
  `Submit` event.

Because the effect checks only the initial prop, the next change to another
tool overwrites a hand-typed file path or language
(`ManualEditLostOnToolChange`).

## Model

| member | source | states |
|---|---|---|
| EditConfig.InitialState | src/components/edit-config.tsx:58-74 | first-render values: each of the seven fields keeps a supplied initial value (even `""`); otherwise name "User Settings", tool VS Code, the two-way file path, the tool language, public, empty description, tool starter content; `saving` is false |
| EditConfig.Mount | src/components/edit-config.tsx:57-85 | the mounted form (first render, then the effect) has the initial tool or VS Code, both dependent fields synced to the truthy initial value or the tool default, and `saving` false |
| EditConfig.Effect | src/components/edit-config.tsx:77-85 | the file path becomes the tool default unless the initial file path is truthy; the language becomes the tool default unless an initial language is given; no other field changes |
| EditConfig.ChangeTool | src/components/edit-config.tsx:77-85 | the tool select (line 136) followed by the effect: selecting the current tool changes nothing; another tool re-derives only `filePath`/`language` (unpinned ones to the new tool's defaults) and never touches name, visibility, description, content or `saving` |
| EditConfig.BeginSubmit | src/components/edit-config.tsx:87-100 | submit raises `saving` and sends a payload holding the props' id, the current values of all seven fields and the given timestamp; the fields are unchanged |
| EditConfig.Step | src/components/edit-config.tsx:87-221 | the setters wired at lines 129, 136, 156, 162, 181, 189 and 202, the submit handler, and the submit button disabled while saving (line 221): a payload is sent iff the event is a submit while not saving; `saving` is true after a submit and false after a settled save of any outcome; each setter stores its value; a tool selection behaves as `ChangeTool`; each field changes only through its own setter, except that a tool change may move `filePath`/`language` |
| EditConfig.Run | src/components/edit-config.tsx:57-111 | after any event sequence, a changed tool is one that some event selected, and `saving` only became true through a submit |
| EditConfig.MountState | src/components/edit-config.tsx:57-85 | once mounted, `tool` is the initial tool or VS Code, both dependent fields are synced to the initial value or the tool default, the other fields hold their initial values or fallbacks, and `saving` is false |
| EditConfig.MountedZedShowsConfig | src/components/edit-config.tsx:59-80 | for Zed/Other without an initial file path, the initialiser yields "init.lua" but the mounted form shows "config" |
| EditConfig.EmptyInitialFilePathReplaced | src/components/edit-config.tsx:60-79 | an initial file path of "" is kept by the initialiser and replaced by the tool default after mount |
| EditConfig.EffectIdempotent | src/components/edit-config.tsx:77-85 | running the effect twice equals running it once |
| EditConfig.PinnedFilePath | src/components/edit-config.tsx:76-80 | with a truthy initial file path, no event sequence without the file-path setter changes `filePath`, however the tool moves |
| EditConfig.PinnedLanguage | src/components/edit-config.tsx:81-85 | with an initial language, no event sequence without the language setter changes `language` |
| EditConfig.FilePathStaysSynced | src/components/edit-config.tsx:77-80 | a synced file path stays synced (initial value or current tool's default) across any events without the file-path setter |
| EditConfig.LanguageStaysSynced | src/components/edit-config.tsx:81-85 | a synced language stays synced across any events without the language setter |
| EditConfig.DefaultsFollowTool | src/components/edit-config.tsx:77-85 | after mount and any events without the two setters, unpinned file path and language equal vscode→settings.json/json, neovim→init.lua/lua, zed/other→config/json for the current tool |
| EditConfig.ManualEditLostOnToolChange | src/components/edit-config.tsx:76-85 | with no initial overrides, a typed file path and picked language survive re-selecting the same tool but are overwritten by the next change to another tool |
| EditConfig.SwitchBackRestores | src/components/edit-config.tsx:77-85 | from a synced form, switching to any tool and back gives exactly the same form |
| EditConfig.VSCodeNeovimVSCode | src/components/edit-config.tsx:58-85 | with no initial values, VS Code → Neovim → VS Code shows settings.json / JSON before and after |
| EditConfig.SubmitCycle | src/components/edit-config.tsx:87-111 | from an idle form, a submit sets `saving` and sends the form's values, and once the save settles (saved, rejected or logged) the form is exactly as before |
| EditConfig.ReopenRoundTrip | src/components/edit-config.tsx:58-100 | mounting the editor with a saved payload as `initial` reproduces every saved field, except that an empty file path becomes the tool default |
| AppShell.IsActive | src/components/app-shell.tsx:41-44 | a link is active only where its href is a prefix of the pathname; every href other than "/dashboard" is active wherever it is such a prefix |
| AppShell.ActiveLinks | src/components/app-shell.tsx:75-95 | a link is in the active list iff it is one of the three primary hrefs and `isActive` holds for it |
| AppShell.DashboardExactOnly | src/components/app-shell.tsx:41-42 | the dashboard link is active iff the pathname is exactly "/dashboard" |
| AppShell.OtherLinksByPrefix | src/components/app-shell.tsx:41-44 | any other href is active iff it is a prefix of the pathname |
| AppShell.DashboardInactiveBelow | src/components/app-shell.tsx:41-42 | no pathname extending "/dashboard" activates the dashboard link |
| AppShell.SectionActiveOnExtensions | src/components/app-shell.tsx:43 | every pathname extending the Snippets or Configs href activates it, character-wise ("/dashboard/snippetsX" included) |
| AppShell.AtMostOneActive | src/components/app-shell.tsx:41-95 | at most one of the three primary links is active for any pathname |
| AppShell.SnippetEditRouteActivatesSnippets | src/components/app-shell.tsx:82-88 | on "/dashboard/snippets/1/edit" the Snippets link is the only active one |
| Middleware.Handle | src/middleware.ts:3-8 | redirects iff there is no session and the path is not "/auth/signin"; a redirect targets "/auth/signin" on the request's origin with status 302 |
| Middleware.Gate | src/middleware.ts:3-12 | with the matcher applied: redirects iff no session and the path is matched; an authenticated request always proceeds |
| Middleware.NoRedirectLoop | src/middleware.ts:4-11 | the redirect target is never redirected, with or without a session |
| Middleware.Matches | src/middleware.ts:11 | every matched pathname starts with "/" and has text after it, so the root is never matched |
| Middleware.SignInNotMatched | src/middleware.ts:11 | no matched pathname is the sign-in page |
| Middleware.LookaheadRejectsExcludedText | src/middleware.ts:11 | the lookahead rejects exactly the empty text and text beginning with api, _next/static, _next/image, favicon?ico (any single non-line-terminator code unit for ?) or auth/signin |
| Middleware.MatcherExcludes | src/middleware.ts:11 | "/"+rest is unmatched iff rest is empty, begins with an excluded word, or contains a line terminator |
| Middleware.ExclusionExtends | src/middleware.ts:11 | exclusion is by text prefix, not segment: every extension of an excluded non-root path is excluded |
| Middleware.RootNotMatched | src/middleware.ts:11 | the root "/" is not matched |
| Middleware.ExcludedWord | src/middleware.ts:11 | paths such as "/api/…", "/apiary", "/_next/static/…" and "/auth/signin…" are not matched |
| Middleware.FaviconExcluded | src/middleware.ts:11 | "/favicon.ico", and "/favicon" + any single non-line-terminator code unit + "ico", are not matched |
| Middleware.FaviconAstralMatched | src/middleware.ts:11 | "/favicon" + a character outside the Basic Multilingual Plane + "ico" is matched, because `.` consumes only one code unit of its surrogate pair |
| Middleware.DashboardMatched | src/middleware.ts:11 | "/dashboard" and every path extending it without line terminators are matched |
| ToasterProvider.ToasterTheme | src/providers/toaster-provider.tsx:10-11 | the result is always dark, light or system; an allowed theme passes through unchanged; undefined or any other value gives dark |
| ToasterProvider.ToasterThemeIdempotent | src/providers/toaster-provider.tsx:10-11 | normalising twice equals normalising once |
| ToasterProvider.ToasterThemeKeepsExactlyAllowed | src/providers/toaster-provider.tsx:10-11 | a theme is kept iff it is exactly "dark", "light" or "system" |
| ToasterProvider.ToasterThemeExamples | src/providers/toaster-provider.tsx:10-11 | undefined, "blue" and "Light" give dark; "light" and "system" are kept |

## Left out

- **Rendering.** JSX, animation, styling, the input placeholders and the card
  and background components have no behaviour to state.
- **Code preview and copy.** Syntax highlighting is done by a library that is
  not part of this model. The dark-mode probe observes the DOM, and the
  clipboard copy uses a browser API and timers.
- **Identity library.** Its configuration and the sign-in/sign-out buttons
  wrap a third-party library. A session is reduced to the truthiness of
  `req.auth`.
- **Theme provider.** It gates hydration in a framework lifecycle hook.
- **The save callback and the clock.** The model does not run `onSave`; a
  save is an opaque outcome. `new Date().toISOString()` is a string parameter.
  The console log is not modelled. Asynchronous scheduling, and the render in
  which `saving` is true, are not modelled.
- **Search over the snippet and config lists**
  (`src/app/(dashboard)/dashboard/snippets/page.tsx:20-22`,
  `src/app/(dashboard)/dashboard/configs/page.tsx:18-20`). Both pages keep
  only the records where either of two fields, lower-cased, contains the
  lower-cased query. The filter lives in the list pages, outside the four
  modelled components.
- **How the framework compiles the matcher.** The framework's own rewriting
  of matcher strings is not part of this model. That covers locale and data
  route prefixes and trailing-slash handling. The pattern is read as a plain
  JavaScript regular expression on the pathname.
- **String encoding.** JavaScript compares strings by UTF-16 code units; the
  model compares Unicode characters. For prefix tests and equality on
  well-formed strings, the two agree. The one place where code units matter
  is the matcher's `.`, which the model lets match only a character that is
  one code unit. A lone surrogate, which is not a well-formed string, is not
  modelled.
- **Enum types at run time.** `Tool` and `Language` are closed datatypes, as
  the type annotations declare. Values outside them, which the type checker
  would reject, are not modelled.
