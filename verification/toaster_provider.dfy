/** The toaster's theme: the application theme, if it is one the toaster
    understands, and otherwise "dark". */
module ToasterProvider {
  import opened Js

  /** The themes the toaster accepts, in the order the source lists them. */
  const AllowedThemes := ["dark", "light", "system"]

  /** The toaster theme for the current application theme, which may be
      undefined: an allowed name passes through, anything else is "dark". */
  function ToasterTheme(theme: Option<string>): (r: string)
    ensures r in AllowedThemes
    ensures theme.Some? && theme.value in AllowedThemes ==> r == theme.value
    ensures !(theme.Some? && theme.value in AllowedThemes) ==> r == "dark"
  {
    match theme
    case Some(t) => if t in AllowedThemes then t else "dark"
    case None => "dark"
  }

  /** Normalising an already normalised theme changes nothing. */
  lemma ToasterThemeIdempotent(theme: Option<string>)
    ensures ToasterTheme(Some(ToasterTheme(theme))) == ToasterTheme(theme)
  {
  }

  /** The theme is kept iff it is one of the three allowed names. */
  lemma ToasterThemeKeepsExactlyAllowed(t: string)
    ensures ToasterTheme(Some(t)) == t <==> t == "dark" || t == "light" || t == "system"
  {
  }

  /** Undefined and unknown themes, such as an explicit "blue", fall back
      to "dark"; the three allowed names are kept. */
  lemma ToasterThemeExamples()
    ensures ToasterTheme(None) == "dark"
    ensures ToasterTheme(Some("blue")) == "dark"
    ensures ToasterTheme(Some("Light")) == "dark"
    ensures ToasterTheme(Some("light")) == "light"
    ensures ToasterTheme(Some("system")) == "system"
  {
  }
}
