/** The front end's preference store: the interface language, the theme
    mode and the system colour scheme. Language and theme mode are read from
    and written to browser local storage, modelled as a map from keys to
    strings; the system scheme comes from the browser's media query, given
    here as an optional input. */
module Preference {
  import opened Wrappers

  type Storage = map<string, string>

  datatype Language = Zh | En

  datatype ThemeMode = Dark | Light | System

  /** A theme that names an actual colour scheme. */
  type ResolvedTheme = m: ThemeMode | m != System witness Dark

  const LanguageKey: string := "language"
  const ThemeModeKey: string := "themeMode"

  /** The text stored for a language. */
  function LanguageTag(l: Language): string {
    match l
    case Zh => "zh"
    case En => "en"
  }

  /** The text stored for a theme mode. */
  function ThemeTag(m: ThemeMode): string {
    match m
    case Dark => "dark"
    case Light => "light"
    case System => "system"
  }

  /** Local storage's `getItem`: the stored text, or nothing. */
  function GetItem(storage: Storage, key: string): Option<string> {
    if key in storage then Some(storage[key]) else None
  }

  /** The language at start-up: English only for the exact text "en",
      Chinese for anything else, including nothing stored. */
  function InitialLanguage(storage: Storage): (l: Language)
    ensures l == En <==> GetItem(storage, LanguageKey) == Some("en")
  {
    if GetItem(storage, LanguageKey) == Some("en") then En else Zh
  }

  /** The theme mode at start-up: the stored mode when its text names one,
      and dark otherwise. */
  function InitialTheme(storage: Storage): (m: ThemeMode)
    ensures forall t :: GetItem(storage, ThemeModeKey) == Some(ThemeTag(t)) ==> m == t
    ensures (forall t :: GetItem(storage, ThemeModeKey) != Some(ThemeTag(t))) ==> m == Dark
  {
    var saved := GetItem(storage, ThemeModeKey);
    assert ThemeTag(Light) == "light" && ThemeTag(Dark) == "dark" && ThemeTag(System) == "system";
    if saved == Some("light") then Light
    else if saved == Some("dark") then Dark
    else if saved == Some("system") then System
    else Dark
  }

  /** The system scheme at start-up. `prefersDark` is the media query's
      answer, or `None` when there is no window or no media query. */
  function InitialSystemTheme(prefersDark: Option<bool>): (t: ThemeMode)
    ensures t != System
    ensures prefersDark == None ==> t == Dark
    ensures prefersDark.Some? ==> (t == Dark <==> prefersDark.value)
  {
    match prefersDark
    case None => Dark
    case Some(dark) => if dark then Dark else Light
  }

  datatype State = State(language: Language, themeMode: ThemeMode, systemTheme: ResolvedTheme)

  /** The store together with the storage it persists to. */
  datatype Store = Store(state: State, storage: Storage)

  /** Creating the store reads storage and writes nothing. */
  function Init(storage: Storage, prefersDark: Option<bool>): (s: Store)
    ensures s.storage == storage
    ensures s.state.language == InitialLanguage(storage)
    ensures s.state.themeMode == InitialTheme(storage)
    ensures s.state.systemTheme == InitialSystemTheme(prefersDark)
  {
    Store(State(InitialLanguage(storage), InitialTheme(storage), InitialSystemTheme(prefersDark)), storage)
  }

  /** The `resolvedTheme` getter: always a concrete scheme, following the
      system scheme in system mode and the chosen mode otherwise. */
  function Resolved(state: State): (r: ThemeMode)
    ensures r != System
    ensures state.themeMode == System ==> r == state.systemTheme
    ensures state.themeMode != System ==> r == state.themeMode
  {
    if state.themeMode == System then state.systemTheme else state.themeMode
  }

  /** Storage `after` differs from `before` at most under `key`. */
  ghost predicate OnlyKeyChanged(before: Storage, after: Storage, key: string) {
    forall k :: k != key ==> GetItem(after, k) == GetItem(before, k)
  }

  function SetLanguage(s: Store, language: Language): (r: Store)
    ensures r.state.language == language
    ensures r.state.themeMode == s.state.themeMode && r.state.systemTheme == s.state.systemTheme
    ensures GetItem(r.storage, LanguageKey) == Some(LanguageTag(language))
    ensures OnlyKeyChanged(s.storage, r.storage, LanguageKey)
  {
    Store(s.state.(language := language), s.storage[LanguageKey := LanguageTag(language)])
  }

  function SetThemeMode(s: Store, themeMode: ThemeMode): (r: Store)
    ensures r.state.themeMode == themeMode
    ensures r.state.language == s.state.language && r.state.systemTheme == s.state.systemTheme
    ensures GetItem(r.storage, ThemeModeKey) == Some(ThemeTag(themeMode))
    ensures OnlyKeyChanged(s.storage, r.storage, ThemeModeKey)
  {
    Store(s.state.(themeMode := themeMode), s.storage[ThemeModeKey := ThemeTag(themeMode)])
  }

  /** The system scheme is kept in memory only. */
  function SetSystemTheme(s: Store, theme: ResolvedTheme): (r: Store)
    ensures r.state.systemTheme == theme
    ensures r.state.language == s.state.language && r.state.themeMode == s.state.themeMode
    ensures r.storage == s.storage
  {
    Store(s.state.(systemTheme := theme), s.storage)
  }

  /** Round trip: reading the language back from storage after setting it
      gives the language that was set. */
  lemma LanguageRoundTrip(s: Store, language: Language)
    ensures InitialLanguage(SetLanguage(s, language).storage) == language
  {
  }

  /** Round trip: reading the theme mode back from storage after setting it
      gives the mode that was set. */
  lemma ThemeModeRoundTrip(s: Store, themeMode: ThemeMode)
    ensures InitialTheme(SetThemeMode(s, themeMode).storage) == themeMode
  {
  }

  /** Setting one persisted field leaves what storage yields for the other
      one unchanged. */
  lemma SettersKeepOtherField(s: Store, language: Language, themeMode: ThemeMode)
    ensures InitialTheme(SetLanguage(s, language).storage) == InitialTheme(s.storage)
    ensures InitialLanguage(SetThemeMode(s, themeMode).storage) == InitialLanguage(s.storage)
  {
    assert GetItem(SetLanguage(s, language).storage, ThemeModeKey) == GetItem(s.storage, ThemeModeKey);
    assert GetItem(SetThemeMode(s, themeMode).storage, LanguageKey) == GetItem(s.storage, LanguageKey);
  }

  /** The actions the store offers. */
  datatype Action =
    | LanguageChosen(language: Language)
    | ThemeModeChosen(themeMode: ThemeMode)
    | SystemThemeChanged(theme: ResolvedTheme)

  function Apply(s: Store, a: Action): Store {
    match a
    case LanguageChosen(l) => SetLanguage(s, l)
    case ThemeModeChosen(m) => SetThemeMode(s, m)
    case SystemThemeChanged(t) => SetSystemTheme(s, t)
  }

  function ApplyAll(s: Store, actions: seq<Action>): Store
    decreases |actions|
  {
    if |actions| == 0 then s else ApplyAll(Apply(s, actions[0]), actions[1..])
  }

  /** The persisted fields of the state are what storage would yield on the
      next start. */
  ghost predicate Persisted(s: Store) {
    InitialLanguage(s.storage) == s.state.language && InitialTheme(s.storage) == s.state.themeMode
  }

  lemma InitPersisted(storage: Storage, prefersDark: Option<bool>)
    ensures Persisted(Init(storage, prefersDark))
  {
  }

  /** Every action keeps the persisted fields in step with storage. */
  lemma ApplyPersisted(s: Store, a: Action)
    requires Persisted(s)
    ensures Persisted(Apply(s, a))
  {
    match a
    case LanguageChosen(l) => SettersKeepOtherField(s, l, Dark);
    case ThemeModeChosen(m) => SettersKeepOtherField(s, Zh, m);
    case SystemThemeChanged(t) =>
  }

  /** Reload: starting from a store whose persisted fields agree with its
      storage (as a freshly created one does, by `InitPersisted`), after any
      sequence of actions a store created again from the storage left behind
      starts with the same language and theme mode. */
  lemma {:induction false} ReloadRestoresPreferences(s: Store, actions: seq<Action>, prefersDark: Option<bool>)
    requires Persisted(s)
    ensures Init(ApplyAll(s, actions).storage, prefersDark).state.language == ApplyAll(s, actions).state.language
    ensures Init(ApplyAll(s, actions).storage, prefersDark).state.themeMode == ApplyAll(s, actions).state.themeMode
    decreases |actions|
  {
    if |actions| > 0 {
      ApplyPersisted(s, actions[0]);
      ReloadRestoresPreferences(Apply(s, actions[0]), actions[1..], prefersDark);
    }
  }
}
