/** User settings: the defaults created for a user without settings, the
    fetch-or-create decision, and the theme preference as the browser keeps
    it (the `dark` class on the document and the `theme-preference` entry of
    local storage). */
module SettingsService {
  import opened Wrappers
  import Entities

  datatype Theme = Light | Dark | System
  datatype DigestFrequency = Daily | Weekly | NoDigest

  const ThemeKey := "theme-preference"

  function ThemeName(t: Theme): string {
    match t
    case Light => "light"
    case Dark => "dark"
    case System => "system"
  }

  /** A stored text read as a theme: only the three exact names count. */
  function ParseTheme(stored: Option<string>): (t: Theme)
    ensures (stored.Some? && stored.value == ThemeName(t)) || t == System
    ensures stored.Some? && stored.value in {"light", "dark", "system"} ==> ThemeName(t) == stored.value
  {
    if stored == Some("light") then Light
    else if stored == Some("dark") then Dark
    else System
  }

  /** Writing a theme's name and reading it back gives the theme. */
  lemma ParseThemeName(t: Theme)
    ensures ParseTheme(Some(ThemeName(t))) == t
  {
  }

  /** Whether the `dark` class ends up on: a dark theme, or the system
      theme while the OS prefers dark. */
  predicate DarkFor(t: Theme, prefersDark: bool) {
    t == Dark || (t == System && prefersDark)
  }

  /** The browser state the theme functions touch. Without a window (server
      rendering) none of it is used. */
  class Browser {
    const hasWindow: bool
    var localStorage: map<string, string>
    var darkClass: bool
    var prefersDark: bool
    var listening: bool

    constructor (hasWindow: bool, localStorage: map<string, string>, prefersDark: bool)
      ensures this.hasWindow == hasWindow && this.localStorage == localStorage
      ensures this.prefersDark == prefersDark && !darkClass && !listening
      ensures InSync()
    {
      this.hasWindow := hasWindow;
      this.localStorage := localStorage;
      this.prefersDark := prefersDark;
      darkClass := false;
      listening := false;
    }

    /** The invariant every browser step keeps: a listener exists only with
        a window, and while it listens the `dark` class agrees with the
        stored theme and the OS preference. */
    predicate InSync()
      reads this
    {
      (listening ==> hasWindow)
      && (listening ==> darkClass == DarkFor(StoredTheme(), prefersDark))
    }

    /** `getStoredThemePreference`: the stored theme when it is one of the
        three names; "system" otherwise, and always without a window. */
    function StoredTheme(): (t: Theme)
      reads this
      ensures !hasWindow ==> t == System
      ensures hasWindow && ThemeKey !in localStorage ==> t == System
      ensures hasWindow && ThemeKey in localStorage && t != System ==> localStorage[ThemeKey] == ThemeName(t)
    {
      if !hasWindow then System
      else ParseTheme(if ThemeKey in localStorage then Some(localStorage[ThemeKey]) else None)
    }

    /** `applyThemePreference(t)`: sets the `dark` class for `t` and stores
        `t`; a no-op without a window. */
    method ApplyThemePreference(t: Theme)
      modifies this
      ensures !hasWindow ==> localStorage == old(localStorage) && darkClass == old(darkClass)
      ensures hasWindow ==> darkClass == DarkFor(t, prefersDark)
      ensures hasWindow ==> localStorage == old(localStorage)[ThemeKey := ThemeName(t)]
      ensures hasWindow ==> StoredTheme() == t
      ensures prefersDark == old(prefersDark) && listening == old(listening)
      ensures old(InSync()) ==> InSync()
    {
      if !hasWindow {
        return;
      }
      darkClass := DarkFor(t, prefersDark);
      localStorage := localStorage[ThemeKey := ThemeName(t)];
      ParseThemeName(t);
    }

    /** `initializeTheme`: applies the stored theme and starts listening for
        changes of the OS preference. */
    method InitializeTheme()
      modifies this
      ensures !hasWindow ==> localStorage == old(localStorage) && darkClass == old(darkClass) && listening == old(listening)
      ensures hasWindow ==> listening && darkClass == DarkFor(old(StoredTheme()), prefersDark)
      ensures hasWindow ==> StoredTheme() == old(StoredTheme())
      ensures hasWindow ==> localStorage == old(localStorage)[ThemeKey := ThemeName(old(StoredTheme()))]
      ensures prefersDark == old(prefersDark)
      ensures old(InSync()) ==> InSync()
      ensures hasWindow ==> InSync()
    {
      if !hasWindow {
        return;
      }
      var theme := StoredTheme();
      ApplyThemePreference(theme);
      listening := true;
    }

    /** The OS preference changes; once listening (which needs a window),
        the `dark` class follows it only while the stored theme is "system". */
    method SystemThemeChanged(nowPrefersDark: bool)
      modifies this
      ensures prefersDark == nowPrefersDark && listening == old(listening)
      ensures StoredTheme() == old(StoredTheme())
      ensures hasWindow && listening && StoredTheme() == System ==> darkClass == nowPrefersDark
      ensures !(hasWindow && listening && StoredTheme() == System) ==> darkClass == old(darkClass)
      ensures hasWindow && listening && StoredTheme() == System ==>
        localStorage == old(localStorage)[ThemeKey := ThemeName(System)]
      ensures !(hasWindow && listening && StoredTheme() == System) ==> localStorage == old(localStorage)
      ensures old(InSync()) ==> InSync()
    {
      prefersDark := nowPrefersDark;
      if hasWindow && listening && StoredTheme() == System {
        ApplyThemePreference(System);
      }
    }
  }

  /** Once initialized, the `dark` class agrees with the stored theme and
      the OS preference after any later steps; this is one such run, with
      the invariant `InSync` carried from step to step. */
  method ThemeStaysInSync(b: Browser, t: Theme, nowPrefersDark: bool)
    requires b.hasWindow
    modifies b
    ensures b.InSync() && b.listening
    ensures b.darkClass == DarkFor(b.StoredTheme(), b.prefersDark)
  {
    b.InitializeTheme();
    b.ApplyThemePreference(t);
    b.SystemThemeChanged(nowPrefersDark);
  }

  /** A `user_settings` row. */
  datatype UserSettings = UserSettings(
    id: string, userId: string, emailTourRequests: bool, emailMessages: bool,
    emailDigestFrequency: DigestFrequency, themePreference: Theme, defaultDashboardView: string,
    createdAt: string, updatedAt: string)

  /** The row inserted by `createDefaultSettings`. */
  datatype SettingsInsert = SettingsInsert(
    userId: string, emailTourRequests: bool, emailMessages: bool,
    emailDigestFrequency: DigestFrequency, themePreference: Theme, defaultDashboardView: string)

  function DefaultSettings(userId: string): (d: SettingsInsert)
    ensures d.userId == userId && d.emailTourRequests && d.emailMessages
    ensures d.emailDigestFrequency == Daily && d.themePreference == System
    ensures d.defaultDashboardView == "overview"
  {
    SettingsInsert(userId, true, true, Daily, System, "overview")
  }

  /** The default theme is the one a browser with nothing stored falls
      back to. */
  lemma DefaultThemeIsFallback(userId: string)
    ensures DefaultSettings(userId).themePreference == ParseTheme(None)
  {
  }

  /** What `getUserSettings` does with the fetch reply: the row; for "no
      rows" the defaults are inserted and the insert's reply decides;
      any other error gives null. */
  datatype SettingsStep = Done(settings: Option<UserSettings>) | InsertDefaults(row: SettingsInsert)

  function GetUserSettings(userId: string, fetched: Result<UserSettings, Entities.DbError>): (step: SettingsStep)
    ensures fetched.Success? ==> step == Done(Some(fetched.value))
    ensures fetched.Failure? && fetched.error.code == Entities.NoRowsCode ==> step == InsertDefaults(DefaultSettings(userId))
    ensures fetched.Failure? && fetched.error.code != Entities.NoRowsCode ==> step == Done(None)
  {
    match fetched
    case Success(row) => Done(Some(row))
    case Failure(e) => if e.code == Entities.NoRowsCode then InsertDefaults(DefaultSettings(userId)) else Done(None)
  }

  /** `createDefaultSettings`' reply: the inserted row, or null on error. */
  function CreatedSettings(inserted: Result<UserSettings, Entities.DbError>): (r: Option<UserSettings>)
    ensures r.Some? <==> inserted.Success?
    ensures r.Some? ==> r.value == inserted.value
  {
    match inserted
    case Success(row) => Some(row)
    case Failure(_) => None
  }
}
