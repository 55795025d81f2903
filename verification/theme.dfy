/**
 * The colour theme: the provider's choice of the initial theme (a stored
 * choice, else the system preference, else dark), the toggle, and the sync of
 * the theme into local storage and the root element's classes; and the small
 * script in the page head that decides, before the page is interactive,
 * whether to drop the server-rendered "dark" class.
 */
module Theme {
  import opened Wrappers

  datatype Theme = Dark | Light

  /** The local-storage key holding the choice. */
  const STORAGE_KEY := "hone-theme"
  /** The root class that selects the dark palette. */
  const DARK_CLASS := "dark"
  /** The root class present while a toggle animates. */
  const SWITCHING_CLASS := "theme-switching"

  function Name(t: Theme): (name: string)
    ensures name == "dark" || name == "light"
  {
    match t
    case Dark => "dark"
    case Light => "light"
  }

  /** The theme a stored value names, if it names one. */
  function Parse(stored: Option<string>): (t: Option<Theme>)
    ensures t.Some? <==> stored.Some? && (stored.value == "dark" || stored.value == "light")
    ensures t.Some? ==> Name(t.value) == stored.value
  {
    if stored == Some("light") then Some(Light)
    else if stored == Some("dark") then Some(Dark)
    else None
  }

  /** `prev === "dark" ? "light" : "dark"`. */
  function Toggle(t: Theme): (r: Theme)
    ensures r != t
  {
    if t == Dark then Light else Dark
  }

  /** Toggling twice gives back the theme. */
  lemma ToggleTwice(t: Theme)
    ensures Toggle(Toggle(t)) == t
  {
  }

  /**
   * The mount effect: a stored "light" or "dark" wins; otherwise a light
   * system preference gives light; otherwise the theme is left as it was.
   */
  function Resolve(stored: Option<string>, prefersLight: bool, current: Theme): (t: Theme)
    ensures Parse(stored).Some? ==> t == Parse(stored).value
    ensures Parse(stored).None? && prefersLight ==> t == Light
    ensures Parse(stored).None? && !prefersLight ==> t == current
  {
    if stored == Some("light") || stored == Some("dark") then Parse(stored).value
    else if prefersLight then Light
    else current
  }

  /**
   * The head script: the "dark" class is removed for a stored "light", or for
   * no stored value (null or empty) under a light system preference.
   */
  function ScriptRemovesDark(stored: Option<string>, prefersLight: bool): (removes: bool)
    ensures stored == Some("light") ==> removes
    ensures stored == Some("dark") ==> !removes
  {
    stored == Some("light") || ((stored.None? || stored.value == "") && prefersLight)
  }

  /**
   * The script and the provider start in the same theme except in one case: a
   * stored value other than "light", "dark" or "" under a light system
   * preference, where the script keeps dark and the provider picks light.
   */
  lemma ScriptAgreesWithProvider(stored: Option<string>, prefersLight: bool)
    ensures (ScriptRemovesDark(stored, prefersLight) <==> Resolve(stored, prefersLight, Dark) == Light)
      <==> !(stored.Some? && stored.value != "light" && stored.value != "dark" && stored.value != "" && prefersLight)
  {
  }

  /** The provider, with the storage and the root element's classes it writes. */
  class ThemeProvider {
    var theme: Theme
    var storage: map<string, string>
    var rootClasses: set<string>

    /** The storage and the classes agree with the theme. */
    predicate Synced()
      reads this
    {
      && STORAGE_KEY in storage && storage[STORAGE_KEY] == Name(theme)
      && (DARK_CLASS in rootClasses <==> theme == Dark)
    }

    /** The first render: the theme is dark, whatever the page already holds. */
    constructor (storage: map<string, string>, rootClasses: set<string>)
      ensures theme == Dark && this.storage == storage && this.rootClasses == rootClasses
    {
      theme := Dark;
      this.storage := storage;
      this.rootClasses := rootClasses;
    }

    /** The `[theme]` effect: set or clear the "dark" class, then store the theme. */
    method Sync()
      modifies this
      ensures Synced()
      ensures theme == old(theme)
      ensures storage == old(storage)[STORAGE_KEY := Name(theme)]
      ensures rootClasses - {DARK_CLASS} == old(rootClasses) - {DARK_CLASS}
    {
      if theme == Dark {
        rootClasses := rootClasses + {DARK_CLASS};
      } else {
        rootClasses := rootClasses - {DARK_CLASS};
      }
      storage := storage[STORAGE_KEY := Name(theme)];
    }

    /**
     * Mounting: the resolution effect reads the stored value, the sync effect
     * then runs for the first theme, and again once the resolved theme is set
     * if it differs. `prefersLight` stands for the `prefers-color-scheme` query.
     */
    method Mount(prefersLight: bool)
      modifies this
      ensures theme == Resolve(
        if STORAGE_KEY in old(storage) then Some(old(storage)[STORAGE_KEY]) else None,
        prefersLight, old(theme))
      ensures Synced()
      ensures storage == old(storage)[STORAGE_KEY := Name(theme)]
      ensures rootClasses - {DARK_CLASS} == old(rootClasses) - {DARK_CLASS}
    {
      var stored := if STORAGE_KEY in storage then Some(storage[STORAGE_KEY]) else None;
      var resolved := Resolve(stored, prefersLight, theme);
      Sync();
      if resolved != theme {
        theme := resolved;
        Sync();
      }
    }

    /** `toggleTheme`: mark the switch on the root, flip the theme, and sync. */
    method ToggleTheme()
      modifies this
      ensures theme == Toggle(old(theme))
      ensures Synced()
      ensures storage == old(storage)[STORAGE_KEY := Name(theme)]
      ensures SWITCHING_CLASS in rootClasses
      ensures rootClasses - {DARK_CLASS, SWITCHING_CLASS} == old(rootClasses) - {DARK_CLASS, SWITCHING_CLASS}
    {
      rootClasses := rootClasses + {SWITCHING_CLASS};
      theme := Toggle(theme);
      assert SWITCHING_CLASS[0] != DARK_CLASS[0];
      ghost var marked := rootClasses;
      Sync();
      assert SWITCHING_CLASS in rootClasses - {DARK_CLASS};
      assert rootClasses - {DARK_CLASS, SWITCHING_CLASS} == (marked - {DARK_CLASS}) - {SWITCHING_CLASS};
    }

    /** The 600 ms timer set by `toggleTheme` firing (its delay is not modelled): the switching class goes. */
    method SwitchingTimerFires()
      modifies this
      ensures rootClasses == old(rootClasses) - {SWITCHING_CLASS}
      ensures theme == old(theme) && storage == old(storage)
      ensures old(Synced()) ==> Synced()
    {
      rootClasses := rootClasses - {SWITCHING_CLASS};
    }
  }

  /**
   * A stored choice survives a reload: after a sync, mounting again (in a
   * fresh provider, whatever the preference) restores the same theme.
   */
  lemma StoredChoiceIsRestored(storage: map<string, string>, theme: Theme, prefersLight: bool)
    requires STORAGE_KEY in storage && storage[STORAGE_KEY] == Name(theme)
    ensures Resolve(Some(storage[STORAGE_KEY]), prefersLight, Dark) == theme
  {
  }
}
