/**
 * Theme resolution (hooks/useTheme.ts): the stored preference, the palette the
 * sync effect installs, `isDarkMode`, the validation of a saved preference, and the
 * two toggles of the profile screen (app/profile.tsx) that are defined in terms of them.
 */
module Theme {
  import opened Wrappers
  import Storage

  datatype ThemePreference = Light | Dark | System

  /** What `useColorScheme` reports; `NoScheme` is its null. */
  datatype ColorScheme = SchemeLight | SchemeDark | NoScheme

  /** The two palette objects `lightTheme` and `darkTheme`; their contents are style constants. */
  datatype Palette = LightTheme | DarkTheme

  const ThemeStorageKey: string := "@rosebudai:theme"

  function PreferenceName(p: ThemePreference): string
  {
    match p
    case Light => "light"
    case Dark => "dark"
    case System => "system"
  }

  /** `savedTheme && ['light', 'dark', 'system'].includes(savedTheme)`, with the preference it names. */
  function ParsePreference(saved: Option<string>): (r: Option<ThemePreference>)
    ensures r.Some? <==> saved.Some? && saved.value in ["light", "dark", "system"]
    ensures r.Some? ==> PreferenceName(r.value) == saved.value
  {
    if saved.None? || saved.value == "" then None
    else if saved.value == "light" then Some(Light)
    else if saved.value == "dark" then Some(Dark)
    else if saved.value == "system" then Some(System)
    else None
  }

  /** `getActiveTheme`. */
  function ActiveTheme(pref: ThemePreference, scheme: ColorScheme): Palette
  {
    if pref == System then (if scheme == SchemeDark then DarkTheme else LightTheme)
    else if pref == Dark then DarkTheme
    else LightTheme
  }

  /** The `isDarkMode` the hook returns. */
  predicate IsDarkMode(pref: ThemePreference, scheme: ColorScheme)
  {
    pref == Dark || (pref == System && scheme == SchemeDark)
  }

  /** `toggleTheme` on the profile screen: the explicit theme opposite to the current mode. */
  function ToggleThemeTarget(pref: ThemePreference, scheme: ColorScheme): ThemePreference
  {
    if IsDarkMode(pref, scheme) then Light else Dark
  }

  /** `toggleSystemTheme`: away from 'system' to the matching explicit theme, or back to 'system'. */
  function ToggleSystemTarget(pref: ThemePreference, scheme: ColorScheme): ThemePreference
  {
    if pref == System then (if IsDarkMode(pref, scheme) then Dark else Light) else System
  }

  /** The zustand theme store. */
  class ThemeStore {
    var theme: ThemePreference
    var currentTheme: Palette

    constructor ()
      ensures theme == System && currentTheme == LightTheme
    {
      theme := System;
      currentTheme := LightTheme;
    }

    /** `setTheme`: the preference changes, then it is written; a rejected write rejects the call. */
    method SetTheme(t: ThemePreference, storage: Storage.KeyValueStore, writeOk: bool)
      returns (rejected: bool)
      modifies this`theme, storage
      ensures theme == t && currentTheme == old(currentTheme)
      ensures rejected == !writeOk
      ensures storage.items == if writeOk then old(storage.items)[ThemeStorageKey := PreferenceName(t)]
                               else old(storage.items)
    {
      theme := t;
      storage.SetItem(ThemeStorageKey, PreferenceName(t), writeOk);
      rejected := !writeOk;
    }

    /** The effect that keeps `currentTheme` in step; it writes only when the palette differs. */
    method SyncCurrentTheme(scheme: ColorScheme) returns (wrote: bool)
      modifies this`currentTheme
      ensures currentTheme == ActiveTheme(theme, scheme)
      ensures wrote <==> old(currentTheme) != ActiveTheme(theme, scheme)
    {
      var activeTheme := ActiveTheme(theme, scheme);
      wrote := activeTheme != currentTheme;
      if wrote {
        currentTheme := activeTheme;
      }
    }

    /**
     * `loadThemePreference`: a saved valid preference is applied, anything else is ignored.
     * `readOk` is false when the read rejects; `writeOk` is the outcome of `setTheme`'s own write.
     */
    method LoadThemePreference(storage: Storage.KeyValueStore, readOk: bool, writeOk: bool)
      modifies this`theme, storage
      ensures var saved := if readOk then ParsePreference(old(storage.GetItem(ThemeStorageKey))) else None;
              && theme == (if saved.Some? then saved.value else old(theme))
              && storage.items == if saved.Some? && writeOk
                                  then old(storage.items)[ThemeStorageKey := PreferenceName(saved.value)]
                                  else old(storage.items)
      ensures currentTheme == old(currentTheme)
    {
      if readOk {
        var saved := ParsePreference(storage.GetItem(ThemeStorageKey));
        if saved.Some? {
          var _ := SetTheme(saved.value, storage, writeOk);
        }
      }
    }
  }

  // ---- Properties ----

  /** `isDarkMode` holds exactly when the active theme is the dark one. */
  lemma DarkModeAgreesWithActiveTheme(pref: ThemePreference, scheme: ColorScheme)
    ensures IsDarkMode(pref, scheme) <==> ActiveTheme(pref, scheme) == DarkTheme
  {
  }

  /** 'system' follows the device only when it reports exactly 'dark'; explicit choices ignore it. */
  lemma ActiveThemeRules(pref: ThemePreference, scheme: ColorScheme)
    ensures pref != System ==> ActiveTheme(pref, scheme) == (if pref == Dark then DarkTheme else LightTheme)
    ensures pref == System ==> (ActiveTheme(pref, scheme) == DarkTheme <==> scheme == SchemeDark)
  {
  }

  /** A preference that was written reads back as itself. */
  lemma PreferenceRoundTrip(p: ThemePreference)
    ensures ParsePreference(Some(PreferenceName(p))) == Some(p)
  {
  }

  /** The dark-mode toggle always flips `isDarkMode`. */
  lemma ToggleThemeFlips(pref: ThemePreference, scheme: ColorScheme)
    ensures IsDarkMode(ToggleThemeTarget(pref, scheme), scheme) == !IsDarkMode(pref, scheme)
  {
  }

  /** The system toggle keeps the look when leaving 'system', and goes to 'system' otherwise. */
  lemma ToggleSystemKeepsMode(pref: ThemePreference, scheme: ColorScheme)
    ensures pref == System ==>
              ToggleSystemTarget(pref, scheme) != System
              && IsDarkMode(ToggleSystemTarget(pref, scheme), scheme) == IsDarkMode(pref, scheme)
    ensures pref != System ==> ToggleSystemTarget(pref, scheme) == System
  {
  }

  /** Once the effect has run on a store for a scheme, running it again writes nothing. */
  method SecondSyncWritesNothing(store: ThemeStore, scheme: ColorScheme)
    returns (installed: Palette, secondWrote: bool)
    modifies store
    ensures store.theme == old(store.theme)
    ensures installed == ActiveTheme(store.theme, scheme) && store.currentTheme == installed
    ensures !secondWrote
  {
    var _ := store.SyncCurrentTheme(scheme);
    installed := store.currentTheme;
    secondWrote := store.SyncCurrentTheme(scheme);
  }
}
