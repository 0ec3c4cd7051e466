/**
 * `ThemeContext` of context/ThemeContext.tsx: the theme mode (`light`, `dark` or `system`),
 * the palette it selects and the `isDark` flag, persisted under `@app_theme_mode`.
 *
 * The operating system's colour scheme (`Appearance.getColorScheme()`) is passed in where
 * the source reads it. The palettes' contents are not modelled, only which one is chosen.
 */
module ThemeContext {
  import opened Wrappers
  import opened Http
  import opened Storage

  datatype ThemeMode = LightMode | DarkMode | SystemMode

  /** `ColorSchemeName`: `'light'`, `'dark'`, or null when the system states no preference. */
  datatype ColorScheme = SchemeLight | SchemeDark | NoPreference

  datatype Palette = LightPalette | DarkPalette

  const ThemeStorageKey := "@app_theme_mode"

  /** `getSystemTheme`: dark only for a dark system scheme; no preference counts as light. */
  function SystemTheme(system: ColorScheme): (m: ThemeMode)
    ensures m != SystemMode
    ensures m == DarkMode <==> system == SchemeDark
  {
    if system == SchemeDark then DarkMode else LightMode
  }

  /** `getThemeFromMode`. */
  function ThemeFromMode(mode: ThemeMode, system: ColorScheme): (p: Palette)
    ensures p == DarkPalette <==> mode == DarkMode || (mode == SystemMode && system == SchemeDark)
  {
    if mode == SystemMode then (if SystemTheme(system) == DarkMode then DarkPalette else LightPalette)
    else if mode == DarkMode then DarkPalette else LightPalette
  }

  /** The `isDark` expression `setTheme` and `loadTheme` compute beside the palette. */
  predicate DarkFor(mode: ThemeMode, system: ColorScheme) {
    mode == DarkMode || (mode == SystemMode && SystemTheme(system) == DarkMode)
  }

  /** The palette and the flag computed for the same mode and scheme always agree. */
  lemma DarkForMatchesPalette(mode: ThemeMode, system: ColorScheme)
    ensures DarkFor(mode, system) <==> ThemeFromMode(mode, system) == DarkPalette
  {
  }

  /** The string a mode is stored as. */
  function ModeName(m: ThemeMode): string {
    match m
    case LightMode => "light"
    case DarkMode => "dark"
    case SystemMode => "system"
  }

  /** `savedMode && ['light', 'dark', 'system'].includes(savedMode)`. */
  function ParseMode(saved: Option<string>): (r: Option<ThemeMode>)
    ensures r.Some? <==> saved.Some? && saved.value in {"light", "dark", "system"}
  {
    if saved == Some("light") then Some(LightMode)
    else if saved == Some("dark") then Some(DarkMode)
    else if saved == Some("system") then Some(SystemMode)
    else None
  }

  /** What is stored is read back as the same mode, and a mode read back is stored exactly so. */
  lemma ModeNameRoundTrip(m: ThemeMode, saved: Option<string>)
    ensures ParseMode(Some(ModeName(m))) == Some(m)
    ensures ParseMode(saved) == Some(m) ==> saved == Some(ModeName(m))
  {
  }

  /** `toggleTheme`'s choice of the next mode: light, then dark, then system, then light. */
  function NextMode(m: ThemeMode): (n: ThemeMode)
    ensures n != m
  {
    match m
    case LightMode => DarkMode
    case DarkMode => SystemMode
    case SystemMode => LightMode
  }

  /** Three toggles return to the starting mode, and every mode is reached on the way. */
  lemma ThreeTogglesReturn(m: ThemeMode, target: ThemeMode)
    ensures NextMode(NextMode(NextMode(m))) == m
    ensures target == m || target == NextMode(m) || target == NextMode(NextMode(m))
  {
  }

  class ThemeProvider {
    const store: Store
    var mode: ThemeMode
    var theme: Palette
    var isDark: bool

    /**
     * `isDark` agrees with the palette, and an explicit light or dark mode has its own
     * palette (only `system` lets the palette follow the operating system).
     */
    predicate Valid()
      reads this
    {
      && (isDark <==> theme == DarkPalette)
      && (mode == LightMode ==> theme == LightPalette)
      && (mode == DarkMode ==> theme == DarkPalette)
    }

    /** The initial state: `system` mode, palette and flag from the current scheme. */
    constructor (store: Store, system: ColorScheme)
      ensures Valid() && this.store == store
      ensures mode == SystemMode && theme == ThemeFromMode(SystemMode, system)
      ensures isDark == (SystemTheme(system) == DarkMode)
    {
      this.store := store;
      mode := SystemMode;
      theme := ThemeFromMode(SystemMode, system);
      isDark := SystemTheme(system) == DarkMode;
    }

    /** `loadTheme`: adopt a valid stored mode; a rejected read or anything else changes nothing. */
    method LoadTheme(system: ColorScheme)
      requires Valid()
      modifies this, store
      ensures Valid()
      ensures store.entries == old(store.entries) && store.log == old(store.log) + [GetOp(ThemeStorageKey)]
      ensures store.failing == old(store.failing)
      ensures var saved := ReadResult(old(store.entries), old(store.failing), ThemeStorageKey);
        if saved.Success? && ParseMode(saved.value).Some? then
          var m := ParseMode(saved.value).value;
          mode == m && theme == ThemeFromMode(m, system) && isDark == DarkFor(m, system)
        else
          mode == old(mode) && theme == old(theme) && isDark == old(isDark)
    {
      var saved := store.GetItem(ThemeStorageKey);
      if saved.Success? {
        var parsed := ParseMode(saved.value);
        if parsed.Some? {
          var themeMode := parsed.value;
          mode := themeMode;
          theme := ThemeFromMode(themeMode, system);
          isDark := DarkFor(themeMode, system);
        }
      }
    }

    /** The appearance listener: only in `system` mode does the palette follow the new scheme. */
    method OnAppearanceChange(colorScheme: ColorScheme)
      requires Valid()
      modifies this
      ensures Valid() && mode == old(mode)
      ensures old(mode) == SystemMode ==>
        theme == (if colorScheme == SchemeDark then DarkPalette else LightPalette) && isDark == (colorScheme == SchemeDark)
      ensures old(mode) != SystemMode ==> theme == old(theme) && isDark == old(isDark)
    {
      if mode == SystemMode {
        theme := if colorScheme == SchemeDark then DarkPalette else LightPalette;
        isDark := colorScheme == SchemeDark;
      }
    }

    /** `setTheme`: persist first; only when the write went through does the state change. */
    method SetTheme(newMode: ThemeMode, system: ColorScheme)
      requires Valid()
      modifies this, store
      ensures Valid()
      ensures store.failing == old(store.failing)
      ensures store.log == old(store.log) + [SetOp(ThemeStorageKey, ModeName(newMode))]
      ensures ThemeStorageKey !in store.failing ==>
        && store.entries == old(store.entries)[ThemeStorageKey := ModeName(newMode)]
        && mode == newMode && theme == ThemeFromMode(newMode, system) && isDark == DarkFor(newMode, system)
      ensures ThemeStorageKey in store.failing ==>
        store.entries == old(store.entries) && mode == old(mode) && theme == old(theme) && isDark == old(isDark)
    {
      var ok := store.SetItem(ThemeStorageKey, ModeName(newMode));
      if ok {
        mode := newMode;
        theme := ThemeFromMode(newMode, system);
        isDark := newMode == DarkMode || (newMode == SystemMode && SystemTheme(system) == DarkMode);
      }
    }

    /** `toggleTheme`: `setTheme` of the next mode in the cycle. */
    method ToggleTheme(system: ColorScheme)
      requires Valid()
      modifies this, store
      ensures Valid()
      ensures store.failing == old(store.failing)
      ensures store.log == old(store.log) + [SetOp(ThemeStorageKey, ModeName(NextMode(old(mode))))]
      ensures ThemeStorageKey !in store.failing ==>
        var next := NextMode(old(mode));
        && store.entries == old(store.entries)[ThemeStorageKey := ModeName(next)]
        && mode == next && theme == ThemeFromMode(next, system) && isDark == DarkFor(next, system)
      ensures ThemeStorageKey in store.failing ==>
        store.entries == old(store.entries) && mode == old(mode) && theme == old(theme) && isDark == old(isDark)
    {
      var newMode: ThemeMode;
      if mode == LightMode {
        newMode := DarkMode;
      } else if mode == DarkMode {
        newMode := SystemMode;
      } else {
        newMode := LightMode;
      }
      SetTheme(newMode, system);
    }
  }
}
