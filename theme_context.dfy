/** The theme context of src/shared/styles/ThemeContext.tsx: the provider's
    mode state and toggle, the theme it selects, and `useThemeMode`. */
module ThemeContext {
  import opened Common
  import opened Theme

  datatype AppTheme = LightTheme | DarkTheme

  /** `mode === 'light' ? lightTheme : darkTheme`. */
  function SelectTheme(mode: ThemeMode): (t: AppTheme)
    ensures t == LightTheme <==> mode == Light
  {
    if mode == Light then LightTheme else DarkTheme
  }

  datatype ThemeContextValue = ThemeContextValue(mode: ThemeMode)

  datatype Result<+T> = Ok(value: T) | Thrown(message: string)

  const OutsideProviderMessage := "useThemeMode must be used within ThemeModeProvider"

  /** `useThemeMode`: throws when no provider is above the caller. */
  function UseThemeMode(ctx: Option<ThemeContextValue>): (r: Result<ThemeContextValue>)
    ensures r.Thrown? <==> ctx.None?
    ensures r.Thrown? ==> r.message == OutsideProviderMessage
    ensures r.Ok? ==> r.value == ctx.value
  {
    if ctx.None? then Thrown(OutsideProviderMessage) else Ok(ctx.value)
  }

  class ThemeModeProvider {
    var mode: ThemeMode
    var storage: map<string, string>

    /** `useState(getInitialMode)`. */
    constructor (storage: map<string, string>, prefersDark: bool)
      ensures this.storage == storage
      ensures mode == InitialMode(Stored(storage), prefersDark)
    {
      this.storage := storage;
      mode := InitialMode(Stored(storage), prefersDark);
    }

    /** `toggleTheme`: the updater flips the mode and persists the new value. */
    method ToggleTheme()
      modifies this
      ensures mode == Toggled(old(mode))
      ensures storage == old(storage)[StorageKey := ModeName(mode)]
    {
      var next := Toggled(mode);
      storage := storage[StorageKey := ModeName(next)];
      mode := next;
    }

    /** The context value the provider hands down. */
    function Value(): ThemeContextValue
      reads this
    {
      ThemeContextValue(mode)
    }
  }
}
