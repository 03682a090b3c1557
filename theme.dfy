/** The theme-mode rules shared by src/shared/styles/useThemeStore.ts and
    src/shared/styles/ThemeContext.tsx. */
module Theme {
  import opened Common

  datatype ThemeMode = Light | Dark

  const StorageKey := "theme-mode"

  function ModeName(m: ThemeMode): string {
    match m
    case Light => "light"
    case Dark => "dark"
  }

  /** `getInitialMode`: a stored `dark` or `light` wins; anything else (or
      nothing) falls back to the OS preference. */
  function InitialMode(stored: Option<string>, prefersDark: bool): (m: ThemeMode)
    ensures stored == Some("dark") ==> m == Dark
    ensures stored == Some("light") ==> m == Light
    ensures stored != Some("dark") && stored != Some("light") ==> (m == Dark <==> prefersDark)
  {
    if stored == Some("dark") then Dark
    else if stored == Some("light") then Light
    else if prefersDark then Dark else Light
  }

  /** `localStorage.getItem(STORAGE_KEY)`. */
  function Stored(storage: map<string, string>): Option<string> {
    if StorageKey in storage then Some(storage[StorageKey]) else None
  }

  /** `state.mode === "light" ? "dark" : "light"`. */
  function Toggled(m: ThemeMode): (r: ThemeMode)
    ensures r != m
  {
    if m == Light then Dark else Light
  }

  /** Toggling twice restores the mode, and a mode written to storage is the
      one read back at the next start, whatever the OS prefers. */
  lemma ToggleAndPersist(m: ThemeMode, storage: map<string, string>, prefersDark: bool)
    ensures Toggled(Toggled(m)) == m
    ensures InitialMode(Stored(storage[StorageKey := ModeName(m)]), prefersDark) == m
  {
  }
}
