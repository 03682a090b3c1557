/** The zustand theme store of src/shared/styles/useThemeStore.ts; the
    browser's `localStorage` is a map owned by the store, the OS preference
    a parameter. */
module ThemeStore {
  import opened Theme

  class ThemeStore {
    var mode: ThemeMode
    var storage: map<string, string>

    constructor (storage: map<string, string>, prefersDark: bool)
      ensures this.storage == storage
      ensures mode == InitialMode(Stored(storage), prefersDark)
    {
      this.storage := storage;
      mode := InitialMode(Stored(storage), prefersDark);
    }

    /** `toggleTheme`: flip the mode and persist the new value. */
    method ToggleTheme()
      modifies this
      ensures mode == Toggled(old(mode))
      ensures storage == old(storage)[StorageKey := ModeName(mode)]
    {
      var next := Toggled(mode);
      storage := storage[StorageKey := ModeName(next)];
      mode := next;
    }
  }
}
