/** The theme context: the current theme, the `theme` key of
    `localStorage`, and the `dark` class on the document's root element.

    The stored value is cast to the theme type without being checked, so
    the model keeps the theme as a string; only the exact text "dark"
    turns the dark class on. */
module Theme {
  import opened Common
  import opened Browser

  const ThemeKey := "theme"
  const Light := "light"
  const Dark := "dark"
  const DarkClass := "dark"
  const OutsideProviderMessage := "useTheme must be used within a ThemeProvider"

  /** The choice the mount effect makes: a non-empty stored theme wins;
      otherwise the system preference decides between dark and light. */
  function InitialTheme(stored: Option<string>, prefersDark: bool): (theme: string)
    ensures stored.Some? && stored.value != "" ==> theme == stored.value
    ensures stored.None? || stored.value == "" ==>
      (theme == Dark <==> prefersDark) && (theme == Light <==> !prefersDark)
  {
    if stored.Some? && stored.value != "" then stored.value
    else if prefersDark then Dark
    else Light
  }

  class ThemeProvider {
    var theme: string
    const store: Storage
    const root: ClassList

    /** What the second effect establishes after every change of theme:
        storage holds the theme and the dark class matches it. */
    ghost predicate Synced()
      reads this, store, root
    {
      store.GetItem(ThemeKey) == Some(theme) && (DarkClass in root.names <==> theme == Dark)
    }

    /** The first render, before any effect has run. */
    constructor (store: Storage, root: ClassList)
      ensures this.store == store && this.root == root
      ensures theme == Light
    {
      this.store := store;
      this.root := root;
      theme := Light;
    }

    /** The effect that runs whenever `theme` changes. */
    method Apply()
      modifies store, root
      ensures Synced()
      ensures store.entries == old(store.entries)[ThemeKey := theme]
      ensures root.names - {DarkClass} == old(root.names) - {DarkClass}
    {
      root.Toggle(DarkClass, theme == Dark);
      store.SetItem(ThemeKey, theme);
    }

    /** Mounting: the first effect reads storage and picks the theme, the
        second effect runs once with the initial theme and again with the
        chosen one. */
    method Mount(prefersDark: bool)
      modifies this, store, root
      ensures theme == InitialTheme(old(store.GetItem(ThemeKey)), prefersDark)
      ensures Synced()
      ensures store.entries == old(store.entries)[ThemeKey := theme]
      ensures root.names - {DarkClass} == old(root.names) - {DarkClass}
    {
      var storedTheme := store.GetItem(ThemeKey);
      var chosen := if storedTheme.Some? && storedTheme.value != "" then storedTheme.value
                    else if prefersDark then Dark
                    else Light;
      Apply();
      theme := chosen;
      Apply();
    }

    /** `setTheme(t)` followed by the effect it triggers. */
    method SetTheme(t: string)
      modifies this, store, root
      ensures theme == t
      ensures Synced()
      ensures store.entries == old(store.entries)[ThemeKey := t]
      ensures root.names - {DarkClass} == old(root.names) - {DarkClass}
    {
      theme := t;
      Apply();
    }
  }

  /** `useTheme()`: the nearest provider, or an error outside of one. */
  function UseTheme(context: Option<ThemeProvider>): (r: Result<ThemeProvider>)
    ensures r.Success? <==> context.Some?
    ensures r.Success? ==> r.value == context.value
    ensures r.Failure? ==> r.message == OutsideProviderMessage
  {
    match context
    case Some(provider) => Success(provider)
    case None => Failure(OutsideProviderMessage)
  }
}
