/**
 * The basic context example's parent: it owns the theme flag and hands it to
 * every consumer below its `ThemeContext.Provider`.
 */
module UseContextParent {
  import opened Hooks

  /** The exported `createContext<boolean>(false)` the two basic consumers read. */
  const ThemeContext: Context<bool> := Context(false)

  class UseContextParentComponent {
    var darkTheme: bool

    /** Unlike the simplified provider, the parent starts dark. */
    constructor ()
      ensures darkTheme == true
    {
      darkTheme := true;
    }

    /** The provider's `value` prop. */
    function ProviderValue(): Option<bool>
      reads this
    {
      Some(darkTheme)
    }

    /** `setDarkTheme(prevDarkTheme => !prevDarkTheme)` */
    method HandleToggleTheme()
      modifies this
      ensures darkTheme == Negate(old(darkTheme))
    {
      darkTheme := Negate(darkTheme);
    }
  }

  /** Below the provider, `useContext(ThemeContext)` is the parent's flag; elsewhere the default `false`. */
  lemma ContextValueBelowProvider(p: UseContextParentComponent)
    ensures UseContext(ThemeContext, p.ProviderValue()) == p.darkTheme
    ensures UseContext(ThemeContext, None) == false
  {
  }
}
