/**
 * The simplified context example's provider: one context carries the theme
 * flag, another the function that toggles it, and two custom hooks read them.
 */
module ThemeContextProvider {
  import opened Hooks

  /** `createContext<boolean>(false)` */
  const ThemeContext: Context<bool> := Context(false)

  /** The value of the update context; `toggleTheme` is given as its effect on the provider's flag. */
  datatype ThemeUpdateContextValue = ThemeUpdateContextValue(toggleTheme: bool -> bool)

  /** The default `{toggleTheme: () => {}}` changes nothing. */
  const ThemeUpdateContext: Context<ThemeUpdateContextValue> :=
    Context(ThemeUpdateContextValue(previous => previous))

  /** `useTheme()`, given the value of the nearest `ThemeProvider`, if any. */
  function UseTheme(provider: Option<bool>): (r: bool)
    ensures provider.Some? ==> r == provider.value
    ensures provider.None? ==> r == false
  {
    UseContext(ThemeContext, provider)
  }

  /** `useThemeUpdate()`, given the value of the nearest `ThemeProvider`, if any. */
  function UseThemeUpdate(provider: Option<ThemeUpdateContextValue>): (r: ThemeUpdateContextValue)
    ensures provider.Some? ==> r == provider.value
    ensures provider.None? ==> forall flag :: r.toggleTheme(flag) == flag
  {
    UseContext(ThemeUpdateContext, provider)
  }

  /** Outside a provider the theme is light and toggling does nothing. */
  lemma DefaultsOutsideProvider(flag: bool)
    ensures UseTheme(None) == false
    ensures UseThemeUpdate(None).toggleTheme(flag) == flag
  {
  }

  class ThemeProvider {
    var darkTheme: bool

    constructor ()
      ensures darkTheme == false
    {
      darkTheme := false;
    }

    /** The value the provider passes to `ThemeContext.Provider`. */
    function ThemeValue(): (v: Option<bool>)
      reads this
    {
      Some(darkTheme)
    }

    /** The value the provider passes to `ThemeUpdateContext.Provider`. */
    function UpdateValue(): Option<ThemeUpdateContextValue>
    {
      Some(ThemeUpdateContextValue(Negate))
    }

    /** `setDarkTheme(prevDarkTheme => !prevDarkTheme)` */
    method ToggleTheme()
      modifies this
      ensures darkTheme == UseThemeUpdate(UpdateValue()).toggleTheme(old(darkTheme))
      ensures darkTheme == !old(darkTheme)
    {
      darkTheme := Negate(darkTheme);
    }
  }

  /** Inside the provider `useTheme()` is the provider's flag and `toggleTheme` negates it. */
  lemma HooksInsideProvider(p: ThemeProvider, flag: bool)
    ensures UseTheme(p.ThemeValue()) == p.darkTheme
    ensures UseThemeUpdate(p.UpdateValue()).toggleTheme(flag) == !flag
  {
  }

  /** After `n` toggles of a fresh provider the flag is on exactly when `n` is odd. */
  lemma ProviderFlagAfterToggles(n: nat)
    ensures ToggledTimes(false, n) == (n % 2 == 1)
  {
    ToggledTimesParity(false, n);
  }
}
