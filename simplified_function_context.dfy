/** The consumer of the simplified context example: it shows the theme and toggles it. */
module SimplifiedFunctionContext {
  import opened Hooks
  import opened Styles
  import opened ThemeContextProvider

  function ThemeStyles(dark: bool): (r: ContextStyle)
    ensures Contrasting(r.backgroundColor, r.color)
    ensures r.backgroundColor == (if dark then BLACK else WHITE)
    ensures r.padding == "2rem" && r.margin == "2rem" && r.border == "1px black solid"
  {
    ContextStyle(
      if dark then BLACK else WHITE,
      if dark then WHITE else BLACK,
      "2rem", "2rem", "1px black solid")
  }

  /** The displayed style: `themeStyles(useTheme())`. */
  function Render(provider: Option<bool>): (r: ContextStyle)
    ensures provider.Some? ==> r == ThemeStyles(provider.value)
    ensures provider.None? ==> r.backgroundColor == WHITE && r.color == BLACK
  {
    ThemeStyles(UseTheme(provider))
  }

  /** The button calls the provider's `toggleTheme`, so the next render shows the other theme. */
  method ClickToggle(provider: ThemeProvider)
    modifies provider
    ensures provider.darkTheme == !old(provider.darkTheme)
    ensures Render(provider.ThemeValue()) == ThemeStyles(!old(UseTheme(provider.ThemeValue())))
  {
    provider.ToggleTheme();
  }
}
