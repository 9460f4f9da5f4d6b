/** The function consumer of the basic context example. */
module FunctionContext {
  import opened Hooks
  import opened Styles
  import UseContextParent

  function ThemeStyles(dark: bool): (r: ContextStyle)
    ensures Contrasting(r.backgroundColor, r.color)
    ensures r.backgroundColor == (if dark then BLACK else WHITE)
    ensures r.padding == "2rem" && r.margin == "2rem" && r.border == "1px black solid"
  {
    ContextStyle(
      if dark then BLACK else WHITE,
      if dark then WHITE else BLACK,
      "2rem", "2rem", "1px black solid")
  }

  /** The style of the rendered `div`, given the nearest provider's value, if any. */
  function Render(provider: Option<bool>): (r: ContextStyle)
    ensures provider.Some? ==> r == ThemeStyles(provider.value)
    ensures provider.None? ==> r.backgroundColor == WHITE && r.color == BLACK
  {
    ThemeStyles(UseContext(UseContextParent.ThemeContext, provider))
  }
}
