/**
 * What holds across the context files: the three copies of `themeStyles` are
 * one mapping, and the two basic consumers below the parent's provider show
 * the same flag.
 */
module ContextConsumers {
  import UseContextParent
  import FunctionContext
  import ClassContext
  import SimplifiedFunctionContext

  /** The three copies of `themeStyles` agree on every flag. */
  lemma ThemeStylesCopiesAgree(dark: bool)
    ensures FunctionContext.ThemeStyles(dark) == ClassContext.ThemeStyles(dark)
    ensures ClassContext.ThemeStyles(dark) == SimplifiedFunctionContext.ThemeStyles(dark)
  {
  }

  /** A rendered style reveals the flag it was built from. */
  lemma ThemeStylesDetermineFlag(a: bool, b: bool)
    ensures FunctionContext.ThemeStyles(a) == FunctionContext.ThemeStyles(b) <==> a == b
  {
    if FunctionContext.ThemeStyles(a) == FunctionContext.ThemeStyles(b) {
      assert FunctionContext.ThemeStyles(a).backgroundColor == FunctionContext.ThemeStyles(b).backgroundColor;
    }
  }

  /** Both basic consumers below the parent's provider render the parent's current flag. */
  lemma ConsumersShowProviderValue(p: UseContextParent.UseContextParentComponent)
    ensures FunctionContext.Render(p.ProviderValue()) == FunctionContext.ThemeStyles(p.darkTheme)
    ensures ClassContext.Render(p.ProviderValue()) == FunctionContext.Render(p.ProviderValue())
  {
  }
}
