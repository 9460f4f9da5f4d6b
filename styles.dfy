/**
 * The inline style object the three theme-context consumers each build with
 * their own copy of `themeStyles`, and the two colours every theme swaps.
 */
module Styles {

  const BLACK: string := "black"
  const WHITE: string := "white"

  datatype ContextStyle = ContextStyle(
    backgroundColor: string,
    color: string,
    padding: string,
    margin: string,
    border: string)

  /** Black on white or white on black: the text is never the colour of its background. */
  predicate Contrasting(backgroundColor: string, color: string)
  {
    (backgroundColor == BLACK && color == WHITE) || (backgroundColor == WHITE && color == BLACK)
  }
}
