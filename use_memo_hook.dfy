/**
 * The useMemo demo: `doubleNumber` caches `slowFunction(number)` in a slot keyed
 * by `number`, and `themeStyle` is an object literal rebuilt on every render,
 * which an effect depending on `[themeStyle]` compares by reference. The
 * component's comment proposes memoising `themeStyle` on `[dark]`; both forms
 * are modelled, chosen once per component.
 */
module UseMemo {
  import opened Hooks
  import opened Styles

  /** An empty counting loop, then `num * 2`. */
  method SlowFunction(num: int) returns (r: int)
    ensures r == 2 * num
  {
    var index := 0;
    while index < 1000000000
    {
      index := index + 1;
    }
    r := num * 2;
  }

  datatype ThemeStyle = ThemeStyle(
    backgroundColor: string,
    color: string,
    width: string,
    margin: string,
    border: string,
    borderRadius: string,
    padding: string)

  function ThemeStyleFor(dark: bool): (r: ThemeStyle)
    ensures Contrasting(r.backgroundColor, r.color)
    ensures r.backgroundColor == (if dark then BLACK else WHITE)
    ensures r.width == "200px" && r.margin == "10px auto" && r.border == "1px solid black"
    ensures r.borderRadius == "5px" && r.padding == "20px"
  {
    ThemeStyle(
      if dark then BLACK else WHITE,
      if dark then WHITE else BLACK,
      "200px", "10px auto", "1px solid black", "5px", "20px")
  }

  /** Only the colours depend on `dark`, and they determine it. */
  lemma ThemeStyleOnlyColoursVary(a: bool, b: bool)
    ensures ThemeStyleFor(a).(backgroundColor := "", color := "")
            == ThemeStyleFor(b).(backgroundColor := "", color := "")
    ensures ThemeStyleFor(a) == ThemeStyleFor(b) <==> a == b
  {
  }

  /** A style object: every evaluation of the object literal allocates a new one. */
  class StyleObject {
    const style: ThemeStyle

    constructor (style: ThemeStyle)
      ensures this.style == style
    {
      this.style := style;
    }
  }

  class UseMemoHookComponent {
    /** False: `themeStyle` is a fresh literal each render, as written; true: wrapped in `useMemo(..., [dark])`. */
    const memoisedStyle: bool
    var number: int
    var dark: bool
    /** The useMemo slot of `doubleNumber`: its dependency and cached value. */
    var numberDep: int
    var cachedDouble: int
    /** How many times `slowFunction` has run. */
    var slowCalls: nat
    var doubleNumber: int
    /** The style object of the last render, and (when memoised) the `dark` it was built for. */
    var themeStyle: StyleObject
    var darkDep: bool
    /** How many times the `[themeStyle]` effect has run. */
    var themeEffectRuns: nat

    /** What the memo slots hold: always a value computed from their dependency. */
    ghost predicate SlotsConsistent()
      reads this
    {
      cachedDouble == 2 * numberDep && themeStyle.style == ThemeStyleFor(darkDep)
    }

    /** After a render the slots are keyed by the current state and show it. */
    ghost predicate Valid()
      reads this
    {
      SlotsConsistent() && numberDep == number && darkDep == dark && doubleNumber == cachedDouble
    }

    /** Mounting: initial state, first render, and the effect's first run. */
    constructor (memoisedStyle: bool)
      ensures Valid() && this.memoisedStyle == memoisedStyle
      ensures number == 0 && !dark && doubleNumber == 0
      ensures slowCalls == 1 && themeEffectRuns == 1
    {
      this.memoisedStyle := memoisedStyle;
      number, dark := 0, false;
      var v := SlowFunction(0);
      numberDep, cachedDouble, slowCalls, doubleNumber := 0, v, 1, v;
      themeStyle := new StyleObject(ThemeStyleFor(false));
      darkDep := false;
      themeEffectRuns := 1;
    }

    method Rerender()
      requires SlotsConsistent()
      modifies this
      ensures Valid()
      ensures number == old(number) && dark == old(dark)
      ensures doubleNumber == 2 * number
      ensures slowCalls == old(slowCalls) + (if old(numberDep) == number then 0 else 1)
      ensures (themeStyle == old(themeStyle)) == (memoisedStyle && old(darkDep) == dark)
      ensures themeStyle != old(themeStyle) ==> fresh(themeStyle)
      ensures themeEffectRuns == old(themeEffectRuns) + (if themeStyle == old(themeStyle) then 0 else 1)
    {
      // useMemo(() => slowFunction(number), [number])
      if numberDep != number {
        cachedDouble := SlowFunction(number);
        numberDep := number;
        slowCalls := slowCalls + 1;
      }
      doubleNumber := cachedDouble;
      // the style object literal, or useMemo(() => ({...}), [dark])
      var previous := themeStyle;
      if !memoisedStyle || darkDep != dark {
        themeStyle := new StyleObject(ThemeStyleFor(dark));
        darkDep := dark;
      }
      // useEffect(..., [themeStyle]) reruns when its dependency is another reference
      if themeStyle != previous {
        themeEffectRuns := themeEffectRuns + 1;
      }
    }

    /** The input's change handler, given the number it parsed, and the render it causes. */
    method HandleClick(value: int)
      requires Valid()
      modifies this
      ensures Valid()
      ensures number == value && dark == old(dark) && doubleNumber == 2 * value
      ensures slowCalls == old(slowCalls) + (if value == old(number) then 0 else 1)
      ensures themeEffectRuns == old(themeEffectRuns) + (if memoisedStyle then 0 else 1)
      ensures (themeStyle == old(themeStyle)) == memoisedStyle
      ensures !memoisedStyle ==> fresh(themeStyle) && themeStyle.style == old(themeStyle).style
    {
      number := value;
      Rerender();
    }

    /** "Change Theme": `setDark(prevDark => !prevDark)` and the render it causes. */
    method ChangeTheme()
      requires Valid()
      modifies this
      ensures Valid()
      ensures dark == Negate(old(dark)) && number == old(number)
      ensures doubleNumber == old(doubleNumber) && slowCalls == old(slowCalls)
      ensures fresh(themeStyle) && themeStyle.style == ThemeStyleFor(dark)
      ensures themeEffectRuns == old(themeEffectRuns) + 1
    {
      dark := Negate(dark);
      Rerender();
    }
  }
}
