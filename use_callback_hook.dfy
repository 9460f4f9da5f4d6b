/**
 * The useCallback demo: `getItems` is memoised on `[number]`, so the list's
 * effect, which depends on the callback's reference, reruns only when a new
 * callback is built; `theme` swaps black and white with `isDark`.
 */
module UseCallback {
  import opened Hooks
  import opened Styles

  /** What `getItems()` returns: `[number, number + 1, number + 2]`. */
  function Items(number: int): (r: seq<int>)
    ensures |r| == 3 && r[0] == number
    ensures forall i :: 0 <= i < |r| - 1 ==> r[i + 1] == r[i] + 1
  {
    [number, number + 1, number + 2]
  }

  /** The items are pairwise distinct, which the list's `key={item}` relies on. */
  lemma ItemsDistinct(number: int)
    ensures forall i, j :: 0 <= i < j < |Items(number)| ==> Items(number)[i] != Items(number)[j]
  {
    var r := Items(number);
    forall i, j | 0 <= i < j < |r| ensures r[i] != r[j] {
      assert r[i] == number + i && r[j] == number + j;
    }
  }

  /** The initial number is 1, so the first list shows 1, 2, 3. */
  lemma InitialItems()
    ensures Items(1) == [1, 2, 3]
  {
  }

  datatype Theme = Theme(backgroundColor: string, color: string, padding: string, border: string)

  function ThemeFor(isDark: bool): (r: Theme)
    ensures Contrasting(r.backgroundColor, r.color)
    ensures r.backgroundColor == (if isDark then BLACK else WHITE)
    ensures r.padding == "2rem" && r.border == "1px black solid"
  {
    Theme(if isDark then BLACK else WHITE, if isDark then WHITE else BLACK, "2rem", "1px black solid")
  }

  /** A callback object closing over the `number` of the render that built it. */
  class ItemsCallback {
    const number: int

    constructor (number: int)
      ensures this.number == number
      ensures Call() == Items(number)
    {
      this.number := number;
    }

    /** `getItems()`: the items of the `number` captured when the callback was built. */
    function Call(): (r: seq<int>)
      ensures |r| == 3 && r[0] == number && r[1] == number + 1 && r[2] == number + 2
    {
      Items(number)
    }
  }

  class UseCallbackHookComponent {
    var number: int
    var isDark: bool
    /** The useCallback slot: the memoised callback and the `number` it depends on. */
    var getItems: ItemsCallback
    var numberDep: int
    /** How many times the list's `[getItems]` effect has run. */
    var listEffectRuns: nat

    ghost predicate Valid()
      reads this
    {
      numberDep == number && getItems.number == number
    }

    /** Mounting: initial state, the first callback, and the list effect's first run. */
    constructor ()
      ensures Valid()
      ensures number == 1 && !isDark && getItems.Call() == [1, 2, 3]
      ensures listEffectRuns == 1
    {
      number, isDark := 1, false;
      getItems := new ItemsCallback(1);
      numberDep := 1;
      listEffectRuns := 1;
    }

    method Rerender()
      requires getItems.number == numberDep
      modifies this
      ensures Valid()
      ensures number == old(number) && isDark == old(isDark)
      ensures (getItems == old(getItems)) == (old(numberDep) == number)
      ensures getItems != old(getItems) ==> fresh(getItems)
      ensures getItems.Call() == Items(number)
      ensures listEffectRuns == old(listEffectRuns) + (if getItems == old(getItems) then 0 else 1)
    {
      // useCallback(() => [number, number + 1, number + 2], [number])
      var previous := getItems;
      if numberDep != number {
        getItems := new ItemsCallback(number);
        numberDep := number;
      }
      // the list's useEffect(..., [getItems]) reruns when the callback is another reference
      if getItems != previous {
        listEffectRuns := listEffectRuns + 1;
      }
    }

    /** The input's change handler, given the number it parsed, and the render it causes. */
    method SetNumber(value: int)
      requires Valid()
      modifies this
      ensures Valid()
      ensures number == value && isDark == old(isDark)
      ensures getItems.Call() == Items(value)
      ensures (getItems == old(getItems)) == (value == old(number))
      ensures listEffectRuns == old(listEffectRuns) + (if value == old(number) then 0 else 1)
    {
      number := value;
      Rerender();
    }

    /** "Toggle Theme": the callback, and so the list, is left alone. */
    method ToggleTheme()
      requires Valid()
      modifies this
      ensures Valid()
      ensures isDark == Negate(old(isDark)) && number == old(number)
      ensures getItems == old(getItems) && listEffectRuns == old(listEffectRuns)
    {
      isDark := Negate(isDark);
      Rerender();
    }
  }
}
