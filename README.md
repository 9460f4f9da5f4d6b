# React hooks demos: the state-update rules, memo slots and theme contexts

This project models the logic in a set of React hook demonstration components
and proves the properties that the components and their comments promise:

- **useReducer counter** (`UseReducerBasics`): a reducer over `{count}` with the
  action tags `"increment"` and `"decrement"`. Any other `action?.type`, including a missing action, leaves the
  state as it is. Dispatching a sequence of actions is a fold of the reducer over that sequence.
- **useState demo** (`UseState`): a class holding the `count` and `{id, theme}` state cells. Each cell keeps a
  queue of the updates its setter received during the current event, and the render that follows applies the
  queue (`Hooks.ProcessQueue`, proved against `Hooks.ApplyAll`). Functional updates compose and value updates
  overwrite, so two `setCount(prev => prev + 1)` calls add 2, while two `setCount(count + 1)` calls taken from
  the same render add only 1.
- **useMemo demo** (`UseMemo`): `slowFunction` (an empty counting loop, then `num * 2`) and the memo slot for
  `doubleNumber`, keyed by `number`. The style object is allocated afresh on every render, so the
  `[themeStyle]` effect, which compares references, runs every time. The component's comment proposes
  memoising the style on `[dark]`. A per-component constant chooses between that variant and the code as
  written, and in the memoised variant the reference is kept while `dark` is unchanged.
- **useCallback demo** (`UseCallback`): `getItems`, memoised on `[number]`, is an allocated callback object.
  The list's `[getItems]` effect reruns only when a new callback is built, and toggling the theme never builds
  one.
- **Theme contexts** (`ThemeContextProvider`, `UseContextParent`, `FunctionContext`, `ClassContext`,
  `SimplifiedFunctionContext`, `ContextConsumers`): context defaults, the two providers' flags and their
  toggles, and the three copies of `themeStyles`, which are proved to agree.

Module `Hooks` holds the framework behaviour that the comments state: the update queue, `useContext`'s
lookup (the nearest provider's value, otherwise the default), and the `prev => !prev` toggle. Module `Styles`
holds the style record shared by the three context consumers. JavaScript numbers are modelled as unbounded
`int`.

## Model

| member | source | states |
|---|---|---|
| `UseReducerBasics.ActionTagsDistinct` | src/components/useReducer/UseReducerBasicsComponent.tsx:43-46 | The two action tags are different strings, so at most one case of the switch applies |
| `UseReducerBasics.Reducer` | src/components/useReducer/UseReducerBasicsComponent.tsx:58-64 | `"increment"` adds 1 to the count and `"decrement"` subtracts 1. Any other type, a missing type or a null action returns the input state unchanged |
| `UseReducerBasics.IncrementDecrementInverse` | src/components/useReducer/UseReducerBasicsComponent.tsx:60-61 | Increment then decrement, in either order, restores the state |
| `UseReducerBasics.DispatchAllCounts` | src/components/useReducer/UseReducerBasicsComponent.tsx:58-64 | Folding any sequence of actions moves the count by the number of increments minus the number of decrements |
| `UseReducerBasics.DispatchFromInitial` | src/components/useReducer/UseReducerBasicsComponent.tsx:91-95 | From `{count: 0}`, the count equals #increment − #decrement |
| `Hooks.ApplyAllAppend` | src/components/UseStateHookComponent.tsx:74-79 | Applying a queue of updates equals applying its first part and then the rest to the result |
| `Hooks.ReplaceOverwrites` | src/components/UseStateHookComponent.tsx:81-96 | A value update discards every update queued before it in the same event |
| `Hooks.FunctionalUpdatesCompose` | src/components/UseStateHookComponent.tsx:65-79 | A functional update receives the state that the earlier queued updates produced |
| `Hooks.ProcessQueue` | src/components/UseStateHookComponent.tsx:74-96 | Draining the queue one update at a time yields exactly `ApplyAll` of the queue |
| `Hooks.ToggledTimesParity` | src/components/useContextHook/simplifiedExample/ThemeContex.tsx:21 | After n toggles the flag equals the start value if n is even and its negation if n is odd |
| `Hooks.ToggleTwiceRestores` | src/components/UseMemoHookComponent.tsx:160 | One application of the `prev => !prev` updater (the one "Change Theme" passes to `setDark`) changes the flag, and two restore it |
| `UseState.IncrementCountBy2AddsTwo` | src/components/UseStateHookComponent.tsx:74-79 | The two chained functional updates raise any count by exactly 2 |
| `UseState.SnapshotIncrementAddsOne` | src/components/UseStateHookComponent.tsx:85-95 | Two `setCount(count + 1)` calls from the same render raise the count by only 1 |
| `UseState.IncrementThenDecrementRestoresCount` | src/components/UseStateHookComponent.tsx:78-99 | `decrementCountBy2`'s update undoes `incrementCountBy2`'s two updates |
| `UseState.IncrementIdKeepsTheme` | src/components/UseStateHookComponent.tsx:119 | Spreading the previous record raises `id` by 1 and keeps `theme` |
| `UseState.IncrementIdUpdate` | src/components/UseStateHookComponent.tsx:119 | The spread update raises `id` by 1 and keeps `theme` |
| `UseState.DecrementIdUpdate` | src/components/UseStateHookComponent.tsx:122 | As written, the update also raises `id` by 1 and keeps `theme` |
| `UseState.DecrementIdIntended` | src/components/UseStateHookComponent.tsx:122-134 | The corrected `-1` update lowers `id` by 1 and keeps `theme` |
| `UseState.DecrementIdAsWrittenIncrements` | src/components/UseStateHookComponent.tsx:122 | As written, `decrementId` also raises `id` by 1, so it does not undo `incrementId` |
| `UseState.DecrementIdIntendedRestores` | src/components/UseStateHookComponent.tsx:122-134 | A `-1` update lowers `id` by 1, keeps `theme`, and is the inverse of `incrementId` in both orders |
| `UseState.UseStateHookComponent.constructor` | src/components/UseStateHookComponent.tsx:43-102 | Initial state: `count` is `getInitialCount()` with its default argument, i.e. 0, and `data` is `{id: 1, theme: "Blue"}`, with no queued updates. The lazy initialiser has run exactly once; the render and every event method leave that count unchanged, so it never runs again |
| `UseState.UseStateHookComponent.SetCount` | src/components/UseStateHookComponent.tsx:78-79 | A setter call appends its update to the cell's queue and changes nothing else |
| `UseState.UseStateHookComponent.SetData` | src/components/UseStateHookComponent.tsx:119 | A setter call appends its update to the record's queue and changes nothing else |
| `UseState.UseStateHookComponent.Rerender` | src/components/UseStateHookComponent.tsx:81-96 | Each cell becomes the result of its queued updates applied in order, and the queues are emptied |
| `UseState.UseStateHookComponent.IncrementCountBy2` | src/components/UseStateHookComponent.tsx:63-97 | After the event and its render the count is 2 higher and `data` is unchanged |
| `UseState.UseStateHookComponent.IncrementCountBy2FromSnapshot` | src/components/UseStateHookComponent.tsx:85-95 | The pattern the comment warns about leaves the count only 1 higher |
| `UseState.UseStateHookComponent.DecrementCountBy2` | src/components/UseStateHookComponent.tsx:99 | After the event and its render the count is 2 lower |
| `UseState.UseStateHookComponent.IncrementId` | src/components/UseStateHookComponent.tsx:107-120 | `id` goes up by 1, and `theme` and `count` are unchanged |
| `UseState.UseStateHookComponent.DecrementId` | src/components/UseStateHookComponent.tsx:122 | As written, `id` goes up by 1, and `theme` and `count` are unchanged |
| `UseMemo.SlowFunction` | src/components/UseMemoHookComponent.tsx:64-70 | The loop terminates and the result is twice the input |
| `UseMemo.ThemeStyleFor` | src/components/UseMemoHookComponent.tsx:90-99 | Black on white or white on black, never the same colour for background and text. The background is black exactly when `dark`. Width, margin, border, radius and padding are fixed |
| `UseMemo.ThemeStyleOnlyColoursVary` | src/components/UseMemoHookComponent.tsx:90-98 | All fields except the two colours are the same for both flags, and the style determines the flag |
| `UseMemo.StyleObject.constructor` | src/components/UseMemoHookComponent.tsx:114-117 | Evaluating the style literal makes a new object that holds the given fields |
| `UseMemo.UseMemoHookComponent.constructor` | src/components/UseMemoHookComponent.tsx:61-62 | Mounting starts with `number = 0` and `dark = false`, computes `doubleNumber = 0` with one `slowFunction` call, and runs the effect once |
| `UseMemo.UseMemoHookComponent.Rerender` | src/components/UseMemoHookComponent.tsx:79-148 | `doubleNumber` is `2 * number`. `slowFunction` runs only when `number` differs from the cached key. The style reference is kept exactly when memoised with `dark` unchanged, and otherwise it is fresh. The effect runs exactly when the reference changed |
| `UseMemo.UseMemoHookComponent.HandleClick` | src/components/UseMemoHookComponent.tsx:111-152 | A new number is shown doubled, and `slowFunction` runs only if the number changed. As written, each click leaves a new style object with the same fields as the old one, so the `[themeStyle]` effect still runs. Memoised, the reference is kept and the effect does not run |
| `UseMemo.UseMemoHookComponent.ChangeTheme` | src/components/UseMemoHookComponent.tsx:160 | `dark` is negated. The cached `doubleNumber` and the `slowFunction` count are unchanged. A new style object is built for the new flag, and the effect runs |
| `UseCallback.Items` | src/components/useCallbackHook/UseCallbacklHookComponent.tsx:67-69 | Three items, the first is `number`, and each item is one more than the one before |
| `UseCallback.ItemsDistinct` | src/components/useCallbackHook/List.tsx:18 | The items are pairwise distinct, as their use as list keys requires |
| `UseCallback.InitialItems` | src/components/useCallbackHook/UseCallbacklHookComponent.tsx:17 | With the initial `number = 1` the items are `[1, 2, 3]` |
| `UseCallback.ItemsCallback.constructor` | src/components/useCallbackHook/UseCallbacklHookComponent.tsx:67-69 | Building the callback captures the render's `number`, and calling it returns that number's items |
| `UseCallback.ItemsCallback.Call` | src/components/useCallbackHook/UseCallbacklHookComponent.tsx:67-69 | `getItems()` returns exactly the three items `number`, `number + 1` and `number + 2` of the captured `number`, in that order |
| `UseCallback.ThemeFor` | src/components/useCallbackHook/UseCallbacklHookComponent.tsx:71-76 | Black on white or white on black, swapped by `isDark`, with fixed padding and border |
| `UseCallback.UseCallbackHookComponent.constructor` | src/components/useCallbackHook/UseCallbacklHookComponent.tsx:17-18 | Mounting starts with `number = 1` and `isDark = false`, builds a callback that returns `[1, 2, 3]`, and runs the list effect once |
| `UseCallback.UseCallbackHookComponent.Rerender` | src/components/useCallbackHook/UseCallbacklHookComponent.tsx:36-69 | The callback is rebuilt exactly when `number` changed, and it always returns the items of the current `number`. The list effect reruns exactly when the callback reference changed |
| `UseCallback.UseCallbackHookComponent.SetNumber` | src/components/useCallbackHook/UseCallbacklHookComponent.tsx:83 | A new number gives a new callback and one more list-effect run. The same number keeps both |
| `UseCallback.UseCallbackHookComponent.ToggleTheme` | src/components/useCallbackHook/UseCallbacklHookComponent.tsx:84 | `isDark` is negated, and the callback and the list-effect count are unchanged |
| `ThemeContextProvider.UseTheme` | src/components/useContextHook/simplifiedExample/ThemeContex.tsx:11 | `useTheme()` is the nearest provider's flag, and `false` when there is no provider |
| `ThemeContextProvider.UseThemeUpdate` | src/components/useContextHook/simplifiedExample/ThemeContex.tsx:12 | `useThemeUpdate()` is the nearest provider's value. Without a provider its `toggleTheme` leaves every flag unchanged |
| `ThemeContextProvider.DefaultsOutsideProvider` | src/components/useContextHook/simplifiedExample/ThemeContex.tsx:3-8 | Without a provider the theme is `false` and the default `toggleTheme` changes nothing |
| `ThemeContextProvider.ThemeProvider.constructor` | src/components/useContextHook/simplifiedExample/ThemeContex.tsx:19 | The provider starts with `darkTheme = false` |
| `ThemeContextProvider.ThemeProvider.ToggleTheme` | src/components/useContextHook/simplifiedExample/ThemeContex.tsx:21 | `darkTheme` is negated, which is what the update context's `toggleTheme` does inside the provider |
| `ThemeContextProvider.HooksInsideProvider` | src/components/useContextHook/simplifiedExample/ThemeContex.tsx:11-25 | Inside the provider, `useTheme()` is exactly the current `darkTheme` and `useThemeUpdate().toggleTheme` negates the flag |
| `ThemeContextProvider.ProviderFlagAfterToggles` | src/components/useContextHook/simplifiedExample/ThemeContex.tsx:19-21 | n applications of the provider's `prevDarkTheme => !prevDarkTheme` updater to its initial `false` give `true` exactly when n is odd |
| `UseContextParent.UseContextParentComponent.constructor` | src/components/useContextHook/basics/UseContextParentComponent.tsx:48 | The parent's `darkTheme` starts `true` |
| `UseContextParent.UseContextParentComponent.HandleToggleTheme` | src/components/useContextHook/basics/UseContextParentComponent.tsx:50 | `darkTheme` is negated |
| `UseContextParent.ContextValueBelowProvider` | src/components/useContextHook/basics/UseContextParentComponent.tsx:44-59 | Below the provider the context value is the parent's `darkTheme`. Elsewhere it is the default `false` |
| `FunctionContext.ThemeStyles` | src/components/useContextHook/basics/FunctionContextComponent.tsx:16-24 | Black on white or white on black, dark exactly when the flag is set, with fixed padding, margin and border |
| `FunctionContext.Render` | src/components/useContextHook/basics/FunctionContextComponent.tsx:14-27 | Inside a provider the style is `themeStyles` of the provider's value. Without a provider it is the default light style: white background, black text |
| `ClassContext.ThemeStyles` | src/components/useContextHook/basics/ClassContextComponent.tsx:8-16 | Black on white or white on black, dark exactly when the flag is set, with fixed padding, margin and border |
| `ClassContext.Render` | src/components/useContextHook/basics/ClassContextComponent.tsx:18-33 | Inside a provider the style is `themeStyles` of the provider's value. Without a provider it is the default light style: white background, black text |
| `SimplifiedFunctionContext.ThemeStyles` | src/components/useContextHook/simplifiedExample/SimplifiedFunctionContextComponent.tsx:7-15 | Black on white or white on black, dark exactly when the flag is set, with fixed padding, margin and border |
| `SimplifiedFunctionContext.Render` | src/components/useContextHook/simplifiedExample/SimplifiedFunctionContextComponent.tsx:5-20 | Inside a provider the style is `themeStyles` of the provider's value. Without a provider it is the default light style: white background, black text |
| `SimplifiedFunctionContext.ClickToggle` | src/components/useContextHook/simplifiedExample/SimplifiedFunctionContextComponent.tsx:5-20 | The button flips the provider's flag, so the next displayed style is the style of the negated flag |
| `ContextConsumers.ThemeStylesCopiesAgree` | src/components/useContextHook/basics/FunctionContextComponent.tsx:16-24 | The function consumer's, the class consumer's and the simplified consumer's `themeStyles` agree for every flag |
| `ContextConsumers.ThemeStylesDetermineFlag` | src/components/useContextHook/basics/FunctionContextComponent.tsx:18-19 | Two flags give the same style only if they are equal |
| `ContextConsumers.ConsumersShowProviderValue` | src/components/useContextHook/basics/UseContextParentComponent.tsx:59-63 | Below the parent's provider, the function consumer and the class consumer both render `themeStyles` of the parent's current flag |

## Findings

| source | as written | input that shows it | evidently intended | confidence | as-written member | corrected member |
|---|---|---|---|---|---|---|
| src/components/UseStateHookComponent.tsx:122 | `decrementId`'s update is `{...previousData, id: previousData.id + 1}` | any record, e.g. `{id: 1, theme: "Blue"}`: clicking the `-1` button gives `id = 2` | `id: previousData.id - 1`, undoing `incrementId` | high (the button is labelled `-1`); not executed | `UseState.DecrementIdAsWrittenIncrements` | `UseState.DecrementIdIntendedRestores` |

The component class `UseState.UseStateHookComponent.DecrementId` keeps the update as written, so that the
class describes what the demo actually does. `UseState.DecrementIdIntended` is the corrected update.

## Left out

- The data-fetching effect and the window-resize listener (src/components/UseEffectHookComponent.tsx) are not part of this model: they are network I/O and browser events.
- The ref demo (src/components/UseRefHookComponent.tsx) is not part of this model: DOM focus is a browser effect, and its render counter depends only on the framework's render scheduling.
- Routing (src/App.tsx), the composition-only parents, and the to-do reducer demo, whose source is not available, are not part of this model.
- The list component's own `items` state and its `setItems(getItems())` are not modelled. Only the number of times its `[getItems]` effect runs is counted.
- `parseInt` on the input text, including `NaN`: the change handlers take the parsed number as an `int` parameter.
- JavaScript floating-point numbers: every number is an unbounded `int`.
- `console.log` output, styling beyond the inline style objects, and the running time of `slowFunction`.
- React's reconciliation in general, and its bail-out when a setter receives the value the state already holds. The change handlers always re-render.
- The theme toggles (`prev => !prev`) are applied directly rather than queued. Each event queues exactly one functional update, which gives the same result.
- The reducer's state cell is not modelled as an object: dispatching is modelled as a fold of the reducer over the dispatched actions.
- `ThemeContextProvider.ThemeUpdateContextValue`: `toggleTheme` is modelled as its effect on the provider's flag (a `bool -> bool`), not as a closure that schedules a state update.
