/**
 * The counter of the useReducer demo: a state `{count}`, two action tags and a
 * reducer that maps the current state and a dispatched action to the next
 * state. Dispatching a sequence of actions folds the reducer over it.
 */
module UseReducerBasics {
  import opened Hooks

  const INCREMENT: string := "increment"
  const DECREMENT: string := "decrement"

  datatype GlobalState = GlobalState(count: int)

  /**
   * Whatever `dispatch` is called with. The reducer only reads `action?.type`,
   * so an action is either missing (null or undefined) or an object whose
   * `type` property may itself be absent.
   */
  datatype Action = Nullish | Action(actionType: Option<string>)

  /** `action?.type` */
  function TypeOf(action: Action): Option<string>
  {
    match action
    case Nullish => None
    case Action(t) => t
  }

  const InitialState: GlobalState := GlobalState(0)

  /** The actions the `increment` and `decrement` handlers dispatch. */
  const IncrementAction: Action := Action(Some(INCREMENT))
  const DecrementAction: Action := Action(Some(DECREMENT))

  /** The two tags differ, so at most one case of the reducer's switch matches. */
  lemma ActionTagsDistinct()
    ensures INCREMENT != DECREMENT
    ensures TypeOf(IncrementAction) != TypeOf(DecrementAction)
  {
  }

  function Reducer(state: GlobalState, action: Action): (r: GlobalState)
    ensures TypeOf(action) == Some(INCREMENT) ==> r.count == state.count + 1
    ensures TypeOf(action) == Some(DECREMENT) ==> r.count == state.count - 1
    ensures TypeOf(action) != Some(INCREMENT) && TypeOf(action) != Some(DECREMENT) ==> r == state
  {
    match TypeOf(action)
    case Some(t) =>
      if t == INCREMENT then GlobalState(state.count + 1)
      else if t == DECREMENT then GlobalState(state.count - 1)
      else state
    case None => state
  }

  /** An increment undoes a decrement and the other way round. */
  lemma IncrementDecrementInverse(state: GlobalState)
    ensures Reducer(Reducer(state, IncrementAction), DecrementAction) == state
    ensures Reducer(Reducer(state, DecrementAction), IncrementAction) == state
  {
  }

  /** The state after dispatching `actions` one by one, starting from `state`. */
  function DispatchAll(state: GlobalState, actions: seq<Action>): GlobalState
    decreases |actions|
  {
    if |actions| == 0 then state else DispatchAll(Reducer(state, actions[0]), actions[1..])
  }

  /** How many of `actions` carry the type `tag`. */
  function CountOf(actions: seq<Action>, tag: string): nat
    decreases |actions|
  {
    if |actions| == 0 then 0
    else (if TypeOf(actions[0]) == Some(tag) then 1 else 0) + CountOf(actions[1..], tag)
  }

  /** Dispatching moves the count by the number of increments minus the number of decrements. */
  lemma {:induction false} DispatchAllCounts(state: GlobalState, actions: seq<Action>)
    ensures DispatchAll(state, actions).count
            == state.count + CountOf(actions, INCREMENT) - CountOf(actions, DECREMENT)
    decreases |actions|
  {
    if |actions| > 0 {
      DispatchAllCounts(Reducer(state, actions[0]), actions[1..]);
    }
  }

  /** From the component's initial state `{count: 0}` the count is #increment − #decrement. */
  lemma DispatchFromInitial(actions: seq<Action>)
    ensures DispatchAll(InitialState, actions).count
            == CountOf(actions, INCREMENT) - CountOf(actions, DECREMENT)
  {
    DispatchAllCounts(InitialState, actions);
  }
}
