/**
 * The part of the host framework's behaviour that the components' own comments
 * spell out, and nothing more:
 *  - a state setter takes either a functional update (`setX(prev => f(prev))`)
 *    or a plain value (`setX(v)`); the updates queued during one event are applied
 *    in order before the next render, so functional updates compose while value
 *    updates overwrite whatever came before them;
 *  - `useContext` yields the value of the nearest enclosing provider, or the
 *    context's default value when there is none;
 *  - a boolean flag toggled with `prev => !prev`.
 */
module Hooks {

  datatype Option<T> = None | Some(value: T)

  /** What a state setter is called with. */
  datatype Update<!T> = Functional(f: T -> T) | Replace(v: T)

  function Apply<T>(u: Update<T>, previous: T): T
  {
    match u
    case Functional(f) => f(previous)
    case Replace(v) => v
  }

  /** The state after the updates queued during one event are applied in order. */
  function ApplyAll<T>(value: T, queue: seq<Update<T>>): T
    decreases |queue|
  {
    if |queue| == 0 then value else ApplyAll(Apply(queue[0], value), queue[1..])
  }

  /** Processing one queue is processing its two halves one after the other. */
  lemma {:induction false} ApplyAllAppend<T>(value: T, q1: seq<Update<T>>, q2: seq<Update<T>>)
    ensures ApplyAll(value, q1 + q2) == ApplyAll(ApplyAll(value, q1), q2)
    decreases |q1|
  {
    if |q1| == 0 {
      assert q1 + q2 == q2;
    } else {
      assert (q1 + q2)[1..] == q1[1..] + q2;
      ApplyAllAppend(Apply(q1[0], value), q1[1..], q2);
    }
  }

  /** A value update discards every update queued before it. */
  lemma ReplaceOverwrites<T>(value: T, earlier: seq<Update<T>>, v: T)
    ensures ApplyAll(value, earlier + [Replace(v)]) == v
  {
    ApplyAllAppend(value, earlier, [Replace(v)]);
  }

  /** Functional updates see the result of the updates queued before them. */
  lemma FunctionalUpdatesCompose<T>(value: T, earlier: seq<Update<T>>, f: T -> T)
    ensures ApplyAll(value, earlier + [Functional(f)]) == f(ApplyAll(value, earlier))
  {
    ApplyAllAppend(value, earlier, [Functional(f)]);
  }

  /** Drains a queue of updates, one at a time, as a render does. */
  method ProcessQueue<T>(value: T, queue: seq<Update<T>>) returns (r: T)
    ensures r == ApplyAll(value, queue)
  {
    r := value;
    var i := 0;
    while i < |queue|
      invariant 0 <= i <= |queue|
      invariant ApplyAll(r, queue[i..]) == ApplyAll(value, queue)
    {
      assert queue[i..][1..] == queue[i + 1..];
      r := Apply(queue[i], r);
      i := i + 1;
    }
    assert queue[i..] == [];
  }

  /** The updater `prev => !prev` every theme toggle passes to its setter. */
  function Negate(previous: bool): bool
  {
    !previous
  }

  /** The flag after `n` toggles starting from `start`. */
  function ToggledTimes(start: bool, n: nat): bool
  {
    if n == 0 then start else Negate(ToggledTimes(start, n - 1))
  }

  /** After `n` toggles the flag is the start value exactly when `n` is even. */
  lemma {:induction false} ToggledTimesParity(start: bool, n: nat)
    ensures ToggledTimes(start, n) == (if n % 2 == 0 then start else !start)
  {
    if n > 0 {
      ToggledTimesParity(start, n - 1);
    }
  }

  /** Two toggles restore the flag, and one toggle always changes it. */
  lemma ToggleTwiceRestores(start: bool)
    ensures ToggledTimes(start, 2) == start
    ensures ToggledTimes(start, 1) != start
  {
  }

  /** A context created with `createContext(defaultValue)`. */
  datatype Context<T> = Context(defaultValue: T)

  /** `useContext(context)` below the nearest provider of that context, if any. */
  function UseContext<T>(context: Context<T>, nearestProvider: Option<T>): T
  {
    match nearestProvider
    case Some(v) => v
    case None => context.defaultValue
  }
}
