/**
 * The useState demo: a counter moved by two with functional updates, and a
 * record `{id, theme}` whose `id` is changed by spreading the previous record.
 * Each state cell keeps the queue of updates its setter received during the
 * current event; the next render applies that queue.
 */
module UseState {
  import opened Hooks

  datatype Data = Data(id: int, theme: string)

  /** The lazy initialiser of `count`; its default argument is 0. */
  function GetInitialCount(initialValue: int := 0): (r: int)
    ensures r == initialValue
  {
    initialValue
  }

  const InitialData: Data := Data(1, "Blue")

  /** `previousCount => previousCount + 1` */
  function AddOne(previousCount: int): int
  {
    previousCount + 1
  }

  /** `previousCount => previousCount - 2` */
  function SubtractTwo(previousCount: int): int
  {
    previousCount - 2
  }

  /** The updater of `incrementId`: `{...previousData, id: previousData.id + 1}` */
  function IncrementIdUpdate(previousData: Data): (r: Data)
    ensures r.id == previousData.id + 1 && r.theme == previousData.theme
  {
    previousData.(id := previousData.id + 1)
  }

  /** The updater of `decrementId`, as written: it also adds one. */
  function DecrementIdUpdate(previousData: Data): (r: Data)
    ensures r.id == previousData.id + 1 && r.theme == previousData.theme
  {
    previousData.(id := previousData.id + 1)
  }

  /** What `decrementId` evidently means to do, given its `-1` button. */
  function DecrementIdIntended(previousData: Data): (r: Data)
    ensures r.id == previousData.id - 1 && r.theme == previousData.theme
  {
    previousData.(id := previousData.id - 1)
  }

  /** What `incrementCountBy2` passes to `setCount`. */
  function IncrementCountBy2Updates(): seq<Update<int>>
  {
    [Functional(AddOne), Functional(AddOne)]
  }

  /** The pattern the doc-comment warns about: `setCount(count + 1)` twice, from the render's `count`. */
  function SnapshotIncrementUpdates(count: int): seq<Update<int>>
  {
    [Replace(count + 1), Replace(count + 1)]
  }

  /** Two chained functional updates raise the count by exactly two. */
  lemma IncrementCountBy2AddsTwo(count: int)
    ensures ApplyAll(count, IncrementCountBy2Updates()) == count + 2
  {
    FunctionalUpdatesCompose(count, [Functional(AddOne)], AddOne);
  }

  /** Two value updates from the same render snapshot overwrite each other: the count rises by one. */
  lemma SnapshotIncrementAddsOne(count: int)
    ensures ApplyAll(count, SnapshotIncrementUpdates(count)) == count + 1
  {
    ReplaceOverwrites(count, [Replace(count + 1)], count + 1);
  }

  /** `decrementCountBy2` undoes `incrementCountBy2`. */
  lemma IncrementThenDecrementRestoresCount(count: int)
    ensures ApplyAll(ApplyAll(count, IncrementCountBy2Updates()), [Functional(SubtractTwo)]) == count
  {
    IncrementCountBy2AddsTwo(count);
  }

  /** Spreading the previous record changes `id` by one and keeps `theme`. */
  lemma IncrementIdKeepsTheme(d: Data)
    ensures IncrementIdUpdate(d).id == d.id + 1
    ensures IncrementIdUpdate(d).theme == d.theme
  {
  }

  /** As written, `decrementId` does not undo `incrementId`: both add one. */
  lemma DecrementIdAsWrittenIncrements(d: Data)
    ensures DecrementIdUpdate(d).id == d.id + 1
    ensures DecrementIdUpdate(IncrementIdUpdate(d)) != d
  {
  }

  /** The intended `decrementId` lowers `id` by one, keeps `theme` and undoes `incrementId`. */
  lemma DecrementIdIntendedRestores(d: Data)
    ensures DecrementIdIntended(d).id == d.id - 1
    ensures DecrementIdIntended(d).theme == d.theme
    ensures DecrementIdIntended(IncrementIdUpdate(d)) == d
    ensures IncrementIdUpdate(DecrementIdIntended(d)) == d
  {
  }

  class UseStateHookComponent {
    var count: int
    var data: Data
    /** Updates handed to `setCount` / `setData` since the last render. */
    var countQueue: seq<Update<int>>
    var dataQueue: seq<Update<Data>>
    /** How many times the lazy initialiser `() => getInitialCount()` has run. */
    var initialiserCalls: nat

    /** Between events every queued update has been rendered. */
    ghost predicate Valid()
      reads this
    {
      countQueue == [] && dataQueue == []
    }

    /** Mounting: the lazy initialiser runs here, and only here. */
    constructor ()
      ensures Valid()
      ensures count == GetInitialCount() == 0 && data == Data(1, "Blue")
      ensures initialiserCalls == 1
    {
      count := GetInitialCount();
      initialiserCalls := 1;
      data := InitialData;
      countQueue, dataQueue := [], [];
    }

    method SetCount(u: Update<int>)
      modifies this
      ensures initialiserCalls == old(initialiserCalls)
      ensures countQueue == old(countQueue) + [u]
      ensures count == old(count) && data == old(data) && dataQueue == old(dataQueue)
    {
      countQueue := countQueue + [u];
    }

    method SetData(u: Update<Data>)
      modifies this
      ensures initialiserCalls == old(initialiserCalls)
      ensures dataQueue == old(dataQueue) + [u]
      ensures count == old(count) && data == old(data) && countQueue == old(countQueue)
    {
      dataQueue := dataQueue + [u];
    }

    /** The render after an event: every cell takes the value its queue produces. */
    method Rerender()
      modifies this
      ensures initialiserCalls == old(initialiserCalls)
      ensures Valid()
      ensures count == ApplyAll(old(count), old(countQueue))
      ensures data == ApplyAll(old(data), old(dataQueue))
    {
      count := ProcessQueue(count, countQueue);
      data := ProcessQueue(data, dataQueue);
      countQueue, dataQueue := [], [];
    }

    method IncrementCountBy2()
      requires Valid()
      modifies this
      ensures initialiserCalls == old(initialiserCalls)
      ensures Valid()
      ensures count == old(count) + 2 && data == old(data)
    {
      SetCount(Functional(AddOne));
      SetCount(Functional(AddOne));
      assert countQueue == IncrementCountBy2Updates();
      IncrementCountBy2AddsTwo(count);
      Rerender();
    }

    /** The doc-comment's counter-example: two value updates computed from this render's `count`. */
    method IncrementCountBy2FromSnapshot()
      requires Valid()
      modifies this
      ensures initialiserCalls == old(initialiserCalls)
      ensures Valid()
      ensures count == old(count) + 1 && data == old(data)
    {
      SetCount(Replace(count + 1));
      SetCount(Replace(count + 1));
      assert countQueue == SnapshotIncrementUpdates(count);
      SnapshotIncrementAddsOne(count);
      Rerender();
    }

    method DecrementCountBy2()
      requires Valid()
      modifies this
      ensures initialiserCalls == old(initialiserCalls)
      ensures Valid()
      ensures count == old(count) - 2 && data == old(data)
    {
      SetCount(Functional(SubtractTwo));
      Rerender();
    }

    method IncrementId()
      requires Valid()
      modifies this
      ensures initialiserCalls == old(initialiserCalls)
      ensures Valid()
      ensures data.id == old(data.id) + 1 && data.theme == old(data.theme) && count == old(count)
    {
      SetData(Functional(IncrementIdUpdate));
      Rerender();
    }

    /** As written: the `-1` button raises `id` by one. */
    method DecrementId()
      requires Valid()
      modifies this
      ensures initialiserCalls == old(initialiserCalls)
      ensures Valid()
      ensures data.id == old(data.id) + 1 && data.theme == old(data.theme) && count == old(count)
    {
      SetData(Functional(DecrementIdUpdate));
      Rerender();
    }
  }
}
