/**
 * The conversation store as this component sees it. The reducer lives in a
 * module that is not part of this model, so it is a parameter: the store keeps
 * the part of its state the component reads (`StoreView`), applies the reducer
 * on every dispatch, and records every dispatch, in order, in `trace`. The
 * bot connection and the selection channel are reached through the store's
 * connection state, so the posts and pushes that reach them go into the same
 * trace.
 */
module ChatStore {
  import opened Types

  /**
   * `state.connection.user`, `state.history.activities`, `state.history.sendCounter`,
   * `state.history.selectedActivity`, and whether `state.connection.selectedActivity`
   * holds a channel.
   */
  datatype StoreView = StoreView(
    user: User,
    activities: seq<Activity>,
    sendCounter: nat,
    selected: Option<Activity>,
    selectionChannel: bool)

  type Reducer = (StoreView, Action) -> StoreView

  class Store {
    var view: StoreView
    var trace: seq<Event>
    const reduce: Reducer

    constructor (initial: StoreView, reduce: Reducer)
      ensures view == initial && trace == [] && this.reduce == reduce
    {
      view := initial;
      trace := [];
      this.reduce := reduce;
    }

    /** `store.dispatch(action)`: the reducer computes the next state, and the action is recorded. */
    method Dispatch(action: Action)
      modifies this
      ensures view == reduce(old(view), action)
      ensures trace == old(trace) + [Dispatched(action)]
    {
      view := reduce(view, action);
      trace := trace + [Dispatched(action)];
    }

    /** A post to the bot connection or a push onto the selection channel: the store's state is untouched. */
    method Emit(e: Event)
      requires !e.Dispatched?
      modifies this
      ensures view == old(view)
      ensures trace == old(trace) + [e]
    {
      trace := trace + [e];
    }
  }

  /** What `updateSelectedActivity` sends out from state `v`: the current selection, and only when a channel exists. */
  function SelectionPush(v: StoreView): (events: seq<Event>)
    ensures |events| <= 1
    ensures events != [] <==> v.selectionChannel
    ensures forall e <- events :: e == Pushed(ActivityOrID(v.selected, None))
  {
    if v.selectionChannel then [Pushed(ActivityOrID(v.selected, None))] else []
  }

  /** `updateSelectedActivity(store)`. */
  method UpdateSelectedActivity(store: Store)
    modifies store
    ensures store.view == old(store.view)
    ensures store.trace == old(store.trace) + SelectionPush(old(store.view))
  {
    if store.view.selectionChannel {
      store.Emit(Pushed(ActivityOrID(store.view.selected, None)));
    }
  }
}
