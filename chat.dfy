/**
 * The chat component: how it reacts to inbound activities, the per-sender
 * typing-timer table it updates in place, the timers' firing, the cancel-all on
 * unmount, the connectivity filter and the selection channel subscription.
 */
module ChatComponent {
  import opened Types
  import opened Text
  import opened Lookup
  import opened ChatStore
  import opened Selection

  /** The text suffix that turns a polled message into a typing signal. */
  const TypingSentinel: string := "//typing"

  /** Milliseconds a typing indicator stays up without a newer typing signal. */
  const TypingTimeout: int := 3000

  predicate HasTypingSentinel(text: Option<string>)
  {
    text.Some? && text.value != "" && EndsWith(text.value, TypingSentinel)
  }

  /** How `handleIncomingActivity` treats one inbound activity. */
  datatype Reaction =
    | Ignored               // neither a message nor a typing activity
    | EchoDropped           // a message from the local user
    | Duplicate             // a message whose id the history already holds
    | Received(activity: Activity)
    | Typing(activity: Activity)

  /**
   * The decision table of `handleIncomingActivity` for an activity arriving while the
   * local user's id is `self` and the history is `history`.
   */
  function Classify(a: Activity, self: string, history: seq<Activity>): (r: Reaction)
    ensures a.kind == "message" && a.from.id == self ==> r == EchoDropped
    ensures a.kind == "typing" ==> r == Typing(a)
    ensures a.kind == "message" && a.from.id != self && HasTypingSentinel(a.text) ==> r == Typing(a.(kind := "typing"))
    ensures a.kind == "message" && a.from.id != self && !HasTypingSentinel(a.text) ==>
      && (r == Received(a) <==> forall i :: 0 <= i < |history| ==> history[i].id != a.id)
      && (r != Received(a) ==> r == Duplicate)
    ensures a.kind != "message" && a.kind != "typing" ==> r == Ignored
    ensures r.Received? ==> r.activity == a && a.kind == "message" && !HasTypingSentinel(a.text)
    ensures r.Typing? ==> r.activity.kind == "typing" && r.activity.from == a.from
  {
    if a.kind == "message" then
      if a.from.id == self then EchoDropped
      else if HasTypingSentinel(a.text) then Typing(a.(kind := "typing"))
      else if FindById(history, a.id).None? then Received(a)
      else Duplicate
    else if a.kind == "typing" then Typing(a)
    else Ignored
  }

  /** The store action a reaction dispatches, if any. */
  function ReactionAction(r: Reaction): (action: Option<Action>)
    ensures action.Some? <==> r.Received? || r.Typing?
    ensures r.Received? ==> action == Some(ReceiveMessage(r.activity))
    ensures r.Typing? ==> action == Some(ShowTyping(r.activity))
  {
    match r
    case Received(a) => Some(ReceiveMessage(a))
    case Typing(a) => Some(ShowTyping(a))
    case _ => None
  }

  /** `connected$.filter(connected => connected === true)`: one `Connected_To_Bot` per `true` value, repeats included. */
  function ConnectedDispatches(values: seq<bool>): (actions: seq<Action>)
    ensures |actions| <= |values|
    ensures forall a <- actions :: a == ConnectedToBot
    ensures (forall i :: 0 <= i < |values| ==> values[i]) ==> |actions| == |values|
    ensures (forall i :: 0 <= i < |values| ==> !values[i]) ==> actions == []
    ensures |actions| == multiset(values)[true]
    decreases |values|
  {
    if |values| == 0 then []
    else
      assert forall i :: 0 < i < |values| ==> values[i] == values[1..][i - 1];
      assert values == [values[0]] + values[1..];
      (if values[0] then [ConnectedToBot] else []) + ConnectedDispatches(values[1..])
  }

  /** `props.locale || window.navigator.language`. */
  function ResolvedLocale(locale: Option<string>, browserLanguage: string): string
  {
    if locale.Some? && locale.value != "" then locale.value else browserLanguage
  }

  /** The component's props, less the bot connection object (whose state the store holds). */
  datatype Props = Props(
    user: User,
    bot: User,
    locale: Option<string>,
    selectedActivity: bool,
    formatOptions: Option<FormatOptions>)

  type Handle = nat

  /** A scheduled typing-clear callback: whose indicator it clears, and when it is due. */
  datatype Timer = Timer(from: User, deadline: int)

  /** The browser's pending timers that this component scheduled; handles start at 1, so they are truthy. */
  class Timers {
    var pending: map<Handle, Timer>
    var next: Handle

    ghost predicate Valid()
      reads this
    {
      1 <= next && forall h :: h in pending ==> 1 <= h < next
    }

    constructor ()
      ensures Valid() && pending == map[] && next == 1
    {
      pending := map[];
      next := 1;
    }

    /** `setTimeout`: a fresh handle for a new pending timer. */
    method SetTimeout(t: Timer) returns (h: Handle)
      requires Valid()
      modifies this
      ensures Valid()
      ensures h == old(next) && h !in old(pending) && next == old(next) + 1
      ensures pending == old(pending)[h := t]
    {
      h := next;
      pending := pending[h := t];
      next := next + 1;
    }

    /** `clearTimeout`: cancelling an undefined or already finished handle does nothing. */
    method ClearTimeout(h: Option<Handle>)
      requires Valid()
      modifies this
      ensures Valid() && next == old(next)
      ensures pending == if h.Some? then old(pending) - {h.value} else old(pending)
    {
      if h.Some? {
        pending := pending - {h.value};
      }
    }
  }

  /** The handle `typingTimers[id]` holds, as a set: empty when the slot is missing or undefined. */
  function StaleHandle(table: map<string, Option<Handle>>, id: string): (hs: set<Handle>)
    ensures |hs| <= 1
    ensures hs != {} <==> id in table && table[id].Some?
    ensures forall h <- hs :: table[id] == Some(h)
  {
    if id in table && table[id].Some? then {table[id].value} else {}
  }

  class Chat {
    const store: Store
    const timers: Timers
    const selectionSubscribed: bool
    var typingTimers: map<string, Option<Handle>>

    /**
     * Every pending typing timer is the one the table holds for its sender, so a
     * sender never has two pending timers; a pending handle in a sender's slot is
     * that sender's timer; the table only holds handles already issued.
     */
    ghost predicate Valid()
      reads this, timers
    {
      && timers.Valid()
      && (forall h :: h in timers.pending ==>
            timers.pending[h].from.id in typingTimers && typingTimers[timers.pending[h].from.id] == Some(h))
      && (forall id :: id in typingTimers && typingTimers[id].Some? ==>
            typingTimers[id].value < timers.next
            && (typingTimers[id].value in timers.pending ==> timers.pending[typingTimers[id].value].from.id == id))
    }

    /**
     * The constructor: `Start_Connection`, `Set_Format_Options` when options were
     * given, then `Set_Localized_Strings`; the selection channel is subscribed to
     * when the props carry one.
     */
    constructor (props: Props, initial: StoreView, reduce: Reducer, browserLanguage: string)
      ensures Valid() && fresh(store) && fresh(timers)
      ensures selectionSubscribed == props.selectedActivity
      ensures typingTimers == map[] && timers.pending == map[]
      ensures store.reduce == reduce
      ensures var v1 := reduce(initial, StartConnection(props.user, props.bot, props.selectedActivity));
        var v2 := if props.formatOptions.Some? then reduce(v1, SetFormatOptions(props.formatOptions.value)) else v1;
        store.view == reduce(v2, SetLocalizedStrings(ResolvedLocale(props.locale, browserLanguage)))
      ensures var start := StartConnection(props.user, props.bot, props.selectedActivity);
        var options := if props.formatOptions.Some? then [Dispatched(SetFormatOptions(props.formatOptions.value))] else [];
        var strings := SetLocalizedStrings(ResolvedLocale(props.locale, browserLanguage));
        store.trace == [Dispatched(start)] + options + [Dispatched(strings)]
    {
      var s := new Store(initial, reduce);
      s.Dispatch(StartConnection(props.user, props.bot, props.selectedActivity));
      if props.formatOptions.Some? {
        s.Dispatch(SetFormatOptions(props.formatOptions.value));
      }
      s.Dispatch(SetLocalizedStrings(ResolvedLocale(props.locale, browserLanguage)));
      store := s;
      timers := new Timers();
      selectionSubscribed := props.selectedActivity;
      typingTimers := map[];
    }

    /** A value on `connected$`. */
    method OnConnectivity(connected: bool)
      modifies store
      ensures var actions := ConnectedDispatches([connected]);
        store.trace == old(store.trace) + (if actions == [] then [] else [Dispatched(ConnectedToBot)])
      ensures store.view == if connected then store.reduce(old(store.view), ConnectedToBot) else old(store.view)
    {
      if connected {
        store.Dispatch(ConnectedToBot);
      }
    }

    /**
     * `handleIncomingActivity` at time `now`: the dispatch `Classify` calls for, and
     * for a typing activity from X, X's pending timer cancelled and replaced by one
     * new timer due at `now + 3000`; the timers of other senders are untouched.
     */
    method HandleIncomingActivity(activity: Activity, now: int)
      requires Valid()
      modifies this, store, timers
      ensures Valid()
      ensures var action := ReactionAction(Classify(activity, old(store.view).user.id, old(store.view).activities));
        && store.trace == old(store.trace) + (if action.Some? then [Dispatched(action.value)] else [])
        && store.view == if action.Some? then store.reduce(old(store.view), action.value) else old(store.view)
      ensures var r := Classify(activity, old(store.view).user.id, old(store.view).activities);
        !r.Typing? ==> typingTimers == old(typingTimers) && timers.pending == old(timers.pending) && timers.next == old(timers.next)
      ensures var r := Classify(activity, old(store.view).user.id, old(store.view).activities);
        r.Typing? ==>
          var x := r.activity.from;
          var h := old(timers.next);
          && typingTimers == old(typingTimers)[x.id := Some(h)]
          && timers.pending == (old(timers.pending) - StaleHandle(old(typingTimers), x.id))[h := Timer(x, now + TypingTimeout)]
          && timers.next == h + 1
          && (forall g :: g in timers.pending && timers.pending[g].from.id == x.id ==>
                g == h && timers.pending[g].deadline == now + TypingTimeout)
          && (forall g :: g in old(timers.pending) && old(timers.pending)[g].from.id != x.id ==>
                g in timers.pending && timers.pending[g] == old(timers.pending)[g])
    {
      var state := store.view;
      var reaction := Classify(activity, state.user.id, state.activities);
      match reaction {
        case Received(a) =>
          store.Dispatch(ReceiveMessage(a));
        case Typing(a) =>
          CancelTypingTimer(a.from.id);
          store.Dispatch(ShowTyping(a));
          ArmTypingTimer(a.from, now);
        case _ =>
      }
    }

    /** The first step of the typing case: a truthy slot for `id` is cancelled and set to undefined. */
    method CancelTypingTimer(id: string)
      requires Valid()
      modifies this, timers
      ensures Valid() && timers.next == old(timers.next)
      ensures typingTimers == if id in old(typingTimers) && old(typingTimers)[id].Some? then old(typingTimers)[id := None] else old(typingTimers)
      ensures timers.pending == old(timers.pending) - StaleHandle(old(typingTimers), id)
      ensures forall g :: g in timers.pending ==> timers.pending[g].from.id != id
    {
      if id in typingTimers && typingTimers[id].Some? {
        timers.ClearTimeout(typingTimers[id]);
        typingTimers := typingTimers[id := None];
      }
    }

    /** The last step of the typing case: a new timer for `from`, due `TypingTimeout` after `now`, fills its slot. */
    method ArmTypingTimer(from: User, now: int)
      requires Valid()
      requires forall g :: g in timers.pending ==> timers.pending[g].from.id != from.id
      modifies this, timers
      ensures Valid()
      ensures timers.next == old(timers.next) + 1 && old(timers.next) !in old(timers.pending)
      ensures timers.pending == old(timers.pending)[old(timers.next) := Timer(from, now + TypingTimeout)]
      ensures typingTimers == old(typingTimers)[from.id := Some(old(timers.next))]
    {
      var h := timers.SetTimeout(Timer(from, now + TypingTimeout));
      typingTimers := typingTimers[from.id := Some(h)];
    }

    /**
     * The runtime firing timer `h` at time `now`. A pending timer that is due clears
     * its sender's slot, dispatches `Clear_Typing` for that sender and then pushes
     * the selection; a cancelled, unknown or not yet due timer does nothing.
     */
    method FireTimer(h: Handle, now: int)
      requires Valid()
      modifies this, store, timers
      ensures Valid()
      ensures timers.next == old(timers.next)
      ensures h !in old(timers.pending) || now < old(timers.pending)[h].deadline ==>
        && store.trace == old(store.trace) && store.view == old(store.view)
        && typingTimers == old(typingTimers) && timers.pending == old(timers.pending)
      ensures h in old(timers.pending) && old(timers.pending)[h].deadline <= now ==>
        var from := old(timers.pending)[h].from;
        var v1 := store.reduce(old(store.view), ClearTyping(from));
        && timers.pending == old(timers.pending) - {h}
        && typingTimers == old(typingTimers)[from.id := None]
        && store.view == v1
        && store.trace == old(store.trace) + [Dispatched(ClearTyping(from))] + SelectionPush(v1)
    {
      if h in timers.pending && timers.pending[h].deadline <= now {
        var from := timers.pending[h].from;
        timers.pending := timers.pending - {h};
        typingTimers := typingTimers[from.id := None];
        store.Dispatch(ClearTyping(from));
        UpdateSelectedActivity(store);
      }
    }

    /**
     * `componentWillUnmount` as written. Line 122 unsubscribes from the selection
     * channel subscription, which exists only when a channel was given; without one
     * the call throws (`completed` is false) and the loop that cancels the typing
     * timers never runs.
     */
    method Unmount() returns (completed: bool)
      requires Valid()
      modifies timers
      ensures Valid() && timers.next == old(timers.next)
      ensures completed == selectionSubscribed
      ensures completed ==> timers.pending == map[]
      ensures !completed ==> timers.pending == old(timers.pending)
    {
      completed := selectionSubscribed;
      if selectionSubscribed {
        CancelAllTypingTimers();
      }
    }

    /** The intended teardown: the typing timers are cancelled whether or not a channel was given. */
    method UnmountGuarded()
      requires Valid()
      modifies timers
      ensures Valid() && timers.next == old(timers.next)
      ensures timers.pending == map[]
    {
      CancelAllTypingTimers();
    }

    /** `componentWillUnmount`'s loop: cancel the timer in every slot of the table, so none is left to fire. */
    method CancelAllTypingTimers()
      requires Valid()
      modifies timers
      ensures Valid()
      ensures timers.pending == map[] && timers.next == old(timers.next)
    {
      var remaining := typingTimers.Keys;
      while remaining != {}
        invariant remaining <= typingTimers.Keys
        invariant Valid() && timers.next == old(timers.next)
        invariant forall h :: h in timers.pending ==> timers.pending[h].from.id in remaining
        decreases remaining
      {
        var key :| key in remaining;
        timers.ClearTimeout(typingTimers[key]);
        remaining := remaining - {key};
      }
    }

    /**
     * A value pushed on the selection channel, while subscribed: select what it
     * resolves to, as written, so a value naming nothing selects the first
     * history activity without an id.
     */
    method OnSelectionPushed(pushed: ActivityOrID)
      modifies store
      ensures !selectionSubscribed ==> store.view == old(store.view) && store.trace == old(store.trace)
      ensures selectionSubscribed ==>
        var action := SelectActivity(ResolveAsWritten(pushed, old(store.view).activities));
        store.view == store.reduce(old(store.view), action) && store.trace == old(store.trace) + [Dispatched(action)]
    {
      if selectionSubscribed {
        store.Dispatch(SelectActivity(ResolveAsWritten(pushed, store.view.activities)));
      }
    }

    /**
     * The history's pick handler, `activity => this.selectActivity(activity)`: the
     * pick goes onto the selection channel. Without a channel `selectActivity` was
     * set to null, the wrapper still calls it, and the call throws (`completed`
     * is false) before anything is pushed.
     */
    method SelectByUser(activity: Activity) returns (completed: bool)
      modifies store
      ensures completed == selectionSubscribed
      ensures store.view == old(store.view)
      ensures store.trace == old(store.trace) + (if selectionSubscribed then [Pushed(ActivityOrID(Some(activity), None))] else [])
    {
      completed := selectionSubscribed;
      if selectionSubscribed {
        store.Emit(Pushed(ActivityOrID(Some(activity), None)));
      }
    }
  }

  /**
   * Two typing signals from the same sender, the second at `t2`: exactly one timer
   * for that sender is left pending, due at `t2 + 3000`, whatever `t1` was.
   */
  method TypingDebounce(c: Chat, a: Activity, t1: int, t2: int)
    requires c.Valid() && a.kind == "typing"
    modifies c, c.store, c.timers
    ensures c.Valid()
    ensures exists g :: g in c.timers.pending && c.timers.pending[g] == Timer(a.from, t2 + TypingTimeout)
    ensures forall g :: g in c.timers.pending && c.timers.pending[g].from.id == a.from.id ==>
      c.timers.pending[g].deadline == t2 + TypingTimeout
  {
    c.HandleIncomingActivity(a, t1);
    c.HandleIncomingActivity(a, t2);
    assert c.timers.next - 1 in c.timers.pending;
  }

  /**
   * After unmount as written: with a selection channel no typing timer fires, so
   * firing any handle at any time changes nothing; without one, a due pending
   * timer still dispatches `Clear_Typing` into the torn-down store.
   */
  method FireAfterUnmount(c: Chat, h: Handle, now: int)
    requires c.Valid()
    modifies c, c.store, c.timers
    ensures c.selectionSubscribed ==>
      c.store.trace == old(c.store.trace) && c.store.view == old(c.store.view) && c.timers.pending == map[]
    ensures !c.selectionSubscribed && h in old(c.timers.pending) && old(c.timers.pending)[h].deadline <= now ==>
      var from := old(c.timers.pending)[h].from;
      c.store.trace == old(c.store.trace) + [Dispatched(ClearTyping(from))]
                       + SelectionPush(c.store.reduce(old(c.store.view), ClearTyping(from)))
  {
    var _ := c.Unmount();
    c.FireTimer(h, now);
  }

  /** After the intended teardown no typing timer fires, channel or not. */
  method FireAfterGuardedUnmount(c: Chat, h: Handle, now: int)
    requires c.Valid()
    modifies c, c.store, c.timers
    ensures c.store.trace == old(c.store.trace) && c.store.view == old(c.store.view)
    ensures c.timers.pending == map[]
  {
    c.UnmountGuarded();
    c.FireTimer(h, now);
  }
}
