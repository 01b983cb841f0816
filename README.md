# Chat component core: reconciler, send pipeline, selection bridge

A Dafny model of the decision logic inside the botchat `Chat` component
(`src/Chat.tsx`). The component sits between a bot connection and a
Redux-style store. It turns inbound activities into store actions: echo
suppression, message dedup by id, the `//typing` sentinel and typing indicators
that clear after 3000 ms. It keeps a per-sender table of typing timers. It
drives outbound sends: optimistic `Send_Message`, a post to the bot connection,
then success or failure callbacks. It also mirrors the selected activity to an
optional external channel.

How the model is built:

- `types.dfy` (`Types`): users, activities, actions, and the `Event` trace
  alphabet. An event is a dispatch, a push onto the selection channel, or a post
  together with what its resolution will do.
- `store.dfy` (`ChatStore`): the store as a class. Its `view` is the part of
  the state the component reads: the local user, the activities, `sendCounter`,
  the selected activity and whether a selection channel exists. Its `trace`
  records every dispatch, push and post in order. The reducer is not part of
  this model, so it is a parameter: `Dispatch` applies it and records the
  action. Nothing is assumed about what the reducer does.
- `text.dfy` (`Text`): `trim` and `endsWith`.
- `lookup.dfy` (`Lookup`): `find` over the history.
- `selection.dfy` (`Selection`): resolving a pushed selection value.
- `send.dfy` (`Send`): `sendMessage`, `trySendMessage`, the two callbacks,
  `sendPostBack` and `sendFiles`. `sendFiles` is a loop proved against the
  function `FilesRun`.
- `chat.dfy` (`ChatComponent`): the `Chat` class. It holds the mutable
  `typingTimers` table. A `Timers` object stands for the browser's pending
  timers, with handles and deadlines. `Classify` is the decision table that
  `HandleIncomingActivity` is proved against. Firing a timer is its own event
  (`FireTimer`), and `Unmount` cancels every timer in a loop.

Behaviours of the code that are easy to miss, all kept by the model:

- Connectivity is a filter on values. Every `true` on `connected$`
  dispatches `Connected_To_Bot`, repeats included. It is not a rising-edge
  detector.
- `trySendMessage` does not tolerate a lookup miss. It reads `.text` of the
  `find` result, which throws when no activity carries the `sendId`. The model
  returns `LookupMissed` and posts nothing. `Send_Message` (or
  `Send_Message_Try`) has already been dispatched by then.
- Echo suppression applies only to `message` activities. A native `typing`
  activity from the local user still shows a typing indicator and arms a timer.
- `sendFiles` does not go through `trySendMessage`. A later retry of a file's
  `sendId` posts that activity's text, which is absent, not the file.
- Dedup compares ids with strict equality, so an inbound message without an
  `id` counts as a duplicate of any unacknowledged local message (none of those
  has an `id` either). The model keeps this behaviour.
- Without a selection channel, `selectActivity` is set to null, but the history's
  pick handler still calls it, so a pick throws. `componentWillUnmount` also
  throws at line 122, because the channel subscription was never made, and so
  the typing timers are never cancelled (see Findings).

## Model

| member | source | states |
|---|---|---|
| `Text.BlankIffAllWhitespace` | src/Chat.tsx:156-157 | text is rejected by the `trim().length === 0` guard exactly when every character is whitespace (the empty string included) |
| `Lookup.FindFirst` | src/Chat.tsx:187 | `find` returns None iff no element satisfies the predicate, otherwise an element that satisfies it with no earlier one that does |
| `Lookup.FindById` | src/Chat.tsx:89 | the lookup by `id` fails iff no history activity has that id; a hit is the first history activity with that id |
| `Lookup.FindBySendId` | src/Chat.tsx:187 | the lookup by `sendId` fails iff no activity carries that correlation id; a hit is the first activity carrying it |
| `ChatStore.Store.constructor` | src/Chat.tsx:37 | a new store has the given initial state, an empty trace and the given reducer |
| `ChatStore.Store.Dispatch` | src/Chat.tsx:58 | a dispatch moves the state to the reducer's result and appends exactly that action to the trace |
| `ChatStore.SelectionPush` | src/Chat.tsx:149-153 | at most one push; a push exists iff a selection channel is configured, and it carries the current selection |
| `ChatStore.UpdateSelectedActivity` | src/Chat.tsx:149-153 | the state is unchanged, and the trace gains exactly `SelectionPush` of the current state |
| `Selection.ResolveAsWritten` | src/Chat.tsx:66-70 | a pushed activity wins; otherwise the result is the first history activity whose id strictly equals the pushed id, and None iff there is none |
| `Selection.EmptySelectionPicksPendingMessage` | src/Chat.tsx:69 | resolved as written, a value with neither activity nor id selects an activity without id whenever the history holds one |
| `Selection.Resolve` | src/Chat.tsx:66-70 | a pushed activity wins; a value naming nothing selects nothing; a pushed id selects the first history activity with that id, None iff none has it; a looked-up result always has an id |
| `Selection.ResolveAgreesWhenNamed` | src/Chat.tsx:69 | the intended resolution equals the one as written whenever the pushed value carries an activity or an id |
| `Send.Delivery` | src/Chat.tsx:186-192 | the post made from a state is empty iff no activity carries the sendId; otherwise one text post by the local user, correlated with sendId, whose text is that of an activity carrying it |
| `Send.TrySendMessage` | src/Chat.tsx:182-193 | `Send_Message_Try` is dispatched first iff `updateStatus`; then the lookup in the resulting state, and the correlated post; the outcome is `Posted` iff the lookup hits and `LookupMissed` iff it misses |
| `Send.SendMessage` | src/Chat.tsx:155-167 | blank text changes neither state nor trace; otherwise exactly one `Send_Message` from the local user with that text, then the post correlated with `sendCounter` read before the dispatch, with no `Send_Message_Try` |
| `Send.SendMessageSucceeded` | src/Chat.tsx:169-173 | dispatches `Send_Message_Succeed(sendId, id)`, then pushes the selection only when a channel is configured |
| `Send.SendMessageFailed` | src/Chat.tsx:175-180 | dispatches `Send_Message_Fail(sendId)`, then pushes the selection only when a channel is configured |
| `Send.SendPostBack` | src/Chat.tsx:195-203 | no dispatch and no state change; a single post of the text whose resolution is only logged |
| `Send.SendFiles` | src/Chat.tsx:205-228 | the state and the trace after the loop are those of `FilesRun`, one iteration per file in order |
| `Send.FilesRunShape` | src/Chat.tsx:205-228 | two events per file; event pair k is a `Send_Message` carrying exactly file k's attachment, then file k's post, correlated with the counter read at the start of iteration k; an empty list produces nothing |
| `Send.FilesRunSendIds` | src/Chat.tsx:209-210 | with a reducer that advances the counter on every `Send_Message`, the files are posted with consecutive correlation ids starting at the counter read first |
| `ChatComponent.Classify` | src/Chat.tsx:77-107 | a message from the local user is dropped; a native typing activity is handled as typing, whoever sent it; a foreign message with the sentinel becomes a typing activity; any other foreign message is received iff no history activity shares its id, otherwise it is a duplicate; other types are ignored |
| `ChatComponent.ReactionAction` | src/Chat.tsx:88-99 | a received message dispatches `Receive_Message`, a typing reaction dispatches `Show_Typing`, and nothing else dispatches |
| `ChatComponent.ConnectedDispatches` | src/Chat.tsx:57-59 | only `Connected_To_Bot` is dispatched, exactly once per `true` value, repeats included |
| `ChatComponent.Timers.SetTimeout` | src/Chat.tsx:100-104 | a fresh handle that was not pending, now pending with the given timer |
| `ChatComponent.Timers.ClearTimeout` | src/Chat.tsx:96 | removes the handle from the pending timers; an undefined handle changes nothing |
| `ChatComponent.Chat.constructor` | src/Chat.tsx:44-75 | dispatches `Start_Connection`, `Set_Format_Options` only when options are given, then `Set_Localized_Strings` for `locale` or the browser language; the store state is the reducer applied to those dispatches in order; the timer table starts empty |
| `ChatComponent.Chat.OnConnectivity` | src/Chat.tsx:57-59 | a `true` value dispatches `Connected_To_Bot` and a `false` value does nothing |
| `ChatComponent.Chat.HandleIncomingActivity` | src/Chat.tsx:77-107 | the trace gains exactly the action `Classify` calls for; non-typing reactions leave the timer table and the timers untouched; a typing reaction for X cancels X's timer and leaves exactly one pending timer for X, due at now+3000, with other senders' timers unchanged |
| `ChatComponent.Chat.CancelTypingTimer` | src/Chat.tsx:95-98 | a truthy slot is cancelled and set to undefined, after which no pending timer belongs to that sender |
| `ChatComponent.Chat.ArmTypingTimer` | src/Chat.tsx:100 | a new handle, due `TypingTimeout` after now, fills the sender's slot |
| `ChatComponent.Chat.FireTimer` | src/Chat.tsx:100-104 | a due pending timer clears its sender's slot, dispatches `Clear_Typing` for that sender, then pushes the selection; a cancelled or not yet due timer changes nothing |
| `ChatComponent.Chat.Unmount` | src/Chat.tsx:119-128 | with a selection channel, teardown completes and no timer is pending; without one, it throws at line 122 and every pending timer stays pending |
| `ChatComponent.Chat.UnmountGuarded` | src/Chat.tsx:119-128 | the intended teardown: no timer is pending afterwards, channel or not |
| `ChatComponent.Chat.CancelAllTypingTimers` | src/Chat.tsx:125-127 | after the loop over the table no timer is pending |
| `ChatComponent.Chat.OnSelectionPushed` | src/Chat.tsx:65-71 | when subscribed, dispatches `Select_Activity` with the activity resolved as line 69 writes it; without a channel, nothing happens |
| `ChatComponent.Chat.SelectByUser` | src/Chat.tsx:73 | a user pick is pushed onto the channel when one exists, and nothing is dispatched; without a channel the call throws and pushes nothing |
| `ChatComponent.TypingDebounce` | src/Chat.tsx:95-104 | after two typing signals from one sender, exactly one timer is left for that sender, due 3000 ms after the second |
| `ChatComponent.FireAfterUnmount` | src/Chat.tsx:119-128 | after unmount as written with a channel, firing any handle changes nothing; without a channel, a due pending timer still dispatches `Clear_Typing` |
| `ChatComponent.FireAfterGuardedUnmount` | src/Chat.tsx:125-127 | after the intended teardown, firing any handle at any time changes neither the store state nor the trace |

## Findings

| source | as written | input that shows it | evidently intended | confidence | as-written member | corrected member |
|---|---|---|---|---|---|---|
| src/Chat.tsx:69 | a pushed value without `activity` is looked up with `a.id === activityOrID.id`, and `undefined === undefined` holds | `updateSelectedActivity` (src/Chat.tsx:152) pushes `{ activity: undefined }` when nothing is selected, for example when a typing timer fires, while the history holds a local message not yet acknowledged | a value that names neither an activity nor an id selects nothing | medium, not executed | `Selection.ResolveAsWritten`, `Selection.EmptySelectionPicksPendingMessage` | `Selection.Resolve` |
| src/Chat.tsx:122 | `componentWillUnmount` calls `unsubscribe` on `selectedActivitySubscription`, which is assigned only when a selection channel was given (line 66) | a component mounted without a selection channel, with a typing timer pending, is unmounted; the call throws, the loop at lines 125-127 never runs, and the timer later dispatches `Clear_Typing` | every typing timer is cancelled at unmount, channel or not | high, not executed | `ChatComponent.Chat.Unmount`, `ChatComponent.FireAfterUnmount` | `ChatComponent.Chat.UnmountGuarded`, `ChatComponent.FireAfterGuardedUnmount` |

## Left out

- Rendering: `render`, the `forceUpdate` subscription in `componentDidMount`, and the `History` and `Shell` components are presentation only.
- Stream mechanics: RxJS subscriptions and their teardown at unmount (src/Chat.tsx:120-124) are left out. So are `botConnection.start()` and `end()` and the transport behind `postMessage` and `postFile`. A post is recorded in the trace. Its success or failure is a separate call to `SendMessageSucceeded` or `SendMessageFailed`. Errors on the activity stream are only logged, so they have no model.
- The selection channel's own behaviour: a push made by this component reaches its own subscriber at once, and a subscriber is replayed the channel's current value. Here every such delivery is an explicit `OnSelectionPushed` call; it is not chained to the push automatically.
- The reducer is not part of this model: `StoreView` fields after a dispatch are whatever the reducer parameter returns. `ActivityState.status` (src/Chat.tsx:12-15) is written only by the reducer and is not represented.
- Ambient values are inputs: the clock reading behind `new Date().toISOString()`, `window.URL.createObjectURL`, `window.navigator.language` and the result of `strings(locale)`, which is represented by the locale it was loaded for. `console.log` output is dropped.
- The `typeof text !== 'string'` test in `sendMessage` is covered by Dafny's types.
- `Selection.Resolve` and `ChatComponent.Chat.UnmountGuarded` are the corrected behaviours of the Findings. The component keeps the code as written: `OnSelectionPushed` resolves with `ResolveAsWritten`, and `Unmount` throws without a channel.
- Time: `FireTimer` takes the current time and fires any due pending timer. The order in which the runtime fires several due timers is not modelled.
- `Send.FilesRunSendIds` assumes the reducer gives each `Send_Message` the next counter value. The reducer is not modelled; without the assumption, `Send.FilesRunShape` still ties each correlation id to the counter read at the start of its iteration.
