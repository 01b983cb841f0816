/**
 * The send pipeline: `sendMessage`, `trySendMessage`, the success and failure
 * callbacks, `sendPostBack` and `sendFiles`. Each post is recorded with what its
 * resolution will do; the resolution itself is a separate event
 * (`SendMessageSucceeded`, `SendMessageFailed`).
 */
module Send {
  import opened Types
  import opened Text
  import opened Lookup
  import opened ChatStore

  /** What a send entry point did: refused blank text, posted, or failed reading `.text` of a missing activity. */
  datatype Outcome = Rejected | Posted | LookupMissed

  /** The clock reading and object URL a file send takes from the browser, one per file. */
  datatype Ambient = Ambient(timestamp: string, objectUrl: string)

  /** The optimistic activity `sendMessage` dispatches. */
  function TextActivity(text: string, from: User, timestamp: string): Activity
  {
    Activity("message", None, None, from, Some(text), [], timestamp)
  }

  /** The optimistic activity `sendFiles` dispatches for one file. */
  function FileActivity(file: File, ambient: Ambient, from: User): Activity
  {
    Activity("message", None, None, from, None, [Attachment(file.mediaType, ambient.objectUrl, file.name)], ambient.timestamp)
  }

  /**
   * The post `trySendMessage` makes from state `v`: the text of the activity that
   * carries `sendId`, from the local user, correlated with `sendId`; nothing when
   * no activity carries it.
   */
  function Delivery(v: StoreView, sendId: nat): (events: seq<Event>)
    ensures |events| <= 1
    ensures events == [] <==> forall i :: 0 <= i < |v.activities| ==> v.activities[i].sendId != Some(sendId)
    ensures forall e <- events ::
              && e.PostedText? && e.from == v.user && e.reply == Correlated(sendId)
              && exists a <- v.activities :: a.sendId == Some(sendId) && a.text == e.text
  {
    match FindBySendId(v.activities, sendId)
    case Some(a) => [PostedText(a.text, v.user, Correlated(sendId))]
    case None => []
  }

  /**
   * `trySendMessage(store, sendId, updateStatus)`: optionally dispatch
   * `Send_Message_Try`, then post the text of the activity carrying `sendId`.
   * A missing activity is the `LookupMissed` outcome and posts nothing.
   */
  method TrySendMessage(store: Store, sendId: nat, updateStatus: bool) returns (outcome: Outcome)
    modifies store
    ensures var v1 := if updateStatus then store.reduce(old(store.view), SendMessageTry(sendId)) else old(store.view);
      && store.view == v1
      && store.trace == old(store.trace) + (if updateStatus then [Dispatched(SendMessageTry(sendId))] else []) + Delivery(v1, sendId)
      && (outcome == Posted <==> FindBySendId(v1.activities, sendId).Some?)
      && (outcome == LookupMissed <==> FindBySendId(v1.activities, sendId).None?)
  {
    if updateStatus {
      store.Dispatch(SendMessageTry(sendId));
    }
    var state := store.view;
    var found := FindBySendId(state.activities, sendId);
    if found.Some? {
      store.Emit(PostedText(found.value.text, state.user, Correlated(sendId)));
      outcome := Posted;
    } else {
      outcome := LookupMissed;
    }
  }

  /**
   * `sendMessage(store, text)`: blank text changes nothing; otherwise the counter is
   * read, one `Send_Message` carrying the text from the local user is dispatched,
   * and the activity correlated with the counter read before the dispatch is
   * posted, without a `Send_Message_Try`.
   */
  method SendMessage(store: Store, text: string, timestamp: string) returns (outcome: Outcome)
    modifies store
    ensures IsBlank(text) ==> outcome == Rejected && store.view == old(store.view) && store.trace == old(store.trace)
    ensures !IsBlank(text) ==>
      var sent := TextActivity(text, old(store.view).user, timestamp);
      var v1 := store.reduce(old(store.view), Types.SendMessage(sent));
      && store.view == v1
      && store.trace == old(store.trace) + [Dispatched(Types.SendMessage(sent))] + Delivery(v1, old(store.view).sendCounter)
      && (outcome == Posted <==> FindBySendId(v1.activities, old(store.view).sendCounter).Some?)
      && (outcome == LookupMissed <==> FindBySendId(v1.activities, old(store.view).sendCounter).None?)
  {
    if IsBlank(text) {
      return Rejected;
    }
    var state := store.view;
    var sendId := state.sendCounter;
    store.Dispatch(Types.SendMessage(TextActivity(text, state.user, timestamp)));
    outcome := TrySendMessage(store, sendId, false);
  }

  /** The callback run when a correlated post resolves with the remote `id`. */
  method SendMessageSucceeded(store: Store, sendId: nat, id: string)
    modifies store
    ensures var v1 := store.reduce(old(store.view), SendMessageSucceed(sendId, id));
      store.view == v1 && store.trace == old(store.trace) + [Dispatched(SendMessageSucceed(sendId, id))] + SelectionPush(v1)
  {
    store.Dispatch(SendMessageSucceed(sendId, id));
    UpdateSelectedActivity(store);
  }

  /** The callback run when a correlated post fails. */
  method SendMessageFailed(store: Store, sendId: nat)
    modifies store
    ensures var v1 := store.reduce(old(store.view), SendMessageFail(sendId));
      store.view == v1 && store.trace == old(store.trace) + [Dispatched(SendMessageFail(sendId))] + SelectionPush(v1)
  {
    store.Dispatch(SendMessageFail(sendId));
    UpdateSelectedActivity(store);
  }

  /** `sendPostBack(store, text)`: a post whose resolution is only logged; nothing is dispatched. */
  method SendPostBack(store: Store, text: string)
    modifies store
    ensures store.view == old(store.view)
    ensures store.trace == old(store.trace) + [PostedText(Some(text), old(store.view).user, LogOnly)]
  {
    store.Emit(PostedText(Some(text), store.view.user, LogOnly));
  }

  /** The events of a run over some files, and the store state it ends in. */
  datatype Run = Run(events: seq<Event>, view: StoreView)

  /**
   * One iteration of `sendFiles`: the counter is read, `Send_Message` with the
   * file's attachment is dispatched, then the file is posted by the user in the
   * state after that dispatch, correlated with the counter read first.
   */
  function FileStep(file: File, ambient: Ambient, v: StoreView, reduce: Reducer): Run
  {
    var sent := FileActivity(file, ambient, v.user);
    var v1 := reduce(v, Types.SendMessage(sent));
    Run([Dispatched(Types.SendMessage(sent)), PostedFile(file, v1.user, Correlated(v.sendCounter))], v1)
  }

  /** `sendFiles` over `files` from state `v`, one `FileStep` per file in order. */
  function FilesRun(files: seq<File>, ambient: seq<Ambient>, v: StoreView, reduce: Reducer): Run
    requires |ambient| == |files|
    decreases |files|
  {
    if |files| == 0 then Run([], v)
    else
      var n := |files| - 1;
      var prior := FilesRun(files[..n], ambient[..n], v, reduce);
      var step := FileStep(files[n], ambient[n], prior.view, reduce);
      Run(prior.events + step.events, step.view)
  }

  /** `sendFiles(store, files)`. */
  method SendFiles(store: Store, files: seq<File>, ambient: seq<Ambient>)
    requires |ambient| == |files|
    modifies store
    ensures store.view == FilesRun(files, ambient, old(store.view), store.reduce).view
    ensures store.trace == old(store.trace) + FilesRun(files, ambient, old(store.view), store.reduce).events
  {
    ghost var start := store.view;
    var i := 0;
    while i < |files|
      invariant 0 <= i <= |files|
      invariant store.view == FilesRun(files[..i], ambient[..i], start, store.reduce).view
      invariant store.trace == old(store.trace) + FilesRun(files[..i], ambient[..i], start, store.reduce).events
    {
      var file := files[i];
      var state := store.view;
      var sendId := state.sendCounter;
      store.Dispatch(Types.SendMessage(FileActivity(file, ambient[i], state.user)));
      state := store.view;
      store.Emit(PostedFile(file, state.user, Correlated(sendId)));
      assert files[..i + 1][..i] == files[..i];
      assert ambient[..i + 1][..i] == ambient[..i];
      i := i + 1;
    }
    assert files[..i] == files;
    assert ambient[..i] == ambient;
  }

  /** The two events that file `k` of a run contributes. */
  predicate FileEventsAt(events: seq<Event>, k: nat, file: File, ambient: Ambient, sendId: nat)
  {
    2 * k + 1 < |events|
    && events[2 * k].Dispatched?
    && events[2 * k].action.SendMessage?
    && events[2 * k].action.activity.kind == "message"
    && events[2 * k].action.activity.text.None?
    && events[2 * k].action.activity.attachments == [Attachment(file.mediaType, ambient.objectUrl, file.name)]
    && events[2 * k + 1].PostedFile?
    && events[2 * k + 1].file == file
    && events[2 * k + 1].reply == Correlated(sendId)
  }

  /**
   * `sendFiles` dispatches one `Send_Message` per file, in input order, each with
   * exactly that file's attachment, and posts that file correlated with the counter
   * read from the state at the start of its own iteration; nothing else happens, so
   * an empty list dispatches nothing.
   */
  lemma {:induction false} FilesRunShape(files: seq<File>, ambient: seq<Ambient>, v: StoreView, reduce: Reducer)
    requires |ambient| == |files|
    ensures |FilesRun(files, ambient, v, reduce).events| == 2 * |files|
    ensures forall k :: 0 <= k < |files| ==>
      FileEventsAt(FilesRun(files, ambient, v, reduce).events, k, files[k], ambient[k],
                   FilesRun(files[..k], ambient[..k], v, reduce).view.sendCounter)
    decreases |files|
  {
    if |files| > 0 {
      var n := |files| - 1;
      FilesRunShape(files[..n], ambient[..n], v, reduce);
      var prior := FilesRun(files[..n], ambient[..n], v, reduce);
      var events := FilesRun(files, ambient, v, reduce).events;
      assert events == prior.events + FileStep(files[n], ambient[n], prior.view, reduce).events;
      forall k | 0 <= k < |files|
        ensures FileEventsAt(events, k, files[k], ambient[k], FilesRun(files[..k], ambient[..k], v, reduce).view.sendCounter)
      {
        if k < n {
          assert files[..n][..k] == files[..k];
          assert ambient[..n][..k] == ambient[..k];
          assert files[..n][k] == files[k] && ambient[..n][k] == ambient[k];
          assert FileEventsAt(prior.events, k, files[k], ambient[k], FilesRun(files[..k], ambient[..k], v, reduce).view.sendCounter);
          assert events[2 * k] == prior.events[2 * k];
          assert events[2 * k + 1] == prior.events[2 * k + 1];
        } else {
          assert files[..k] == files[..n] && ambient[..k] == ambient[..n];
        }
      }
    }
  }

  /** A reducer that gives each `Send_Message` the next correlation id. */
  ghost predicate CountsSends(reduce: Reducer)
  {
    forall v: StoreView, a: Activity {:trigger reduce(v, Types.SendMessage(a))} ::
      reduce(v, Types.SendMessage(a)).sendCounter == v.sendCounter + 1
  }

  /**
   * With a reducer that advances the counter on every `Send_Message`, the files of
   * one `sendFiles` call are posted with consecutive correlation ids starting at the
   * counter read first: pairwise distinct and increasing in input order.
   */
  lemma {:induction false} FilesRunSendIds(files: seq<File>, ambient: seq<Ambient>, v: StoreView, reduce: Reducer)
    requires |ambient| == |files|
    requires CountsSends(reduce)
    ensures FilesRun(files, ambient, v, reduce).view.sendCounter == v.sendCounter + |files|
    ensures forall k :: 0 <= k < |files| ==>
      FileEventsAt(FilesRun(files, ambient, v, reduce).events, k, files[k], ambient[k], v.sendCounter + k)
    decreases |files|
  {
    FilesRunShape(files, ambient, v, reduce);
    forall k | 0 <= k <= |files|
      ensures FilesRun(files[..k], ambient[..k], v, reduce).view.sendCounter == v.sendCounter + k
    {
      FilesRunCounter(files[..k], ambient[..k], v, reduce);
    }
    assert files[..|files|] == files && ambient[..|ambient|] == ambient;
  }

  lemma {:induction false} FilesRunCounter(files: seq<File>, ambient: seq<Ambient>, v: StoreView, reduce: Reducer)
    requires |ambient| == |files|
    requires CountsSends(reduce)
    ensures FilesRun(files, ambient, v, reduce).view.sendCounter == v.sendCounter + |files|
    decreases |files|
  {
    if |files| > 0 {
      var n := |files| - 1;
      FilesRunCounter(files[..n], ambient[..n], v, reduce);
    }
  }
}
