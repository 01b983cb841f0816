/**
 * Inbound half of the selection bridge: turning a value pushed on the external
 * selection channel into the activity to select.
 */
module Selection {
  import opened Types
  import opened Lookup

  /**
   * The resolution as the constructor writes it: the pushed activity if there is
   * one, else the first history activity whose `id` is strictly equal to the pushed
   * `id`. When the pushed value has no `id`, every activity without an `id` (a local
   * message not yet acknowledged) matches.
   */
  function ResolveAsWritten(pushed: ActivityOrID, history: seq<Activity>): (r: Option<Activity>)
    ensures pushed.activity.Some? ==> r == pushed.activity
    ensures pushed.activity.None? && r.Some? ==> r.value in history && r.value.id == pushed.id
    ensures pushed.activity.None? ==> (r.None? <==> forall i :: 0 <= i < |history| ==> history[i].id != pushed.id)
    ensures pushed.activity.None? && r.Some? ==>
      exists i :: 0 <= i < |history| && history[i] == r.value && forall j :: 0 <= j < i ==> history[j].id != pushed.id
  {
    if pushed.activity.Some? then pushed.activity else FindById(history, pushed.id)
  }

  /**
   * `updateSelectedActivity` pushes `{ activity: undefined }` whenever nothing is
   * selected; resolved as written, that value selects the first unacknowledged
   * local message instead of nothing.
   */
  lemma EmptySelectionPicksPendingMessage(history: seq<Activity>, k: nat)
    requires k < |history| && history[k].id.None?
    ensures ResolveAsWritten(ActivityOrID(None, None), history).Some?
    ensures ResolveAsWritten(ActivityOrID(None, None), history).value.id.None?
  {
  }

  /**
   * The resolution the bridge evidently intends: the pushed
   * activity, else the first history activity carrying the pushed identifier, and
   * nothing when the pushed value names neither.
   */
  function Resolve(pushed: ActivityOrID, history: seq<Activity>): (r: Option<Activity>)
    ensures pushed.activity.Some? ==> r == pushed.activity
    ensures pushed.activity.None? && pushed.id.None? ==> r.None?
    ensures pushed.activity.None? && pushed.id.Some? ==>
      (r.None? <==> forall i :: 0 <= i < |history| ==> history[i].id != pushed.id)
    ensures pushed.activity.None? && r.Some? ==> r.value in history && r.value.id == pushed.id
    ensures r.Some? && pushed.activity.None? ==> r.value.id.Some?
    ensures pushed.activity.None? && r.Some? ==>
      exists i :: 0 <= i < |history| && history[i] == r.value && forall j :: 0 <= j < i ==> history[j].id != pushed.id
  {
    if pushed.activity.Some? then pushed.activity
    else if pushed.id.None? then None
    else FindById(history, pushed.id)
  }

  /** The two resolutions differ only on a pushed value that carries neither an activity nor an id. */
  lemma ResolveAgreesWhenNamed(pushed: ActivityOrID, history: seq<Activity>)
    requires pushed.activity.Some? || pushed.id.Some?
    ensures Resolve(pushed, history) == ResolveAsWritten(pushed, history)
  {
  }
}
