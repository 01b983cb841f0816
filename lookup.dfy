/** `Array.prototype.find` over the history, and the two lookups the component makes with it. */
module Lookup {
  import opened Types

  /** The first element of `s` satisfying `p`, or None when none does. */
  function FindFirst<T>(s: seq<T>, p: T -> bool): (r: Option<T>)
    ensures r.None? <==> forall i :: 0 <= i < |s| ==> !p(s[i])
    ensures r.Some? ==> exists i :: 0 <= i < |s| && s[i] == r.value && p(s[i]) && forall j :: 0 <= j < i ==> !p(s[j])
    decreases |s|
  {
    if |s| == 0 then None
    else if p(s[0]) then Some(s[0])
    else
      var r := FindFirst(s[1..], p);
      assert forall i :: 0 < i < |s| ==> s[i] == s[1..][i - 1];
      r
  }

  /** `activities.find(a => a.id === id)`: an undefined id matches every activity without one. */
  function FindById(activities: seq<Activity>, id: Option<string>): (r: Option<Activity>)
    ensures r.None? <==> forall i :: 0 <= i < |activities| ==> activities[i].id != id
    ensures r.Some? ==> r.value in activities && r.value.id == id
    ensures r.Some? ==> exists i :: 0 <= i < |activities| && activities[i] == r.value && activities[i].id == id
                                   && forall j :: 0 <= j < i ==> activities[j].id != id
  {
    FindFirst(activities, (a: Activity) => a.id == id)
  }

  /** `activities.find(a => a["sendId"] === sendId)`. */
  function FindBySendId(activities: seq<Activity>, sendId: nat): (r: Option<Activity>)
    ensures r.None? <==> forall i :: 0 <= i < |activities| ==> activities[i].sendId != Some(sendId)
    ensures r.Some? ==> r.value in activities && r.value.sendId == Some(sendId)
    ensures r.Some? ==> exists i :: 0 <= i < |activities| && activities[i] == r.value && activities[i].sendId == Some(sendId)
                                   && forall j :: 0 <= j < i ==> activities[j].sendId != Some(sendId)
  {
    FindFirst(activities, (a: Activity) => a.sendId == Some(sendId))
  }
}
