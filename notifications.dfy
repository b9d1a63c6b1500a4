/** composables/useNotifications.ts: the list of toast notifications a page shows,
    with adding (which returns the new entry's id), removing by id, and one helper per
    kind. The id is the current time in milliseconds, given as `now`; the timer that
    removes an entry after its duration is not modelled. */
module Notifications {
  import opened Common
  import opened Strings

  datatype Kind = Success | Failure | Warning | Info

  datatype Notification = Notification(id: string, kind: Kind, title: string, message: string, duration: Option<int>)

  /** The `duration` property of the argument: absent, or present with a number or
      with undefined. */
  datatype DurationArg = Absent | Given(value: Option<int>)

  datatype NotificationInput = NotificationInput(kind: Kind, title: string, message: string, duration: DurationArg)

  /** `{ id, duration: 5000, ...notification }`: the spread overrides the default
      whenever the argument has the key, even with undefined. */
  function Build(input: NotificationInput, id: string): (r: Notification)
    ensures r.id == id && r.kind == input.kind && r.title == input.title && r.message == input.message
    ensures input.duration.Absent? <==> r.duration == Some(5000) && input.duration != Given(Some(5000))
    ensures input.duration.Given? ==> r.duration == input.duration.value
  {
    Notification(id, input.kind, input.title, input.message,
                 match input.duration case Absent => Some(5000) case Given(d) => d)
  }

  function IdIs(id: string): Notification -> bool {
    (n: Notification) => n.id == id
  }

  /** The list after `removeNotification(id)`: the first entry with that id is spliced
      out, if there is one. */
  function RemoveFirst(s: seq<Notification>, id: string): (r: seq<Notification>)
    ensures var k := FirstIndex(s, IdIs(id)); k == -1 ==> r == s
    ensures var k := FirstIndex(s, IdIs(id)); k >= 0 ==> r == s[..k] + s[k + 1..]
  {
    var k := FirstIndex(s, IdIs(id));
    if k > -1 then s[..k] + s[k + 1..] else s
  }

  /** Removing an id nobody has changes nothing; otherwise exactly one entry goes, and
      it is the first with that id. */
  lemma RemoveFirstSpec(s: seq<Notification>, id: string)
    ensures (forall n :: n in s ==> n.id != id) ==> RemoveFirst(s, id) == s
    ensures (exists n :: n in s && n.id == id) ==>
              |RemoveFirst(s, id)| == |s| - 1
              && multiset(RemoveFirst(s, id)) + multiset{s[FirstIndex(s, IdIs(id))]} == multiset(s)
              && s[FirstIndex(s, IdIs(id))].id == id
  {
    var k := FirstIndex(s, IdIs(id));
    if exists n :: n in s && n.id == id {
      var n :| n in s && n.id == id;
      assert k >= 0;
      assert s == s[..k] + [s[k]] + s[k + 1..];
    }
  }

  /** An addition followed by the removal of its id restores the list, when the id
      was new. */
  lemma AddThenRemove(s: seq<Notification>, input: NotificationInput, id: string)
    requires forall n :: n in s ==> n.id != id
    ensures RemoveFirst(s + [Build(input, id)], id) == s
  {
    var t := s + [Build(input, id)];
    FirstNewAt(s, t, id);
    assert t[..|s|] == s;
  }

  /** Two additions in the same millisecond share an id, and one removal takes only
      the earlier one away. */
  lemma SameTickRemovesEarlier(s: seq<Notification>, a: NotificationInput, b: NotificationInput, id: string)
    requires forall n :: n in s ==> n.id != id
    ensures RemoveFirst(s + [Build(a, id)] + [Build(b, id)], id) == s + [Build(b, id)]
  {
    var t := s + [Build(a, id)] + [Build(b, id)];
    FirstNewAt(s, t, id);
    assert t[..|s|] == s && t[|s| + 1..] == [Build(b, id)];
  }

  /** The first entry with a new id is the first one after `s`. */
  lemma FirstNewAt(s: seq<Notification>, t: seq<Notification>, id: string)
    requires forall n :: n in s ==> n.id != id
    requires |t| > |s| && t[..|s|] == s && t[|s|].id == id
    ensures FirstIndex(t, IdIs(id)) == |s|
  {
    forall i | 0 <= i < |s| ensures !IdIs(id)(t[i]) {
      assert t[i] == s[i] && s[i] in s;
    }
    assert IdIs(id)(t[|s|]);
  }

  class NotificationList {
    var notifications: seq<Notification>

    constructor()
      ensures notifications == []
    {
      notifications := [];
    }

    /** addNotification. */
    method AddNotification(input: NotificationInput, now: nat) returns (id: string)
      modifies this
      ensures id == NatToString(now)
      ensures notifications == old(notifications) + [Build(input, id)]
    {
      id := NatToString(now);
      var newNotification := Build(input, id);
      notifications := notifications + [newNotification];
    }

    /** removeNotification. */
    method RemoveNotification(id: string)
      modifies this
      ensures notifications == RemoveFirst(old(notifications), id)
    {
      var index := FirstIndex(notifications, IdIs(id));
      if index > -1 {
        notifications := notifications[..index] + notifications[index + 1..];
      }
    }

    /** success, error, warning and info: the argument always has a `duration` key. */
    method Notify(kind: Kind, title: string, message: string, duration: Option<int>, now: nat) returns (id: string)
      modifies this
      ensures id == NatToString(now)
      ensures notifications == old(notifications) + [Notification(id, kind, title, message, duration)]
    {
      id := AddNotification(NotificationInput(kind, title, message, Given(duration)), now);
    }
  }

  /** The helpers never fall back to 5000: an omitted duration stays undefined. */
  lemma HelpersPassTheKey(kind: Kind, title: string, message: string, id: string)
    ensures Build(NotificationInput(kind, title, message, Given(None)), id).duration.None?
    ensures Build(NotificationInput(kind, title, message, Absent), id).duration == Some(5000)
  {
  }
}
