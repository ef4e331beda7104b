/**
 * Toast notifications: a list that grows by one entry at the end for each
 * notification raised and shrinks by id when one is dismissed, by hand or by
 * its timer. The `useNotifications` hook and the `NotificationProvider` keep
 * the same list; the hook also hands back the new entry's id.
 */
module Notifications {
  import opened Common

  datatype Kind = Success | Error | Warning | Info

  datatype Notification = Notification(id: string, kind: Kind, title: string, message: string, duration: int)

  /** The duration used when the caller gives none, in milliseconds. */
  const DefaultDuration := 30000

  function HasId(id: string): Notification -> bool { (n: Notification) => n.id == id }

  function OtherId(id: string): Notification -> bool { (n: Notification) => n.id != id }

  /** The entry `addNotification` builds: an omitted duration becomes the default, an explicit 0 stays 0. */
  function NewEntry(id: string, kind: Kind, title: string, message: string, duration: Option<int>): (n: Notification)
    ensures n.id == id && n.kind == kind && n.title == title && n.message == message
    ensures duration.None? ==> n.duration == DefaultDuration
    ensures duration.Some? ==> n.duration == duration.value
  {
    Notification(id, kind, title, message, duration.GetOr(DefaultDuration))
  }

  /** `prev.filter(n => n.id !== id)` */
  function Removed(list: seq<Notification>, id: string): (r: seq<Notification>)
    ensures forall i :: 0 <= i < |r| ==> r[i].id != id && r[i] in list
    ensures forall i :: 0 <= i < |list| && list[i].id != id ==> list[i] in r
  {
    Filter(list, OtherId(id))
  }

  /** Dismissing an id nobody carries leaves the list as it was. */
  lemma RemoveAbsent(list: seq<Notification>, id: string)
    requires forall i :: 0 <= i < |list| ==> list[i].id != id
    ensures Removed(list, id) == list
  {
    FilterKeepsAll(list, OtherId(id));
  }

  /** Dismissing removes exactly the entries with that id, so the list shrinks by their number. */
  lemma RemoveCounts(list: seq<Notification>, id: string)
    ensures |Removed(list, id)| + |Filter(list, HasId(id))| == |list|
    ensures multiset(Removed(list, id)) + multiset(Filter(list, HasId(id))) == multiset(list)
  {
    FilterSplit(list, OtherId(id), HasId(id));
    assert |multiset(Removed(list, id))| + |multiset(Filter(list, HasId(id)))| == |multiset(list)|;
  }

  /** Dismissing twice is dismissing once. */
  lemma RemoveIdempotent(list: seq<Notification>, id: string)
    ensures Removed(Removed(list, id), id) == Removed(list, id)
  {
    RemoveAbsent(Removed(list, id), id);
  }

  /** Raising a notification with a new id and then dismissing it restores the list. */
  lemma AddThenRemove(list: seq<Notification>, n: Notification)
    requires forall i :: 0 <= i < |list| ==> list[i].id != n.id
    ensures Removed(list + [n], n.id) == list
  {
    FilterAppend(list, [n], OtherId(n.id));
    RemoveAbsent(list, n.id);
    assert Filter([n], OtherId(n.id)) == [];
  }

  /** Dismissing one id keeps the entries of every other id, in their order. */
  lemma RemoveKeepsOthers(list: seq<Notification>, id: string, other: string)
    requires other != id
    ensures Filter(Removed(list, id), HasId(other)) == Filter(list, HasId(other))
  {
    FilterNarrow(list, HasId(other), OtherId(id));
  }

  /** The notification component schedules its dismissal only for a non-zero duration, after that many milliseconds. */
  function DismissTimer(n: Notification): (delay: Option<int>)
    ensures delay.None? <==> n.duration == 0
    ensures delay.Some? ==> delay.value == n.duration
  {
    if n.duration != 0 then Some(n.duration) else None
  }

  /** The list held by the `useNotifications` hook. */
  class NotificationList {
    var notifications: seq<Notification>

    constructor()
      ensures notifications == []
    {
      notifications := [];
    }

    /** `addNotification`: `id` is the `Date.now()` and `Math.random()` text the source makes up. */
    method Add(id: string, kind: Kind, title: string, message: string, duration: Option<int>) returns (r: string)
      modifies this
      ensures notifications == old(notifications) + [NewEntry(id, kind, title, message, duration)]
      ensures r == id
    {
      notifications := notifications + [Notification(id, kind, title, message, duration.GetOr(DefaultDuration))];
      r := id;
    }

    method Remove(id: string)
      modifies this
      ensures notifications == Removed(old(notifications), id)
    {
      notifications := Filter(notifications, OtherId(id));
    }
  }

  /** The list held by the `NotificationProvider`; its `addNotification` returns nothing. */
  class ProviderList {
    var notifications: seq<Notification>

    constructor()
      ensures notifications == []
    {
      notifications := [];
    }

    method Add(id: string, kind: Kind, title: string, message: string, duration: Option<int>)
      modifies this
      ensures notifications == old(notifications) + [NewEntry(id, kind, title, message, duration)]
    {
      notifications := notifications + [Notification(id, kind, title, message, duration.GetOr(DefaultDuration))];
    }

    method Remove(id: string)
      modifies this
      ensures notifications == Removed(old(notifications), id)
    {
      notifications := Filter(notifications, OtherId(id));
    }
  }

  /** `useNotifications` from the provider: the context, or the error thrown outside a provider. */
  function UseNotifications<C>(context: Option<C>): (r: Result<C, string>)
    ensures r.Ok? <==> context.Some?
    ensures r.Ok? ==> r.value == context.value
  {
    match context
    case Some(c) => Ok(c)
    case None => Err("useNotifications must be used within a NotificationProvider")
  }
}
