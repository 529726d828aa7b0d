/** The notification vocabulary shared by the itinerary views and the
    notification provider (src/hooks/useNotifier.tsx). */
module Notifications {
  import opened Wrappers
  import opened Sequences

  /** `NotificationType`: the four toast styles. */
  datatype NotificationType = Info | Success | Warning | Error

  /** One call `addNotification(message, type?, duration?)` as a handler issues it. */
  datatype NoteRequest = NoteRequest(message: string, kind: Option<NotificationType>, duration: Option<int>)

  /** A request that names its type and leaves the duration to the provider. */
  function Notify(message: string, kind: NotificationType): NoteRequest {
    NoteRequest(message, Some(kind), None)
  }

  /** A request that names both its type and its duration. */
  function NotifyFor(message: string, kind: NotificationType, duration: int): NoteRequest {
    NoteRequest(message, Some(kind), Some(duration))
  }

  /** A toast as the provider stores it. */
  datatype Notification = Notification(id: string, message: string, kind: NotificationType, duration: int)

  /** JavaScript truthiness of an optional number: present and not zero. */
  predicate Truthy(duration: Option<int>) {
    duration.Some? && duration.value != 0
  }

  /** `duration || defaultDuration`: a truthy duration is kept, anything
      else (absent or 0) falls back to the provider's default. */
  function StoredDuration(duration: Option<int>, defaultDuration: int): (d: int)
    ensures Truthy(duration) ==> d == duration.value
    ensures !Truthy(duration) ==> d == defaultDuration
  {
    if duration.Some? && duration.value != 0 then duration.value else defaultDuration
  }

  /** The list without any toast carrying `id`, the rest in order. */
  function RemoveById(notes: seq<Notification>, id: string): (r: seq<Notification>)
    ensures IsSubsequence(r, notes)
    ensures forall n :: n in r <==> n in notes && n.id != id
  {
    var keep := (n: Notification) => n.id != id;
    FilterIsSubsequence(notes, keep);
    forall n ensures n in Filter(notes, keep) <==> n in notes && keep(n) {
      FilterMembership(notes, keep, n);
    }
    Filter(notes, keep)
  }

  /** No two toasts share an id. */
  predicate UniqueIds(notes: seq<Notification>) {
    forall i, j :: 0 <= i < j < |notes| ==> notes[i].id != notes[j].id
  }

  /** Removing an id no toast carries changes nothing. */
  lemma RemoveAbsentId(notes: seq<Notification>, id: string)
    requires forall i :: 0 <= i < |notes| ==> notes[i].id != id
    ensures RemoveById(notes, id) == notes
  {
    FilterAll(notes, (n: Notification) => n.id != id);
  }

  /** With unique ids, dismissing the toast at position `k` (a click on it or
      on its close button) removes exactly that toast. */
  lemma RemoveDisplayed(notes: seq<Notification>, k: int)
    requires UniqueIds(notes) && 0 <= k < |notes|
    ensures RemoveById(notes, notes[k].id) == notes[..k] + notes[k + 1..]
  {
    var id := notes[k].id;
    var keep := (n: Notification) => n.id != id;
    FilterDropOne(notes, k, keep);
  }

  /** `NotificationProvider`: the toast list and the duration used when a
      request gives none. */
  class NotificationProvider {
    const defaultDuration: int
    var notifications: seq<Notification>

    /** The `defaultDuration` prop defaults to 3000 only when it is absent. */
    constructor (defaultDurationProp: Option<int>)
      ensures defaultDuration == (if defaultDurationProp.Some? then defaultDurationProp.value else 3000)
      ensures notifications == []
    {
      defaultDuration := if defaultDurationProp.Some? then defaultDurationProp.value else 3000;
      notifications := [];
    }

    /** `addNotification`: exactly one toast is appended at the end, with the
        given message, the type defaulting to INFO, the duration chosen by
        `StoredDuration`, and `freshId` (the time-and-random id) as its id. */
    method AddNotification(message: string, kind: Option<NotificationType>, duration: Option<int>, freshId: string)
      modifies this
      ensures notifications == old(notifications) +
                [Notification(freshId, message, if kind.Some? then kind.value else Info,
                              StoredDuration(duration, defaultDuration))]
    {
      var type_ := if kind.Some? then kind.value else Info;
      notifications := notifications + [Notification(freshId, message, type_, StoredDuration(duration, defaultDuration))];
    }

    /** A request as the handlers issue it. */
    method Raise(request: NoteRequest, freshId: string)
      modifies this
      ensures notifications == old(notifications) +
                [Notification(freshId, request.message, if request.kind.Some? then request.kind.value else Info,
                              StoredDuration(request.duration, defaultDuration))]
    {
      AddNotification(request.message, request.kind, request.duration, freshId);
    }

    /** `removeNotification`: every toast with that id goes, the rest keep
        their order. */
    method RemoveNotification(id: string)
      modifies this
      ensures notifications == RemoveById(old(notifications), id)
    {
      notifications := RemoveById(notifications, id);
    }
  }

  /** Adding a toast with a fresh id keeps the ids unique. */
  method AddKeepsIdsUnique(provider: NotificationProvider, message: string, kind: Option<NotificationType>,
                           duration: Option<int>, freshId: string)
    requires UniqueIds(provider.notifications)
    requires forall i :: 0 <= i < |provider.notifications| ==> provider.notifications[i].id != freshId
    modifies provider
    ensures UniqueIds(provider.notifications)
  {
    provider.AddNotification(message, kind, duration, freshId);
  }

  /** A toast added and then dismissed by its fresh id leaves the list as it was. */
  method AddThenDismiss(provider: NotificationProvider, message: string, kind: Option<NotificationType>,
                        duration: Option<int>, freshId: string)
    requires forall i :: 0 <= i < |provider.notifications| ==> provider.notifications[i].id != freshId
    modifies provider
    ensures provider.notifications == old(provider.notifications)
  {
    ghost var before := provider.notifications;
    provider.AddNotification(message, kind, duration, freshId);
    FilterAppend(before, [provider.notifications[|before|]], (n: Notification) => n.id != freshId);
    assert provider.notifications == before + [provider.notifications[|before|]];
    RemoveAbsentId(before, freshId);
    assert [provider.notifications[|before|]][1..] == [];
    provider.RemoveNotification(freshId);
  }

  /** `useNotifier`: the provider's context when there is one, otherwise the
      error it throws. */
  function UseNotifier<C>(context: Option<C>): (r: Result<C, string>)
    ensures context.Some? <==> r.Ok?
    ensures r.Ok? ==> r.value == context.value
    ensures r.Err? ==> r.error == "useNotifier must be used within a NotificationProvider"
  {
    if context.Some? then Ok(context.value) else Err("useNotifier must be used within a NotificationProvider")
  }
}
