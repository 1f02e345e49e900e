/**
 * The task provider backed by Apple Reminders: the same reminder store and the same notes
 * format as the reminders manager, seen through the provider interface.
 */
module RemindersProvider {
  import opened Wrappers
  import opened NotesCodec
  import opened Providers
  import opened Reminders

  const Identifier: string := "com.tomtimer.provider.reminders"
  const DisplayName: string := "Apple Reminders"
  const Icon: string := "checklist"
  const RequiresAuthentication: bool := true

  /** EventKit's authorization status for reminders. */
  datatype AuthorizationStatus = NotDetermined | Restricted | Denied | FullAccess | WriteOnly

  /** One fetched reminder as a provider item; `uuid` is the fresh item identifier, `now` the fetch time. */
  function ItemFor(r: Reminder, uuid: string, now: int): (item: Option<TaskProviderItem>)
    ensures item.Some?
    ensures item.value.estimatedMinutes >= 0 && item.value.remainingMinutes >= 0
    ensures item.value.remoteID == Some(r.id) && item.value.id == uuid
  {
    var md := DecodeNotes(r.notes);
    Some(MakeItem(uuid, Some(r.id), r.title.GetOr("Untitled"), md.estimatedMinutes, md.remainingMinutes,
                  md.isActive, r.isCompleted, r.lastModified.GetOr(now)))
  }

  /** `compactMap` of `ItemFor` over the fetched reminders: the items that decode, in order. */
  function CompactItems(rs: seq<Reminder>, uuids: seq<string>, now: int): seq<TaskProviderItem>
    requires |uuids| == |rs|
  {
    if rs == [] then []
    else
      var head := match ItemFor(rs[0], uuids[0], now) case None => [] case Some(item) => [item];
      head + CompactItems(rs[1..], uuids[1..], now)
  }

  /**
   * Every fetched reminder yields exactly one item, in fetch order, carrying the reminder's
   * identifier, title (or "Untitled"), decoded notes, completion and modification time (or now).
   */
  lemma {:induction false} FetchedItems(rs: seq<Reminder>, uuids: seq<string>, now: int)
    requires |uuids| == |rs|
    ensures |CompactItems(rs, uuids, now)| == |rs|
    ensures forall k :: 0 <= k < |rs| ==>
      var item := CompactItems(rs, uuids, now)[k];
      var md := DecodeNotes(rs[k].notes);
      item.id == uuids[k] && item.remoteID == Some(rs[k].id) && item.title == rs[k].title.GetOr("Untitled")
      && item.estimatedMinutes == md.estimatedMinutes && item.remainingMinutes == md.remainingMinutes
      && item.isActive == md.isActive && item.isCompleted == rs[k].isCompleted
      && item.modifiedAt == rs[k].lastModified.GetOr(now)
  {
    if rs != [] {
      FetchedItems(rs[1..], uuids[1..], now);
      var rest := CompactItems(rs[1..], uuids[1..], now);
      assert CompactItems(rs, uuids, now) == [ItemFor(rs[0], uuids[0], now).value] + rest;
      forall k | 1 <= k < |rs|
        ensures CompactItems(rs, uuids, now)[k] == rest[k - 1]
      {
      }
    }
  }

  /** The reminder `createTask` saves: the item's title and encoded minutes, not completed. */
  function Created(id: string, list: string, item: TaskProviderItem): (r: Reminder)
    ensures r.id == id && r.calendar == list && r.title == Some(item.title) && !r.isCompleted
    ensures r.notes.Some? && r.lastModified.None?
  {
    Reminder(id, list, Some(item.title), Some(EncodeMetadata(item.estimatedMinutes, item.remainingMinutes, item.isActive)),
             false, None)
  }

  /** The reminder `updateTask` saves: title, encoded minutes and completion from the item, the rest kept. */
  function Written(base: Reminder, item: TaskProviderItem): (r: Reminder)
    ensures r.id == base.id && r.calendar == base.calendar && r.lastModified == base.lastModified
    ensures r.title == Some(item.title) && r.isCompleted == item.isCompleted && r.notes.Some?
  {
    base.(title := Some(item.title), isCompleted := item.isCompleted,
          notes := Some(EncodeMetadata(item.estimatedMinutes, item.remainingMinutes, item.isActive)))
  }

  /**
   * Fetching an updated reminder gives back the item's title, minutes (their magnitude: a minus
   * sign does not survive the notes), active flag and completion.
   */
  lemma UpdateThenFetch(base: Reminder, item: TaskProviderItem, uuid: string, now: int)
    ensures var back := ItemFor(Written(base, item), uuid, now).value;
      back.remoteID == Some(base.id) && back.title == item.title && back.isCompleted == item.isCompleted
      && back.estimatedMinutes == Abs(item.estimatedMinutes) && back.remainingMinutes == Abs(item.remainingMinutes)
      && back.isActive == item.isActive
  {
    DecodeEncode(item.estimatedMinutes, item.remainingMinutes, item.isActive);
  }

  /**
   * Fetching a created reminder gives back the item's title and minutes, not completed. It is
   * stamped with the fetch time only because the store of this model never sets a reminder's
   * modification time; EventKit would stamp the save.
   */
  lemma CreateThenFetch(id: string, list: string, item: TaskProviderItem, uuid: string, now: int)
    requires item.estimatedMinutes >= 0 && item.remainingMinutes >= 0
    ensures var back := ItemFor(Created(id, list, item), uuid, now).value;
      back.remoteID == Some(id) && back.title == item.title && !back.isCompleted && back.modifiedAt == now
      && back.estimatedMinutes == item.estimatedMinutes && back.remainingMinutes == item.remainingMinutes
      && back.isActive == item.isActive
  {
    DecodeEncode(item.estimatedMinutes, item.remainingMinutes, item.isActive);
  }

  class RemindersTaskProvider {
    /** The authorization status EventKit reports for reminders. */
    var authorization: AuthorizationStatus
    /** The reminder store: every reminder, by calendar-item identifier. */
    var store: map<string, Reminder>
    /** The identifiers of the store's reminder calendars. */
    var calendars: seq<string>
    var selectedListIdentifier: Option<string>
    var availableLists: seq<string>

    constructor(authorization: AuthorizationStatus, store: map<string, Reminder>, calendars: seq<string>)
      ensures this.authorization == authorization && this.store == store && this.calendars == calendars
      ensures selectedListIdentifier.None? && availableLists == []
    {
      this.authorization := authorization;
      this.store := store;
      this.calendars := calendars;
      selectedListIdentifier := None;
      availableLists := [];
    }

    /**
     * `isAuthenticated`: access was granted (full or write-only) and a list is chosen. An
     * undecided, restricted or denied status is never authenticated, whatever the selection.
     */
    predicate IsAuthenticated()
      reads this
      ensures IsAuthenticated() <==> selectedListIdentifier.Some? && authorization !in {NotDetermined, Restricted, Denied}
    {
      (authorization == FullAccess || authorization == WriteOnly) && selectedListIdentifier.Some?
    }

    /** `selectedList`: the selected calendar, if the store has it. */
    function SelectedList(): (r: Option<string>)
      reads this
      ensures r.Some? <==> selectedListIdentifier.Some? && selectedListIdentifier.value in calendars
      ensures r.Some? ==> r == selectedListIdentifier
    {
      match selectedListIdentifier
      case None => None
      case Some(id) => if id in calendars then Some(id) else None
    }

    /**
     * `authenticate`: `granted` is the user's answer to the access request, which EventKit
     * records as full access. A refusal throws and changes nothing.
     */
    method Authenticate(granted: bool) returns (r: ProviderResult<()>)
      modifies this
      ensures !granted ==> (r == Err(AuthorizationDenied) && authorization == old(authorization)
                            && availableLists == old(availableLists))
      ensures granted ==> (r == Ok(()) && authorization == FullAccess && availableLists == calendars)
      ensures granted ==> (IsAuthenticated() <==> selectedListIdentifier.Some?)
      ensures store == old(store) && calendars == old(calendars) && selectedListIdentifier == old(selectedListIdentifier)
    {
      if !granted {
        return Err(AuthorizationDenied);
      }
      authorization := FullAccess;
      LoadAvailableLists();
      r := Ok(());
    }

    method LoadAvailableLists()
      modifies this
      ensures availableLists == calendars
      ensures authorization == old(authorization) && store == old(store) && calendars == old(calendars)
      ensures selectedListIdentifier == old(selectedListIdentifier)
    {
      availableLists := calendars;
    }

    method SetSelectedList(identifier: Option<string>)
      modifies this
      ensures selectedListIdentifier == identifier
      ensures IsAuthenticated() <==> (authorization == FullAccess || authorization == WriteOnly) && identifier.Some?
      ensures authorization == old(authorization) && store == old(store) && calendars == old(calendars)
      ensures availableLists == old(availableLists)
    {
      selectedListIdentifier := identifier;
    }

    /** `decodeMetadata`: never nil; the notes decoder's reading of the reminder's notes. */
    method DecodeMetadata(reminder: Reminder) returns (r: Option<ReminderMetadata>)
      ensures r == Some(DecodeNotes(reminder.notes))
    {
      var m := ParseNotes(reminder.notes);
      r := Some(m);
    }

    /**
     * `fetchTasks`: `fetched` is what EventKit returns for the selected list and `uuids` the
     * identifiers `UUID()` hands out, one per reminder; `now` is the fetch time.
     */
    method FetchTasks(fetched: seq<Reminder>, uuids: seq<string>, now: int) returns (r: ProviderResult<seq<TaskProviderItem>>)
      requires |uuids| == |fetched|
      ensures SelectedList().None? ==> r == Err(NotConfigured)
      ensures SelectedList().Some? ==> r == Ok(CompactItems(fetched, uuids, now))
    {
      if SelectedList().None? {
        return Err(NotConfigured);
      }
      r := Ok(CompactItems(fetched, uuids, now));
    }

    /** `createTask`: `freshId` is the identifier the store gives the new reminder. */
    method CreateTask(item: TaskProviderItem, freshId: string) returns (r: ProviderResult<string>)
      requires freshId !in store
      modifies this
      ensures old(SelectedList()).None? ==> (r == Err(NotConfigured) && store == old(store))
      ensures old(SelectedList()).Some? ==>
        (r == Ok(freshId) && store == old(store)[freshId := Created(freshId, old(SelectedList()).value, item)])
      ensures authorization == old(authorization) && calendars == old(calendars)
      ensures selectedListIdentifier == old(selectedListIdentifier) && availableLists == old(availableLists)
    {
      var list := SelectedList();
      if list.None? {
        return Err(NotConfigured);
      }
      store := store[freshId := Created(freshId, list.value, item)];
      r := Ok(freshId);
    }

    /** `updateTask`: the item must name a reminder the store has. */
    method UpdateTask(item: TaskProviderItem) returns (r: ProviderResult<()>)
      modifies this
      ensures (item.remoteID.None? || item.remoteID.value !in old(store)) ==>
        (r == Err(TaskNotFound) && store == old(store))
      ensures (item.remoteID.Some? && item.remoteID.value in old(store)) ==>
        (r == Ok(()) && store == old(store)[item.remoteID.value := Written(old(store)[item.remoteID.value], item)])
      ensures authorization == old(authorization) && calendars == old(calendars)
      ensures selectedListIdentifier == old(selectedListIdentifier) && availableLists == old(availableLists)
    {
      if item.remoteID.None? || item.remoteID.value !in store {
        return Err(TaskNotFound);
      }
      var id := item.remoteID.value;
      store := store[id := Written(store[id], item)];
      r := Ok(());
    }

    /** `deleteTask`: removes the reminder, or throws when the store has none by that identifier. */
    method DeleteTask(remoteID: string) returns (r: ProviderResult<()>)
      modifies this
      ensures remoteID !in old(store) ==> (r == Err(TaskNotFound) && store == old(store))
      ensures remoteID in old(store) ==> (r == Ok(()) && store == old(store) - {remoteID})
      ensures remoteID !in store
      ensures authorization == old(authorization) && calendars == old(calendars)
      ensures selectedListIdentifier == old(selectedListIdentifier) && availableLists == old(availableLists)
    {
      if remoteID !in store {
        return Err(TaskNotFound);
      }
      store := store - {remoteID};
      r := Ok(());
    }
  }
}
