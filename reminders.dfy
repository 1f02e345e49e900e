/**
 * Reconciliation between the app's tasks and the reminders of the selected Reminders list,
 * and the push and delete rules towards the reminder store.
 *
 * The EventKit store is a map from calendar-item identifier to reminder. A sync pass is
 * specified by `Run`, a fold over the fetched reminders whose state records every task's
 * fields (tasks are objects and may appear more than once in the list), the conflicts found,
 * the tasks to create and the identifiers processed; `SyncFromReminders` is proved to follow it.
 */
module Reminders {
  import opened Wrappers
  import opened NotesCodec
  import opened Tasks

  /** A reminder as the store holds it. `lastModified` is in whole seconds. */
  datatype Reminder = Reminder(
    id: string,
    calendar: string,
    title: Option<string>,
    notes: Option<string>,
    isCompleted: bool,
    lastModified: Option<int>)

  /** Every reminder is stored under its own calendar-item identifier, as EventKit keys them. */
  predicate KeyedById(store: map<string, Reminder>)
  {
    forall k :: k in store ==> store[k].id == k
  }

  /** The fields of a task that a sync pass reads or writes. */
  datatype TaskFields = TaskFields(title: string, estimatedMinutes: int, remainingMinutes: int, isActive: bool)

  /** The values a sync pass gives a task it creates for a reminder no task is linked to. */
  datatype NewTask = NewTask(title: string, estimatedMinutes: int, remainingMinutes: int, isActive: bool, reminderIdentifier: string)

  /** A matched pair whose title, estimate or remaining minutes disagree. */
  datatype SyncConflict = SyncConflict(
    task: TodoItem,
    reminder: Reminder,
    reminderId: string,
    localTitle: string,
    remoteTitle: string,
    localEstimate: int,
    remoteEstimate: int,
    localRemaining: int,
    remoteRemaining: int)

  datatype RemindersError = NoListSelected | AccessDenied

  /** The result of an operation that may throw. */
  datatype Outcome = Success | Failure(error: RemindersError)

  function FieldsOf(t: TodoItem): TaskFields
    reads t
  {
    TaskFields(t.title, t.estimatedMinutes, t.remainingMinutes, t.isActive)
  }

  /** The fields of every task in the list, before a pass. */
  function Snapshot(tasks: seq<TodoItem>): (m: map<TodoItem, TaskFields>)
    reads set t | t in tasks
    ensures Covers(tasks, m)
  {
    map t | t in tasks :: FieldsOf(t)
  }

  /** The reminder identifier of each task in the list, position by position. */
  function IdsOf(tasks: seq<TodoItem>): (ids: seq<Option<string>>)
    reads set t | t in tasks
    ensures |ids| == |tasks| && forall i :: 0 <= i < |tasks| ==> ids[i] == tasks[i].reminderIdentifier
  {
    if tasks == [] then [] else IdsOf(tasks[..|tasks| - 1]) + [tasks[|tasks| - 1].reminderIdentifier]
  }

  /** The creation time of each task in the list, position by position. */
  function StampsOf(tasks: seq<TodoItem>): (stamps: seq<int>)
    reads set t | t in tasks
    ensures |stamps| == |tasks| && forall i :: 0 <= i < |tasks| ==> stamps[i] == tasks[i].createdAt
  {
    if tasks == [] then [] else StampsOf(tasks[..|tasks| - 1]) + [tasks[|tasks| - 1].createdAt]
  }

  /** `tasks.first(where: { $0.reminderIdentifier == id })`, as a position. */
  function FirstMatch(ids: seq<Option<string>>, id: string): (r: Option<nat>)
    ensures r.Some? ==> r.value < |ids| && ids[r.value] == Some(id)
    ensures r.Some? ==> forall j :: 0 <= j < r.value ==> ids[j] != Some(id)
    ensures r.None? <==> Some(id) !in ids
  {
    if ids == [] then None
    else if ids[0] == Some(id) then Some(0)
    else match FirstMatch(ids[1..], id)
      case None => None
      case Some(j) => Some(j + 1)
  }

  /** The comparison that decides a conflict: a nil reminder title always differs. */
  predicate Differs(f: TaskFields, r: Reminder, md: ReminderMetadata) {
    r.title != Some(f.title) || md.estimatedMinutes != f.estimatedMinutes || md.remainingMinutes != f.remainingMinutes
  }

  /** `updateTask`: the reminder's title if it has one, and the decoded estimate, remaining and flag. */
  function Refreshed(f: TaskFields, r: Reminder, md: ReminderMetadata): (g: TaskFields)
    ensures g.estimatedMinutes == md.estimatedMinutes && g.remainingMinutes == md.remainingMinutes
    ensures g.isActive == md.isActive
    ensures r.title.Some? ==> g.title == r.title.value
    ensures r.title.None? ==> g.title == f.title
  {
    TaskFields(r.title.GetOr(f.title), md.estimatedMinutes, md.remainingMinutes, md.isActive)
  }

  function ConflictOf(t: TodoItem, f: TaskFields, r: Reminder, md: ReminderMetadata): SyncConflict {
    SyncConflict(t, r, r.id, f.title, r.title.GetOr(""), f.estimatedMinutes, md.estimatedMinutes,
                 f.remainingMinutes, md.remainingMinutes)
  }

  function NewTaskFor(r: Reminder): NewTask {
    var md := DecodeNotes(r.notes);
    NewTask(r.title.GetOr("Untitled"), md.estimatedMinutes, md.remainingMinutes, md.isActive, r.id)
  }

  /** The state of a pass after some of the fetched reminders. */
  datatype Pass = Pass(
    fields: map<TodoItem, TaskFields>,
    conflicts: seq<SyncConflict>,
    created: seq<NewTask>,
    processed: set<string>)

  predicate Covers(tasks: seq<TodoItem>, fields: map<TodoItem, TaskFields>) {
    forall i :: 0 <= i < |tasks| ==> tasks[i] in fields
  }

  /** What the pass does with one fetched reminder. */
  function Step(tasks: seq<TodoItem>, ids: seq<Option<string>>, p: Pass, r: Reminder): (q: Pass)
    requires |ids| == |tasks| && Covers(tasks, p.fields)
    ensures q.fields.Keys == p.fields.Keys && q.processed == p.processed + {r.id}
  {
    var md := DecodeNotes(r.notes);
    match FirstMatch(ids, r.id)
    case Some(i) =>
      var t := tasks[i];
      var f := p.fields[t];
      if Differs(f, r, md) then
        p.(conflicts := p.conflicts + [ConflictOf(t, f, r, md)], processed := p.processed + {r.id})
      else
        p.(fields := p.fields[t := Refreshed(f, r, md)], processed := p.processed + {r.id})
    case None =>
      p.(created := p.created + [NewTaskFor(r)], processed := p.processed + {r.id})
  }

  /** The pass over `rs`, from state `p`. */
  function Run(tasks: seq<TodoItem>, ids: seq<Option<string>>, p: Pass, rs: seq<Reminder>): (q: Pass)
    requires |ids| == |tasks| && Covers(tasks, p.fields)
    ensures q.fields.Keys == p.fields.Keys
    decreases |rs|
  {
    if rs == [] then p
    else Step(tasks, ids, Run(tasks, ids, p, rs[..|rs| - 1]), rs[|rs| - 1])
  }

  function Start(init: map<TodoItem, TaskFields>): Pass {
    Pass(init, [], [], {})
  }

  /** The tasks the pass deletes: those linked to an identifier it did not process, in list order. */
  function Orphans(tasks: seq<TodoItem>, ids: seq<Option<string>>, processed: set<string>): seq<TodoItem>
    requires |ids| == |tasks|
    decreases |tasks|
  {
    if tasks == [] then []
    else
      var n := |tasks| - 1;
      Orphans(tasks[..n], ids[..n], processed)
        + (if ids[n].Some? && ids[n].value !in processed then [tasks[n]] else [])
  }

  // ---------------------------------------------------------------------------
  // What a pass does

  /** No two fetched reminders share an identifier (EventKit identifiers are unique). */
  predicate DistinctIds(rs: seq<Reminder>) {
    forall a, b :: 0 <= a < b < |rs| ==> rs[a].id != rs[b].id
  }

  /** A task that occurs twice in the list has one identifier, as `IdsOf` guarantees. */
  predicate AliasConsistent(tasks: seq<TodoItem>, ids: seq<Option<string>>)
    requires |ids| == |tasks|
  {
    forall i, j :: 0 <= i < |tasks| && 0 <= j < |tasks| && tasks[i] == tasks[j] ==> ids[i] == ids[j]
  }

  lemma IdsOfConsistent(tasks: seq<TodoItem>)
    ensures AliasConsistent(tasks, IdsOf(tasks))
  {
  }

  /** Every fetched reminder's identifier is marked processed, and nothing else is. */
  lemma {:induction false} ProcessedAll(tasks: seq<TodoItem>, ids: seq<Option<string>>, p: Pass, rs: seq<Reminder>)
    requires |ids| == |tasks| && Covers(tasks, p.fields)
    ensures forall id :: id in Run(tasks, ids, p, rs).processed
                         <==> id in p.processed || exists k :: 0 <= k < |rs| && rs[k].id == id
    decreases |rs|
  {
    if rs != [] {
      var init := rs[..|rs| - 1];
      ProcessedAll(tasks, ids, p, init);
      forall id | exists k :: 0 <= k < |rs| && rs[k].id == id
        ensures id in Run(tasks, ids, p, rs).processed
      {
        var k :| 0 <= k < |rs| && rs[k].id == id;
        if k < |rs| - 1 {
          assert init[k].id == id;
        }
      }
    }
  }

  lemma {:induction false} RunAppend(tasks: seq<TodoItem>, ids: seq<Option<string>>, p: Pass, a: seq<Reminder>, b: seq<Reminder>)
    requires |ids| == |tasks| && Covers(tasks, p.fields)
    ensures Run(tasks, ids, p, a + b) == Run(tasks, ids, Run(tasks, ids, p, a), b)
    decreases |b|
  {
    if b == [] {
      assert a + b == a;
    } else {
      var n := |b| - 1;
      assert (a + b)[..|a + b| - 1] == a + b[..n];
      RunAppend(tasks, ids, p, a, b[..n]);
    }
  }

  /** A task that no reminder of `rs` is matched to keeps its fields through the pass. */
  lemma {:induction false} RunUntouched(tasks: seq<TodoItem>, ids: seq<Option<string>>, p: Pass, rs: seq<Reminder>, t: TodoItem)
    requires |ids| == |tasks| && Covers(tasks, p.fields) && t in p.fields
    requires forall k :: 0 <= k < |rs| && FirstMatch(ids, rs[k].id).Some? ==> tasks[FirstMatch(ids, rs[k].id).value] != t
    ensures Run(tasks, ids, p, rs).fields[t] == p.fields[t]
    decreases |rs|
  {
    if rs != [] {
      var n := |rs| - 1;
      forall k | 0 <= k < n && FirstMatch(ids, rs[..n][k].id).Some?
        ensures tasks[FirstMatch(ids, rs[..n][k].id).value] != t
      {
        assert rs[..n][k] == rs[k];
      }
      RunUntouched(tasks, ids, p, rs[..n], t);
    }
  }

  /** Two reminders with different identifiers are never matched to the same task. */
  lemma DifferentIdsDifferentTasks(tasks: seq<TodoItem>, ids: seq<Option<string>>, x: string, y: string)
    requires |ids| == |tasks| && AliasConsistent(tasks, ids) && x != y
    requires FirstMatch(ids, x).Some? && FirstMatch(ids, y).Some?
    ensures tasks[FirstMatch(ids, x).value] != tasks[FirstMatch(ids, y).value]
  {
  }

  /** The reminders before the `k`th never touch the task the `k`th is matched to. */
  lemma UntouchedBefore(tasks: seq<TodoItem>, ids: seq<Option<string>>, init: map<TodoItem, TaskFields>, rs: seq<Reminder>, k: int)
    requires |ids| == |tasks| && Covers(tasks, init) && AliasConsistent(tasks, ids) && DistinctIds(rs)
    requires 0 <= k < |rs| && FirstMatch(ids, rs[k].id).Some?
    ensures Run(tasks, ids, Start(init), rs[..k]).fields[tasks[FirstMatch(ids, rs[k].id).value]]
         == init[tasks[FirstMatch(ids, rs[k].id).value]]
  {
    var t := tasks[FirstMatch(ids, rs[k].id).value];
    var before := rs[..k];
    forall j | 0 <= j < |before| && FirstMatch(ids, before[j].id).Some?
      ensures tasks[FirstMatch(ids, before[j].id).value] != t
    {
      DifferentIdsDifferentTasks(tasks, ids, before[j].id, rs[k].id);
    }
    RunUntouched(tasks, ids, Start(init), before, t);
  }

  /** The reminders after the `k`th never touch the task the `k`th is matched to. */
  lemma UntouchedAfter(tasks: seq<TodoItem>, ids: seq<Option<string>>, p: Pass, rs: seq<Reminder>, k: int)
    requires |ids| == |tasks| && Covers(tasks, p.fields) && AliasConsistent(tasks, ids) && DistinctIds(rs)
    requires 0 <= k < |rs| && FirstMatch(ids, rs[k].id).Some?
    ensures Run(tasks, ids, p, rs[k + 1..]).fields[tasks[FirstMatch(ids, rs[k].id).value]]
         == p.fields[tasks[FirstMatch(ids, rs[k].id).value]]
  {
    var t := tasks[FirstMatch(ids, rs[k].id).value];
    var after := rs[k + 1..];
    forall j | 0 <= j < |after| && FirstMatch(ids, after[j].id).Some?
      ensures tasks[FirstMatch(ids, after[j].id).value] != t
    {
      assert after[j] == rs[k + 1 + j];
      DifferentIdsDifferentTasks(tasks, ids, after[j].id, rs[k].id);
    }
    RunUntouched(tasks, ids, p, after, t);
  }

  lemma TakeDrop<T>(s: seq<T>, n: int)
    requires 0 <= n <= |s|
    ensures s[..n] + s[n..] == s
  {
  }

  lemma RunTake(tasks: seq<TodoItem>, ids: seq<Option<string>>, p: Pass, rs: seq<Reminder>, k: int)
    requires |ids| == |tasks| && Covers(tasks, p.fields) && 0 <= k < |rs|
    ensures Run(tasks, ids, p, rs[..k + 1]) == Step(tasks, ids, Run(tasks, ids, p, rs[..k]), rs[k])
  {
    assert rs[..k + 1][..k] == rs[..k];
  }

  lemma RunSplit(tasks: seq<TodoItem>, ids: seq<Option<string>>, p: Pass, rs: seq<Reminder>, n: int)
    requires |ids| == |tasks| && Covers(tasks, p.fields) && 0 <= n <= |rs|
    ensures Run(tasks, ids, p, rs) == Run(tasks, ids, Run(tasks, ids, p, rs[..n]), rs[n..])
  {
    TakeDrop(rs, n);
    RunAppend(tasks, ids, p, rs[..n], rs[n..]);
  }

  /** The pass over `rs` is the pass up to the `k`th reminder, its step, and the rest. */
  lemma RunAround(tasks: seq<TodoItem>, ids: seq<Option<string>>, p: Pass, rs: seq<Reminder>, k: int)
    requires |ids| == |tasks| && Covers(tasks, p.fields) && 0 <= k < |rs|
    ensures var p1 := Run(tasks, ids, p, rs[..k]);
      Run(tasks, ids, p, rs) == Run(tasks, ids, Step(tasks, ids, p1, rs[k]), rs[k + 1..])
  {
    RunTake(tasks, ids, p, rs, k);
    RunSplit(tasks, ids, p, rs, k + 1);
  }

  /**
   * A task matched by a fetched reminder ends the pass either untouched, when the pair
   * differs (a conflict), or refreshed from that reminder by `updateTask`.
   */
  lemma MatchedTaskFields(tasks: seq<TodoItem>, ids: seq<Option<string>>, init: map<TodoItem, TaskFields>, rs: seq<Reminder>, k: int)
    requires |ids| == |tasks| && Covers(tasks, init) && AliasConsistent(tasks, ids) && DistinctIds(rs)
    requires 0 <= k < |rs| && FirstMatch(ids, rs[k].id).Some?
    ensures var t := tasks[FirstMatch(ids, rs[k].id).value];
      var md := DecodeNotes(rs[k].notes);
      Run(tasks, ids, Start(init), rs).fields[t]
        == if Differs(init[t], rs[k], md) then init[t] else Refreshed(init[t], rs[k], md)
  {
    var p1 := Run(tasks, ids, Start(init), rs[..k]);
    UntouchedBefore(tasks, ids, init, rs, k);
    var p2 := Step(tasks, ids, p1, rs[k]);
    UntouchedAfter(tasks, ids, p2, rs, k);
    RunAround(tasks, ids, Start(init), rs, k);
  }

  /** A task whose identifier is nil, or matches no fetched reminder, keeps its fields. */
  lemma UnmatchedTaskKept(tasks: seq<TodoItem>, ids: seq<Option<string>>, init: map<TodoItem, TaskFields>, rs: seq<Reminder>, i: int)
    requires |ids| == |tasks| && Covers(tasks, init) && AliasConsistent(tasks, ids) && 0 <= i < |tasks|
    requires ids[i].None? || forall k :: 0 <= k < |rs| ==> rs[k].id != ids[i].value
    ensures Run(tasks, ids, Start(init), rs).fields[tasks[i]] == init[tasks[i]]
  {
    RunUntouched(tasks, ids, Start(init), rs, tasks[i]);
  }

  /** The conflicts a pass should report: every matched pair that differs, judged against the fields before the pass. */
  function ExpectedConflicts(tasks: seq<TodoItem>, ids: seq<Option<string>>, init: map<TodoItem, TaskFields>, rs: seq<Reminder>): seq<SyncConflict>
    requires |ids| == |tasks| && Covers(tasks, init)
    decreases |rs|
  {
    if rs == [] then []
    else
      var r := rs[|rs| - 1];
      var md := DecodeNotes(r.notes);
      ExpectedConflicts(tasks, ids, init, rs[..|rs| - 1])
        + match FirstMatch(ids, r.id)
          case Some(i) => if Differs(init[tasks[i]], r, md) then [ConflictOf(tasks[i], init[tasks[i]], r, md)] else []
          case None => []
  }

  /** With distinct reminder identifiers, the conflicts are exactly the differing matched pairs, in fetch order. */
  lemma {:induction false} ConflictsAgainstSnapshot(tasks: seq<TodoItem>, ids: seq<Option<string>>, init: map<TodoItem, TaskFields>, rs: seq<Reminder>)
    requires |ids| == |tasks| && Covers(tasks, init) && AliasConsistent(tasks, ids) && DistinctIds(rs)
    ensures Run(tasks, ids, Start(init), rs).conflicts == ExpectedConflicts(tasks, ids, init, rs)
    decreases |rs|
  {
    if rs != [] {
      var n := |rs| - 1;
      var before := rs[..n];
      ConflictsAgainstSnapshot(tasks, ids, init, before);
      if FirstMatch(ids, rs[n].id).Some? {
        var t := tasks[FirstMatch(ids, rs[n].id).value];
        forall j | 0 <= j < |before| && FirstMatch(ids, before[j].id).Some?
          ensures tasks[FirstMatch(ids, before[j].id).value] != t
        {
          DifferentIdsDifferentTasks(tasks, ids, before[j].id, rs[n].id);
        }
        RunUntouched(tasks, ids, Start(init), before, t);
      }
    }
  }

  /** The tasks a pass should create: one per reminder that no task is linked to, in fetch order. */
  function ExpectedNewTasks(ids: seq<Option<string>>, rs: seq<Reminder>): seq<NewTask>
    decreases |rs|
  {
    if rs == [] then []
    else
      ExpectedNewTasks(ids, rs[..|rs| - 1])
        + if Some(rs[|rs| - 1].id) in ids then [] else [NewTaskFor(rs[|rs| - 1])]
  }

  lemma {:induction false} CreatedForUnlinked(tasks: seq<TodoItem>, ids: seq<Option<string>>, init: map<TodoItem, TaskFields>, rs: seq<Reminder>)
    requires |ids| == |tasks| && Covers(tasks, init)
    ensures Run(tasks, ids, Start(init), rs).created == ExpectedNewTasks(ids, rs)
    decreases |rs|
  {
    if rs != [] {
      CreatedForUnlinked(tasks, ids, init, rs[..|rs| - 1]);
    }
  }

  lemma {:induction false} OrphanMembership(tasks: seq<TodoItem>, ids: seq<Option<string>>, processed: set<string>, t: TodoItem)
    requires |ids| == |tasks|
    ensures t in Orphans(tasks, ids, processed)
        <==> exists i :: 0 <= i < |tasks| && tasks[i] == t && ids[i].Some? && ids[i].value !in processed
    decreases |tasks|
  {
    if tasks != [] {
      var n := |tasks| - 1;
      OrphanMembership(tasks[..n], ids[..n], processed, t);
      if exists i :: 0 <= i < |tasks| && tasks[i] == t && ids[i].Some? && ids[i].value !in processed {
        var i :| 0 <= i < |tasks| && tasks[i] == t && ids[i].Some? && ids[i].value !in processed;
        if i < n {
          assert tasks[..n][i] == t && ids[..n][i] == ids[i];
        }
      }
    }
  }

  /**
   * After the pass a task is deleted exactly when it is linked to an identifier that no
   * fetched reminder has; a task with a nil identifier is never deleted.
   */
  lemma DeletedIffUnmatched(tasks: seq<TodoItem>, ids: seq<Option<string>>, init: map<TodoItem, TaskFields>, rs: seq<Reminder>, i: int)
    requires |ids| == |tasks| && Covers(tasks, init) && AliasConsistent(tasks, ids) && 0 <= i < |tasks|
    ensures tasks[i] in Orphans(tasks, ids, Run(tasks, ids, Start(init), rs).processed)
        <==> ids[i].Some? && forall k :: 0 <= k < |rs| ==> rs[k].id != ids[i].value
  {
    var processed := Run(tasks, ids, Start(init), rs).processed;
    ProcessedAll(tasks, ids, Start(init), rs);
    OrphanMembership(tasks, ids, processed, tasks[i]);
  }

  /**
   * With no list selected the fetch returns no reminders, and the pass then deletes every task
   * that is linked to a reminder.
   */
  lemma EmptyFetchDeletesLinked(tasks: seq<TodoItem>, ids: seq<Option<string>>, init: map<TodoItem, TaskFields>, i: int)
    requires |ids| == |tasks| && Covers(tasks, init) && AliasConsistent(tasks, ids) && 0 <= i < |tasks|
    ensures tasks[i] in Orphans(tasks, ids, Run(tasks, ids, Start(init), []).processed) <==> ids[i].Some?
  {
    OrphanMembership(tasks, ids, {}, tasks[i]);
  }

  // ---------------------------------------------------------------------------
  // The list selection rule

  /**
   * `loadAvailableLists`: a selection that names none of the store's calendars is dropped, and
   * a missing selection falls back to the default calendar for new reminders, if any.
   */
  function ResolveSelection(current: Option<string>, calendars: seq<string>, default: Option<string>): (r: Option<string>)
    ensures current.Some? && current.value in calendars ==> r == current
    ensures !(current.Some? && current.value in calendars) ==> r == default
    ensures (default.None? || default.value in calendars) ==> r.None? || r.value in calendars
  {
    var kept := if current.Some? && current.value !in calendars then None else current;
    if kept.None? && default.Some? then default else kept
  }

  /** Loading the lists twice selects the same list as loading them once. */
  lemma ResolveSelectionIdempotent(current: Option<string>, calendars: seq<string>, default: Option<string>)
    requires default.None? || default.value in calendars
    ensures ResolveSelection(ResolveSelection(current, calendars, default), calendars, default)
         == ResolveSelection(current, calendars, default)
  {
  }

  /** The reminder written by a push: the task's title, completion iff no minutes remain, and the encoded notes. */
  function Pushed(base: Reminder, f: TaskFields): (r: Reminder)
    ensures r.id == base.id && r.calendar == base.calendar && r.lastModified == base.lastModified
    ensures r.title == Some(f.title)
    ensures r.isCompleted <==> f.remainingMinutes == 0
    ensures r.notes.Some?
  {
    base.(title := Some(f.title), isCompleted := f.remainingMinutes == 0,
          notes := Some(EncodeMetadata(f.estimatedMinutes, f.remainingMinutes, f.isActive)))
  }

  /**
   * A task pushed to its reminder is not in conflict with it on the next pass, and refreshing
   * the task from it changes nothing, as long as its minutes are not negative.
   */
  lemma PushThenSyncAgrees(base: Reminder, f: TaskFields)
    requires f.estimatedMinutes >= 0 && f.remainingMinutes >= 0
    ensures var r := Pushed(base, f);
      var md := DecodeNotes(r.notes);
      !Differs(f, r, md) && Refreshed(f, r, md) == f
  {
    DecodeEncode(f.estimatedMinutes, f.remainingMinutes, f.isActive);
  }

  // ---------------------------------------------------------------------------
  // The objects

  /** The SwiftData model context, reduced to the tasks inserted into it and deleted from it. */
  class ModelContext {
    var inserted: seq<TodoItem>
    var deleted: seq<TodoItem>

    constructor()
      ensures inserted == [] && deleted == []
    {
      inserted := [];
      deleted := [];
    }

    method Insert(t: TodoItem)
      modifies this
      ensures inserted == old(inserted) + [t] && deleted == old(deleted)
    {
      inserted := inserted + [t];
    }

    method Delete(t: TodoItem)
      modifies this
      ensures deleted == old(deleted) + [t] && inserted == old(inserted)
    {
      deleted := deleted + [t];
    }
  }

  /** A task created by a pass, as the reference values `n` describe it. */
  predicate Made(t: TodoItem, n: NewTask, now: int)
    reads t
  {
    t.title == n.title && t.estimatedMinutes == n.estimatedMinutes && t.remainingMinutes == n.remainingMinutes
    && t.isActive == n.isActive && t.createdAt == now && t.reminderIdentifier == Some(n.reminderIdentifier)
  }

  /**
   * The loop state of a sync pass agrees with the pass state `pass`: every task links to its
   * identifier, keeps its creation time `stamps` and carries the fields `pass` records, and
   * `made` are the tasks created so far.
   */
  ghost predicate Mirrors(tasks: seq<TodoItem>, ids: seq<Option<string>>, stamps: seq<int>, pass: Pass,
                          made: seq<TodoItem>, now: int)
    reads tasks, made
  {
    && |ids| == |tasks| && |stamps| == |tasks| && Covers(tasks, pass.fields)
    && (forall j :: 0 <= j < |tasks| ==> tasks[j].reminderIdentifier == ids[j] && tasks[j].createdAt == stamps[j])
    && (forall j :: 0 <= j < |tasks| ==> FieldsOf(tasks[j]) == pass.fields[tasks[j]])
    && |made| == |pass.created|
    && (forall k :: 0 <= k < |made| ==> made[k] !in tasks && Made(made[k], pass.created[k], now))
  }

  class RemindersManager {
    /** The reminder store: every reminder, by calendar-item identifier. */
    var store: map<string, Reminder>
    /** The identifiers of the store's reminder calendars. */
    var calendars: seq<string>
    var defaultCalendar: Option<string>
    var availableLists: seq<string>
    var selectedListIdentifier: Option<string>

    /** The store keys every reminder by its own identifier, so a link by key is a link by identifier. */
    predicate Valid()
      reads this
    {
      KeyedById(store)
    }

    /** `saved` is the selection remembered from the last run. */
    constructor(store: map<string, Reminder>, calendars: seq<string>, defaultCalendar: Option<string>, saved: Option<string>)
      requires KeyedById(store)
      ensures Valid()
      ensures this.store == store && this.calendars == calendars && this.defaultCalendar == defaultCalendar
      ensures availableLists == [] && selectedListIdentifier == saved
    {
      this.store := store;
      this.calendars := calendars;
      this.defaultCalendar := defaultCalendar;
      availableLists := [];
      selectedListIdentifier := saved;
    }

    /** `selectedList`: the selected calendar, if the store has it. */
    function SelectedList(): (r: Option<string>)
      reads this
      ensures r.Some? <==> selectedListIdentifier.Some? && selectedListIdentifier.value in calendars
      ensures r.Some? ==> r == selectedListIdentifier
    {
      match selectedListIdentifier
      case None => None
      case Some(id) => if id in calendars then Some(id) else None
    }

    method LoadAvailableLists()
      modifies this
      ensures availableLists == calendars
      ensures selectedListIdentifier == ResolveSelection(old(selectedListIdentifier), calendars, defaultCalendar)
      ensures store == old(store) && calendars == old(calendars) && defaultCalendar == old(defaultCalendar)
    {
      availableLists := calendars;
      if selectedListIdentifier.Some? && selectedListIdentifier.value !in calendars {
        selectedListIdentifier := None;
      }
      if selectedListIdentifier.None? && defaultCalendar.Some? {
        selectedListIdentifier := defaultCalendar;
      }
    }

    /**
     * Pushes a task to its reminder, or to a new reminder in the selected list when the task has
     * no reminder the store knows. `freshId` is the identifier the store gives a new reminder.
     */
    method CreateOrUpdateReminder(task: TodoItem, freshId: string) returns (result: Outcome)
      requires Valid() && freshId !in store
      modifies this, task
      ensures Valid()
      ensures old(SelectedList()).Some? ==>
        task.reminderIdentifier.Some? && task.reminderIdentifier.value in store
        && store[task.reminderIdentifier.value].id == task.reminderIdentifier.value
      ensures old(SelectedList()).None? ==>
        (result == Failure(NoListSelected) && store == old(store) && task.reminderIdentifier == old(task.reminderIdentifier))
      ensures old(SelectedList()).Some? ==>
        (var linked := old(task.reminderIdentifier).Some? && old(task.reminderIdentifier).value in old(store);
         var id := if linked then old(task.reminderIdentifier).value else freshId;
         var base := if linked then old(store)[id]
                     else Reminder(freshId, old(SelectedList()).value, None, None, false, None);
         result == Success && store == old(store)[id := Pushed(base, FieldsOf(task))] && task.reminderIdentifier == Some(id))
      ensures FieldsOf(task) == old(FieldsOf(task)) && task.createdAt == old(task.createdAt)
      ensures calendars == old(calendars) && defaultCalendar == old(defaultCalendar)
      ensures availableLists == old(availableLists) && selectedListIdentifier == old(selectedListIdentifier)
    {
      var calendar := SelectedList();
      if calendar.None? {
        return Failure(NoListSelected);
      }
      // `identifier` is the reminder's calendar-item identifier: the one it was looked up by, or the new one.
      var reminder: Reminder;
      var identifier: string;
      if task.reminderIdentifier.Some? && task.reminderIdentifier.value in store {
        identifier := task.reminderIdentifier.value;
        reminder := store[identifier];
      } else {
        identifier := freshId;
        reminder := Reminder(freshId, calendar.value, None, None, false, None);
      }
      reminder := reminder.(title := Some(task.title));
      reminder := reminder.(isCompleted := task.remainingMinutes == 0);
      reminder := reminder.(notes := Some(EncodeMetadata(task.estimatedMinutes, task.remainingMinutes, task.isActive)));
      store := store[identifier := reminder];
      task.reminderIdentifier := Some(identifier);
      return Success;
    }

    /** Removes the task's reminder and unlinks the task; a task with no reminder in the store is left as it is. */
    method DeleteReminder(task: TodoItem)
      requires Valid()
      modifies this, task
      ensures Valid()
      ensures old(task.reminderIdentifier).Some? && old(task.reminderIdentifier).value in old(store) ==>
        store == old(store) - {old(task.reminderIdentifier).value} && task.reminderIdentifier.None?
      ensures !(old(task.reminderIdentifier).Some? && old(task.reminderIdentifier).value in old(store)) ==>
        store == old(store) && task.reminderIdentifier == old(task.reminderIdentifier)
      ensures FieldsOf(task) == old(FieldsOf(task)) && task.createdAt == old(task.createdAt)
      ensures calendars == old(calendars) && defaultCalendar == old(defaultCalendar)
      ensures availableLists == old(availableLists) && selectedListIdentifier == old(selectedListIdentifier)
    {
      if task.reminderIdentifier.None? || task.reminderIdentifier.value !in store {
        return;
      }
      store := store - {task.reminderIdentifier.value};
      task.reminderIdentifier := None;
    }

    /** `updateTask`: copies the reminder's title (when it has one) and the decoded values into the task. */
    method UpdateTask(task: TodoItem, reminder: Reminder, metadata: ReminderMetadata)
      modifies task
      ensures FieldsOf(task) == Refreshed(old(FieldsOf(task)), reminder, metadata)
      ensures task.reminderIdentifier == old(task.reminderIdentifier) && task.createdAt == old(task.createdAt)
    {
      task.title := reminder.title.GetOr(task.title);
      task.estimatedMinutes := metadata.estimatedMinutes;
      task.remainingMinutes := metadata.remainingMinutes;
      task.isActive := metadata.isActive;
    }

    /**
     * Settles a conflict: keeping the local side pushes the task to the store; taking the remote
     * side refreshes the task from the reminder's decoded notes and leaves the store alone.
     */
    method ResolveConflict(conflict: SyncConflict, keepLocal: bool, task: TodoItem, reminder: Reminder, freshId: string)
      returns (result: Outcome)
      requires Valid() && freshId !in store
      modifies this, task
      ensures Valid()
      ensures keepLocal ==> FieldsOf(task) == old(FieldsOf(task))
      ensures keepLocal && old(SelectedList()).None? ==>
        (result == Failure(NoListSelected) && store == old(store) && task.reminderIdentifier == old(task.reminderIdentifier))
      ensures keepLocal && old(SelectedList()).Some? ==>
        (var linked := old(task.reminderIdentifier).Some? && old(task.reminderIdentifier).value in old(store);
         var id := if linked then old(task.reminderIdentifier).value else freshId;
         var base := if linked then old(store)[id]
                     else Reminder(freshId, old(SelectedList()).value, None, None, false, None);
         result == Success && store == old(store)[id := Pushed(base, FieldsOf(task))] && task.reminderIdentifier == Some(id))
      ensures !keepLocal ==>
        (result == Success && store == old(store)
         && FieldsOf(task) == Refreshed(old(FieldsOf(task)), reminder, DecodeNotes(reminder.notes))
         && task.reminderIdentifier == old(task.reminderIdentifier))
      ensures task.createdAt == old(task.createdAt)
      ensures calendars == old(calendars) && defaultCalendar == old(defaultCalendar)
      ensures availableLists == old(availableLists) && selectedListIdentifier == old(selectedListIdentifier)
    {
      if keepLocal {
        result := CreateOrUpdateReminder(task, freshId);
      } else {
        var metadata := ParseNotes(reminder.notes);
        UpdateTask(task, reminder, metadata);
        result := Success;
      }
    }

    /**
     * The body of the sync loop for one fetched reminder: it takes the loop's state (the
     * conflicts so far, the processed identifiers and, as ghost state, the pass so far and the
     * tasks created so far) and returns it after the reminder, as `Step` says.
     */
    method SyncReminder(context: ModelContext, tasks: seq<TodoItem>, ids: seq<Option<string>>, reminder: Reminder, now: int,
                        conflicts: seq<SyncConflict>, processed: set<string>, ghost pass: Pass,
                        ghost stamps: seq<int>, ghost before: seq<TodoItem>, ghost made: seq<TodoItem>)
      returns (conflicts': seq<SyncConflict>, processed': set<string>, ghost made': seq<TodoItem>)
      requires Mirrors(tasks, ids, stamps, pass, made, now)
      requires conflicts == pass.conflicts && processed == pass.processed
      requires context.inserted == before + made
      modifies context, tasks
      ensures Covers(tasks, pass.fields)
      ensures var q := Step(tasks, ids, pass, reminder);
        && conflicts' == q.conflicts && processed' == q.processed
        && Mirrors(tasks, ids, stamps, q, made', now)
        && context.inserted == before + made'
      ensures forall t :: t in made' ==> t in made || fresh(t)
      ensures context.deleted == old(context.deleted)
    {
      var metadata := ParseNotes(reminder.notes);
      var reminderID := reminder.id;
      processed' := processed + {reminderID};
      match FirstMatch(ids, reminderID) {
        case Some(j) =>
          conflicts' := SyncMatched(tasks, ids, j, reminder, metadata, conflicts, pass, stamps, made, now);
          made' := made;
        case None =>
          conflicts' := conflicts;
          made' := SyncUnmatched(context, tasks, ids, reminder, metadata, pass, stamps, before, made, now);
      }
    }

    /** A fetched reminder linked to the `j`th task: a conflict when they differ, otherwise `updateTask`. */
    method SyncMatched(tasks: seq<TodoItem>, ids: seq<Option<string>>, j: nat, reminder: Reminder, metadata: ReminderMetadata,
                       conflicts: seq<SyncConflict>, ghost pass: Pass, ghost stamps: seq<int>, ghost made: seq<TodoItem>, now: int)
      returns (conflicts': seq<SyncConflict>)
      requires Mirrors(tasks, ids, stamps, pass, made, now) && conflicts == pass.conflicts
      requires FirstMatch(ids, reminder.id) == Some(j) && metadata == DecodeNotes(reminder.notes)
      modifies tasks[j]
      ensures var q := Step(tasks, ids, pass, reminder);
        conflicts' == q.conflicts && Mirrors(tasks, ids, stamps, q, made, now)
    {
      var existing := tasks[j];
      if reminder.title != Some(existing.title)
        || metadata.estimatedMinutes != existing.estimatedMinutes
        || metadata.remainingMinutes != existing.remainingMinutes
      {
        conflicts' := conflicts + [SyncConflict(existing, reminder, reminder.id, existing.title,
          reminder.title.GetOr(""), existing.estimatedMinutes, metadata.estimatedMinutes,
          existing.remainingMinutes, metadata.remainingMinutes)];
      } else {
        conflicts' := conflicts;
        UpdateTask(existing, reminder, metadata);
      }
    }

    /** A fetched reminder no task is linked to: a new task for it goes into the context. */
    method SyncUnmatched(context: ModelContext, tasks: seq<TodoItem>, ids: seq<Option<string>>, reminder: Reminder,
                         metadata: ReminderMetadata, ghost pass: Pass, ghost stamps: seq<int>, ghost before: seq<TodoItem>,
                         ghost made: seq<TodoItem>, now: int)
      returns (ghost made': seq<TodoItem>)
      requires Mirrors(tasks, ids, stamps, pass, made, now) && context.inserted == before + made
      requires FirstMatch(ids, reminder.id).None? && metadata == DecodeNotes(reminder.notes)
      modifies context
      ensures var q := Step(tasks, ids, pass, reminder);
        Mirrors(tasks, ids, stamps, q, made', now) && context.inserted == before + made'
      ensures forall t :: t in made' ==> t in made || fresh(t)
      ensures context.deleted == old(context.deleted)
    {
      var newTask := new TodoItem(reminder.title.GetOr("Untitled"), metadata.estimatedMinutes,
                                  metadata.isActive, now, Some(reminder.id));
      newTask.remainingMinutes := metadata.remainingMinutes;
      context.Insert(newTask);
      made' := made + [newTask];
    }

    /** The deletion loop of a sync pass: every task linked to an unprocessed identifier is deleted, in list order. */
    method DeleteUnprocessed(context: ModelContext, tasks: seq<TodoItem>, ghost ids: seq<Option<string>>, processed: set<string>)
      requires |ids| == |tasks| && forall j :: 0 <= j < |tasks| ==> tasks[j].reminderIdentifier == ids[j]
      modifies context
      ensures context.deleted == old(context.deleted) + Orphans(tasks, ids, processed)
      ensures context.inserted == old(context.inserted)
    {
      for k := 0 to |tasks|
        invariant context.deleted == old(context.deleted) + Orphans(tasks[..k], ids[..k], processed)
        invariant context.inserted == old(context.inserted)
      {
        assert tasks[..k + 1][..k] == tasks[..k] && ids[..k + 1][..k] == ids[..k];
        assert Orphans(tasks[..k + 1], ids[..k + 1], processed)
            == Orphans(tasks[..k], ids[..k], processed)
               + (if ids[k].Some? && ids[k].value !in processed then [tasks[k]] else []);
        var task := tasks[k];
        if task.reminderIdentifier.Some? && task.reminderIdentifier.value !in processed {
          context.Delete(task);
        }
      }
      assert tasks[..|tasks|] == tasks && ids[..|ids|] == ids;
    }

    /**
     * One sync pass over the reminders fetched from the selected list: matched tasks are
     * refreshed or reported as conflicts, a task is created (stamped `now`) for each reminder no
     * task is linked to, and tasks linked to a reminder that was not fetched are deleted.
     */
    method SyncFromReminders(context: ModelContext, tasks: seq<TodoItem>, reminders: seq<Reminder>, now: int)
      returns (conflicts: seq<SyncConflict>, ghost pass: Pass, ghost made: seq<TodoItem>)
      modifies context, tasks
      ensures Covers(tasks, old(Snapshot(tasks)))
      ensures pass == Run(tasks, old(IdsOf(tasks)), Start(old(Snapshot(tasks))), reminders)
      ensures conflicts == pass.conflicts
      ensures Mirrors(tasks, old(IdsOf(tasks)), old(StampsOf(tasks)), pass, made, now)
      ensures context.inserted == old(context.inserted) + made && forall t :: t in made ==> fresh(t)
      ensures context.deleted == old(context.deleted) + Orphans(tasks, old(IdsOf(tasks)), pass.processed)
    {
      var ids := IdsOf(tasks);
      var processed;
      conflicts, processed, pass, made := MatchReminders(context, tasks, ids, StampsOf(tasks), reminders, now);
      DeleteUnprocessed(context, tasks, ids, processed);
    }

    /** The loop of a sync pass over the fetched reminders, before the deletions. */
    method MatchReminders(context: ModelContext, tasks: seq<TodoItem>, ids: seq<Option<string>>, ghost stamps: seq<int>,
                          reminders: seq<Reminder>, now: int)
      returns (conflicts: seq<SyncConflict>, processed: set<string>, ghost pass: Pass, ghost made: seq<TodoItem>)
      requires ids == IdsOf(tasks)
      requires |stamps| == |tasks| && forall j :: 0 <= j < |tasks| ==> tasks[j].createdAt == stamps[j]
      modifies context, tasks
      ensures Covers(tasks, old(Snapshot(tasks)))
      ensures pass == Run(tasks, ids, Start(old(Snapshot(tasks))), reminders)
      ensures conflicts == pass.conflicts && processed == pass.processed
      ensures Mirrors(tasks, ids, stamps, pass, made, now)
      ensures context.inserted == old(context.inserted) + made && forall t :: t in made ==> fresh(t)
      ensures context.deleted == old(context.deleted)
    {
      ghost var start := Start(Snapshot(tasks));
      ghost var before := context.inserted;
      made := [];
      pass := start;
      conflicts := [];
      processed := {};
      for i := 0 to |reminders|
        invariant Mirrors(tasks, ids, stamps, pass, made, now) && pass == Run(tasks, ids, start, reminders[..i])
        invariant conflicts == pass.conflicts && processed == pass.processed
        invariant forall t :: t in made ==> fresh(t)
        invariant context.inserted == before + made && context.deleted == old(context.deleted)
      {
        RunTake(tasks, ids, start, reminders, i);
        conflicts, processed, made := SyncReminder(context, tasks, ids, reminders[i], now, conflicts, processed, pass, stamps, before, made);
        pass := Step(tasks, ids, pass, reminders[i]);
      }
      assert reminders[..|reminders|] == reminders;
    }
  }
}
