# TomTimer core, modelled in Dafny

TomTimer is a Pomodoro timer for iOS that keeps its to-do list in step with an Apple
Reminders list. This project models its core and proves properties of that model:

- **Notes codec** (`NotesCodec`). Each task's estimate, remaining minutes and "active" flag
  are stored in its reminder's notes as four human-readable lines:
  - `TicketyPom Task`
  - `Estimated Total Time: N minutes`
  - `Remaining Time: N minutes`
  - `Active: true|false`

  The notes are decoded line by line. The decoder never fails, keeps only a line's digits,
  and lets the last matching line win. The model has the string operations it needs (`Text`)
  and the decoder's line loop (`ParseNotes`). That loop is proved to compute the reference
  fold `DecodeNotes`.
- **Reconciliation pass** (`Reminders.RemindersManager.SyncFromReminders`). The fetched
  reminders are matched to local tasks by reminder identifier:
  - a matched pair whose title, estimate or remaining minutes differ is reported as a conflict;
  - any other matched pair refreshes the task;
  - each unmatched reminder creates a new task;
  - every task linked to an identifier that was not fetched is deleted.

  The method is proved to follow the reference fold `Run`. Lemmas about `Run` give the
  conflicts, the tasks created, the deletions and the final fields of each task.
- **Push, delete, conflict resolution and list selection**. These run against the reminder
  store, which is modelled as a map from calendar-item identifier to reminder.
- **Reminders provider** (`RemindersProvider`). It maps reminders to `TaskProviderItem`s, and
  its create, update and delete calls carry their error cases. The shared records and errors
  are in `Providers`.
- **Task record** (`Tasks.TodoItem`). Its clamping keeps `0 <= remaining <= estimated`.
- **Countdown** (`Timer.PomodoroTimer`). Every method is proved against a state-transition
  function over `TimerState`. Lemmas cover ticking, finishing, persistence and restore across
  a relaunch.
- **Provider registry** (`Plugins.PluginManager`). It holds a duplicate-free list of
  providers and an enabled set with toggle semantics.
- **Small helpers**:
  - the `mm:ss` formatter (`TimeFormat`), with Swift's truncating `/` and `%`;
  - the error descriptions (`Providers.ErrorDescription`).
- **Test target** (`MetadataTests`). The test target's own copy of the decoder is proved to
  agree with the production decoder, and its three scenarios are proved.

Times are whole seconds. Each operation that reads the clock takes the current time `now` as a
parameter.

Behaviour of the code that shapes the model:

- Sync raises a conflict on any difference in title, estimate or remaining minutes. There is
  no last-modified gating.
- The notes carry no timestamp, and the header line is never checked
  (`NotesCodec.HeaderIsOptional`).
- Sync creates tasks with a `reminderIdentifier` and a four-argument initialiser. This
  revision of `TodoItem.swift` has neither, so `Tasks.TodoItem` adds that field and that
  initialiser argument.

## Model

| member | source | states |
|---|---|---|
| Text.SplitJoin | TomTimer/TomTimer/RemindersManager.swift:89-94 | splitting a newline-joined list of non-empty, newline-free lines gives the lines back (Swift `split` drops empty pieces) |
| Text.ParseNatToString | TomTimer/TomTimer/RemindersManager.swift:113 | `Int(_:)` reads the decimal text of a natural number back as that number |
| Text.ParseBool | TomTimer/TomTimer/RemindersManager.swift:117 | `Bool(_:)` accepts exactly "true" and "false" |
| NotesCodec.EncodedLines | TomTimer/TomTimer/RemindersManager.swift:88-95 | the encoder emits exactly four newline-joined lines: header, estimate line, remaining line, active line |
| NotesCodec.DecodeNotes | TomTimer/TomTimer/RemindersManager.swift:97-104 | absent notes decode to estimate 25, remaining 25, inactive; decoded minutes are never negative |
| NotesCodec.DecodeLines | TomTimer/TomTimer/RemindersManager.swift:106-119 | the minutes read from any sequence of lines are never negative |
| NotesCodec.LineNumber | TomTimer/TomTimer/RemindersManager.swift:113 | the number a line carries, when it has one, is never negative (a minus sign is not a digit) |
| NotesCodec.LineNumberFromDigits | TomTimer/TomTimer/RemindersManager.swift:113-115 | a line's number is the value of that line's own digits; with no digits, or digits that `Int` rejects, there is none |
| NotesCodec.PrefixesExclusive | TomTimer/TomTimer/RemindersManager.swift:112-117 | a remaining line or an active line is never taken for one of the earlier branches |
| NotesCodec.EstimateLineEffect | TomTimer/TomTimer/RemindersManager.swift:112-113 | an estimate line sets the estimate from its digits, or keeps the previous one when there is no number; nothing else changes |
| NotesCodec.RemainingLineEffect | TomTimer/TomTimer/RemindersManager.swift:114-115 | the same for a remaining line and the remaining minutes |
| NotesCodec.ActiveLineEffect | TomTimer/TomTimer/RemindersManager.swift:116-117 | an active line sets the flag only when the trimmed text after its last ':' is exactly "true" or "false"; otherwise the flag is kept |
| NotesCodec.IgnoredLineEffect | TomTimer/TomTimer/RemindersManager.swift:110-119 | a line matching none of the three prefixes, the header included, changes nothing |
| NotesCodec.LastEstimateWins | TomTimer/TomTimer/RemindersManager.swift:110-119 | the last estimate line that carries a number decides the estimate |
| NotesCodec.LastRemainingWins | TomTimer/TomTimer/RemindersManager.swift:110-119 | the last remaining line that carries a number decides the remaining minutes |
| NotesCodec.LastActiveWins | TomTimer/TomTimer/RemindersManager.swift:110-119 | the last active line with a Bool text decides the flag |
| NotesCodec.IgnoredLineAnywhere | TomTimer/TomTimer/RemindersManager.swift:110-119 | a line that sets nothing can be removed from anywhere in the notes without changing the result |
| NotesCodec.HeaderIsOptional | TomTimer/TomTimer/RemindersManager.swift:110-119 | the header is never checked: notes decode the same with or without it |
| NotesCodec.DecodeEncode | TomTimer/TomTimer/RemindersManager.swift:88-126 | decoding encoded notes gives back the flag and the magnitudes of both numbers, so the round trip is exact for non-negative minutes |
| NotesCodec.ParseNotes | TomTimer/TomTimer/RemindersManager.swift:97-126 | the decoder's line loop over `estimated`, `remaining` and `active` computes `DecodeNotes` |
| Tasks.NonNegative | TomTimer/TomTimer/TodoItem.swift:20 | `max(0, x)`: at least `x` and at least zero, and equal to one of them |
| Tasks.AfterCompletion | TomTimer/TomTimer/TodoItem.swift:26-29 | remaining after completed work is never negative and never grows; negative work changes nothing |
| Tasks.ClampRemaining | TomTimer/TomTimer/TodoItem.swift:34 | the kept remaining lies in `[0, estimated]`, equals the request exactly when the request already lies there, and otherwise goes to the nearer bound |
| Tasks.TodoItem.constructor | TomTimer/TomTimer/TodoItem.swift:18-24 | estimate is `max(0, e)`, remaining equals it, the invariant holds, and the reminder identifier is stored |
| Tasks.TodoItem.ApplyCompletion | TomTimer/TomTimer/TodoItem.swift:26-29 | only the remaining minutes change, as `AfterCompletion` says; the invariant is preserved |
| Tasks.TodoItem.UpdateEstimates | TomTimer/TomTimer/TodoItem.swift:31-35 | estimate becomes `max(0, e)` and remaining the clamped request; the invariant holds afterwards; title, flag, creation time and link are kept |
| Reminders.FirstMatch | TomTimer/TomTimer/RemindersManager.swift:182 | `first(where:)` on the identifier: the earliest task linked to the reminder, or none exactly when no task is |
| Reminders.Refreshed | TomTimer/TomTimer/RemindersManager.swift:224-229 | `updateTask` takes the decoded estimate, remaining and flag, and the reminder's title only when it has one |
| Reminders.Step | TomTimer/TomTimer/RemindersManager.swift:178-211 | each fetched reminder is marked processed whether it matched a task or not |
| Reminders.ProcessedAll | TomTimer/TomTimer/RemindersManager.swift:178-211 | after the pass, the processed identifiers are exactly those of the fetched reminders |
| Reminders.RunAppend | TomTimer/TomTimer/RemindersManager.swift:178-212 | the pass over two batches of reminders is the pass over the first and then over the second |
| Reminders.RunUntouched | TomTimer/TomTimer/RemindersManager.swift:182-200 | a task that no reminder matches keeps its fields through the pass |
| Reminders.DifferentIdsDifferentTasks | TomTimer/TomTimer/RemindersManager.swift:182 | reminders with different identifiers never match the same task |
| Reminders.MatchedTaskFields | TomTimer/TomTimer/RemindersManager.swift:182-200 | with distinct reminder identifiers, a matched task ends the pass untouched when the pair differs (a conflict), otherwise refreshed from its reminder |
| Reminders.UnmatchedTaskKept | TomTimer/TomTimer/RemindersManager.swift:182-200 | a task with no identifier, or one that no fetched reminder has, keeps its fields |
| Reminders.ConflictsAgainstSnapshot | TomTimer/TomTimer/RemindersManager.swift:184-197 | with distinct reminder identifiers, the conflicts are exactly the differing matched pairs, judged against the fields before the pass, in fetch order |
| Reminders.CreatedForUnlinked | TomTimer/TomTimer/RemindersManager.swift:201-211 | one new task per reminder that no task is linked to, in fetch order, with the reminder's title or "Untitled", the decoded values and the reminder's identifier |
| Reminders.OrphanMembership | TomTimer/TomTimer/RemindersManager.swift:214-219 | a task is in the deletion list iff some position holds it with an identifier that was not processed |
| Reminders.DeletedIffUnmatched | TomTimer/TomTimer/RemindersManager.swift:214-219 | a task is deleted iff it has an identifier that no fetched reminder has; a task with no identifier is never deleted |
| Reminders.EmptyFetchDeletesLinked | TomTimer/TomTimer/RemindersManager.swift:214-219 | when the fetch returns no reminders (no list selected, lines 130-131) the pass deletes exactly the tasks linked to a reminder |
| Reminders.ResolveSelection | TomTimer/TomTimer/RemindersManager.swift:60-73 | a selection among the calendars is kept; any other selection, or none, becomes the default calendar; the result is a calendar when the default is |
| Reminders.ResolveSelectionIdempotent | TomTimer/TomTimer/RemindersManager.swift:60-73 | loading the lists twice selects what loading them once selects |
| Reminders.Pushed | TomTimer/TomTimer/RemindersManager.swift:154-156 | a push writes the task's title, completion iff no minutes remain, and notes; identifier, list and modification time are kept |
| Reminders.PushThenSyncAgrees | TomTimer/TomTimer/RemindersManager.swift:184-186 | for non-negative minutes, a task just pushed to its reminder is not in conflict with it, and refreshing from it changes nothing |
| Reminders.ModelContext.Insert | TomTimer/TomTimer/RemindersManager.swift:209 | the task is appended to the inserted tasks; the deleted ones are kept |
| Reminders.ModelContext.Delete | TomTimer/TomTimer/RemindersManager.swift:217 | the task is appended to the deleted tasks; the inserted ones are kept |
| Reminders.RemindersManager.constructor | TomTimer/TomTimer/RemindersManager.swift:33-36 | the selection saved by the last run is restored; the store, its calendars and its default calendar are the given ones; no lists are loaded yet; the store keys every reminder by its own identifier (`Valid`) |
| Reminders.RemindersManager.SelectedList | TomTimer/TomTimer/RemindersManager.swift:75-78 | there is a selected list iff the selected identifier names one of the store's calendars |
| Reminders.RemindersManager.LoadAvailableLists | TomTimer/TomTimer/RemindersManager.swift:60-73 | the available lists become the calendars and the selection follows `ResolveSelection` |
| Reminders.RemindersManager.CreateOrUpdateReminder | TomTimer/TomTimer/RemindersManager.swift:140-160 | with no selected list it throws and changes nothing; otherwise the task's reminder (or a new one in the selected list) receives the push, and the task is linked to it by that reminder's own identifier (`calendarItemIdentifier`); every reminder stays keyed by its identifier |
| Reminders.RemindersManager.DeleteReminder | TomTimer/TomTimer/RemindersManager.swift:162-169 | a task whose reminder is in the store has it removed and is unlinked; otherwise nothing changes; every reminder stays keyed by its identifier |
| Reminders.RemindersManager.UpdateTask | TomTimer/TomTimer/RemindersManager.swift:224-229 | the task's fields become `Refreshed`; its link and creation time are kept |
| Reminders.RemindersManager.ResolveConflict | TomTimer/TomTimer/RemindersManager.swift:231-238 | keeping the local side changes no task field and does exactly what `CreateOrUpdateReminder` does: throws with no list and changes nothing, else pushes to the linked reminder or a new one in the selected list and links the task; taking the remote side refreshes the task from the decoded reminder and leaves the store and the link alone; either way every reminder stays keyed by its identifier |
| Reminders.RemindersManager.SyncReminder | TomTimer/TomTimer/RemindersManager.swift:179-211 | the loop body for one reminder moves the conflicts, processed set, task fields and created tasks on by one `Step` |
| Reminders.RemindersManager.SyncMatched | TomTimer/TomTimer/RemindersManager.swift:182-200 | a matched reminder appends a conflict when the pair differs, else refreshes the task, as `Step` says |
| Reminders.RemindersManager.SyncUnmatched | TomTimer/TomTimer/RemindersManager.swift:201-211 | an unmatched reminder inserts one fresh task with the values `Step` records |
| Reminders.RemindersManager.DeleteUnprocessed | TomTimer/TomTimer/RemindersManager.swift:214-219 | the deletion loop deletes exactly the tasks linked to an unprocessed identifier, in list order |
| Reminders.RemindersManager.MatchReminders | TomTimer/TomTimer/RemindersManager.swift:175-212 | the reminder loop leaves conflicts, processed identifiers, task fields and inserted tasks as `Run` over all fetched reminders says |
| Reminders.RemindersManager.SyncFromReminders | TomTimer/TomTimer/RemindersManager.swift:173-222 | the whole pass: returns `Run`'s conflicts, leaves every task with the fields `Run` records, inserts the created tasks (fresh objects), and deletes the orphans |
| Providers.MakeItem | TomTimer/TomTimer/TaskProvider.swift:55-73 | the initialiser stores every argument unchanged |
| Providers.ErrorDescription | TomTimer/TomTimer/TaskProvider.swift:84-97 | every error has a non-empty description; network and sync errors are their prefix followed by the message |
| Providers.DescriptionInitial | TomTimer/TomTimer/TaskProvider.swift:84-97 | each error case's description starts with its own letter |
| Providers.DescriptionInjective | TomTimer/TomTimer/TaskProvider.swift:84-97 | two errors with the same description are the same error |
| RemindersProvider.ItemFor | TomTimer/TomTimer/RemindersTaskProvider.swift:57-68 | decoding never yields nil, so every reminder gives an item, carrying the reminder's identifier and non-negative minutes |
| RemindersProvider.FetchedItems | TomTimer/TomTimer/RemindersTaskProvider.swift:56-70 | one item per fetched reminder, in order, with its identifier, title or "Untitled", decoded notes, completion and modification time or now |
| RemindersProvider.Created | TomTimer/TomTimer/RemindersTaskProvider.swift:80-87 | a created reminder is in the selected list, with the item's title and encoded notes, not completed |
| RemindersProvider.Written | TomTimer/TomTimer/RemindersTaskProvider.swift:99-105 | an update writes the item's title, notes and completion and keeps the reminder's identity |
| RemindersProvider.UpdateThenFetch | TomTimer/TomTimer/RemindersTaskProvider.swift:93-108 | fetching an updated reminder gives back the item's title, completion, flag and the magnitudes of its minutes |
| RemindersProvider.CreateThenFetch | TomTimer/TomTimer/RemindersTaskProvider.swift:75-91 | fetching a created reminder gives back the item's title, minutes and flag, not completed, stamped with the fetch time |
| RemindersProvider.RemindersTaskProvider.constructor | TomTimer/TomTimer/RemindersTaskProvider.swift:20-25 | a new provider has no selected list and no loaded lists, over the given store and authorization status |
| RemindersProvider.RemindersTaskProvider.IsAuthenticated | TomTimer/TomTimer/RemindersTaskProvider.swift:27-30 | authenticated iff a list is selected and the status is neither undecided, restricted nor denied |
| RemindersProvider.RemindersTaskProvider.SelectedList | TomTimer/TomTimer/RemindersTaskProvider.swift:32-35 | there is a selected list iff the selected identifier names one of the store's calendars |
| RemindersProvider.RemindersTaskProvider.Authenticate | TomTimer/TomTimer/RemindersTaskProvider.swift:39-45 | a refusal throws `authorizationDenied` and changes nothing; a grant records access and loads the lists |
| RemindersProvider.RemindersTaskProvider.LoadAvailableLists | TomTimer/TomTimer/RemindersTaskProvider.swift:120-122 | the available lists become the calendars; nothing else changes |
| RemindersProvider.RemindersTaskProvider.SetSelectedList | TomTimer/TomTimer/RemindersTaskProvider.swift:124-126 | stores the selection; `isAuthenticated` then holds iff access is full or write-only and a list is selected (lines 27-30) |
| RemindersProvider.RemindersTaskProvider.DecodeMetadata | TomTimer/TomTimer/RemindersTaskProvider.swift:139-160 | never nil: the notes decoder's reading of the reminder |
| RemindersProvider.RemindersTaskProvider.FetchTasks | TomTimer/TomTimer/RemindersTaskProvider.swift:47-73 | throws `notConfigured` with no selected list; otherwise returns the items of the fetched reminders |
| RemindersProvider.RemindersTaskProvider.CreateTask | TomTimer/TomTimer/RemindersTaskProvider.swift:75-91 | with no selected list it throws `notConfigured` and creates nothing; otherwise it saves one new reminder and returns its identifier |
| RemindersProvider.RemindersTaskProvider.UpdateTask | TomTimer/TomTimer/RemindersTaskProvider.swift:93-108 | a nil or unknown remote identifier throws `taskNotFound` and changes nothing; otherwise only that reminder is rewritten |
| RemindersProvider.RemindersTaskProvider.DeleteTask | TomTimer/TomTimer/RemindersTaskProvider.swift:110-116 | an unknown identifier throws `taskNotFound` and removes nothing; otherwise exactly that reminder is removed |
| Timer.InitialRemaining | TomTimer/TomTimer/PomodoroTimer.swift:22-23 | the first countdown is the stored duration if positive, else 1500 seconds |
| Timer.AfterPersist | TomTimer/TomTimer/PomodoroTimer.swift:59-64 | a stopped timer persists nothing; a running one records its end as now plus the time remaining |
| Timer.StartRuns | TomTimer/TomTimer/PomodoroTimer.swift:28-35 | starting runs the timer, sets the session length to the countdown only when none was set, and persists the end |
| Timer.PauseKeepsCountdown | TomTimer/TomTimer/PomodoroTimer.swift:41-46 | pausing stops and unschedules the timer and keeps the countdown, the session and the persisted end |
| Timer.FinishIsReset | TomTimer/TomTimer/PomodoroTimer.swift:115-123 | finishing leaves the state reset leaves: stopped, configured duration, no session, nothing persisted |
| Timer.TickStep | TomTimer/TomTimer/PomodoroTimer.swift:103-110 | a tick takes one second off a positive countdown and finishes at zero; the countdown never goes negative |
| Timer.TicksNeverNegative | TomTimer/TomTimer/PomodoroTimer.swift:103-110 | any number of ticks leaves a non-negative countdown |
| Timer.TicksCountDown | TomTimer/TomTimer/PomodoroTimer.swift:103-110 | `n` ticks of a countdown of at least `n` take off exactly `n` seconds and change nothing else |
| Timer.CountdownFinishes | TomTimer/TomTimer/PomodoroTimer.swift:103-110 | a countdown of `t` seconds reaches zero after `t` ticks and is reset by the next |
| Timer.RestoreCases | TomTimer/TomTimer/PomodoroTimer.swift:67-95 | no stored end: no-op; end passed: stopped at the configured duration with nothing persisted; otherwise the countdown is the time left and a session length is chosen |
| Timer.RelaunchResumes | TomTimer/TomTimer/PomodoroTimer.swift:59-95 | persisting, relaunching and restoring `d` seconds later resumes with `d` seconds fewer and the same session length |
| Timer.RelaunchAfterEnd | TomTimer/TomTimer/PomodoroTimer.swift:59-95 | restoring after the persisted end finds the timer stopped at the configured duration |
| Timer.PomodoroTimer.constructor | TomTimer/TomTimer/PomodoroTimer.swift:20-24 | a fresh timer is `Launched` from the stored values |
| Timer.PomodoroTimer.StartNewSession | TomTimer/TomTimer/PomodoroTimer.swift:28-35 | the new state is `AfterStart` of the old |
| Timer.PomodoroTimer.ResumeIfNeeded | TomTimer/TomTimer/PomodoroTimer.swift:37-39 | the new state is `AfterRestore` of the old |
| Timer.PomodoroTimer.Pause | TomTimer/TomTimer/PomodoroTimer.swift:41-46 | the new state is `AfterPause` of the old |
| Timer.PomodoroTimer.Reset | TomTimer/TomTimer/PomodoroTimer.swift:48-56 | the new state is `AfterReset` of the old |
| Timer.PomodoroTimer.PersistIfNeeded | TomTimer/TomTimer/PomodoroTimer.swift:59-64 | the new state is `AfterPersist` of the old |
| Timer.PomodoroTimer.RestoreFromPersistenceIfNeeded | TomTimer/TomTimer/PomodoroTimer.swift:67-95 | the new state is `AfterRestore` of the old |
| Timer.PomodoroTimer.ScheduleTimer | TomTimer/TomTimer/PomodoroTimer.swift:99-113 | the new state is `AfterSchedule` of the old: running, scheduled, persisted |
| Timer.PomodoroTimer.Tick | TomTimer/TomTimer/PomodoroTimer.swift:103-110 | the new state is `AfterTick` of the old |
| Timer.PomodoroTimer.Finish | TomTimer/TomTimer/PomodoroTimer.swift:115-123 | the new state is `AfterFinish` of the old |
| Timer.PomodoroTimer.ClearPersistence | TomTimer/TomTimer/PomodoroTimer.swift:125-128 | the new state is `AfterClear` of the old: end and stored session cleared |
| Plugins.FirstWith | TomTimer/TomTimer/PluginManager.swift:69 | the earliest position holding the identifier, or none exactly when it is not registered |
| Plugins.ProviderWith | TomTimer/TomTimer/PluginManager.swift:68-70 | `getProvider` returns the first provider with the identifier, or nil when there is none |
| Plugins.EnabledAmong | TomTimer/TomTimer/PluginManager.swift:73-75 | a provider is returned iff it is registered and its identifier is enabled |
| Plugins.EnabledAmongAppend | TomTimer/TomTimer/PluginManager.swift:73-75 | the result follows registration order |
| Plugins.EnabledAmongOnce | TomTimer/TomTimer/PluginManager.swift:73-75 | with unique identifiers, each enabled provider appears once |
| Plugins.Toggled | TomTimer/TomTimer/PluginManager.swift:59-65 | toggling flips the identifier's membership and keeps every other |
| Plugins.ToggleTwice | TomTimer/TomTimer/PluginManager.swift:59-65 | toggling twice restores the enabled set |
| Plugins.FirstWithAppend | TomTimer/TomTimer/PluginManager.swift:41-46 | appending a provider changes a lookup only for an identifier that was not registered |
| Plugins.RegisteredIsFound | TomTimer/TomTimer/PluginManager.swift:41-46 | after registering a new identifier, `getProvider` finds that provider, and every other lookup is unchanged |
| Plugins.PluginManager.constructor | TomTimer/TomTimer/PluginManager.swift:28-31 | the saved identifiers become the enabled set; no provider is registered |
| Plugins.PluginManager.RegisterBuiltInProviders | TomTimer/TomTimer/PluginManager.swift:34-38 | leaves no provider registered |
| Plugins.PluginManager.RegisterProvider | TomTimer/TomTimer/PluginManager.swift:41-46 | appends the provider iff no registered provider has its identifier, so identifiers stay unique |
| Plugins.PluginManager.EnableProvider | TomTimer/TomTimer/PluginManager.swift:49-51 | inserts only that identifier |
| Plugins.PluginManager.DisableProvider | TomTimer/TomTimer/PluginManager.swift:54-56 | removes only that identifier |
| Plugins.PluginManager.ToggleProvider | TomTimer/TomTimer/PluginManager.swift:59-65 | the enabled set becomes `Toggled` of the old one |
| TimeFormat.Quot | TomTimer/TomTimer/ContentView.swift:90 | Swift's `/`: truncates toward zero |
| TimeFormat.Rem | TomTimer/TomTimer/ContentView.swift:91 | Swift's `%`: `a == b * (a / b) + r`; in `[0, b)` for non-negative `a` |
| TimeFormat.Pad2 | TomTimer/TomTimer/ContentView.swift:92 | `%02d` gives at least two characters |
| TimeFormat.Pad2Shape | TomTimer/TomTimer/ContentView.swift:92 | below 100 a field is exactly two digits; a negative field starts with '-' |
| TimeFormat.Pad2Value | TomTimer/TomTimer/ContentView.swift:92 | a padded field reads back as its number |
| TimeFormat.FormatTimeFields | TomTimer/TomTimer/ContentView.swift:89-93 | for non-negative seconds: whole minutes, ':', seconds below 60; exactly five characters below 6000 seconds |
| TimeFormat.FormatTimeReadBack | TomTimer/TomTimer/ContentView.swift:89-93 | splitting at ':' and reading minutes * 60 + seconds gives the input back |
| TimeFormat.NegativeFields | TomTimer/TomTimer/ContentView.swift:89-93 | a negative count shows the negated minutes and seconds of its magnitude, each field signed only when non-zero (-75 as "-1:-15", -5 as "00:-5") |
| MetadataTests.FriendlyReading | TomTimer/TomTimerTests/TomTimerTests.swift:48-55 | the test copy gives 25, 25, false for absent notes |
| MetadataTests.ReadFromAgrees | TomTimer/TomTimerTests/TomTimerTests.swift:57-76 | reading the lines first to last with the test copy's three branches gives the production decoder's result |
| MetadataTests.TestCopyAgrees | TomTimer/TomTimerTests/TomTimerTests.swift:48-77 | the test copy and the production decoder agree on every input |
| MetadataTests.DecodeFriendlyMetadata | TomTimer/TomTimerTests/TomTimerTests.swift:48-77 | the test copy's loop computes both its own reading and the production decoder's |
| MetadataTests.ParsesFriendlyNotes | TomTimer/TomTimerTests/TomTimerTests.swift:7-24 | the friendly notes for 30 / 12 / true decode to 30, 12, true |
| MetadataTests.FallsBackWhenNotesMissing | TomTimer/TomTimerTests/TomTimerTests.swift:26-32 | absent notes decode to 25 and 25 |
| MetadataTests.HandlesMissingTimestamp | TomTimer/TomTimerTests/TomTimerTests.swift:34-46 | notes for 15 / 5 / false with no timestamp line decode to 15 and 5 |

The provider's `encodeFriendlyMetadata` and `decodeMetadata`
(`TomTimer/TomTimer/RemindersTaskProvider.swift:130-160`) are the same text as the manager's
codec. The provider calls the single `NotesCodec` model.

## Left out

- EventKit authorization requests, `async`/`await` continuations and the fetch callbacks. The
  fetched reminders are an input sequence, and the user's answer to the access request is the
  `granted` parameter.
- Reminders.RemindersManager.CreateOrUpdateReminder, RemindersProvider.RemindersTaskProvider.CreateTask:
  the identifier EventKit assigns to a new reminder is a parameter (`freshId`) that is not yet
  in the store. `UUID()` values are likewise a parameter of `FetchTasks`.
- Failures of `eventStore.save` and `eventStore.remove` are not modelled: every save and
  removal succeeds.
- The store never updates a reminder's `lastModifiedDate` on a save.
- RemindersProvider.RemindersTaskProvider.Authenticate: a grant is recorded as full access.
  EventKit's status is a stored field, not a live query.
- UserDefaults and `@AppStorage`. The stored timer values and the saved provider identifiers
  are constructor arguments or plain fields, and saving is left out.
- Foundation `Timer` scheduling and the run loop: a scheduled timer is a boolean, and each
  firing is a call to `Tick`.
- `Date()` and `Double` timestamps: times are whole seconds passed as `now`, so the `Int(...)`
  truncation in restore is the identity.
- 64-bit `Int` overflow, including `Int(...)` returning nil on very long digit strings.
  Integers are unbounded.
- Text operations:
  - Swift compares strings by grapheme cluster. The model works on Unicode scalars, so a
    "\r\n" pair is two characters here.
  - `CharacterSet.decimalDigits` is represented by the ASCII digits plus a sample of the
    other Unicode Nd ranges.
  - `.whitespaces` is represented by tab and the Unicode space separators.
- Timer.PomodoroTimer.Pause and Timer.RestoreCases follow the code as written. Pausing
  leaves the persisted end time in place, so a later restore resumes the countdown. Restoring
  after the end has passed does not unschedule a timer that is still scheduled.
- `fetchReminders` (RemindersManager.swift:130-138) is not modelled as an operation: the fetched reminders are the
  input of a pass. The code returns no reminders when no list is selected, so a sync run then deletes every linked
  task; `Reminders.EmptyFetchDeletesLinked` states that consequence.
- Reconciliation lemmas about conflicts and final task fields assume that fetched reminders
  have distinct identifiers, as EventKit identifiers are. The methods themselves carry no such
  requirement.
- The SwiftUI views, including `ConflictResolverView`, the watch app and
  `WatchConnectivityManager`, notifications and `ModelContainer` setup. These are UI, device
  messaging or persistence plumbing.
- `eventStore.calendar(withIdentifier:)` (RemindersManager.swift:75-78, RemindersTaskProvider.swift:32-35)
  finds a calendar of any type. The modelled store holds only reminder calendars, so a saved
  identifier that names an event calendar selects no list here.
- `TomTimerSession.swift` is a stored record with no behaviour and is not part of this model.
- Provider descriptors keep only an identifier and a display name. The icon and
  authentication flag of the Reminders provider are constants.
