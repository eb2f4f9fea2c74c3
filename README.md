# prts-bot task and XP engine in Dafny

This project models the core of the prts-bot Discord bot (`index.js`). Each Discord user
has a profile `{xp, level, tasks, history}` stored in one JSON document `{users, meta}`.
The `add` command appends a task with the next free id. `done` completes a task, credits
its XP, recomputes the level and records the completion at the head of a 100-entry
history. `list`, `history` and `status` show the active tasks, the recent completions and
a progress panel. Once per calendar day, the daily injector appends the fixed daily task
set to every profile that has a task array.

The project has four modules:

- `Tasks` (`tasks.dfy`) holds the task and history records and the pure computations the
  handlers use:
  - the level formula;
  - the "largest id + 1" rule;
  - the `list` filter and the `status` count;
  - `find` by id;
  - the capped, newest-first history.
- `Profiles` (`profiles.dfy`) defines each command as a function on a profile value:
  `AddTask`, `CompleteTask`, `ListTasks`, `HistoryView` and `Status`. It also has the
  invariant `WellFormed` that those commands preserve, and the class `Profile`, the object the
  handlers change in place. Its `Add` and `Done` methods are proved equal to the
  functions.
- `DailyTasks` (`daily.dfy`) holds the daily template list and `InjectDaily`, which says
  what one daily run appends to one task list.
- `Documents` (`documents.dfy`) holds the document as a value (`DocState`) and the
  whole-document daily run `RunDaily`. Its class `Document` maps user ids to `Profile`
  objects. Its methods `GetUserProfile`, `HandleAdd`, `HandleDone` and `RunDailyTasks`
  are proved against those functions, and `RunDailyTasks` keeps the loops of the source.

Modelling choices:

- A stored profile with no task array has `tasks == None`. In the source, `add` (for a
  positive reward), `done`, `list` and `status` then throw a TypeError before anything is
  saved. The model gives this its own outcome (`AddThrows`, `DoneThrows`, and
  `ListTasks` and `Status` returning `None`), and the profile is left unchanged.
- A falsy stored entry (`null`) is a `null` object in `Document.users`, or `None` in
  `DocState`. `getUserProfile` replaces it; the injector skips it.
- The `add` handler checks the reward before it touches the task array. So a
  non-positive reward is rejected even on a profile that has no task array.
- Three facts about `index.js` shape the model:
  - It has no timer code, so there are no reminder timers to model.
  - When `DAILY_CHANNEL_ID` is unset, the whole daily run is skipped: no tasks are
    added and no date is recorded.
  - Daily tasks are added only to profiles that hold a task array, not to every stored
    profile.

## Model

| member | source | states |
|---|---|---|
| Tasks.CalculateLevel | index.js:58-60 | the level is the one whose 100-XP band contains the xp: `100*(level-1) <= xp < 100*level`; a non-negative xp gives level at least 1 |
| Tasks.MaxId | index.js:85 | the result is an id in the list and no id in the list exceeds it |
| Tasks.NextId | index.js:232 | the next id is above every id present; it is 1 for an empty list, and otherwise one more than an id present |
| Tasks.NextIdOfIncreasing | index.js:232 | on a list with increasing ids, the next id is the last task's id + 1 |
| Tasks.IncreasingAppend | index.js:233 | appending tasks whose ids are above all present ids, in increasing order, keeps ids increasing |
| Tasks.ActiveTasks | index.js:241 | a task is in the filtered list exactly when it is in the list and is not done |
| Tasks.ActiveTasksAppend | index.js:241 | the filter distributes over concatenation, so it keeps list order |
| Tasks.ActiveTasksOfPending | index.js:241 | a list with no done task is its own filter |
| Tasks.CountDone | index.js:308 | the done count plus the active count is the list length |
| Tasks.FindTask | index.js:259 | the result is the first index holding the id, or none when no task has that id |
| Tasks.FindTaskSameIds | index.js:259 | `find` depends only on the ids, so marking tasks done does not change which task it picks |
| Tasks.DoneXpAppendPending | index.js:233 | appending pending tasks leaves the XP of the done tasks unchanged |
| Tasks.DoneXpMarkDone | index.js:271-272 | marking one pending task done raises the XP of the done tasks by exactly that task's reward |
| Tasks.PushHistory | index.js:275-282 | after unshift and slice, the entry is first, the earlier entries follow in order, and the length is min(old + 1, 100) |
| Tasks.PushAllNewestFirst | index.js:275-282 | after any series of completions, the history is the completions newest first, in front of the old history, cut to 100 |
| Tasks.HistoryAfter101 | index.js:275-282 | after 101 completions from an empty history, exactly the 100 most recent remain, newest first (entry i is completion 100 - i); when the completions are distinct, the oldest is no longer in the history |
| Profiles.AddTask | index.js:223-238 | a non-positive reward (default 10) is rejected; no task array throws; otherwise the new task is appended with id above all ids (1 on an empty list), not done, with the requested reward; xp, level and history are unchanged; on a failure nothing changes |
| Profiles.CompleteTask | index.js:257-288 | no task array throws; an id not found is rejected; an already-done first match is rejected, with nothing changed; otherwise that task alone is flagged done, xp grows by its reward, the level follows the xp, and the history gains its copy at the head |
| Profiles.FreshProfileWellFormed | index.js:22-27 | a new profile satisfies the profile invariant |
| Profiles.AddPreservesWellFormed | index.js:232-233 | `add` keeps ids increasing, rewards positive, xp equal to the done tasks' XP, the level consistent and the history at most 100 |
| Profiles.AppendKeepsWellFormed | index.js:233 | appending a pending positive-reward task with a larger id keeps the invariant |
| Profiles.CompletePreservesWellFormed | index.js:271-282 | `done` keeps the invariant and the list length, never lowers xp or level, strictly raises xp when it completes, and never clears a done flag |
| Profiles.CompleteTwiceRejected | index.js:266-269 | a second `done` on the same id answers "already completed" and changes nothing |
| Profiles.AddThenComplete | index.js:223-288 | on a well-formed profile, `add` then `done` on the new id completes exactly that task, credits its reward, and puts it at the head of the history |
| Profiles.ScenarioTwoTasks | index.js:223-288 | from a fresh profile, add 20 / done 1 / add 150 / done 2 gives ids 1 and 2, xp 20 then 170, and level 1 then 2 |
| Profiles.ListTasks | index.js:240-255 | `list` shows exactly the tasks not yet done, in list order; no task array throws |
| Profiles.ListAfterAdd | index.js:233-241 | after a successful `add`, `list` shows the earlier active tasks followed by the new one |
| Profiles.HistoryView | index.js:290-303 | the reply lists min(length, 100) entries, ranked 1.. from the newest, with each entry's text and xp |
| Profiles.HistoryViewAfterComplete | index.js:275-300 | right after a completion, the reply ranks that task first and shows the whole history |
| Profiles.RoundedShare | index.js:312-313 | the filled slot count is the rounded share, halves rounded up, and never exceeds the bar size |
| Profiles.Repeat | index.js:314 | a string of n copies of the character |
| Profiles.Bar | index.js:314 | 10 slots: the first `filled` are full and the rest are empty |
| Profiles.Status | index.js:307-328 | the panel has the level, xp, next-level mark `level*100`, done and total counts (done + active = total), and the bar filled by the xp share of the mark capped at 1; no task array throws |
| Profiles.StatusOfWellFormed | index.js:310-312 | on a well-formed profile the panel exists and the xp is below the next-level mark |
| Profiles.Profile.constructor | index.js:22-27 | a new profile object holds xp 0, level 1, no tasks, no history |
| Profiles.Profile.Add | index.js:223-238 | changes the object exactly as `AddTask` says and returns its outcome |
| Profiles.Profile.Done | index.js:257-288 | changes the object exactly as `CompleteTask` says, by unshift then slice, and returns its outcome |
| DailyTasks.DailyBatch | index.js:86-95 | the i-th pushed task is template i with id `nextId + i`, not done, dated today |
| DailyTasks.DailyBatchFacts | index.js:86-95 | the full batch has consecutive increasing ids from `nextId`, all pending, positive rewards and today's date |
| DailyTasks.InjectDaily | index.js:85-95 | the old list is kept as a prefix; one task per template follows, ids above every old id |
| DailyTasks.InjectDailySplits | index.js:85-95 | the injected list is the old list followed by the batch |
| DailyTasks.InjectDailyIdsIncreasing | index.js:85-95 | a daily run keeps ids increasing |
| DailyTasks.InjectDailyRewardsPositive | index.js:86-95 | a daily run keeps every reward positive |
| DailyTasks.InjectDailyPending | index.js:91 | a daily run adds no XP to done tasks, and its tasks come last in the active list |
| Documents.ProfileOf | index.js:50-56 | the profile a handler works on is the stored one, or a fresh one when the entry is absent or falsy; this is the corrected creation, since as written the shallow copy shares `DEFAULT_PROFILE`'s arrays (`NewProfileAsWritten`) |
| Documents.NewUserFirstAdd | index.js:50-56 | with fresh profiles, a user with no entry or a falsy one gets id 1 for their first positive-reward task, and it is their only active task |
| Documents.InjectState | index.js:83-95 | a profile with a task array gets the daily batch; xp, level and history stay |
| Documents.InjectInto | index.js:83 | a falsy entry is skipped; a profile gets `InjectState` |
| Documents.RunDaily | index.js:66-98 | no change when the channel is unset or the date was already run; otherwise the date is recorded, the same users remain, and every profile with a task array gets the batch while all else stays |
| Documents.RunDailyIdempotent | index.js:75-80 | running twice with the same date key equals running once |
| Documents.InjectIntoWellFormed | index.js:82-96 | the daily batch keeps a profile well formed |
| Documents.RunDailyPreservesWellFormed | index.js:82-96 | the daily run keeps every stored profile well formed |
| Documents.HandlersPreserveWellFormed | index.js:215-288 | `add` and `done`, on stored or fresh profiles, keep every profile well formed |
| Documents.NewProfileAsWritten | index.js:50-53 | as written, a new profile's task and history arrays are those of `DEFAULT_PROFILE` |
| Documents.AddToNewProfileAsWritten | index.js:232-233 | as written, `add` on such a profile pushes onto `DEFAULT_PROFILE.tasks` |
| Documents.SharedDefaultsLeak | index.js:50-53 | as written, a second new user's profile already lists the first new user's task, and their own first task gets id 2 |
| Documents.Document.Empty | index.js:34-36 | the empty document has no users and no daily date |
| Documents.Document.GetUserProfile | index.js:50-56 | returns the stored profile object, or stores and returns a fresh one with arrays of its own (the corrected creation; as written the shallow copy shares `DEFAULT_PROFILE`'s arrays, see `NewProfileAsWritten`); the document value changes only at that user, to `ProfileOf` |
| Documents.Document.HandleAdd | index.js:215-238 | the document value afterwards differs only at the caller, whose profile is `AddTask` of the loaded one; returns its outcome |
| Documents.Document.AddAt | index.js:223-238 | `add` on the loaded profile object changes only that user's entry |
| Documents.Document.HandleDone | index.js:257-288 | the document value afterwards differs only at the caller, whose profile is `CompleteTask` of the loaded one; returns its outcome |
| Documents.Document.DoneAt | index.js:257-288 | `done` on the loaded profile object changes only that user's entry |
| Documents.Document.RunDailyTasks | index.js:66-98 | the loops over users and templates leave the document equal to `RunDaily` of the old one, with the same profile objects |
| Documents.AppendDailyBatch | index.js:85-95 | the template loop on one profile appends the batch `InjectState` describes |

## Left out

- Discord I/O is not modelled: the client, slash-command registration, replies and
  their text, the `hello` and `help` commands, and posting the daily message.
- Reading and writing `data.json` are not modelled. `loadData` enters only as
  `Document.Empty`, for a missing or unreadable file, and `saveData` is not modelled. So
  the model does not capture that a profile created by a failed command is never
  written back.
- The cron schedule and concurrent handlers are not modelled. Each operation runs alone
  on the document it loaded.
- `getTodayKey` and `new Date().toISOString()` are not modelled: the date key and the
  completion timestamp are string parameters.
- Reminder timers are not modelled, because `index.js` has none.
- JSON-typing oddities are not modelled: ids or rewards that are not integers, a
  missing `xp` (which gives `NaN`), and results outside the int range of JavaScript
  numbers. All numbers are unbounded integers.
- Nonsensical stored ids are not modelled: `Math.max` on a non-numeric id, and
  `Math.max(...)` running out of argument slots on huge lists.
- Profiles.Status: requires `xp >= 0` and `level >= 1`. Profiles the bot creates always
  meet this (`StatusOfWellFormed`). For other stored values, the source throws a
  RangeError only when `Math.round(progress * 10) <= -1`. Otherwise it renders a panel
  that the model does not describe: an empty bar when the rounded share is `NaN` or
  `-0`, a full bar when it is `Infinity` capped to 1, and a normal bar when a negative
  level and a negative xp give a positive share.
- Profiles.RoundedShare: rounds in exact arithmetic, with halves rounded up. It does not
  model the floating-point error of `xp / nextLevelXp * 10` right at a half.
- Profiles.ProfileState: a stored record without `history` is read as an empty history,
  which is what both `done` and `history` do with it (`|| []`). The model does not
  record whether the field was absent.
- Task records from the daily injector carry the date key as `dailyDate`. The source's
  `daily: true` flag is implied by it, and is not a separate field.
- The order in which `Object.values` visits users is not modelled: `RunDailyTasks`
  visits them in any order, and the result does not depend on it.

## Findings

| source | as written | input that shows it | evidently intended | confidence | as-written member | corrected member |
|---|---|---|---|---|---|---|
| index.js:52 | a new profile is `{ ...DEFAULT_PROFILE }`, a shallow copy that shares `DEFAULT_PROFILE`'s `tasks` and `history` arrays; `add` and `done` then push onto the shared arrays | in one process, two users with no stored profile each run `add`; the second user's new profile already lists the first user's task, and their own task gets id 2 | every new profile starts with empty arrays of its own | not executed | Documents.SharedDefaultsLeak | Documents.NewUserFirstAdd |
