/** The stored document `{users, meta}`: lazy profile creation, the `add` and `done`
    handlers on it, and the once-per-date daily task injector. */
module Documents {
  import opened Tasks
  import opened Profiles
  import opened DailyTasks

  type UserId = string

  /** The document as a value. A user entry is `None` when the stored value is falsy
      (`null`), which `getUserProfile` replaces and the injector skips.
      `lastDailyDate` is `None` when `meta` or its `lastDailyDate` is absent. */
  datatype DocState = DocState(users: map<UserId, Option<ProfileState>>, lastDailyDate: Option<string>)

  /** The profile a handler works on for `userId`: the stored one, or a fresh one.
      This is the corrected creation: the source's shallow copy of `DEFAULT_PROFILE`
      makes all new profiles of a process share its arrays, so only the first of them
      is sure to start empty; see `NewProfileAsWritten`. */
  function ProfileOf(d: DocState, userId: UserId): (s: ProfileState)
    ensures userId !in d.users || d.users[userId].None? ==> s == FreshProfile
    ensures userId in d.users && d.users[userId].Some? ==> s == d.users[userId].value
  {
    if userId in d.users && d.users[userId].Some? then d.users[userId].value else FreshProfile
  }

  /** The document with `userId`'s profile set to `s`. */
  function Put(d: DocState, userId: UserId, s: ProfileState): DocState
  {
    d.(users := d.users[userId := Some(s)])
  }

  /** Every profile stored in the document is well formed. */
  predicate AllWellFormed(d: DocState)
  {
    forall u :: u in d.users && d.users[u].Some? ==> WellFormed(d.users[u].value)
  }

  /** A user the document does not hold yet, or holds as a falsy entry, gets a fresh
      profile, whose first task with a positive reward gets id 1 and is then its only
      active task. */
  lemma NewUserFirstAdd(d: DocState, userId: UserId, text: string, xp: int)
    requires (userId !in d.users || d.users[userId].None?) && xp > 0
    ensures var a := AddTask(ProfileOf(d, userId), text, Some(xp));
            && a.outcome == Added(1)
            && ActiveTasks(a.after.tasks.value) == [Task(1, text, xp, false, None)]
  {
    var t := Task(1, text, xp, false, None);
    assert AddTask(FreshProfile, text, Some(xp)).after.tasks.value == [] + [t];
    ActiveTasksOfPending([t]);
  }

  /** A profile after the daily run: the batch appended when it has a task array. */
  function InjectState(s: ProfileState, today: string): (r: ProfileState)
    ensures r.xp == s.xp && r.level == s.level && r.history == s.history
    ensures r.tasks == (if s.tasks.Some? then Some(InjectDaily(s.tasks.value, today)) else None)
  {
    if s.tasks.Some? then s.(tasks := Some(InjectDaily(s.tasks.value, today))) else s
  }

  /** The entry of one user after the daily run: a falsy entry is left as it is. */
  function InjectInto(entry: Option<ProfileState>, today: string): (r: Option<ProfileState>)
    ensures entry.None? ==> r.None?
    ensures entry.Some? ==> r == Some(InjectState(entry.value, today))
  {
    if entry.Some? then Some(InjectState(entry.value, today)) else None
  }

  /** `runDailyTasks` on a document: nothing when the daily channel is not configured or
      the run already happened for `today`; otherwise the date is recorded and every
      profile with a task array gets the daily batch. */
  function RunDaily(d: DocState, channelConfigured: bool, today: string): (r: DocState)
    ensures !channelConfigured || d.lastDailyDate == Some(today) ==> r == d
    ensures channelConfigured ==> r.lastDailyDate == Some(today)
    ensures r.users.Keys == d.users.Keys
    ensures forall u :: u in d.users && (d.users[u].None? || d.users[u].value.tasks.None?) ==>
              r.users[u] == d.users[u]
    ensures channelConfigured && d.lastDailyDate != Some(today) ==>
              forall u :: u in d.users && d.users[u].Some? && d.users[u].value.tasks.Some? ==>
                var s := d.users[u].value;
                && r.users[u].Some?
                && r.users[u].value.xp == s.xp && r.users[u].value.level == s.level
                && r.users[u].value.history == s.history
                && r.users[u].value.tasks == Some(InjectDaily(s.tasks.value, today))
  {
    if !channelConfigured || d.lastDailyDate == Some(today) then d
    else DocState(map u | u in d.users :: InjectInto(d.users[u], today), Some(today))
  }

  /** Running the injector twice with the same date key is the same as running it once. */
  lemma RunDailyIdempotent(d: DocState, channelConfigured: bool, today: string)
    ensures RunDaily(RunDaily(d, channelConfigured, today), channelConfigured, today)
         == RunDaily(d, channelConfigured, today)
  {
  }

  /** The daily batch keeps one profile well formed. */
  lemma InjectIntoWellFormed(s: ProfileState, today: string)
    requires WellFormed(s)
    ensures InjectInto(Some(s), today).Some? && WellFormed(InjectInto(Some(s), today).value)
  {
    var ts := s.tasks.value;
    InjectDailyIdsIncreasing(ts, today);
    InjectDailyRewardsPositive(ts, today);
    InjectDailyPending(ts, today);
    var a := InjectInto(Some(s), today).value;
    assert a.tasks.value == InjectDaily(ts, today);
    assert a.xp == DoneXp(a.tasks.value);
  }

  /** The injector keeps every stored profile well formed. */
  lemma RunDailyPreservesWellFormed(d: DocState, channelConfigured: bool, today: string)
    requires AllWellFormed(d)
    ensures AllWellFormed(RunDaily(d, channelConfigured, today))
  {
    var r := RunDaily(d, channelConfigured, today);
    forall u | u in r.users && r.users[u].Some? ensures WellFormed(r.users[u].value) {
      if channelConfigured && d.lastDailyDate != Some(today) {
        InjectIntoWellFormed(d.users[u].value, today);
        assert r.users[u] == InjectInto(d.users[u], today);
      }
    }
  }

  /** A successful `add` or `done` keeps every stored profile well formed. */
  lemma HandlersPreserveWellFormed(d: DocState, userId: UserId, text: string, xpArg: Option<int>,
                                   id: int, completedAt: string)
    requires AllWellFormed(d)
    ensures AllWellFormed(Put(d, userId, AddTask(ProfileOf(d, userId), text, xpArg).after))
    ensures AllWellFormed(Put(d, userId, CompleteTask(ProfileOf(d, userId), id, completedAt).after))
  {
    var s := ProfileOf(d, userId);
    assert WellFormed(s) by {
      if userId !in d.users || d.users[userId].None? { FreshProfileWellFormed(); }
    }
    AddPreservesWellFormed(s, text, xpArg);
    CompletePreservesWellFormed(s, id, completedAt);
  }

  /** The arrays of the process-wide `DEFAULT_PROFILE` as they currently stand. */
  datatype SharedDefaults = SharedDefaults(tasks: seq<Task>, history: seq<HistoryEntry>)

  /** The profile `getUserProfile` creates, as written: `{ ...DEFAULT_PROFILE }` copies
      only the top level, so the new profile's `tasks` and `history` are the very arrays
      of `DEFAULT_PROFILE`, with whatever earlier new profiles of the same process pushed
      onto them. */
  function NewProfileAsWritten(shared: SharedDefaults): (s: ProfileState)
    ensures s.xp == 0 && s.level == 1
    ensures s.tasks == Some(shared.tasks) && s.history == shared.history
  {
    ProfileState(0, 1, Some(shared.tasks), shared.history)
  }

  /** `add` on a profile made by `NewProfileAsWritten`: since `profile.tasks.push`
      mutates the shared array, `DEFAULT_PROFILE.tasks` afterwards is the new profile's
      task list. */
  function AddToNewProfileAsWritten(shared: SharedDefaults, text: string, xpArg: Option<int>)
    : (r: (Step<AddOutcome>, SharedDefaults))
    ensures r.0 == AddTask(NewProfileAsWritten(shared), text, xpArg)
    ensures r.1.tasks == r.0.after.tasks.value && r.1.history == shared.history
  {
    var step := AddTask(NewProfileAsWritten(shared), text, xpArg);
    (step, SharedDefaults(step.after.tasks.value, shared.history))
  }

  /** Two users new to the stored document, in one process: after the first adds a task,
      the second user's "new" profile already lists the first user's task, and the
      second user's first task gets id 2. `Document.GetUserProfile` instead gives every
      new user a fresh profile (see `NewUserFirstAdd`). */
  lemma SharedDefaultsLeak()
    ensures var (first, shared) := AddToNewProfileAsWritten(SharedDefaults([], []), "wash dishes", None);
            var second := NewProfileAsWritten(shared);
            && first.outcome == Added(1)
            && second != FreshProfile
            && ActiveTasks(second.tasks.value) == [Task(1, "wash dishes", DefaultXp, false, None)]
            && AddTask(second, "x", None).outcome == Added(2)
  {
    var t := Task(1, "wash dishes", DefaultXp, false, None);
    var (first, shared) := AddToNewProfileAsWritten(SharedDefaults([], []), "wash dishes", None);
    assert shared.tasks == [] + [t];
    ActiveTasksOfPending([t]);
    NextIdOfIncreasing([t]);
  }

  /** The document a handler loads and updates in place. */
  class Document {
    var users: map<UserId, Profile?>
    var lastDailyDate: Option<string>

    /** Distinct users hold distinct profile objects, as in any parsed document. */
    ghost predicate Valid()
      reads this
    {
      forall u, v :: u in users && v in users && u != v && users[u] != null ==> users[u] != users[v]
    }

    ghost function ProfileObjects(): set<Profile>
      reads this
    {
      set p: Profile | p in users.Values
    }

    /** The document's current value. */
    ghost function Snapshot(): DocState
      reads this, ProfileObjects()
    {
      DocState(map u | u in users :: if users[u] == null then None else Some(users[u].State()), lastDailyDate)
    }

    /** The empty document `{users: {}, meta: {}}`. */
    constructor Empty()
      ensures Valid() && Snapshot() == DocState(map[], None)
    {
      users, lastDailyDate := map[], None;
    }

    /** `getUserProfile`: the stored profile of `userId`, or a fresh one stored for it
        when the entry is absent or falsy. The fresh profile has arrays of its own, the
        corrected creation; as written, the source's shallow copy of `DEFAULT_PROFILE`
        shares its arrays (see `NewProfileAsWritten`). */
    method GetUserProfile(userId: UserId) returns (p: Profile)
      requires Valid()
      modifies this
      ensures Valid() && lastDailyDate == old(lastDailyDate)
      ensures userId in users && users[userId] == p
      ensures old(userId in users && users[userId] != null) ==> users == old(users)
      ensures old(userId !in users || users[userId] == null) ==>
                fresh(p) && users == old(users)[userId := p] && p.State() == FreshProfile
      ensures Snapshot() == Put(old(Snapshot()), userId, ProfileOf(old(Snapshot()), userId))
    {
      if userId in users && users[userId] != null {
        p := users[userId];
        assert Snapshot().users == old(Snapshot()).users[userId := Some(p.State())];
      } else {
        p := new Profile();
        users := users[userId := p];
        assert Snapshot().users == old(Snapshot()).users[userId := Some(p.State())];
      }
    }

    /** The `add` handler on the loaded document: look up or create the caller's
        profile, then add the task. Writing the document back to disk, which the source
        does only when the task was added, is not part of this model. */
    method HandleAdd(userId: UserId, description: string, xpArg: Option<int>) returns (outcome: AddOutcome)
      requires Valid()
      modifies this, ProfileObjects()
      ensures Valid()
      ensures var step := AddTask(ProfileOf(old(Snapshot()), userId), description, xpArg);
              outcome == step.outcome && Snapshot() == Put(old(Snapshot()), userId, step.after)
    {
      var p := GetUserProfile(userId);
      outcome := AddAt(userId, description, xpArg);
      PutTwice(old(Snapshot()), userId, ProfileOf(old(Snapshot()), userId), p.State());
    }

    /** The step of the handler once the caller's profile is loaded. */
    method AddAt(userId: UserId, description: string, xpArg: Option<int>) returns (outcome: AddOutcome)
      requires Valid() && userId in users && users[userId] != null
      modifies users[userId]
      ensures var step := AddTask(old(users[userId].State()), description, xpArg);
              outcome == step.outcome && users[userId].State() == step.after
      ensures Snapshot() == Put(old(Snapshot()), userId, users[userId].State())
    {
      var p := users[userId];
      outcome := p.Add(description, xpArg);
      forall v | v in users && v != userId && users[v] != null
        ensures users[v].State() == old(users[v].State())
      {
        assert users[v] != p;
      }
      assert Snapshot().users == old(Snapshot()).users[userId := Some(p.State())];
    }

    /** The `done` handler on the loaded document: look up or create the caller's
        profile, then complete the task. Writing the document back to disk, which the
        source does only when the task was completed, is not part of this model. */
    method HandleDone(userId: UserId, taskId: int, completedAt: string) returns (outcome: DoneOutcome)
      requires Valid()
      modifies this, ProfileObjects()
      ensures Valid()
      ensures var step := CompleteTask(ProfileOf(old(Snapshot()), userId), taskId, completedAt);
              outcome == step.outcome && Snapshot() == Put(old(Snapshot()), userId, step.after)
    {
      var p := GetUserProfile(userId);
      outcome := DoneAt(userId, taskId, completedAt);
      PutTwice(old(Snapshot()), userId, ProfileOf(old(Snapshot()), userId), p.State());
    }

    /** The step of the handler once the caller's profile is loaded. */
    method DoneAt(userId: UserId, taskId: int, completedAt: string) returns (outcome: DoneOutcome)
      requires Valid() && userId in users && users[userId] != null
      modifies users[userId]
      ensures var step := CompleteTask(old(users[userId].State()), taskId, completedAt);
              outcome == step.outcome && users[userId].State() == step.after
      ensures Snapshot() == Put(old(Snapshot()), userId, users[userId].State())
    {
      var p := users[userId];
      outcome := p.Done(taskId, completedAt);
      forall v | v in users && v != userId && users[v] != null
        ensures users[v].State() == old(users[v].State())
      {
        assert users[v] != p;
      }
      assert Snapshot().users == old(Snapshot()).users[userId := Some(p.State())];
    }

    /** `runDailyTasks` on the loaded document, `today` being the date key. */
    method RunDailyTasks(channelConfigured: bool, today: string)
      requires Valid()
      modifies this, ProfileObjects()
      ensures Valid() && users == old(users)
      ensures Snapshot() == RunDaily(old(Snapshot()), channelConfigured, today)
    {
      if !channelConfigured {
        return;
      }
      if lastDailyDate == Some(today) {
        return;
      }
      lastDailyDate := Some(today);
      var pending := users.Keys;
      while pending != {}
        invariant pending <= users.Keys
        invariant users == old(users) && lastDailyDate == Some(today)
        invariant forall u :: u in users && users[u] != null ==>
                    users[u].State() == (if u in pending then old(users[u].State()) else InjectState(old(users[u].State()), today))
        decreases pending
      {
        var u :| u in pending;
        var profile := users[u];
        if profile != null && profile.tasks.Some? {
          AppendDailyBatch(profile, today);
        }
        forall v | v in users && v != u && users[v] != null
          ensures users[v].State() == (if v in pending - {u} then old(users[v].State()) else InjectState(old(users[v].State()), today))
        {
          assert users[v] != profile;
        }
        pending := pending - {u};
      }
      ghost var expected := RunDaily(old(Snapshot()), channelConfigured, today);
      assert Snapshot().users == expected.users;
    }
  }

  /** The inner loop of `runDailyTasks` on one profile with a task array: push one task
      per template, with ids counting up from the list's next id. */
  method AppendDailyBatch(profile: Profile, today: string)
    requires profile.tasks.Some?
    modifies profile
    ensures profile.State() == InjectState(old(profile.State()), today)
  {
    ghost var before := profile.tasks.value;
    var nextId := NextId(profile.tasks.value);
    var index := 0;
    assert before + DailyBatch(nextId, 0, today) == before;
    while index < |DailyTemplates|
      invariant 0 <= index <= |DailyTemplates|
      invariant profile.State() == old(profile.State()).(tasks := Some(before + DailyBatch(nextId, index, today)))
    {
      var template := DailyTemplates[index];
      profile.tasks := Some(profile.tasks.value + [Task(nextId + index, template.text, template.xp, false, Some(today))]);
      assert profile.tasks.value == before + (DailyBatch(nextId, index, today) + [DailyTask(nextId, index, today)]);
      index := index + 1;
    }
    InjectDailySplits(before, today);
  }

  /** Setting the same entry twice keeps only the second value. */
  lemma PutTwice(d: DocState, userId: UserId, s1: ProfileState, s2: ProfileState)
    ensures Put(Put(d, userId, s1), userId, s2) == Put(d, userId, s2)
  {
    assert Put(Put(d, userId, s1), userId, s2).users == Put(d, userId, s2).users;
  }
}
