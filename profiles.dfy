/** One user's profile `{xp, level, tasks, history}` and the `add`, `done`, `list`,
    `history` and `status` commands over it. The commands are first specified as
    functions on a profile value (`ProfileState`); the class `Profile` is the object
    the handlers update in place, and its methods are proved to do what those
    functions say. */
module Profiles {
  import opened Tasks

  /** A stored profile as a value. `tasks` is `None` for a stored record that has no
      task array; the handlers then throw on `profile.tasks` before saving anything.
      A stored record without `history` reads as an empty history (`history || []`). */
  datatype ProfileState = ProfileState(xp: int, level: int, tasks: Option<seq<Task>>, history: seq<HistoryEntry>)

  /** The record a user without a profile gets: xp 0, level 1, no tasks, no history. */
  const FreshProfile := ProfileState(0, 1, Some([]), [])

  /** The reward of a task added without an xp option. */
  const DefaultXp := 10

  /** The result of one command, with the profile it leaves behind. */
  datatype Step<O> = Step(outcome: O, after: ProfileState)

  /** `add`: the task got the id; the xp was not positive; or the stored profile has no
      task array, so the handler throws. */
  datatype AddOutcome = Added(id: int) | XpNotPositive | AddThrows

  /** `done`: the task with that id was completed and earned that xp; no task has the
      id; the task was done already; or the stored profile has no task array. */
  datatype DoneOutcome = Completed(id: int, xp: int) | TaskNotFound | AlreadyDone | DoneThrows

  /** The reward an `add` asks for: the xp option, 10 when it is absent. */
  function RequestedXp(xpArg: Option<int>): int
  {
    if xpArg.Some? then xpArg.value else DefaultXp
  }

  /** The `add` command on a profile value. */
  function AddTask(s: ProfileState, text: string, xpArg: Option<int>): (r: Step<AddOutcome>)
    ensures r.after.xp == s.xp && r.after.level == s.level && r.after.history == s.history
    ensures r.outcome == XpNotPositive <==> RequestedXp(xpArg) <= 0
    ensures r.outcome == AddThrows <==> RequestedXp(xpArg) > 0 && s.tasks.None?
    ensures !r.outcome.Added? ==> r.after == s
    ensures r.outcome.Added? ==>
              var old_ := s.tasks.value;
              var id := r.outcome.id;
              && r.after.tasks == Some(old_ + [Task(id, text, RequestedXp(xpArg), false, None)])
              && (forall i :: 0 <= i < |old_| ==> old_[i].id < id)
              && (old_ == [] ==> id == 1)
              && (old_ != [] ==> exists i :: 0 <= i < |old_| && old_[i].id == id - 1)
  {
    var xp := RequestedXp(xpArg);
    if xp <= 0 then Step(XpNotPositive, s)
    else if s.tasks.None? then Step(AddThrows, s)
    else
      var id := NextId(s.tasks.value);
      Step(Added(id), s.(tasks := Some(s.tasks.value + [Task(id, text, xp, false, None)])))
  }

  /** The `done` command on a profile value; `completedAt` is the completion timestamp. */
  function CompleteTask(s: ProfileState, id: int, completedAt: string): (r: Step<DoneOutcome>)
    ensures r.outcome == DoneThrows <==> s.tasks.None?
    ensures r.outcome == TaskNotFound <==>
              s.tasks.Some? && forall j :: 0 <= j < |s.tasks.value| ==> s.tasks.value[j].id != id
    ensures r.outcome == AlreadyDone <==>
              s.tasks.Some? && var k := FindTask(s.tasks.value, id); k.Some? && s.tasks.value[k.value].done
    ensures !r.outcome.Completed? ==> r.after == s
    ensures r.outcome.Completed? ==>
              var ts := s.tasks.value;
              var k := FindTask(ts, id).value;
              var t := ts[k];
              && !t.done && r.outcome == Completed(id, t.xp)
              && r.after.tasks == Some(ts[k := t.(done := true)])
              && r.after.xp == s.xp + t.xp
              && r.after.level == CalculateLevel(r.after.xp)
              && r.after.history == PushHistory(s.history, HistoryEntry(t.id, t.text, t.xp, completedAt))
  {
    if s.tasks.None? then Step(DoneThrows, s)
    else
      match FindTask(s.tasks.value, id)
      case None => Step(TaskNotFound, s)
      case Some(k) =>
        var t := s.tasks.value[k];
        if t.done then Step(AlreadyDone, s)
        else
          var xp := s.xp + t.xp;
          Step(Completed(t.id, t.xp),
               ProfileState(xp, CalculateLevel(xp), Some(s.tasks.value[k := t.(done := true)]),
                            PushHistory(s.history, HistoryEntry(t.id, t.text, t.xp, completedAt))))
  }

  /** What every profile the bot creates and keeps satisfies: it has a task array, ids
      increase along it, every reward is positive, the xp is exactly what the done tasks
      are worth (each completion credited once), the level follows the xp, and the
      history holds at most 100 entries. */
  predicate WellFormed(s: ProfileState)
  {
    && s.tasks.Some?
    && IdsIncreasing(s.tasks.value)
    && (forall i :: 0 <= i < |s.tasks.value| ==> s.tasks.value[i].xp > 0)
    && s.xp == DoneXp(s.tasks.value)
    && 0 <= s.xp
    && s.level == CalculateLevel(s.xp)
    && |s.history| <= HistoryCap
  }

  lemma FreshProfileWellFormed()
    ensures WellFormed(FreshProfile)
  {
  }

  /** `add` keeps a profile well formed. */
  lemma AddPreservesWellFormed(s: ProfileState, text: string, xpArg: Option<int>)
    requires WellFormed(s)
    ensures WellFormed(AddTask(s, text, xpArg).after)
  {
    var r := AddTask(s, text, xpArg);
    if r.outcome.Added? {
      var ts := s.tasks.value;
      var t := Task(r.outcome.id, text, RequestedXp(xpArg), false, None);
      AppendKeepsWellFormed(s, t);
      assert r.after == s.(tasks := Some(ts + [t]));
    }
  }

  /** Appending a pending task with a positive reward and an id above all others keeps
      a profile well formed. */
  lemma AppendKeepsWellFormed(s: ProfileState, t: Task)
    requires WellFormed(s) && !t.done && t.xp > 0
    requires forall i :: 0 <= i < |s.tasks.value| ==> s.tasks.value[i].id < t.id
    ensures WellFormed(s.(tasks := Some(s.tasks.value + [t])))
  {
    var ts := s.tasks.value;
    IncreasingAppend(ts, [t]);
    DoneXpAppendPending(ts, [t]);
    assert forall i :: 0 <= i < |ts + [t]| ==> (ts + [t])[i].xp > 0 by {
      forall i | 0 <= i < |ts + [t]| ensures (ts + [t])[i].xp > 0 {
        if i < |ts| { assert (ts + [t])[i] == ts[i]; }
      }
    }
  }

  /** A successful `done` keeps a profile well formed, raises the xp by the task's
      positive reward, never lowers the level, and never clears a done flag. */
  lemma CompletePreservesWellFormed(s: ProfileState, id: int, completedAt: string)
    requires WellFormed(s)
    ensures var r := CompleteTask(s, id, completedAt);
            && WellFormed(r.after)
            && r.after.xp >= s.xp && r.after.level >= s.level
            && (r.outcome.Completed? ==> r.after.xp > s.xp)
            && |r.after.tasks.value| == |s.tasks.value|
            && forall i :: 0 <= i < |s.tasks.value| && s.tasks.value[i].done ==> r.after.tasks.value[i].done
  {
    var r := CompleteTask(s, id, completedAt);
    if r.outcome.Completed? {
      var ts := s.tasks.value;
      var k := FindTask(ts, id).value;
      DoneXpMarkDone(ts, k);
      var ts' := r.after.tasks.value;
      assert forall i :: 0 <= i < |ts| ==> ts'[i].id == ts[i].id && ts'[i].xp == ts[i].xp;
    }
  }

  /** A task completed once cannot be completed again: the second `done` with the same
      id is rejected and changes nothing. */
  lemma CompleteTwiceRejected(s: ProfileState, id: int, at1: string, at2: string)
    requires CompleteTask(s, id, at1).outcome.Completed?
    ensures var once := CompleteTask(s, id, at1).after;
            var twice := CompleteTask(once, id, at2);
            twice.outcome == AlreadyDone && twice.after == once
  {
    var ts := s.tasks.value;
    var ts' := CompleteTask(s, id, at1).after.tasks.value;
    FindTaskSameIds(ts, ts', id);
  }

  /** On a well-formed profile, `add` with a positive reward followed by `done` with the
      new id completes exactly that task: the xp grows by the reward, the level follows
      it, and the history starts with the new task. */
  lemma AddThenComplete(s: ProfileState, text: string, xp: int, completedAt: string)
    requires WellFormed(s) && xp > 0
    ensures var a := AddTask(s, text, Some(xp));
            a.outcome.Added? &&
            var d := CompleteTask(a.after, a.outcome.id, completedAt);
            && d.outcome == Completed(a.outcome.id, xp)
            && d.after.xp == s.xp + xp
            && d.after.level == CalculateLevel(s.xp + xp)
            && d.after.history[0] == HistoryEntry(a.outcome.id, text, xp, completedAt)
  {
    var a := AddTask(s, text, Some(xp));
    var ts := s.tasks.value;
    var ts' := a.after.tasks.value;
    var k := FindTask(ts', a.outcome.id);
    assert ts'[|ts|].id == a.outcome.id;
    assert k.Some? && k.value == |ts|;
  }

  /** A fresh profile, `add "wash dishes" 20`, `done 1`, `add "x" 150`, `done 2`. */
  lemma ScenarioTwoTasks(at1: string, at2: string)
    ensures var a1 := AddTask(FreshProfile, "wash dishes", Some(20));
            var d1 := CompleteTask(a1.after, 1, at1);
            var a2 := AddTask(d1.after, "x", Some(150));
            var d2 := CompleteTask(a2.after, 2, at2);
            && a1.outcome == Added(1)
            && d1.outcome == Completed(1, 20) && d1.after.xp == 20 && d1.after.level == 1
            && |d1.after.history| == 1
            && a2.outcome == Added(2)
            && d2.outcome == Completed(2, 150) && d2.after.xp == 170 && d2.after.level == 2
            && |d2.after.history| == 2
  {
    var a1 := AddTask(FreshProfile, "wash dishes", Some(20));
    FreshProfileWellFormed();
    AddThenComplete(FreshProfile, "wash dishes", 20, at1);
    var d1 := CompleteTask(a1.after, 1, at1);
    AddPreservesWellFormed(FreshProfile, "wash dishes", Some(20));
    CompletePreservesWellFormed(a1.after, 1, at1);
    NextIdOfIncreasing(d1.after.tasks.value);
    AddThenComplete(d1.after, "x", 150, at2);
  }

  /** The `list` command on a profile value: the tasks not yet done, in list order;
      `None` when the stored profile has no task array and the handler throws. */
  function ListTasks(s: ProfileState): (r: Option<seq<Task>>)
    ensures r.None? <==> s.tasks.None?
    ensures r.Some? ==> r.value == ActiveTasks(s.tasks.value)
    ensures r.Some? ==> forall t :: t in r.value <==> t in s.tasks.value && !t.done
  {
    if s.tasks.None? then None else Some(ActiveTasks(s.tasks.value))
  }

  /** After a successful `add`, `list` shows the earlier active tasks followed by the
      new task. */
  lemma {:induction false} ListAfterAdd(s: ProfileState, text: string, xpArg: Option<int>)
    requires AddTask(s, text, xpArg).outcome.Added?
    ensures var a := AddTask(s, text, xpArg);
            ListTasks(a.after) == Some(ListTasks(s).value + [Task(a.outcome.id, text, RequestedXp(xpArg), false, None)])
  {
    var a := AddTask(s, text, xpArg);
    var t := Task(a.outcome.id, text, RequestedXp(xpArg), false, None);
    assert a.after.tasks.value == s.tasks.value + [t];
    ActiveTasksAppend(s.tasks.value, [t]);
    ActiveTasksOfPending([t]);
  }

  /** One line of the `history` reply: its rank (1 for the newest), the text and xp. */
  datatype HistoryLine = HistoryLine(rank: int, text: string, xp: int)

  /** The `history` reply: the first min(length, 100) entries, numbered from 1. */
  function HistoryView(history: seq<HistoryEntry>): (lines: seq<HistoryLine>)
    ensures |lines| == Min(|history|, HistoryCap)
    ensures forall i :: 0 <= i < |lines| ==> lines[i] == HistoryLine(i + 1, history[i].text, history[i].xp)
  {
    if history == [] then []
    else
      var shown := history[..Min(|history|, HistoryCap)];
      Ranked(shown, 1)
  }

  function Ranked(entries: seq<HistoryEntry>, first: int): (lines: seq<HistoryLine>)
    ensures |lines| == |entries|
    ensures forall i :: 0 <= i < |lines| ==> lines[i] == HistoryLine(first + i, entries[i].text, entries[i].xp)
  {
    if entries == [] then []
    else [HistoryLine(first, entries[0].text, entries[0].xp)] + Ranked(entries[1..], first + 1)
  }

  /** Right after a `done`, the `history` reply starts with the completed task ranked 1,
      and on a well-formed profile it shows the whole history. */
  lemma HistoryViewAfterComplete(s: ProfileState, id: int, completedAt: string)
    requires WellFormed(s) && CompleteTask(s, id, completedAt).outcome.Completed?
    ensures var after := CompleteTask(s, id, completedAt).after;
            var lines := HistoryView(after.history);
            var t := s.tasks.value[FindTask(s.tasks.value, id).value];
            && |lines| == |after.history|
            && lines[0] == HistoryLine(1, t.text, t.xp)
  {
    CompletePreservesWellFormed(s, id, completedAt);
  }

  /** Slots in the `status` progress bar. */
  const BarSize: nat := 10

  /** `Math.round(slots * part / whole)` in exact arithmetic, halves rounded up. */
  function RoundedShare(part: nat, whole: nat, slots: nat): (n: nat)
    requires 0 < whole && part <= whole
    ensures n <= slots
    ensures 2 * whole * n <= 2 * slots * part + whole < 2 * whole * (n + 1)
  {
    var a := 2 * slots * part + whole;
    var b := 2 * whole;
    DivBounds(a, b);
    var n := a / b;
    ShareBelowSlots(part, whole, slots);
    MulCancelLess(b, n, slots + 1);
    n
  }

  /** The quotient of Euclidean division brackets the dividend. */
  lemma DivBounds(a: nat, b: int)
    requires b > 0
    ensures a / b >= 0
    ensures b * (a / b) <= a < b * (a / b + 1)
  {
    assert a == b * (a / b) + a % b;
    assert b * (a / b + 1) == b * (a / b) + b;
  }

  lemma ShareBelowSlots(part: nat, whole: nat, slots: nat)
    requires 0 < whole && part <= whole
    ensures 2 * slots * part + whole < 2 * whole * (slots + 1)
  {
    assert (2 * slots) * part <= (2 * slots) * whole;
    assert 2 * whole * (slots + 1) == 2 * slots * whole + 2 * whole;
  }

  lemma MulCancelLess(b: int, x: int, y: int)
    requires b > 0 && b * x < b * y
    ensures x < y
  {
    assert b * (y - x) == b * y - b * x;
  }

  function Repeat(c: char, n: nat): (s: string)
    ensures |s| == n && forall i :: 0 <= i < n ==> s[i] == c
  {
    if n == 0 then [] else [c] + Repeat(c, n - 1)
  }

  /** The progress bar: `filled` full slots, then empty ones, 10 slots in all. */
  function Bar(filled: nat): (bar: string)
    requires filled <= BarSize
    ensures |bar| == BarSize
    ensures forall i :: 0 <= i < BarSize ==> bar[i] == (if i < filled then '█' else '░')
  {
    Repeat('█', filled) + Repeat('░', BarSize - filled)
  }

  /** What the `status` panel shows. */
  datatype StatusPanel = StatusPanel(level: int, xp: int, nextLevelXp: int, filled: nat, bar: string, completed: nat, total: nat)

  /** The `status` command on a profile value; `None` when the stored profile has no task
      array and the handler throws. */
  function Status(s: ProfileState): (r: Option<StatusPanel>)
    requires s.xp >= 0 && s.level >= 1
    ensures r.None? <==> s.tasks.None?
    ensures r.Some? ==>
              var p := r.value;
              var ts := s.tasks.value;
              var capped := Min(s.xp, p.nextLevelXp);
              && p.level == s.level && p.xp == s.xp
              && p.nextLevelXp == s.level * XpPerLevel
              && p.total == |ts| && p.completed == CountDone(ts)
              && p.completed <= p.total
              && p.completed + |ActiveTasks(ts)| == p.total
              && p.filled <= BarSize
              && 2 * p.nextLevelXp * p.filled <= 2 * BarSize * capped + p.nextLevelXp < 2 * p.nextLevelXp * (p.filled + 1)
              && |p.bar| == BarSize
              && forall i :: 0 <= i < BarSize ==> (p.bar[i] == '█' <==> i < p.filled)
  {
    if s.tasks.None? then None
    else
      var next := s.level * XpPerLevel;
      var filled := RoundedShare(Min(s.xp, next), next, BarSize);
      Some(StatusPanel(s.level, s.xp, next, filled, Bar(filled), CountDone(s.tasks.value), |s.tasks.value|))
  }

  /** On a well-formed profile the xp is always below the next level's mark, so the bar
      is never full past rounding: `Math.min(..., 1)` never applies. */
  lemma StatusOfWellFormed(s: ProfileState)
    requires WellFormed(s)
    ensures Status(s).Some? && Status(s).value.xp < Status(s).value.nextLevelXp
  {
  }

  /** The object a handler gets from `getUserProfile` and updates in place. */
  class Profile {
    var xp: int
    var level: int
    var tasks: Option<seq<Task>>
    var history: seq<HistoryEntry>

    function State(): ProfileState
      reads this
    {
      ProfileState(xp, level, tasks, history)
    }

    /** A fresh empty profile with arrays of its own. The source builds it as
        `{ ...DEFAULT_PROFILE }`, a shallow copy whose arrays are those of
        `DEFAULT_PROFILE`; see `Documents.NewProfileAsWritten`. */
    constructor ()
      ensures State() == FreshProfile
    {
      xp, level, tasks, history := 0, 1, Some([]), [];
    }

    /** The `add` branch: reject a non-positive reward, else push a new task with the
        next id. */
    method Add(description: string, xpArg: Option<int>) returns (outcome: AddOutcome)
      modifies this
      ensures outcome == AddTask(old(State()), description, xpArg).outcome
      ensures State() == AddTask(old(State()), description, xpArg).after
    {
      var exp := if xpArg.Some? then xpArg.value else DefaultXp;
      if exp <= 0 {
        return XpNotPositive;
      }
      if tasks.None? {
        return AddThrows;
      }
      var nextId := NextId(tasks.value);
      tasks := Some(tasks.value + [Task(nextId, description, exp, false, None)]);
      outcome := Added(nextId);
    }

    /** The `done` branch: find the task, refuse a missing or completed one, else flag it
        done, credit its xp, recompute the level and record it at the head of the
        history, keeping 100 entries. */
    method Done(taskId: int, completedAt: string) returns (outcome: DoneOutcome)
      modifies this
      ensures outcome == CompleteTask(old(State()), taskId, completedAt).outcome
      ensures State() == CompleteTask(old(State()), taskId, completedAt).after
    {
      if tasks.None? {
        return DoneThrows;
      }
      var found := FindTask(tasks.value, taskId);
      if found.None? {
        return TaskNotFound;
      }
      var k := found.value;
      var task := tasks.value[k];
      if task.done {
        return AlreadyDone;
      }
      tasks := Some(tasks.value[k := task.(done := true)]);
      xp := xp + task.xp;
      level := CalculateLevel(xp);
      history := [HistoryEntry(task.id, task.text, task.xp, completedAt)] + history;
      history := history[..Min(|history|, HistoryCap)];
      outcome := Completed(task.id, task.xp);
    }
  }
}
