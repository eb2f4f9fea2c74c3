/** Tasks of one user's list, the completion history, and the pure computations over
    them that the command handlers of index.js use: the level formula, the max+1 id
    rule, the `list` filter, the `status` counts, `find` by id, and the capped history. */
module Tasks {

  datatype Option<+T> = None | Some(value: T)

  /** One task. `dailyDate` is `Some(d)` for a task the daily injector appended on the
      date key `d` (the source's `daily: true, date: d`), and `None` for a task added by
      the `add` command. */
  datatype Task = Task(id: int, text: string, xp: int, done: bool, dailyDate: Option<string>)

  /** A completed task as recorded in the history: a copy of the task's id, text and
      reward taken when it was completed, so that later changes to the task do not
      alter it, and the completion timestamp (an opaque ISO-8601 string). */
  datatype HistoryEntry = HistoryEntry(id: int, text: string, xp: int, completedAt: string)

  /** The history keeps at most this many entries. */
  const HistoryCap: nat := 100

  /** XP per level in the level formula. */
  const XpPerLevel: nat := 100

  function Min(a: int, b: int): int
  {
    if a <= b then a else b
  }

  /** `Math.floor(xp / 100) + 1`. Dafny's `/` by a positive divisor rounds down, as
      Math.floor does, so this also holds for a negative stored xp. */
  function CalculateLevel(xp: int): (level: int)
    ensures 100 * (level - 1) <= xp < 100 * level
    ensures xp >= 0 ==> level >= 1
  {
    xp / XpPerLevel + 1
  }

  /** The largest id of a non-empty list, `Math.max(...tasks.map(t => t.id))`. */
  function MaxId(tasks: seq<Task>): (m: int)
    requires tasks != []
    ensures forall i :: 0 <= i < |tasks| ==> tasks[i].id <= m
    ensures exists i :: 0 <= i < |tasks| && tasks[i].id == m
  {
    var last := tasks[|tasks| - 1];
    if |tasks| == 1 then last.id
    else
      var m := MaxId(tasks[..|tasks| - 1]);
      if last.id >= m then last.id else m
  }

  /** The id the next task gets: 1 for an empty list, otherwise one more than the
      largest id present. */
  function NextId(tasks: seq<Task>): (id: int)
    ensures forall i :: 0 <= i < |tasks| ==> tasks[i].id < id
    ensures tasks == [] ==> id == 1
    ensures tasks != [] ==> exists i :: 0 <= i < |tasks| && tasks[i].id == id - 1
  {
    if |tasks| > 0 then MaxId(tasks) + 1 else 1
  }

  /** Ids strictly increase along the list, so they are also pairwise distinct. */
  predicate IdsIncreasing(tasks: seq<Task>)
  {
    forall i, j :: 0 <= i < j < |tasks| ==> tasks[i].id < tasks[j].id
  }

  /** On a list whose ids increase, the next id is the last task's id plus one. */
  lemma NextIdOfIncreasing(tasks: seq<Task>)
    requires IdsIncreasing(tasks) && tasks != []
    ensures NextId(tasks) == tasks[|tasks| - 1].id + 1
  {
    var i :| 0 <= i < |tasks| && tasks[i].id == NextId(tasks) - 1;
    if i < |tasks| - 1 {
      assert tasks[i].id < tasks[|tasks| - 1].id;
    }
  }

  /** Appending tasks whose ids are above every present id, in increasing order,
      keeps the ids increasing. */
  lemma IncreasingAppend(tasks: seq<Task>, extra: seq<Task>)
    requires IdsIncreasing(tasks) && IdsIncreasing(extra)
    requires forall i, j :: 0 <= i < |tasks| && 0 <= j < |extra| ==> tasks[i].id < extra[j].id
    ensures IdsIncreasing(tasks + extra)
  {
    var all := tasks + extra;
    forall i, j | 0 <= i < j < |all| ensures all[i].id < all[j].id {
      if j < |tasks| {
        assert all[i] == tasks[i] && all[j] == tasks[j];
      } else if i < |tasks| {
        assert all[i] == tasks[i] && all[j] == extra[j - |tasks|];
      } else {
        assert all[i] == extra[i - |tasks|] && all[j] == extra[j - |tasks|];
      }
    }
  }

  /** The tasks not yet done, in list order: `tasks.filter(task => !task.done)`. */
  function ActiveTasks(tasks: seq<Task>): (active: seq<Task>)
    ensures forall t :: t in active <==> t in tasks && !t.done
    ensures |active| <= |tasks|
  {
    if tasks == [] then []
    else
      var last := tasks[|tasks| - 1];
      assert tasks == tasks[..|tasks| - 1] + [last];
      ActiveTasks(tasks[..|tasks| - 1]) + (if last.done then [] else [last])
  }

  /** Filtering distributes over concatenation: the filter keeps the order of the list. */
  lemma {:induction false} ActiveTasksAppend(a: seq<Task>, b: seq<Task>)
    ensures ActiveTasks(a + b) == ActiveTasks(a) + ActiveTasks(b)
  {
    if b == [] {
      assert a + b == a;
    } else {
      var init := b[..|b| - 1];
      var last := b[|b| - 1];
      var tail := if last.done then [] else [last];
      assert (a + b)[..|a + b| - 1] == a + init;
      assert (a + b)[|a + b| - 1] == last;
      assert b[..|b| - 1] == init;
      assert ActiveTasks(a + b) == ActiveTasks(a + init) + tail;
      assert ActiveTasks(b) == ActiveTasks(init) + tail;
      ActiveTasksAppend(a, init);
    }
  }

  /** A list with no done task is its own filter. */
  lemma {:induction false} ActiveTasksOfPending(tasks: seq<Task>)
    requires forall i :: 0 <= i < |tasks| ==> !tasks[i].done
    ensures ActiveTasks(tasks) == tasks
  {
    if tasks != [] {
      var init := tasks[..|tasks| - 1];
      ActiveTasksOfPending(init);
      assert init + [tasks[|tasks| - 1]] == tasks;
    }
  }

  /** The number of tasks marked done: `tasks.filter(t => t.done).length`. */
  function CountDone(tasks: seq<Task>): (n: nat)
    ensures n + |ActiveTasks(tasks)| == |tasks|
  {
    if tasks == [] then 0
    else CountDone(tasks[..|tasks| - 1]) + (if tasks[|tasks| - 1].done then 1 else 0)
  }

  /** Index of the first task with the given id, as `tasks.find(t => t.id === id)`
      picks it; `None` when no task has that id. */
  function FindTask(tasks: seq<Task>, id: int): (k: Option<nat>)
    ensures k.Some? ==> k.value < |tasks| && tasks[k.value].id == id
    ensures k.Some? ==> forall j :: 0 <= j < k.value ==> tasks[j].id != id
    ensures k.None? ==> forall j :: 0 <= j < |tasks| ==> tasks[j].id != id
  {
    if tasks == [] then None
    else if tasks[0].id == id then Some(0)
    else
      match FindTask(tasks[1..], id)
      case None => None
      case Some(k) => Some(k + 1)
  }

  /** `find` looks only at ids: two lists with the same ids at the same positions give
      the same answer. */
  lemma {:induction false} FindTaskSameIds(a: seq<Task>, b: seq<Task>, id: int)
    requires |a| == |b|
    requires forall i :: 0 <= i < |a| ==> a[i].id == b[i].id
    ensures FindTask(a, id) == FindTask(b, id)
  {
    if a != [] && a[0].id != id {
      FindTaskSameIds(a[1..], b[1..], id);
    }
  }

  /** The XP the done tasks of a list are worth. */
  function DoneXp(tasks: seq<Task>): int
  {
    if tasks == [] then 0
    else DoneXp(tasks[..|tasks| - 1]) + (if tasks[|tasks| - 1].done then tasks[|tasks| - 1].xp else 0)
  }

  /** Appending tasks that are not done adds nothing to the XP of the done tasks. */
  lemma {:induction false} DoneXpAppendPending(tasks: seq<Task>, extra: seq<Task>)
    requires forall i :: 0 <= i < |extra| ==> !extra[i].done
    ensures DoneXp(tasks + extra) == DoneXp(tasks)
  {
    if extra == [] {
      assert tasks + extra == tasks;
    } else {
      var init := extra[..|extra| - 1];
      assert (tasks + extra)[..|tasks + extra| - 1] == tasks + init;
      DoneXpAppendPending(tasks, init);
    }
  }

  /** Marking one pending task done adds exactly its reward to the XP of the done tasks. */
  lemma {:induction false} DoneXpMarkDone(tasks: seq<Task>, k: nat)
    requires k < |tasks| && !tasks[k].done
    ensures DoneXp(tasks[k := tasks[k].(done := true)]) == DoneXp(tasks) + tasks[k].xp
  {
    var updated := tasks[k := tasks[k].(done := true)];
    var n := |tasks|;
    if k == n - 1 {
      assert updated[..n - 1] == tasks[..n - 1];
    } else {
      assert updated[..n - 1] == tasks[..n - 1][k := tasks[k].(done := true)];
      DoneXpMarkDone(tasks[..n - 1], k);
    }
  }

  /** What the `done` command does to the history: `history.unshift(entry)` and then
      `history.slice(0, 100)`. The entry goes first, the earlier entries follow in their
      order, and only the 100 most recent are kept. */
  function PushHistory(history: seq<HistoryEntry>, entry: HistoryEntry): (r: seq<HistoryEntry>)
    ensures |r| == Min(|history| + 1, HistoryCap)
    ensures r[0] == entry
    ensures forall i :: 1 <= i < |r| ==> r[i] == history[i - 1]
  {
    ([entry] + history)[..Min(|history| + 1, HistoryCap)]
  }

  /** The history after a series of completions, oldest completion first. */
  function PushAll(history: seq<HistoryEntry>, completions: seq<HistoryEntry>): seq<HistoryEntry>
  {
    if completions == [] then history
    else PushHistory(PushAll(history, completions[..|completions| - 1]), completions[|completions| - 1])
  }

  function Reversed<T>(s: seq<T>): (r: seq<T>)
    ensures |r| == |s|
    ensures forall i :: 0 <= i < |s| ==> r[i] == s[|s| - 1 - i]
  {
    if s == [] then [] else [s[|s| - 1]] + Reversed(s[..|s| - 1])
  }

  /** The history is the most recent completions, newest first, in front of what was
      there before, cut to the 100 most recent. */
  lemma {:induction false} PushAllNewestFirst(history: seq<HistoryEntry>, completions: seq<HistoryEntry>)
    requires |history| <= HistoryCap
    ensures PushAll(history, completions)
         == (Reversed(completions) + history)[..Min(|completions| + |history|, HistoryCap)]
  {
    if completions == [] {
      assert Reversed(completions) + history == history;
    } else {
      var init := completions[..|completions| - 1];
      var e := completions[|completions| - 1];
      PushAllNewestFirst(history, init);
      var before := PushAll(history, init);
      var whole := Reversed(completions) + history;
      var m := Min(|completions| + |history|, HistoryCap);
      assert Reversed(completions) == [e] + Reversed(init);
      var r := PushHistory(before, e);
      assert |r| == m;
      forall i | 0 <= i < m ensures r[i] == whole[i] {
        if i > 0 {
          assert r[i] == before[i - 1];
          assert before[i - 1] == (Reversed(init) + history)[i - 1];
        }
      }
    }
  }

  /** After 101 completions starting from an empty history, the history holds the 100
      most recent, the newest first, and the oldest completion is gone. */
  lemma HistoryAfter101(completions: seq<HistoryEntry>)
    requires |completions| == HistoryCap + 1
    ensures var h := PushAll([], completions);
            && |h| == HistoryCap
            && (forall i :: 0 <= i < HistoryCap ==> h[i] == completions[HistoryCap - i])
            && ((forall i, j :: 0 <= i < j < |completions| ==> completions[i] != completions[j]) ==>
                  completions[0] !in h)
  {
    PushAllNewestFirst([], completions);
    var h := PushAll([], completions);
    var rev := Reversed(completions);
    assert rev + [] == rev;
    assert h == rev[..HistoryCap];
    forall i | 0 <= i < HistoryCap ensures h[i] == completions[HistoryCap - i] {
      assert h[i] == rev[i];
    }
    if forall i, j :: 0 <= i < j < |completions| ==> completions[i] != completions[j] {
      forall k | 0 <= k < |h| ensures h[k] != completions[0] {
        assert h[k] == completions[HistoryCap - k];
      }
    }
  }
}
