/** The fixed daily task set and what the daily injector appends to one task list. */
module DailyTasks {
  import opened Tasks

  /** A daily task template: the text and reward of a task posted every day. */
  datatype Template = Template(text: string, xp: int)

  /** `DAILY_TASKS`. */
  const DailyTemplates: seq<Template> := [Template("Gacha Dailies", 5)]

  /** The task made from template `index` for the date key `today`, when the list's
      next id was `nextId`. */
  function DailyTask(nextId: int, index: nat, today: string): Task
    requires index < |DailyTemplates|
  {
    Task(nextId + index, DailyTemplates[index].text, DailyTemplates[index].xp, false, Some(today))
  }

  /** The tasks the injector pushes for the first `count` templates, in template order. */
  function DailyBatch(nextId: int, count: nat, today: string): (batch: seq<Task>)
    requires count <= |DailyTemplates|
    ensures |batch| == count
    ensures forall i :: 0 <= i < count ==> batch[i] == DailyTask(nextId, i, today)
  {
    if count == 0 then [] else DailyBatch(nextId, count - 1, today) + [DailyTask(nextId, count - 1, today)]
  }

  /** The full batch has consecutive ids from `nextId`, all pending, all with a
      positive reward. */
  lemma DailyBatchFacts(nextId: int, today: string)
    ensures var batch := DailyBatch(nextId, |DailyTemplates|, today);
            && IdsIncreasing(batch)
            && (forall i :: 0 <= i < |batch| ==> batch[i].id == nextId + i)
            && (forall i :: 0 <= i < |batch| ==> !batch[i].done && batch[i].xp > 0 && batch[i].dailyDate == Some(today))
  {
  }

  /** One task list after a daily run: every template appended once, in order, with
      consecutive ids starting above every id already present, not done, tagged with
      the date key. The tasks already there are unchanged. */
  function InjectDaily(tasks: seq<Task>, today: string): (r: seq<Task>)
    ensures |r| == |tasks| + |DailyTemplates|
    ensures r[..|tasks|] == tasks
    ensures r[|tasks|..] == DailyBatch(NextId(tasks), |DailyTemplates|, today)
    ensures forall i, j :: 0 <= i < |tasks| <= j < |r| ==> r[i].id < r[j].id
  {
    var nextId := NextId(tasks);
    var batch := DailyBatch(nextId, |DailyTemplates|, today);
    DailyBatchFacts(nextId, today);
    var r := tasks + batch;
    assert r[..|tasks|] == tasks;
    assert r[|tasks|..] == batch;
    assert forall j :: |tasks| <= j < |r| ==> r[j] == batch[j - |tasks|];
    r
  }

  /** The injected list is the old list followed by the batch. */
  lemma InjectDailySplits(tasks: seq<Task>, today: string)
    ensures InjectDaily(tasks, today) == tasks + DailyBatch(NextId(tasks), |DailyTemplates|, today)
  {
    var r := InjectDaily(tasks, today);
    assert r == r[..|tasks|] + r[|tasks|..];
  }

  /** A daily run keeps the ids of a list increasing. */
  lemma InjectDailyIdsIncreasing(tasks: seq<Task>, today: string)
    requires IdsIncreasing(tasks)
    ensures IdsIncreasing(InjectDaily(tasks, today))
  {
    var batch := DailyBatch(NextId(tasks), |DailyTemplates|, today);
    DailyBatchFacts(NextId(tasks), today);
    InjectDailySplits(tasks, today);
    IncreasingAppend(tasks, batch);
  }

  /** A daily run keeps every reward of a list positive. */
  lemma InjectDailyRewardsPositive(tasks: seq<Task>, today: string)
    requires forall i :: 0 <= i < |tasks| ==> tasks[i].xp > 0
    ensures forall i :: 0 <= i < |InjectDaily(tasks, today)| ==> InjectDaily(tasks, today)[i].xp > 0
  {
    var batch := DailyBatch(NextId(tasks), |DailyTemplates|, today);
    DailyBatchFacts(NextId(tasks), today);
    InjectDailySplits(tasks, today);
    var r := tasks + batch;
    forall i | 0 <= i < |r| ensures r[i].xp > 0 {
      if i < |tasks| { assert r[i] == tasks[i]; } else { assert r[i] == batch[i - |tasks|]; }
    }
  }

  /** A daily run adds nothing to the XP of the done tasks, and its new tasks come last
      in the active list, after the tasks that were active before. */
  lemma InjectDailyPending(tasks: seq<Task>, today: string)
    ensures DoneXp(InjectDaily(tasks, today)) == DoneXp(tasks)
    ensures ActiveTasks(InjectDaily(tasks, today)) == ActiveTasks(tasks) + InjectDaily(tasks, today)[|tasks|..]
  {
    var batch := DailyBatch(NextId(tasks), |DailyTemplates|, today);
    DailyBatchFacts(NextId(tasks), today);
    InjectDailySplits(tasks, today);
    DoneXpAppendPending(tasks, batch);
    ActiveTasksAppend(tasks, batch);
    ActiveTasksOfPending(batch);
  }
}
