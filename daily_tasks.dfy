/**
 * The daily-tasks card: which of the three fixed tasks today's rows mark
 * as completed, how many that is, when the all-done banner shows, and what
 * clicking a task sends. The query, the streak update and the toasts are
 * outside the model.
 */
module DailyTasks {
  import opened Wrappers
  import Seqs

  type UserId = string

  /** A fetched row of `daily_tasks` for today, as far as the card reads it. */
  datatype TaskRow = TaskRow(taskType: string, completed: bool)

  /** The three tasks, in display order. */
  const TaskIds: seq<string> := ["read_daily_poem", "write_poem", "record_poem"]

  /** `completedTasks.some(task => task.task_type === taskType && task.completed)` */
  function IsTaskCompleted(rows: seq<TaskRow>, taskType: string): (b: bool)
    ensures b <==> exists i :: 0 <= i < |rows| && rows[i].taskType == taskType && rows[i].completed
  {
    if rows == [] then false
    else (rows[0].taskType == taskType && rows[0].completed) || IsTaskCompleted(rows[1..], taskType)
  }

  /**
   * `tasks.filter(task => isTaskCompleted(task.id)).length`: it counts over
   * the three task ids, so whatever the rows hold, duplicates and unknown
   * task types included, it is at most 3.
   */
  function CompletedCount(rows: seq<TaskRow>): (n: nat)
    ensures n <= |TaskIds| == 3
  {
    |Seqs.Filter(TaskIds, (t: string) => IsTaskCompleted(rows, t))|
  }

  /** The count is the number of the three tasks that are done, one for each. */
  lemma CompletedCountIsSum(rows: seq<TaskRow>)
    ensures CompletedCount(rows) ==
      (if IsTaskCompleted(rows, "read_daily_poem") then 1 else 0) +
      (if IsTaskCompleted(rows, "write_poem") then 1 else 0) +
      (if IsTaskCompleted(rows, "record_poem") then 1 else 0)
  {
    var keep := (t: string) => IsTaskCompleted(rows, t);
    assert TaskIds == [TaskIds[0]] + ([TaskIds[1]] + [TaskIds[2]]);
    Seqs.FilterAppend([TaskIds[0]], [TaskIds[1]] + [TaskIds[2]], keep);
    Seqs.FilterAppend([TaskIds[1]], [TaskIds[2]], keep);
    assert Seqs.Filter([TaskIds[2]], keep) == (if keep(TaskIds[2]) then [TaskIds[2]] else []);
    assert Seqs.Filter([TaskIds[1]], keep) == (if keep(TaskIds[1]) then [TaskIds[1]] else []);
    assert Seqs.Filter([TaskIds[0]], keep) == (if keep(TaskIds[0]) then [TaskIds[0]] else []);
  }

  /** The all-done banner: `completedCount === tasks.length`. */
  predicate AllDone(rows: seq<TaskRow>) {
    CompletedCount(rows) == |TaskIds|
  }

  /** The banner shows exactly when each of the three tasks is completed. */
  lemma AllDoneIffEveryTask(rows: seq<TaskRow>)
    ensures AllDone(rows) <==> forall t :: t in TaskIds ==> IsTaskCompleted(rows, t)
  {
    Seqs.FilterFullIffAll(TaskIds, (t: string) => IsTaskCompleted(rows, t));
  }

  /** A fetched row more can only complete more tasks. */
  lemma MoreRowsCountMore(rows: seq<TaskRow>, extra: TaskRow)
    ensures CompletedCount(rows) <= CompletedCount(rows + [extra])
  {
    forall t | t in TaskIds && IsTaskCompleted(rows, t) ensures IsTaskCompleted(rows + [extra], t) {
      var i :| 0 <= i < |rows| && rows[i].taskType == t && rows[i].completed;
      assert (rows + [extra])[i] == rows[i];
    }
    Seqs.FilterMonotone(TaskIds, (t: string) => IsTaskCompleted(rows, t),
      (t: string) => IsTaskCompleted(rows + [extra], t));
  }

  /** Completing a task that was not yet done raises the count by exactly one. */
  lemma CompletingAddsOne(rows: seq<TaskRow>, taskType: string)
    requires taskType in TaskIds && !IsTaskCompleted(rows, taskType)
    ensures CompletedCount(rows + [TaskRow(taskType, true)]) == CompletedCount(rows) + 1
  {
    var after := rows + [TaskRow(taskType, true)];
    assert after[|rows|] == TaskRow(taskType, true);
    forall t ensures IsTaskCompleted(after, t) <==> IsTaskCompleted(rows, t) || t == taskType {
      if IsTaskCompleted(rows, t) {
        var i :| 0 <= i < |rows| && rows[i].taskType == t && rows[i].completed;
        assert after[i] == rows[i];
      }
      if IsTaskCompleted(after, t) && t != taskType {
        var i :| 0 <= i < |after| && after[i].taskType == t && after[i].completed;
        assert i < |rows| && rows[i] == after[i];
      }
    }
    CompletedCountIsSum(rows);
    CompletedCountIsSum(after);
  }

  /** The row the completion upsert writes. */
  datatype TaskUpsert = TaskUpsert(userId: UserId, taskDate: string, taskType: string, completed: bool)

  /**
   * Clicking a task's button for a signed-in user on day `today`: a task
   * already completed sends nothing; any other sends its upsert, marked
   * completed.
   */
  function OnClick(rows: seq<TaskRow>, userId: UserId, today: string, taskType: string): (r: Option<TaskUpsert>)
    ensures r.None? <==> IsTaskCompleted(rows, taskType)
    ensures r.Some? ==> r.value == TaskUpsert(userId, today, taskType, true)
  {
    if IsTaskCompleted(rows, taskType) then None else Some(TaskUpsert(userId, today, taskType, true))
  }

  /**
   * Once the upsert is stored, the next fetch returns it among today's
   * rows, and the clicked task then shows as completed.
   */
  lemma ClickCompletes(rows: seq<TaskRow>, userId: UserId, today: string, taskType: string)
    requires OnClick(rows, userId, today, taskType).Some?
    ensures var u := OnClick(rows, userId, today, taskType).value;
      IsTaskCompleted(rows + [TaskRow(u.taskType, u.completed)], taskType)
  {
    var u := OnClick(rows, userId, today, taskType).value;
    assert (rows + [TaskRow(u.taskType, u.completed)])[|rows|] == TaskRow(taskType, true);
  }
}
