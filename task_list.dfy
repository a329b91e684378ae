/** The task page: a fixed seed list of tasks and its three status columns,
    each the list filtered by one status. The columns are computed once, when
    the page is created, and are plain values afterwards. */
module TaskList {
  import opened Wrappers
  import opened Models

  const Todo := "todo"
  const InProgress := "in_progress"
  const Done := "done"

  predicate IsKnownStatus(s: string)
  {
    s == Todo || s == InProgress || s == Done
  }

  /** `tasks.filter(task => task.status === status)`. */
  function FilterByStatus(tasks: seq<Task>, status: string): (r: seq<Task>)
    ensures |r| <= |tasks|
    ensures forall k :: 0 <= k < |r| ==> r[k].status == status
    ensures forall t :: t in r <==> t in tasks && t.status == status
  {
    if tasks == [] then []
    else
      var rest := FilterByStatus(tasks[1..], status);
      assert forall t :: t in tasks <==> t == tasks[0] || t in tasks[1..];
      (if tasks[0].status == status then [tasks[0]] else []) + rest
  }

  /** Filtering distributes over concatenation, so each column keeps the
      relative order the tasks have in the list. */
  lemma {:induction false} FilterAppend(a: seq<Task>, b: seq<Task>, status: string)
    ensures FilterByStatus(a + b, status) == FilterByStatus(a, status) + FilterByStatus(b, status)
  {
    if a == [] {
      assert a + b == b;
    } else {
      assert (a + b)[1..] == a[1..] + b;
      FilterAppend(a[1..], b, status);
    }
  }

  /** A task keeps its list position relative to the other tasks of its column:
      if task i comes before task j in the list and both carry `status`, the
      column holds them in that order. */
  lemma {:induction false} FilterKeepsOrder(tasks: seq<Task>, status: string, i: nat, j: nat)
    requires i < j < |tasks|
    requires tasks[i].status == status && tasks[j].status == status
    ensures exists p, q :: 0 <= p < q < |FilterByStatus(tasks, status)|
                        && FilterByStatus(tasks, status)[p] == tasks[i]
                        && FilterByStatus(tasks, status)[q] == tasks[j]
  {
    var front, middle, back := tasks[..i], tasks[i + 1..j], tasks[j + 1..];
    assert tasks == front + [tasks[i]] + middle + [tasks[j]] + back;
    FilterAppend(front + [tasks[i]] + middle + [tasks[j]], back, status);
    FilterAppend(front + [tasks[i]] + middle, [tasks[j]], status);
    FilterAppend(front + [tasks[i]], middle, status);
    FilterAppend(front, [tasks[i]], status);
    var f, m := FilterByStatus(front, status), FilterByStatus(middle, status);
    var col := FilterByStatus(tasks, status);
    assert FilterByStatus([tasks[i]], status) == [tasks[i]];
    assert FilterByStatus([tasks[j]], status) == [tasks[j]];
    assert col == f + [tasks[i]] + m + [tasks[j]] + FilterByStatus(back, status);
    assert col[|f|] == tasks[i];
    assert col[|f| + 1 + |m|] == tasks[j];
  }

  /** Number of tasks whose status is none of the three. */
  function UnknownCount(tasks: seq<Task>): nat
  {
    if tasks == [] then 0
    else (if IsKnownStatus(tasks[0].status) then 0 else 1) + UnknownCount(tasks[1..])
  }

  /** Every task with a known status lands in exactly one column, so the
      column sizes add up to the list size less the tasks of unknown status. */
  lemma {:induction false} PartitionSizes(tasks: seq<Task>)
    ensures |FilterByStatus(tasks, Todo)| + |FilterByStatus(tasks, InProgress)| + |FilterByStatus(tasks, Done)|
            == |tasks| - UnknownCount(tasks)
  {
    if tasks != [] {
      PartitionSizes(tasks[1..]);
    }
  }

  lemma {:induction false} UnknownCountZero(tasks: seq<Task>)
    ensures UnknownCount(tasks) == 0 <==> forall k :: 0 <= k < |tasks| ==> IsKnownStatus(tasks[k].status)
  {
    if tasks != [] {
      UnknownCountZero(tasks[1..]);
      assert forall k :: 1 <= k < |tasks| ==> tasks[k] == tasks[1..][k - 1];
    }
  }

  /** The columns never hold more tasks than the list, and hold all of them
      exactly when every status is one of the three. */
  lemma PartitionCovers(tasks: seq<Task>)
    ensures |FilterByStatus(tasks, Todo)| + |FilterByStatus(tasks, InProgress)| + |FilterByStatus(tasks, Done)| <= |tasks|
    ensures |FilterByStatus(tasks, Todo)| + |FilterByStatus(tasks, InProgress)| + |FilterByStatus(tasks, Done)| == |tasks|
            <==> forall k :: 0 <= k < |tasks| ==> IsKnownStatus(tasks[k].status)
  {
    PartitionSizes(tasks);
    UnknownCountZero(tasks);
  }

  /** The columns are pairwise disjoint, and a task of unknown status is in none. */
  lemma PartitionsDisjoint(tasks: seq<Task>, t: Task)
    ensures t in FilterByStatus(tasks, Todo) ==> t !in FilterByStatus(tasks, InProgress) && t !in FilterByStatus(tasks, Done)
    ensures t in FilterByStatus(tasks, InProgress) ==> t !in FilterByStatus(tasks, Done)
    ensures !IsKnownStatus(t.status) ==>
              t !in FilterByStatus(tasks, Todo) && t !in FilterByStatus(tasks, InProgress) && t !in FilterByStatus(tasks, Done)
  {
  }

  /** The page's fields. */
  datatype TaskPage = TaskPage(
    tasks: seq<Task>,
    todoTasks: seq<Task>,
    inProgressTasks: seq<Task>,
    doneTasks: seq<Task>)

  function SeedTask(id: string, title: string, description: string, status: string): Task
  {
    Task(id, title, description, status, Some(Timestamp("2025-06-07T22:33:18.294Z")), None, "test@todo.com")
  }

  /** The hard-coded list the page starts with. */
  const SeedTasks: seq<Task> := [
    SeedTask("fChaeJ9aBPjMM5us9GLe", "The first Task", "Todo test", Todo),
    SeedTask("fChaeJ9aBPjMM5us9GLe2", "The second Task", "Todo test 2", InProgress),
    SeedTask("fChaeJ9aBPjMM5us9GLe3", "The third Task", "Todo test 3", Done)
  ]

  /** Filtering a one-task tail. */
  lemma FilterSingle(t: Task, status: string)
    ensures FilterByStatus([t], status) == if t.status == status then [t] else []
  {
    assert [t][1..] == [];
  }

  /** Filtering a three-task list filters each task on its own. */
  lemma {:induction false} FilterThree(a: Task, b: Task, c: Task, status: string)
    ensures FilterByStatus([a, b, c], status)
            == FilterByStatus([a], status) + FilterByStatus([b], status) + FilterByStatus([c], status)
  {
    assert [a, b, c] == [a, b] + [c];
    assert [a, b] == [a] + [b];
    FilterAppend([a, b], [c], status);
    FilterAppend([a], [b], status);
  }

  /** The seed list puts each of its tasks in its own column. */
  lemma {:induction false} SeedColumns()
    ensures FilterByStatus(SeedTasks, Todo) == [SeedTasks[0]]
    ensures FilterByStatus(SeedTasks, InProgress) == [SeedTasks[1]]
    ensures FilterByStatus(SeedTasks, Done) == [SeedTasks[2]]
  {
    var a, b, c := SeedTasks[0], SeedTasks[1], SeedTasks[2];
    assert SeedTasks == [a, b, c];
    assert a.status == Todo && b.status == InProgress && c.status == Done;
    FilterThree(a, b, c, Todo);
    FilterSingle(a, Todo); FilterSingle(b, Todo); FilterSingle(c, Todo);
    FilterThree(a, b, c, InProgress);
    FilterSingle(a, InProgress); FilterSingle(b, InProgress); FilterSingle(c, InProgress);
    FilterThree(a, b, c, Done);
    FilterSingle(a, Done); FilterSingle(b, Done); FilterSingle(c, Done);
  }

  /** The page as its field initialisers leave it: each of the three seed
      tasks sits alone in the column of its status. */
  function NewTaskPage(): (p: TaskPage)
    ensures p.tasks == SeedTasks
    ensures p.todoTasks == [SeedTasks[0]]
    ensures p.inProgressTasks == [SeedTasks[1]]
    ensures p.doneTasks == [SeedTasks[2]]
  {
    SeedColumns();
    TaskPage(
      SeedTasks,
      FilterByStatus(SeedTasks, Todo),
      FilterByStatus(SeedTasks, InProgress),
      FilterByStatus(SeedTasks, Done))
  }
}
