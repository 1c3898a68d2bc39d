/**
 * The task board of client/src/pages/KanbanBoardPage.tsx: filtering by search
 * text, priority and assignee, grouping into status columns, the status counts,
 * and the status change of a drag and drop.
 */
module Kanban {
  import opened Wrappers
  import opened Seqs
  import opened Text
  import opened Store

  /** A task as the board holds it; `assignee` is the assignee's username, `None` when there is none. */
  datatype BoardTask = BoardTask(
    id: Id,
    title: string,
    summary: string,
    priority: string,
    status: TaskStatus,
    assignee: Option<string>,
    tags: Option<seq<string>>,
    progress: Option<int>)

  /** The search text and the two drop-down filters; "all" switches a filter off. */
  datatype Filters = Filters(search: string, priority: string, assignee: string)

  const NoFilters := Filters("", "all", "all")

  predicate MatchesSearch(t: BoardTask, q: string) {
    || IncludesIgnoreCase(t.title, q)
    || IncludesIgnoreCase(t.summary, q)
    || (t.assignee.Some? && IncludesIgnoreCase(t.assignee.value, q))
  }

  predicate MatchesPriority(t: BoardTask, p: string) {
    p == "all" || t.priority == p
  }

  predicate MatchesAssignee(t: BoardTask, a: string) {
    a == "all" || (t.assignee.Some? && t.assignee.value == a)
  }

  predicate Shown(f: Filters, t: BoardTask) {
    MatchesSearch(t, f.search) && MatchesPriority(t, f.priority) && MatchesAssignee(t, f.assignee)
  }

  /** `filteredTasks`, with a missing assignee matching no search. */
  function FilterTasks(tasks: seq<BoardTask>, f: Filters): (r: seq<BoardTask>)
    ensures forall t :: t in r <==> t in tasks && Shown(f, t)
    ensures Subseq(r, tasks)
  {
    FilterMembers(tasks, t => Shown(f, t));
    FilterIsSubseq(tasks, t => Shown(f, t));
    Filter(tasks, t => Shown(f, t))
  }

  /**
   * The search test as written: `task.assignee.username` is read without `?.`,
   * so a task that matches neither by title nor by summary and has no assignee
   * raises a TypeError (`None`).
   */
  function MatchesSearchAsWritten(t: BoardTask, q: string): Option<bool> {
    if IncludesIgnoreCase(t.title, q) || IncludesIgnoreCase(t.summary, q) then Some(true)
    else if t.assignee.None? then None
    else Some(IncludesIgnoreCase(t.assignee.value, q))
  }

  /** `filteredTasks` as written: `None` when the filter callback throws for some task. */
  function FilterTasksAsWritten(tasks: seq<BoardTask>, f: Filters): Option<seq<BoardTask>> {
    if tasks == [] then Some([])
    else
      match MatchesSearchAsWritten(tasks[0], f.search)
      case None => None
      case Some(m) =>
        match FilterTasksAsWritten(tasks[1..], f)
        case None => None
        case Some(rest) =>
          var keep := m && MatchesPriority(tasks[0], f.priority) && MatchesAssignee(tasks[0], f.assignee);
          Some((if keep then [tasks[0]] else []) + rest)
  }

  /** The columns `tasksByStatus` starts from. */
  const Columns: set<TaskStatus> := {Todo, InProgress, Review, Done}

  /** The tasks of one status, in order. */
  function Bucket(tasks: seq<BoardTask>, s: TaskStatus): seq<BoardTask> {
    Filter(tasks, (t: BoardTask) => t.status == s)
  }

  /** `tasksByStatus`: each task is pushed onto the column of its status. */
  method GroupByStatus(tasks: seq<BoardTask>) returns (grouped: map<TaskStatus, seq<BoardTask>>)
    ensures grouped.Keys == Columns
    ensures forall s :: s in grouped ==> grouped[s] == Bucket(tasks, s)
  {
    grouped := map[Todo := [], InProgress := [], Review := [], Done := []];
    var i := 0;
    while i < |tasks|
      invariant 0 <= i <= |tasks|
      invariant grouped.Keys == Columns
      invariant forall s :: s in grouped ==> grouped[s] == Bucket(tasks[..i], s)
    {
      var t := tasks[i];
      assert tasks[..i + 1] == tasks[..i] + [t];
      forall s | s in grouped
        ensures Bucket(tasks[..i + 1], s) == Bucket(tasks[..i], s) + (if t.status == s then [t] else [])
      {
        FilterAppend(tasks[..i], [t], (u: BoardTask) => u.status == s);
        assert [t][1..] == [];
      }
      grouped := grouped[t.status := grouped[t.status] + [t]];
      i := i + 1;
    }
    assert tasks[..i] == tasks;
  }

  /** The counters of `stats` (the average progress is not part of this model). */
  datatype Stats = Stats(total: nat, todo: nat, inProgress: nat, done: nat)

  function CountStats(tasks: seq<BoardTask>): (r: Stats)
    ensures r.total == |tasks|
    ensures r.todo == |Bucket(tasks, Todo)| && r.inProgress == |Bucket(tasks, InProgress)| && r.done == |Bucket(tasks, Done)|
    ensures r.todo + r.inProgress + r.done <= r.total
  {
    BucketSizes(tasks);
    Stats(|tasks|, |Bucket(tasks, Todo)|, |Bucket(tasks, InProgress)|, |Bucket(tasks, Done)|)
  }

  datatype Location = Location(droppableId: TaskStatus, index: int)
  datatype DragResult = DragResult(destination: Option<Location>, source: Location, draggableId: Id)

  /** `tasks.find(t => t._id === id)` */
  function FindTask(tasks: seq<BoardTask>, id: Id): (r: Option<nat>)
    ensures r.None? <==> forall i :: 0 <= i < |tasks| ==> tasks[i].id != id
    ensures r.Some? ==> r.value < |tasks| && tasks[r.value].id == id
    ensures r.Some? ==> forall j :: 0 <= j < r.value ==> tasks[j].id != id
  {
    if tasks == [] then None
    else if tasks[0].id == id then Some(0)
    else match FindTask(tasks[1..], id)
      case None => None
      case Some(k) => Some(k + 1)
  }

  /** `onDragEnd`: the board afterwards and the status patch it sends, if any. */
  function OnDragEnd(tasks: seq<BoardTask>, d: DragResult): (r: (seq<BoardTask>, Option<(Id, TaskStatus)>))
    ensures d.destination.None? ==> r == (tasks, None)
    ensures d.destination == Some(d.source) ==> r == (tasks, None)
    ensures FindTask(tasks, d.draggableId).None? ==> r == (tasks, None)
    ensures |r.0| == |tasks|
    ensures r.1.Some? <==> d.destination.Some? && d.destination != Some(d.source) && FindTask(tasks, d.draggableId).Some?
    ensures r.1.Some? ==> r.1 == Some((d.draggableId, d.destination.value.droppableId))
    ensures r.1.Some? ==> forall i :: 0 <= i < |tasks| ==>
      r.0[i] == if tasks[i].id == d.draggableId
                then tasks[FindTask(tasks, d.draggableId).value].(status := d.destination.value.droppableId)
                else tasks[i]
  {
    if d.destination.None? || d.destination == Some(d.source) then (tasks, None)
    else match FindTask(tasks, d.draggableId)
      case None => (tasks, None)
      case Some(k) =>
        var s := d.destination.value.droppableId;
        var moved := tasks[k].(status := s);
        (seq(|tasks|, i requires 0 <= i < |tasks| => if tasks[i].id == d.draggableId then moved else tasks[i]), Some((d.draggableId, s)))
  }

  // ---------------------------------------------------------------------------
  // Properties
  // ---------------------------------------------------------------------------

  /** Without search text and with both filters off every task is shown. */
  lemma {:induction false} NoFiltersShowAll(tasks: seq<BoardTask>)
    ensures FilterTasks(tasks, NoFilters) == tasks
  {
    forall i | 0 <= i < |tasks| ensures Shown(NoFilters, tasks[i]) {
      EmptyIsIncluded(tasks[i].title);
    }
    FilterKeepsAll(tasks, t => Shown(NoFilters, t));
  }

  /** Every column's tasks have that status, and the column sizes add up to the number of tasks. */
  lemma {:induction false} BucketSizes(tasks: seq<BoardTask>)
    ensures |Bucket(tasks, Todo)| + |Bucket(tasks, InProgress)| + |Bucket(tasks, Review)| + |Bucket(tasks, Done)| == |tasks|
  {
    if tasks != [] {
      BucketSizes(tasks[1..]);
    }
  }

  /** Each column keeps the tasks of its status in their board order. */
  lemma ColumnsKeepOrder(tasks: seq<BoardTask>, s: TaskStatus)
    ensures Subseq(Bucket(tasks, s), tasks)
    ensures forall t :: t in Bucket(tasks, s) <==> t in tasks && t.status == s
  {
    FilterIsSubseq(tasks, (t: BoardTask) => t.status == s);
    FilterMembers(tasks, (t: BoardTask) => t.status == s);
  }

  /** A drag of a task whose id is unique changes that task's status and nothing else. */
  lemma DragChangesOnlyThatTask(tasks: seq<BoardTask>, d: DragResult, k: nat)
    requires k < |tasks| && tasks[k].id == d.draggableId
    requires forall i :: 0 <= i < |tasks| && i != k ==> tasks[i].id != d.draggableId
    requires d.destination.Some? && d.destination != Some(d.source)
    ensures OnDragEnd(tasks, d).0 == tasks[k := tasks[k].(status := d.destination.value.droppableId)]
  {
  }

  /** As long as every task has an assignee, the code as written filters like `FilterTasks`. */
  lemma {:induction false} AsWrittenAgreesWhenAssigned(tasks: seq<BoardTask>, f: Filters)
    requires forall i :: 0 <= i < |tasks| ==> tasks[i].assignee.Some?
    ensures FilterTasksAsWritten(tasks, f) == Some(FilterTasks(tasks, f))
  {
    if tasks != [] {
      AsWrittenAgreesWhenAssigned(tasks[1..], f);
    }
  }

  /** A search that misses the title and summary of a task without assignee makes the code as written throw. */
  lemma {:induction false} AsWrittenThrows(t: BoardTask, f: Filters)
    requires t.assignee.None? && !IncludesIgnoreCase(t.title, f.search) && !IncludesIgnoreCase(t.summary, f.search)
    ensures FilterTasksAsWritten([t], f).None?
  {
  }

  /** Such a task exists: "z" misses title "a" and summary "b". */
  lemma AsWrittenThrowsExample()
    ensures FilterTasksAsWritten([BoardTask("t1", "a", "b", "Normal", Todo, None, None, None)], Filters("z", "all", "all")).None?
  {
    assert !Includes(ToLower("a"), ToLower("z")) by {
      assert ToLower("a") == "a" && ToLower("z") == "z";
      assert !OccursAt("a", "z", 0);
    }
    assert !Includes(ToLower("b"), ToLower("z")) by {
      assert ToLower("b") == "b" && ToLower("z") == "z";
      assert !OccursAt("b", "z", 0);
    }
  }
}
