/** The `KanbanBoard` component, the board's other implementation: its own
    seed data, the initial load with the legacy keys of the default project,
    its CRUD helpers, the search filter and its inline drag handlers. */
module KanbanBoard {
  import opened Wrappers
  import opened Strings
  import opened Board
  import opened Constants
  import ColumnContainer
  import UseKanban

  // ---------------------------------------------------------------- seed data

  const DefaultCols: seq<Column> :=
    [Column("todo", "Todo"), Column("doing", "In Progress"), Column(Done, "Done")]

  const DefaultTasks: seq<Task> := [
    Task("1", "todo", "Admin APIs", "List admin APIs for dashboard", Yellow, High),
    Task("2", "todo", "User Registration",
         "Develop user registration functionality with OTP delivered on SMS after email confirmation and phone number confirmation",
         Green, High),
    Task("3", "doing", "Security Testing", "Conduct security testing", Blue, High),
    Task("4", "doing", "Competitor Analysis", "Analyze competitors", Pink, Medium),
    Task("5", Done, "UI Kit Docs", "Create UI kit documentation", Orange, Low),
    Task("6", Done, "Meeting", "Dev meeting", Purple, Medium),
    Task("7", Done, "Dashboard Prototype", "Deliver dashboard prototype", Yellow, High),
    Task("8", "todo", "Performance", "Optimize application performance", Green, Medium),
    Task("9", "todo", "Data Validation", "Implement data validation", Blue, Medium),
    Task("10", "todo", "DB Schema", "Design database schema", Pink, High),
    Task("11", "todo", "SSL Certs", "Integrate SSL web certificates into workflow", Orange, Low),
    Task("12", "doing", "Logging", "Implement error logging and monitoring", Purple, Medium),
    Task("13", "doing", "Responsive UI", "Design and implement responsive UI", Yellow, High)
  ]

  /** The component's columns are the shared default columns. */
  lemma DefaultColsAreDefaultColumns()
    ensures DefaultCols == DefaultColumns
    ensures ColumnIds(DefaultCols) == ["todo", "doing", Done]
  {
  }

  /** Every seed task sits in one of the seed columns. */
  lemma DefaultTasksNoOrphans()
    ensures NoOrphans(DefaultCols, DefaultTasks)
  {
    var ids := ColumnIds(DefaultCols);
    assert ids == ["todo", "doing", Done];
    forall t | t in DefaultTasks ensures t.columnId in ids {
      assert t.columnId == "todo" || t.columnId == "doing" || t.columnId == Done;
    }
  }

  /** The thirteen seed ids are distinct. */
  lemma DefaultTasksDistinct()
    ensures Distinct(TaskIds(DefaultTasks))
  {
    assert TaskIds(DefaultTasks) == ["1", "2", "3", "4", "5", "6", "7", "8", "9", "10", "11", "12", "13"];
  }

  /** Every seed priority is one of the three levels. */
  lemma DefaultTasksPriorities()
    ensures forall t :: t in DefaultTasks ==> t.priority in Priorities
  {
  }

  // ---------------------------------------------------------------- initial state

  /** The columns the board starts with. `saved` and `legacy` are the
      contents of `kanban-columns-<projectId>` and `kanban-columns` when they
      hold an array, `None` otherwise. */
  function InitialColumns(projectId: string, saved: Option<seq<Column>>, legacy: Option<seq<Column>>): (r: seq<Column>)
    ensures saved.Some? ==> r == saved.value
    ensures saved.None? && projectId == DefaultProject.id && legacy.Some? ==> r == legacy.value
    ensures saved.None? && (projectId != DefaultProject.id || legacy.None?) ==> r == DefaultCols
  {
    if saved.Some? then saved.value
    else if projectId == DefaultProject.id && legacy.Some? then legacy.value
    else DefaultCols
  }

  /** The tasks the board starts with: as for the columns, except that a
      project other than the default one starts empty. */
  function InitialTasks(projectId: string, saved: Option<seq<Task>>, legacy: Option<seq<Task>>): (r: seq<Task>)
    ensures saved.Some? ==> r == saved.value
    ensures saved.None? && projectId == DefaultProject.id ==> r == legacy.GetOr(DefaultTasks)
    ensures saved.None? && projectId != DefaultProject.id ==> r == []
  {
    if saved.Some? then saved.value
    else if projectId == DefaultProject.id then (if legacy.Some? then legacy.value else DefaultTasks)
    else []
  }

  /** With nothing saved under either key, every project starts without orphans. */
  lemma InitialBoardNoOrphans(projectId: string)
    ensures NoOrphans(InitialColumns(projectId, None, None), InitialTasks(projectId, None, None))
  {
    DefaultTasksNoOrphans();
  }

  // ---------------------------------------------------------------- derived values

  /** `filteredTasks`: only the empty query filters nothing; a query of
      spaces is searched for like any other. */
  function FilteredTasks(tasks: seq<Task>, query: string): (r: seq<Task>)
    ensures query == "" ==> r == tasks
    ensures query != "" ==> forall t :: t in r <==> t in tasks && MatchesQuery(t, query)
  {
    if query == "" then tasks else SearchTasks(tasks, query)
  }

  /** The two boards disagree on a query of white space: the hook shows
      every task, this component only the tasks whose text holds the space. */
  lemma BlankQueryDiffers()
    ensures var t := Task("1", "todo", "Admin", "APIs", Yellow, High);
            UseKanban.FilteredTasks([t], " ") == [t] && FilteredTasks([t], " ") == []
  {
    var t := Task("1", "todo", "Admin", "APIs", Yellow, High);
    assert ToLower(" ") == " ";
    NoSpaceInLowered(t.title);
    NoSpaceInLowered(t.content);
    assert t !in FilteredTasks([t], " ");
  }

  /** A text without a space keeps none once lower-cased, so it does not contain " ". */
  lemma NoSpaceInLowered(s: string)
    requires forall i :: 0 <= i < |s| ==> s[i] != ' '
    ensures !Contains(ToLower(s), " ")
  {
    var l := ToLower(s);
    forall i | 0 <= i <= |l| - 1 ensures !OccursAt(l, " ", i) {
      assert l[i..i + 1][0] == l[i] == LowerChar(s[i]);
    }
  }

  /** `createTask(columnId)`: a task numbered after the current count, empty
      content, a random colour (given) and priority Medium. */
  function NewTask(columnId: string, count: nat, freshId: string, randomColor: string): (t: Task)
    ensures t.id == freshId && t.columnId == columnId && t.content == "" && t.priority == Medium
    ensures t.title == "Task " + NatToString(count + 1) && t.color == randomColor
  {
    Task(freshId, columnId, "Task " + NatToString(count + 1), "", randomColor, Medium)
  }

  /** The component's task is the hook's task built from an empty draft. */
  lemma NewTaskMatchesHook(columnId: string, count: nat, freshId: string, randomColor: string)
    ensures NewTask(columnId, count, freshId, randomColor)
         == UseKanban.NewTask(columnId, UseKanban.TaskDraft("", "", "", ""), count, freshId, randomColor)
  {
  }

  /** `createNewColumn`: `Column n+1`, the hook's title when no title is given. */
  function NewColumn(count: nat, freshId: string): (c: Column)
    ensures c.id == freshId && c.title == UseKanban.NewColumnTitle(None, count)
  {
    Column(freshId, "Column " + NatToString(count + 1))
  }

  // ---------------------------------------------------------------- onDragOver

  /** The early returns of `onDragOver`. There is no dock check here. */
  predicate HoverIgnored(e: DragEvent) {
    e.over.None? || e.active.id == e.over.value.id || e.active.kind != TaskItem
  }

  /** Whether `onDragOver` arms the flag: for a column target it compares
      the raw over id with `done`. */
  predicate HoverArms(e: DragEvent) {
    !HoverIgnored(e) && !WasInDone(e.active) &&
    match e.over.value.kind
    case TaskItem => OverTaskInDone(e.over.value)
    case ColumnItem => e.over.value.id == Done
    case Untyped => false
  }

  /** The task-over-column updater as written: the found task's `columnId`
      becomes the raw over id, then `arrayMove(newTasks, i, i)`. */
  function HoverTaskOverColumnAsWritten(tasks: seq<Task>, activeId: string, overId: string): (r: seq<Task>)
    ensures r == ReassignFound(tasks, activeId, overId)
  {
    var i := FindTask(tasks, activeId);
    if i == -1 then tasks
    else
      var moved := SetColumnAt(tasks, i, overId);
      ArrayMoveSameIndex(moved, i);
      ArrayMove(moved, i, i)
  }

  /** The task list after `onDragOver`. */
  function HoverTasks(tasks: seq<Task>, e: DragEvent): (r: seq<Task>)
    ensures |r| == |tasks|
    ensures HoverIgnored(e) ==> r == tasks
    ensures !HoverIgnored(e) && e.over.value.kind == TaskItem ==>
      r == HoverTaskOverTask(tasks, e.active.id, e.over.value.id)
    ensures !HoverIgnored(e) && e.over.value.kind == ColumnItem ==> r == ReassignFound(tasks, e.active.id, e.over.value.id)
    ensures !HoverIgnored(e) && e.over.value.kind == Untyped ==> r == tasks
  {
    if HoverIgnored(e) then tasks
    else
      match e.over.value.kind
      case TaskItem => HoverTaskOverTask(tasks, e.active.id, e.over.value.id)
      case ColumnItem => HoverTaskOverColumnAsWritten(tasks, e.active.id, e.over.value.id)
      case Untyped => tasks
  }

  /** Over a task, the component and the hook agree on the tasks and on the flag. */
  lemma HoverOverTaskMatchesHook(tasks: seq<Task>, e: DragEvent)
    requires e.over.Some? && e.over.value.kind == TaskItem && !UseKanban.HoverIgnored(e)
    ensures HoverTasks(tasks, e) == UseKanban.HoverTasks(tasks, e)
    ensures HoverArms(e) == UseKanban.HoverArms(e)
  {
  }

  /** As written: hovering a task over a column's `column-drop-` droppable
      writes the prefixed droppable id into the task. On a board whose column
      ids do not carry that prefix, the task is then an orphan that no column
      group shows; and hovering the `done` column this way never arms the flag. */
  lemma ColumnDropOrphans(columns: seq<Column>, tasks: seq<Task>, a: Active, c: Column)
    requires a.kind == TaskItem && a.id != ColumnContainer.DroppableId(c)
    requires FindTask(tasks, a.id) != -1
    requires ColumnContainer.DroppableId(c) !in ColumnIds(columns)
    ensures var e := DragEvent(a, Some(ColumnContainer.DroppableOver(c)));
            var r := HoverTasks(tasks, e);
            var i := FindTask(tasks, a.id);
            && r[i].columnId == ColumnContainer.DroppableId(c)
            && !NoOrphans(columns, r)
            && (forall k :: r[i] !in TasksIn(r, k) || k == ColumnContainer.DroppableId(c))
            && !HoverArms(e)
  {
    var e := DragEvent(a, Some(ColumnContainer.DroppableOver(c)));
    var r := HoverTasks(tasks, e);
    var i := FindTask(tasks, a.id);
    assert r[i] in r;
    assert ColumnContainer.DroppableId(c) != Done by {
      assert |ColumnContainer.DroppableId(c)| >= |ColumnContainer.ColumnDropPrefix| > |Done|;
    }
  }

  /** The todo task and the `done` droppable of the examples below. */
  const ExampleTask := Task("1", "todo", "Admin APIs", "", Yellow, High)
  const ExampleDrag := DragEvent(Active("1", TaskItem, Some(ExampleTask), None),
                                 Some(ColumnContainer.DroppableOver(Column(Done, "Done"))))

  /** On the default board, the todo task hovered over the `done` droppable
      is rewritten to the droppable id, so no column shows it, and the flag
      stays off. */
  lemma ColumnDropOrphansExample()
    ensures HoverTasks([ExampleTask], ExampleDrag) == [ExampleTask.(columnId := "column-drop-done")]
    ensures !NoOrphans(DefaultColumns, HoverTasks([ExampleTask], ExampleDrag))
    ensures !HoverArms(ExampleDrag)
  {
    assert TaskIds([ExampleTask]) == ["1"];
    assert FindTask([ExampleTask], "1") == 0;
    assert ColumnIds(DefaultColumns) == ["todo", "doing", Done];
    assert ColumnContainer.DroppableId(Column(Done, "Done")) == "column-drop-done";
    ColumnDropOrphans(DefaultColumns, [ExampleTask], ExampleDrag.active, Column(Done, "Done"));
  }

  /** The same hover in the hook moves the task into `done` and arms the flag. */
  lemma ColumnDropHookExample()
    ensures UseKanban.HoverTasks([ExampleTask], ExampleDrag) == [ExampleTask.(columnId := Done)]
    ensures UseKanban.HoverArms(ExampleDrag)
  {
    var c := Column(Done, "Done");
    assert TaskIds([ExampleTask]) == ["1"];
    assert FindTask([ExampleTask], "1") == 0;
    assert !StartsWith(c.id, ColumnContainer.ColumnDropPrefix);
    assert c in DefaultColumns;
    assert NoOrphans(DefaultColumns, [ExampleTask]) by {
      assert ColumnIds(DefaultColumns)[0] == "todo";
    }
    UseKanban.HoverOverDroppable(DefaultColumns, [ExampleTask], ExampleDrag.active, c);
  }

  // ---------------------------------------------------------------- onDragEnd

  /** The early returns of `onDragEnd`, taken after the flag is handled. */
  predicate DropIgnored(e: DragEvent) {
    e.over.None? || e.active.id == e.over.value.id
  }

  /** The task list after `onDragEnd`: only a same-column task-over-task release reorders. */
  function DropTasks(tasks: seq<Task>, e: DragEvent): (r: seq<Task>)
    ensures |r| == |tasks| && multiset(r) == multiset(tasks)
    ensures DropIgnored(e) || e.active.kind != TaskItem || e.over.value.kind != TaskItem ==> r == tasks
    ensures !DropIgnored(e) && e.active.kind == TaskItem && e.over.value.kind == TaskItem ==>
      r == ReorderTasks(tasks, e.active.id, e.over.value.id)
  {
    if !DropIgnored(e) && e.active.kind == TaskItem && e.over.value.kind == TaskItem then
      ReorderTasks(tasks, e.active.id, e.over.value.id)
    else tasks
  }

  /** The column list after `onDragEnd`: a dragged column is always passed to `arrayMove`. */
  function DropColumns(columns: seq<Column>, e: DragEvent): (r: seq<Column>)
    ensures |r| == |columns| && multiset(r) == multiset(columns)
    ensures DropIgnored(e) || e.active.kind != ColumnItem ==> r == columns
  {
    if !DropIgnored(e) && e.active.kind == ColumnItem then ReorderColumns(columns, e.active.id, e.over.value.id)
    else columns
  }

  /** The component and the hook release alike except on dock items, which
      only the hook handles. */
  lemma DropMatchesHookOffDock(tasks: seq<Task>, columns: seq<Column>, e: DragEvent)
    requires DropIgnored(e) || UseKanban.DockTargetColumn(e.over.value.id).None?
    ensures DropTasks(tasks, e) == UseKanban.DropTasks(tasks, e)
    ensures DropColumns(columns, e) == UseKanban.DropColumns(columns, e)
  {
  }

  // ---------------------------------------------------------------- the component

  class BoardState {
    const projectId: string
    var columns: seq<Column>
    var tasks: seq<Task>
    var activeColumn: Option<Column>
    var activeTask: Option<Task>
    var searchQuery: string
    var shouldFireConfetti: bool
    ghost var confettiFired: nat

    constructor(projectId: string, savedColumns: Option<seq<Column>>, legacyColumns: Option<seq<Column>>,
                savedTasks: Option<seq<Task>>, legacyTasks: Option<seq<Task>>)
      ensures this.projectId == projectId
      ensures columns == InitialColumns(projectId, savedColumns, legacyColumns)
      ensures tasks == InitialTasks(projectId, savedTasks, legacyTasks)
      ensures activeColumn.None? && activeTask.None? && searchQuery == ""
      ensures !shouldFireConfetti && confettiFired == 0
    {
      this.projectId := projectId;
      columns := InitialColumns(projectId, savedColumns, legacyColumns);
      tasks := InitialTasks(projectId, savedTasks, legacyTasks);
      activeColumn := None;
      activeTask := None;
      searchQuery := "";
      shouldFireConfetti := false;
      confettiFired := 0;
    }

    /** `tasksByColumn`. */
    method TasksByColumn() returns (groups: map<string, seq<Task>>)
      ensures groups.Keys == ColumnIdSet(columns)
      ensures forall k :: k in groups ==> groups[k] == TasksIn(FilteredTasks(tasks, searchQuery), k)
    {
      groups := GroupByColumn(columns, FilteredTasks(tasks, searchQuery));
    }

    method SetSearchQuery(q: string)
      modifies this
      ensures searchQuery == q
      ensures columns == old(columns) && tasks == old(tasks) && activeColumn == old(activeColumn)
      ensures activeTask == old(activeTask) && shouldFireConfetti == old(shouldFireConfetti)
      ensures confettiFired == old(confettiFired)
    {
      searchQuery := q;
    }

    method CreateTask(columnId: string, freshId: string, randomColor: string)
      requires freshId !in TaskIds(tasks)
      modifies this
      ensures tasks == old(tasks) + [NewTask(columnId, |old(tasks)|, freshId, randomColor)]
      ensures columns == old(columns) && activeColumn == old(activeColumn) && activeTask == old(activeTask)
      ensures searchQuery == old(searchQuery) && shouldFireConfetti == old(shouldFireConfetti)
      ensures confettiFired == old(confettiFired)
    {
      tasks := tasks + [NewTask(columnId, |tasks|, freshId, randomColor)];
    }

    method DeleteTask(id: string)
      modifies this
      ensures tasks == WithoutTask(old(tasks), id)
      ensures columns == old(columns) && activeColumn == old(activeColumn) && activeTask == old(activeTask)
      ensures searchQuery == old(searchQuery) && shouldFireConfetti == old(shouldFireConfetti)
      ensures confettiFired == old(confettiFired)
    {
      tasks := WithoutTask(tasks, id);
    }

    method UpdateTask(id: string, patch: TaskPatch)
      modifies this
      ensures tasks == PatchTasks(old(tasks), id, patch)
      ensures columns == old(columns) && activeColumn == old(activeColumn) && activeTask == old(activeTask)
      ensures searchQuery == old(searchQuery) && shouldFireConfetti == old(shouldFireConfetti)
      ensures confettiFired == old(confettiFired)
    {
      tasks := PatchTasks(tasks, id, patch);
    }

    method CreateNewColumn(freshId: string)
      requires freshId !in ColumnIds(columns)
      modifies this
      ensures columns == old(columns) + [NewColumn(|old(columns)|, freshId)]
      ensures tasks == old(tasks) && activeColumn == old(activeColumn) && activeTask == old(activeTask)
      ensures searchQuery == old(searchQuery) && shouldFireConfetti == old(shouldFireConfetti)
      ensures confettiFired == old(confettiFired)
    {
      columns := columns + [NewColumn(|columns|, freshId)];
    }

    method DeleteColumn(id: string)
      modifies this
      ensures columns == WithoutColumn(old(columns), id)
      ensures tasks == WithoutTasksOf(old(tasks), id)
      ensures activeColumn == old(activeColumn) && activeTask == old(activeTask)
      ensures searchQuery == old(searchQuery) && shouldFireConfetti == old(shouldFireConfetti)
      ensures confettiFired == old(confettiFired)
    {
      columns := WithoutColumn(columns, id);
      tasks := WithoutTasksOf(tasks, id);
    }

    method UpdateColumn(id: string, title: string)
      modifies this
      ensures columns == RetitleColumn(old(columns), id, title)
      ensures tasks == old(tasks) && activeColumn == old(activeColumn) && activeTask == old(activeTask)
      ensures searchQuery == old(searchQuery) && shouldFireConfetti == old(shouldFireConfetti)
      ensures confettiFired == old(confettiFired)
    {
      columns := RetitleColumn(columns, id, title);
    }

    method OnDragStart(a: Active)
      modifies this
      ensures activeColumn == (if a.kind == ColumnItem then a.column else old(activeColumn))
      ensures activeTask == (if a.kind == TaskItem then a.task else old(activeTask))
      ensures columns == old(columns) && tasks == old(tasks) && searchQuery == old(searchQuery)
      ensures shouldFireConfetti == old(shouldFireConfetti) && confettiFired == old(confettiFired)
    {
      if a.kind == ColumnItem {
        activeColumn := a.column;
      } else if a.kind == TaskItem {
        activeTask := a.task;
      }
    }

    method OnDragOver(e: DragEvent)
      modifies this
      ensures shouldFireConfetti == (old(shouldFireConfetti) || HoverArms(e))
      ensures tasks == HoverTasks(old(tasks), e)
      ensures columns == old(columns) && activeColumn == old(activeColumn) && activeTask == old(activeTask)
      ensures searchQuery == old(searchQuery) && confettiFired == old(confettiFired)
    {
      if HoverArms(e) {
        shouldFireConfetti := true;
      }
      tasks := HoverTasks(tasks, e);
    }

    /** `onDragEnd`: the flag is fired and cleared before the early returns. */
    method OnDragEnd(e: DragEvent)
      modifies this
      ensures activeColumn.None? && activeTask.None? && !shouldFireConfetti
      ensures confettiFired == old(confettiFired) + (if old(shouldFireConfetti) then 1 else 0)
      ensures tasks == DropTasks(old(tasks), e) && columns == DropColumns(old(columns), e)
      ensures searchQuery == old(searchQuery)
    {
      activeColumn := None;
      activeTask := None;
      if shouldFireConfetti {
        confettiFired := confettiFired + 1;
        shouldFireConfetti := false;
      }
      tasks := DropTasks(tasks, e);
      columns := DropColumns(columns, e);
    }
  }
}
