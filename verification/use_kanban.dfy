/** The `useKanban(projectId)` hook: the columns and tasks of one project,
    the search query, the dragged item and the confetti flag, with the
    column and task operations and the three drag-and-drop handlers. */
module UseKanban {
  import opened Wrappers
  import opened Strings
  import opened Board
  import opened Constants
  import opened ProgressBar
  import ColumnContainer
  import ColumnDock

  // ---------------------------------------------------------------- droppable ids

  /** `getActualColumnId`: a `column-drop-` id loses its prefix (`replace`
      cuts the first occurrence, which is the prefix); any other id is kept. */
  function ActualColumnId(overId: string): (r: string)
    ensures StartsWith(overId, ColumnContainer.ColumnDropPrefix) ==> ColumnContainer.ColumnDropPrefix + r == overId
    ensures !StartsWith(overId, ColumnContainer.ColumnDropPrefix) ==> r == overId
  {
    var prefix := ColumnContainer.ColumnDropPrefix;
    if StartsWith(overId, prefix) then
      var rest := overId[|prefix|..];
      assert overId == prefix + rest;
      RemoveFirstOfPrefixed(prefix, rest);
      RemoveFirst(overId, prefix)
    else overId
  }

  /** Decoding a column's droppable id gives back the column id; a bare
      column id (one that does not itself start with the prefix) passes through. */
  lemma ActualColumnIdRoundTrip(c: Column)
    ensures ActualColumnId(ColumnContainer.DroppableId(c)) == c.id
    ensures !StartsWith(c.id, ColumnContainer.ColumnDropPrefix) ==> ActualColumnId(c.id) == c.id
  {
    var prefix := ColumnContainer.ColumnDropPrefix;
    var r := ActualColumnId(ColumnContainer.DroppableId(c));
    assert r == (prefix + r)[|prefix|..];
  }

  /** The column of a dock target: `dock-column-` cut off with `replace`, or
      `None` for an id that is not a dock item's. */
  function DockTargetColumn(overId: string): (r: Option<string>)
    ensures r.Some? <==> StartsWith(overId, ColumnDock.DockPrefix)
    ensures r.Some? ==> ColumnDock.DockPrefix + r.value == overId
  {
    var prefix := ColumnDock.DockPrefix;
    if StartsWith(overId, prefix) then
      var rest := overId[|prefix|..];
      assert overId == prefix + rest;
      RemoveFirstOfPrefixed(prefix, rest);
      Some(RemoveFirst(overId, prefix))
    else None
  }

  /** Decoding a dock item's id gives back the column id. */
  lemma DockTargetRoundTrip(c: Column)
    ensures DockTargetColumn(ColumnDock.DockId(c)) == Some(c.id)
  {
    var prefix := ColumnDock.DockPrefix;
    var r := DockTargetColumn(ColumnDock.DockId(c)).value;
    assert r == (prefix + r)[|prefix|..];
  }

  // ---------------------------------------------------------------- handleDragOver

  /** The column a hovered column target stands for:
      `getActualColumnId(over.data.current?.column?.id || over.id)`. */
  function HoverColumnId(o: Over): string {
    ActualColumnId(if o.column.Some? && o.column.value.id != "" then o.column.value.id else o.id)
  }

  /** Both registrations of a column, the sortable and the `column-drop-`
      droppable, are read as that column. */
  lemma HoverColumnIdOfColumn(c: Column)
    requires !StartsWith(c.id, ColumnContainer.ColumnDropPrefix)
    ensures HoverColumnId(ColumnContainer.DroppableOver(c)) == c.id
    ensures HoverColumnId(ColumnContainer.SortableOver(c)) == c.id
  {
    ActualColumnIdRoundTrip(c);
  }

  /** The early returns of `handleDragOver`: no target, the item over
      itself, a dragged column, or a dock item. */
  predicate HoverIgnored(e: DragEvent) {
    e.over.None? || e.active.id == e.over.value.id || e.active.kind != TaskItem
    || StartsWith(e.over.value.id, ColumnDock.DockPrefix)
  }

  /** Whether `handleDragOver` arms the confetti flag: a task that was not in
      `done` hovers a task of `done` or the `done` column. */
  predicate HoverArms(e: DragEvent) {
    !HoverIgnored(e) && !WasInDone(e.active) &&
    match e.over.value.kind
    case TaskItem => OverTaskInDone(e.over.value)
    case ColumnItem => HoverColumnId(e.over.value) == Done
    case Untyped => false
  }

  /** The task-over-column updater: the found task takes the column in
      place, unless it is already there; the guard only skips a change that
      would leave the list as it is. */
  function HoverTaskOverColumn(tasks: seq<Task>, activeId: string, columnId: string): (r: seq<Task>)
    ensures r == ReassignFound(tasks, activeId, columnId)
  {
    var i := FindTask(tasks, activeId);
    if i == -1 then tasks
    else if tasks[i].columnId == columnId then
      assert tasks[i].(columnId := columnId) == tasks[i];
      tasks
    else SetColumnAt(tasks, i, columnId)
  }

  /** The task list after `handleDragOver`. */
  function HoverTasks(tasks: seq<Task>, e: DragEvent): (r: seq<Task>)
    ensures |r| == |tasks|
    ensures HoverIgnored(e) ==> r == tasks
    ensures !HoverIgnored(e) && e.over.value.kind == TaskItem ==>
      r == HoverTaskOverTask(tasks, e.active.id, e.over.value.id)
    ensures !HoverIgnored(e) && e.over.value.kind == ColumnItem ==>
      r == ReassignFound(tasks, e.active.id, HoverColumnId(e.over.value))
    ensures !HoverIgnored(e) && e.over.value.kind == Untyped ==> r == tasks
  {
    if HoverIgnored(e) then tasks
    else
      match e.over.value.kind
      case TaskItem => HoverTaskOverTask(tasks, e.active.id, e.over.value.id)
      case ColumnItem => HoverTaskOverColumn(tasks, e.active.id, HoverColumnId(e.over.value))
      case Untyped => tasks
  }

  /** Hovering keeps a board without orphans orphan-free as long as a
      hovered column target names a column of the board. */
  lemma HoverKeepsNoOrphans(columns: seq<Column>, tasks: seq<Task>, e: DragEvent)
    requires NoOrphans(columns, tasks)
    requires e.over.Some? && e.over.value.kind == ColumnItem ==> HoverColumnId(e.over.value) in ColumnIds(columns)
    ensures NoOrphans(columns, HoverTasks(tasks, e))
  {
    if !HoverIgnored(e) {
      match e.over.value.kind
      case TaskItem => HoverTaskOverTaskKeepsNoOrphans(columns, tasks, e.active.id, e.over.value.id);
      case ColumnItem => ReassignFoundKeepsNoOrphans(columns, tasks, e.active.id, HoverColumnId(e.over.value));
      case Untyped =>
    }
  }

  /** A task hovered over a column's `column-drop-` droppable moves into that
      column, at its place in the list; the flag is armed exactly when it
      leaves another column for `done`. */
  lemma HoverOverDroppable(columns: seq<Column>, tasks: seq<Task>, a: Active, c: Column)
    requires a.kind == TaskItem && a.id != ColumnContainer.DroppableId(c)
    requires !StartsWith(c.id, ColumnContainer.ColumnDropPrefix)
    requires NoOrphans(columns, tasks) && c in columns
    ensures var e := DragEvent(a, Some(ColumnContainer.DroppableOver(c)));
            && HoverTasks(tasks, e) == ReassignFound(tasks, a.id, c.id)
            && NoOrphans(columns, HoverTasks(tasks, e))
            && (HoverArms(e) <==> !WasInDone(a) && c.id == Done)
  {
    var e := DragEvent(a, Some(ColumnContainer.DroppableOver(c)));
    HoverColumnIdOfColumn(c);
    assert !StartsWith(e.over.value.id, ColumnDock.DockPrefix) by {
      assert e.over.value.id[..|ColumnDock.DockPrefix|] != ColumnDock.DockPrefix by {
        assert e.over.value.id[..|ColumnDock.DockPrefix|][0..5] == "colum";
      }
    }
    var i :| 0 <= i < |columns| && columns[i] == c;
    assert ColumnIds(columns)[i] == c.id;
    HoverKeepsNoOrphans(columns, tasks, e);
  }

  /** The snapshots an event carries agree with the board: the dragged task,
      and a hovered task, are found on the board as the event shows them. */
  predicate SnapshotsAgree(tasks: seq<Task>, e: DragEvent) {
    && e.active.task.Some? && FindTask(tasks, e.active.id) != -1
    && tasks[FindTask(tasks, e.active.id)] == e.active.task.value
    && (e.over.Some? && e.over.value.kind == TaskItem ==>
          && e.over.value.task.Some? && FindTask(tasks, e.over.value.id) != -1
          && tasks[FindTask(tasks, e.over.value.id)] == e.over.value.task.value)
  }

  /** The flag is armed only for a hover that really carries the dragged
      task out of another column into `done`. */
  lemma HoverArmsOnlyIntoDone(tasks: seq<Task>, e: DragEvent)
    requires SnapshotsAgree(tasks, e) && HoverArms(e)
    ensures var t := tasks[FindTask(tasks, e.active.id)];
            t.columnId != Done && t.(columnId := Done) in HoverTasks(tasks, e)
  {
    var a := FindTask(tasks, e.active.id);
    var moved := tasks[a].(columnId := Done);
    var r := HoverTasks(tasks, e);
    if e.over.value.kind == TaskItem {
      HoverTaskOverTaskMoves(tasks, e.active.id, e.over.value.id);
      assert moved in multiset(tasks[a := moved]) by { assert tasks[a := moved][a] == moved; }
      assert moved in multiset(r);
    } else {
      assert r[a] == moved;
    }
  }

  // ---------------------------------------------------------------- handleDragEnd

  /** The early returns of `handleDragEnd`, taken after the flag is handled. */
  predicate DropIgnored(e: DragEvent) {
    e.over.None? || e.active.id == e.over.value.id
  }

  /** The task list after `handleDragEnd`: a task released on a dock item
      moves to that item's column (and the handler stops there); a task
      released on a task of its own column is reordered. */
  function DropTasks(tasks: seq<Task>, e: DragEvent): (r: seq<Task>)
    ensures |r| == |tasks|
    ensures DropIgnored(e) ==> r == tasks
    ensures !DropIgnored(e) && e.active.kind == TaskItem && DockTargetColumn(e.over.value.id).Some? ==>
      r == ReassignFound(tasks, e.active.id, DockTargetColumn(e.over.value.id).value)
    ensures !DropIgnored(e) && e.active.kind == TaskItem && DockTargetColumn(e.over.value.id).None?
              && e.over.value.kind == TaskItem
            ==> r == ReorderTasks(tasks, e.active.id, e.over.value.id)
    ensures !DropIgnored(e) && e.active.kind == TaskItem && DockTargetColumn(e.over.value.id).None?
              && e.over.value.kind != TaskItem
            ==> r == tasks
    ensures e.active.kind != TaskItem ==> r == tasks
  {
    if DropIgnored(e) then tasks
    else if e.active.kind == TaskItem && DockTargetColumn(e.over.value.id).Some? then
      ReassignFound(tasks, e.active.id, DockTargetColumn(e.over.value.id).value)
    else if e.active.kind == TaskItem && e.over.value.kind == TaskItem then
      ReorderTasks(tasks, e.active.id, e.over.value.id)
    else tasks
  }

  /** The column list after `handleDragEnd`: reordered when a column was dragged. */
  function DropColumns(columns: seq<Column>, e: DragEvent): (r: seq<Column>)
    ensures |r| == |columns| && multiset(r) == multiset(columns)
    ensures DropIgnored(e) || e.active.kind != ColumnItem ==> r == columns
  {
    if DropIgnored(e) || e.active.kind != ColumnItem then columns
    else ReorderColumns(columns, e.active.id, e.over.value.id)
  }

  /** A task released on a dock item moves to that item's column without
      changing its place, the columns stay as they are, and a board without
      orphans stays so when the item's column is on the board. */
  lemma DockDrop(columns: seq<Column>, tasks: seq<Task>, a: Active, c: Column)
    requires a.kind == TaskItem && a.id != ColumnDock.DockId(c)
    ensures var e := DragEvent(a, Some(ColumnDock.DockOver(c)));
            && DropTasks(tasks, e) == ReassignFound(tasks, a.id, c.id)
            && DropColumns(columns, e) == columns
            && (NoOrphans(columns, tasks) && c in columns ==> NoOrphans(columns, DropTasks(tasks, e)))
  {
    DockTargetRoundTrip(c);
    if NoOrphans(columns, tasks) && c in columns {
      var i :| 0 <= i < |columns| && columns[i] == c;
      assert ColumnIds(columns)[i] == c.id;
      ReassignFoundKeepsNoOrphans(columns, tasks, a.id, c.id);
    }
  }

  /** A task released on a task of its own column lands at that task's index,
      the others keeping their order. */
  lemma SameColumnRelease(tasks: seq<Task>, e: DragEvent)
    requires !DropIgnored(e) && e.active.kind == TaskItem && e.over.value.kind == TaskItem
    requires !StartsWith(e.over.value.id, ColumnDock.DockPrefix)
    requires FindTask(tasks, e.active.id) != -1 && FindTask(tasks, e.over.value.id) != -1
    requires tasks[FindTask(tasks, e.active.id)].columnId == tasks[FindTask(tasks, e.over.value.id)].columnId
    ensures var a, o := FindTask(tasks, e.active.id), FindTask(tasks, e.over.value.id);
            var r := DropTasks(tasks, e);
            r[o] == tasks[a] && RemoveAt(r, o) == RemoveAt(tasks, a) && multiset(r) == multiset(tasks)
  {
    ReorderTasksPlacesDragged(tasks, e.active.id, e.over.value.id);
  }

  // ---------------------------------------------------------------- derived values

  /** `filteredTasks`: a blank query (nothing but white space) filters
      nothing; otherwise the tasks whose lowercased title or content holds the
      lowercased query, in board order. */
  function FilteredTasks(tasks: seq<Task>, query: string): (r: seq<Task>)
    ensures AllSpace(query) ==> r == tasks
    ensures !AllSpace(query) ==> forall t :: t in r <==> t in tasks && MatchesQuery(t, query)
  {
    if Trim(query) == [] then tasks else SearchTasks(tasks, query)
  }

  /** `stats`. */
  datatype Stats = Stats(total: nat, completed: nat, inProgress: nat, todo: nat, percentage: nat)

  /** The counts per default column and the same rounded percentage as the
      progress bar; on a board whose tasks all sit in todo, doing or done the
      three counts add up to the total. */
  function StatsOf(tasks: seq<Task>): (s: Stats)
    ensures s.total == |tasks| && s.completed == CompletedCount(tasks) && s.percentage == Progress(tasks)
    ensures s.inProgress == |TasksIn(tasks, "doing")| && s.todo == |TasksIn(tasks, "todo")|
    ensures (forall t :: t in tasks ==> t.columnId in {"todo", "doing", Done}) ==>
      s.completed + s.inProgress + s.todo == s.total
  {
    CountIsFilterLength(tasks, "doing");
    CountIsFilterLength(tasks, "todo");
    DefaultColumnCounts(tasks);
    Stats(|tasks|, CompletedCount(tasks), CountWhere(tasks, "doing"), CountWhere(tasks, "todo"), Progress(tasks))
  }

  lemma DefaultColumnCounts(tasks: seq<Task>)
    ensures (forall t :: t in tasks ==> t.columnId in {"todo", "doing", Done}) ==>
      CountWhere(tasks, Done) + CountWhere(tasks, "doing") + CountWhere(tasks, "todo") == |tasks|
  {
    if forall t :: t in tasks ==> t.columnId in {"todo", "doing", Done} {
      CountsPartition(tasks);
    }
  }

  // ---------------------------------------------------------------- creation

  /** `title?.trim() || \`Column ${columns.length + 1}\``: never blank. */
  function NewColumnTitle(title: Option<string>, count: nat): (r: string)
    ensures r != []
    ensures title.Some? && !AllSpace(title.value) ==> r == Trim(title.value)
    ensures title.None? || AllSpace(title.value) ==> r == "Column " + NatToString(count + 1)
  {
    if title.Some? && Trim(title.value) != [] then Trim(title.value)
    else "Column " + NatToString(count + 1)
  }

  /** The optional fields `createTask` accepts; "" stands for a missing or falsy field. */
  datatype TaskDraft = TaskDraft(title: string, content: string, color: string, priority: string)

  /** The task `createTask` builds; `count` is the number of tasks, the id
      and the random colour come from outside. Title and priority are never blank. */
  function NewTask(columnId: string, draft: TaskDraft, count: nat, freshId: string, randomColor: string): (t: Task)
    ensures t.id == freshId && t.columnId == columnId
    ensures t.title != [] && t.priority != []
    ensures t.title == (if draft.title != "" then draft.title else "Task " + NatToString(count + 1))
    ensures t.content == draft.content
    ensures t.color == (if draft.color != "" then draft.color else randomColor)
    ensures t.priority == (if draft.priority != "" then draft.priority else Medium)
  {
    Task(freshId, columnId,
         if draft.title != "" then draft.title else "Task " + NatToString(count + 1),
         draft.content,
         if draft.color != "" then draft.color else randomColor,
         if draft.priority != "" then draft.priority else Medium)
  }

  /** A board opened on a project with nothing saved has no orphan task. */
  lemma InitialBoardNoOrphans(projectId: string)
    ensures NoOrphans(DefaultColumns, if projectId == DefaultProject.id then SampleTasks else [])
  {
    SampleTasksNoOrphans();
  }

  // ---------------------------------------------------------------- the hook

  class Kanban {
    const projectId: string
    var columns: seq<Column>
    var tasks: seq<Task>
    var activeColumn: Option<Column>
    var activeTask: Option<Task>
    var searchQuery: string
    /** `shouldFireConfetti.current`. */
    var shouldFireConfetti: bool
    /** How many times the confetti has been fired. */
    ghost var confettiFired: nat

    /** The saved lists for the project win (`None`: nothing saved, or not
        readable); otherwise the default columns, and the sample tasks on the
        default project only. */
    constructor(projectId: string, savedColumns: Option<seq<Column>>, savedTasks: Option<seq<Task>>)
      ensures this.projectId == projectId
      ensures columns == savedColumns.GetOr(DefaultColumns)
      ensures tasks == savedTasks.GetOr(if projectId == DefaultProject.id then SampleTasks else [])
      ensures activeColumn.None? && activeTask.None? && searchQuery == ""
      ensures !shouldFireConfetti && confettiFired == 0
    {
      this.projectId := projectId;
      columns := savedColumns.GetOr(DefaultColumns);
      tasks := savedTasks.GetOr(if projectId == DefaultProject.id then SampleTasks else []);
      activeColumn := None;
      activeTask := None;
      searchQuery := "";
      shouldFireConfetti := false;
      confettiFired := 0;
    }

    /** `tasksByColumn`: one group per column, holding the filtered tasks of
        that column in board order; a task whose column is unknown is in no group. */
    method TasksByColumn() returns (groups: map<string, seq<Task>>)
      ensures groups.Keys == ColumnIdSet(columns)
      ensures forall k :: k in groups ==> groups[k] == TasksIn(FilteredTasks(tasks, searchQuery), k)
    {
      groups := GroupByColumn(columns, FilteredTasks(tasks, searchQuery));
    }

    method SetSearchQuery(q: string)
      modifies this
      ensures searchQuery == q
      ensures columns == old(columns) && tasks == old(tasks) && activeColumn == old(activeColumn)
      ensures activeTask == old(activeTask) && shouldFireConfetti == old(shouldFireConfetti)
      ensures confettiFired == old(confettiFired)
    {
      searchQuery := q;
    }

    /** `createColumn`: appends one column with a fresh id. */
    method CreateColumn(title: Option<string>, freshId: string) returns (c: Column)
      requires freshId !in ColumnIds(columns)
      modifies this
      ensures c == Column(freshId, NewColumnTitle(title, |old(columns)|))
      ensures columns == old(columns) + [c]
      ensures tasks == old(tasks) && activeColumn == old(activeColumn) && activeTask == old(activeTask)
      ensures searchQuery == old(searchQuery) && shouldFireConfetti == old(shouldFireConfetti)
      ensures confettiFired == old(confettiFired)
    {
      c := Column(freshId, NewColumnTitle(title, |columns|));
      columns := columns + [c];
    }

    /** `updateColumn`: retitles the matching column. */
    method UpdateColumn(id: string, title: string)
      modifies this
      ensures columns == RetitleColumn(old(columns), id, title)
      ensures tasks == old(tasks) && activeColumn == old(activeColumn) && activeTask == old(activeTask)
      ensures searchQuery == old(searchQuery) && shouldFireConfetti == old(shouldFireConfetti)
      ensures confettiFired == old(confettiFired)
    {
      columns := RetitleColumn(columns, id, title);
    }

    /** `deleteColumn`: removes the column and every task in it. */
    method DeleteColumn(id: string)
      modifies this
      ensures columns == WithoutColumn(old(columns), id)
      ensures tasks == WithoutTasksOf(old(tasks), id)
      ensures activeColumn == old(activeColumn) && activeTask == old(activeTask)
      ensures searchQuery == old(searchQuery) && shouldFireConfetti == old(shouldFireConfetti)
      ensures confettiFired == old(confettiFired)
    {
      columns := WithoutColumn(columns, id);
      tasks := WithoutTasksOf(tasks, id);
    }

    /** `createTask`: appends one task with a fresh id. */
    method CreateTask(columnId: string, draft: TaskDraft, freshId: string, randomColor: string) returns (t: Task)
      requires freshId !in TaskIds(tasks)
      modifies this
      ensures t == NewTask(columnId, draft, |old(tasks)|, freshId, randomColor)
      ensures tasks == old(tasks) + [t]
      ensures columns == old(columns) && activeColumn == old(activeColumn) && activeTask == old(activeTask)
      ensures searchQuery == old(searchQuery) && shouldFireConfetti == old(shouldFireConfetti)
      ensures confettiFired == old(confettiFired)
    {
      t := NewTask(columnId, draft, |tasks|, freshId, randomColor);
      tasks := tasks + [t];
    }

    /** `updateTask`: merges the update into the matching task. */
    method UpdateTask(id: string, patch: TaskPatch)
      modifies this
      ensures tasks == PatchTasks(old(tasks), id, patch)
      ensures columns == old(columns) && activeColumn == old(activeColumn) && activeTask == old(activeTask)
      ensures searchQuery == old(searchQuery) && shouldFireConfetti == old(shouldFireConfetti)
      ensures confettiFired == old(confettiFired)
    {
      tasks := PatchTasks(tasks, id, patch);
    }

    /** `deleteTask`. */
    method DeleteTask(id: string)
      modifies this
      ensures tasks == WithoutTask(old(tasks), id)
      ensures columns == old(columns) && activeColumn == old(activeColumn) && activeTask == old(activeTask)
      ensures searchQuery == old(searchQuery) && shouldFireConfetti == old(shouldFireConfetti)
      ensures confettiFired == old(confettiFired)
    {
      tasks := WithoutTask(tasks, id);
    }

    /** `moveTask`: the matching tasks take the target column. */
    method MoveTask(taskId: string, targetColumnId: string)
      modifies this
      ensures tasks == ReassignTasks(old(tasks), taskId, targetColumnId)
      ensures columns == old(columns) && activeColumn == old(activeColumn) && activeTask == old(activeTask)
      ensures searchQuery == old(searchQuery) && shouldFireConfetti == old(shouldFireConfetti)
      ensures confettiFired == old(confettiFired)
    {
      tasks := ReassignTasks(tasks, taskId, targetColumnId);
    }

    /** `handleDragStart`: remembers the dragged column or task. */
    method HandleDragStart(a: Active)
      modifies this
      ensures activeColumn == (if a.kind == ColumnItem then a.column else old(activeColumn))
      ensures activeTask == (if a.kind == TaskItem then a.task else old(activeTask))
      ensures columns == old(columns) && tasks == old(tasks) && searchQuery == old(searchQuery)
      ensures shouldFireConfetti == old(shouldFireConfetti) && confettiFired == old(confettiFired)
    {
      if a.kind == ColumnItem {
        activeColumn := a.column;
      } else if a.kind == TaskItem {
        activeTask := a.task;
      }
    }

    /** `handleDragOver`: may arm the flag, never clears it, never fires. */
    method HandleDragOver(e: DragEvent)
      modifies this
      ensures shouldFireConfetti == (old(shouldFireConfetti) || HoverArms(e))
      ensures tasks == HoverTasks(old(tasks), e)
      ensures columns == old(columns) && activeColumn == old(activeColumn) && activeTask == old(activeTask)
      ensures searchQuery == old(searchQuery) && confettiFired == old(confettiFired)
    {
      if HoverArms(e) {
        shouldFireConfetti := true;
      }
      tasks := HoverTasks(tasks, e);
    }

    /** `handleDragEnd`: forgets the dragged item, fires the confetti once if
        it was armed and disarms it, whatever the event; then applies the release. */
    method HandleDragEnd(e: DragEvent)
      modifies this
      ensures activeColumn.None? && activeTask.None? && !shouldFireConfetti
      ensures confettiFired == old(confettiFired) + (if old(shouldFireConfetti) then 1 else 0)
      ensures tasks == DropTasks(old(tasks), e) && columns == DropColumns(old(columns), e)
      ensures searchQuery == old(searchQuery)
    {
      activeColumn := None;
      activeTask := None;
      if shouldFireConfetti {
        confettiFired := confettiFired + 1;
        shouldFireConfetti := false;
      }
      tasks := DropTasks(tasks, e);
      columns := DropColumns(columns, e);
    }
  }
}
