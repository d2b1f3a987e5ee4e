/** The board's data model (columns, tasks, projects), the drag event that
    dnd-kit hands to the handlers, and the list transforms that useKanban.js
    and KanbanBoard.jsx both use: `filter`, `findIndex`, `arrayMove`, the
    search filter and the grouping of tasks by column. */
module Board {
  import opened Wrappers
  import opened Strings

  /** The id of the completion column, whose entry is celebrated. */
  const Done: string := "done"

  datatype Column = Column(id: string, title: string)

  /** A card. `priority` is "" when the task carries none. */
  datatype Task = Task(id: string, columnId: string, title: string, content: string,
                       color: string, priority: string)

  datatype Project = Project(id: string, name: string)

  /** No id occurs twice. */
  predicate Distinct(ids: seq<string>) {
    forall i, j :: 0 <= i < j < |ids| ==> ids[i] != ids[j]
  }

  /** Every task's `columnId` names a column on the board. */
  predicate NoOrphans(columns: seq<Column>, tasks: seq<Task>) {
    forall t :: t in tasks ==> t.columnId in ColumnIds(columns)
  }

  // ---------------------------------------------------------------- ids

  /** `tasks.map(task => task.id)`. */
  function TaskIds(tasks: seq<Task>): (ids: seq<string>)
    ensures |ids| == |tasks| && forall i :: 0 <= i < |tasks| ==> ids[i] == tasks[i].id
  {
    seq(|tasks|, i requires 0 <= i < |tasks| => tasks[i].id)
  }

  /** The ids of a list of projects, in order. */
  function ProjectIds(ps: seq<Project>): (ids: seq<string>)
    ensures |ids| == |ps| && forall i :: 0 <= i < |ps| ==> ids[i] == ps[i].id
  {
    seq(|ps|, i requires 0 <= i < |ps| => ps[i].id)
  }

  /** `columns.map(col => col.id)`. */
  function ColumnIds(columns: seq<Column>): (ids: seq<string>)
    ensures |ids| == |columns| && forall i :: 0 <= i < |columns| ==> ids[i] == columns[i].id
  {
    seq(|columns|, i requires 0 <= i < |columns| => columns[i].id)
  }

  /** `ids.findIndex(x => x === id)`: the first position holding `id`, or -1. */
  function IndexOf(ids: seq<string>, id: string): (r: int)
    ensures -1 <= r < |ids|
    ensures r == -1 <==> id !in ids
    ensures 0 <= r ==> ids[r] == id && id !in ids[..r]
  {
    if ids == [] then -1
    else if ids[0] == id then 0
    else
      var k := IndexOf(ids[1..], id);
      assert id in ids <==> id in ids[1..] by { assert ids == [ids[0]] + ids[1..]; }
      if k == -1 then -1
      else
        assert ids[..k + 1] == [ids[0]] + ids[1..][..k];
        k + 1
  }

  /** `tasks.findIndex(t => t.id === id)`. */
  function FindTask(tasks: seq<Task>, id: string): (r: int)
    ensures -1 <= r < |tasks|
    ensures r == -1 <==> forall t :: t in tasks ==> t.id != id
    ensures 0 <= r ==> tasks[r].id == id && forall j :: 0 <= j < r ==> tasks[j].id != id
  {
    TaskIdsIndex(tasks, id);
    IndexOf(TaskIds(tasks), id)
  }

  lemma TaskIdsIndex(tasks: seq<Task>, id: string)
    ensures var r := IndexOf(TaskIds(tasks), id);
            && (r == -1 <==> forall t :: t in tasks ==> t.id != id)
            && (0 <= r ==> forall j :: 0 <= j < r ==> tasks[j].id != id)
  {
    var ids := TaskIds(tasks);
    var r := IndexOf(ids, id);
    if r == -1 {
      forall t | t in tasks ensures t.id != id {
        var i :| 0 <= i < |tasks| && tasks[i] == t;
        assert ids[i] == t.id;
      }
    } else {
      assert tasks[r] in tasks;
      forall j | 0 <= j < r ensures tasks[j].id != id {
        assert ids[..r][j] == tasks[j].id;
      }
    }
  }

  /** `columns.findIndex(col => col.id === id)`. */
  function FindColumn(columns: seq<Column>, id: string): (r: int)
    ensures -1 <= r < |columns|
    ensures r == -1 <==> id !in ColumnIds(columns)
    ensures 0 <= r ==> columns[r].id == id && forall j :: 0 <= j < r ==> columns[j].id != id
  {
    ColumnIdsIndex(columns, id);
    IndexOf(ColumnIds(columns), id)
  }

  lemma ColumnIdsIndex(columns: seq<Column>, id: string)
    ensures var r := IndexOf(ColumnIds(columns), id);
            0 <= r ==> forall j :: 0 <= j < r ==> columns[j].id != id
  {
    var ids := ColumnIds(columns);
    var r := IndexOf(ids, id);
    if 0 <= r {
      forall j | 0 <= j < r ensures columns[j].id != id {
        assert ids[..r][j] == columns[j].id;
      }
    }
  }

  // ---------------------------------------------------------------- filter

  /** `s.filter(keep)`, built from the front as the JavaScript loop builds it. */
  function Filter<T(!new)>(s: seq<T>, keep: T -> bool): (r: seq<T>)
    ensures |r| <= |s|
    ensures forall x :: x in r <==> x in s && keep(x)
    decreases |s|
  {
    if s == [] then []
    else
      var init, last := s[..|s| - 1], s[|s| - 1];
      assert s == init + [last];
      Filter(init, keep) + (if keep(last) then [last] else [])
  }

  /** Filtering keeps the relative order: it distributes over concatenation. */
  lemma {:induction false} FilterAppend<T(!new)>(a: seq<T>, b: seq<T>, keep: T -> bool)
    ensures Filter(a + b, keep) == Filter(a, keep) + Filter(b, keep)
    decreases |b|
  {
    if b == [] {
      assert a + b == a;
    } else {
      var b', last := b[..|b| - 1], b[|b| - 1];
      assert (a + b)[..|a + b| - 1] == a + b';
      FilterAppend(a, b', keep);
    }
  }

  /** A filter that every element passes changes nothing. */
  lemma {:induction false} FilterKeepsAll<T(!new)>(s: seq<T>, keep: T -> bool)
    requires forall x :: x in s ==> keep(x)
    ensures Filter(s, keep) == s
    decreases |s|
  {
    if s != [] {
      var init, last := s[..|s| - 1], s[|s| - 1];
      assert s == init + [last];
      assert forall x :: x in init ==> x in s;
      FilterKeepsAll(init, keep);
      assert keep(last);
    }
  }

  /** The tasks of column `columnId`, in board order. */
  function TasksIn(tasks: seq<Task>, columnId: string): (r: seq<Task>)
    ensures forall t :: t in r <==> t in tasks && t.columnId == columnId
  {
    Filter(tasks, (t: Task) => t.columnId == columnId)
  }

  /** `tasks.filter(task => task.columnId !== columnId)`. */
  function WithoutTasksOf(tasks: seq<Task>, columnId: string): (r: seq<Task>)
    ensures forall t :: t in r <==> t in tasks && t.columnId != columnId
  {
    Filter(tasks, (t: Task) => t.columnId != columnId)
  }

  /** `tasks.filter(task => task.id !== id)`. */
  function WithoutTask(tasks: seq<Task>, id: string): (r: seq<Task>)
    ensures forall t :: t in r <==> t in tasks && t.id != id
  {
    Filter(tasks, (t: Task) => t.id != id)
  }

  /** `columns.filter(col => col.id !== id)`. */
  function WithoutColumn(columns: seq<Column>, id: string): (r: seq<Column>)
    ensures forall c :: c in r <==> c in columns && c.id != id
  {
    Filter(columns, (c: Column) => c.id != id)
  }

  /** Deleting column `id` removes exactly the tasks of that column: every
      other column keeps its tasks in the same order, and the count drops by
      the number of tasks the deleted column held. */
  lemma {:induction false} DeleteColumnCascade(tasks: seq<Task>, id: string, other: string)
    requires other != id
    ensures TasksIn(WithoutTasksOf(tasks, id), other) == TasksIn(tasks, other)
    ensures TasksIn(WithoutTasksOf(tasks, id), id) == []
    ensures |WithoutTasksOf(tasks, id)| + |TasksIn(tasks, id)| == |tasks|
    decreases |tasks|
  {
    if tasks != [] {
      var init, last := tasks[..|tasks| - 1], tasks[|tasks| - 1];
      DeleteColumnCascade(init, id, other);
      var kept := WithoutTasksOf(init, id);
      var extra := if last.columnId != id then [last] else [];
      assert WithoutTasksOf(tasks, id) == kept + extra;
      FilterAppend(kept, extra, (t: Task) => t.columnId == other);
      FilterAppend(kept, extra, (t: Task) => t.columnId == id);
      if extra != [] {
        assert Filter(extra, (t: Task) => t.columnId == other) == TasksIn(extra, other);
        assert extra[..0] == [];
      }
    }
  }

  /** Deleting a column and its tasks keeps a board without orphans orphan-free. */
  lemma DeleteColumnKeepsNoOrphans(columns: seq<Column>, tasks: seq<Task>, id: string)
    requires NoOrphans(columns, tasks)
    ensures NoOrphans(WithoutColumn(columns, id), WithoutTasksOf(tasks, id))
  {
    var cs := WithoutColumn(columns, id);
    forall t | t in WithoutTasksOf(tasks, id) ensures t.columnId in ColumnIds(cs) {
      var i :| 0 <= i < |columns| && columns[i].id == t.columnId;
      assert columns[i] in cs;
      var j :| 0 <= j < |cs| && cs[j] == columns[i];
      assert ColumnIds(cs)[j] == t.columnId;
    }
  }

  // ---------------------------------------------------------------- map-style updates

  /** `columns.map(col => col.id === id ? { ...col, title } : col)`. */
  function RetitleColumn(columns: seq<Column>, id: string, title: string): (r: seq<Column>)
    ensures |r| == |columns| && ColumnIds(r) == ColumnIds(columns)
    ensures forall i :: 0 <= i < |r| ==>
      r[i].title == (if columns[i].id == id then title else columns[i].title)
    ensures id !in ColumnIds(columns) ==> r == columns
  {
    seq(|columns|, i requires 0 <= i < |columns| =>
      if columns[i].id == id then columns[i].(title := title) else columns[i])
  }

  /** The fields an update object may carry (`{ ...task, ...updates }`); `None`
      is a field the object does not have. */
  datatype TaskPatch = TaskPatch(id: Option<string>, columnId: Option<string>,
                                 title: Option<string>, content: Option<string>,
                                 color: Option<string>, priority: Option<string>)

  function Patched(t: Task, p: TaskPatch): Task {
    Task(p.id.GetOr(t.id), p.columnId.GetOr(t.columnId), p.title.GetOr(t.title),
         p.content.GetOr(t.content), p.color.GetOr(t.color), p.priority.GetOr(t.priority))
  }

  /** `tasks.map(task => task.id === id ? { ...task, ...updates } : task)`:
      tasks with another id are untouched, the order and length are kept. */
  function PatchTasks(tasks: seq<Task>, id: string, patch: TaskPatch): (r: seq<Task>)
    ensures |r| == |tasks|
    ensures forall i :: 0 <= i < |r| && tasks[i].id != id ==> r[i] == tasks[i]
    ensures forall i :: 0 <= i < |r| && tasks[i].id == id ==> r[i] == Patched(tasks[i], patch)
    ensures id !in TaskIds(tasks) ==> r == tasks
  {
    seq(|tasks|, i requires 0 <= i < |tasks| =>
      if tasks[i].id == id then Patched(tasks[i], patch) else tasks[i])
  }

  /** `tasks.map(task => task.id === id ? { ...task, columnId } : task)`:
      only the column of the matching tasks changes. */
  function ReassignTasks(tasks: seq<Task>, id: string, columnId: string): (r: seq<Task>)
    ensures |r| == |tasks| && TaskIds(r) == TaskIds(tasks)
    ensures forall i :: 0 <= i < |r| ==>
      r[i] == (if tasks[i].id == id then tasks[i].(columnId := columnId) else tasks[i])
    ensures id !in TaskIds(tasks) ==> r == tasks
  {
    seq(|tasks|, i requires 0 <= i < |tasks| =>
      if tasks[i].id == id then tasks[i].(columnId := columnId) else tasks[i])
  }

  /** `copy[i] = { ...copy[i], columnId }` on a copy of the list. */
  function SetColumnAt(tasks: seq<Task>, i: nat, columnId: string): (r: seq<Task>)
    requires i < |tasks|
    ensures |r| == |tasks| && r[i].columnId == columnId
    ensures r[i] == tasks[i].(columnId := columnId)
    ensures forall j :: 0 <= j < |r| && j != i ==> r[j] == tasks[j]
  {
    tasks[i := tasks[i].(columnId := columnId)]
  }

  /** The single-task reassignment the drag handlers perform: look the task
      up with `findIndex`, leave the list alone when it is missing, otherwise
      copy the list and give the found task the new column, in place. */
  function ReassignFound(tasks: seq<Task>, id: string, columnId: string): (r: seq<Task>)
    ensures |r| == |tasks| && TaskIds(r) == TaskIds(tasks)
    ensures FindTask(tasks, id) == -1 ==> r == tasks
    ensures FindTask(tasks, id) != -1 ==>
      var i := FindTask(tasks, id);
      r[i] == tasks[i].(columnId := columnId) && forall j :: 0 <= j < |r| && j != i ==> r[j] == tasks[j]
  {
    var i := FindTask(tasks, id);
    if i == -1 then tasks else SetColumnAt(tasks, i, columnId)
  }

  /** On a board whose task ids are distinct, moving the found task is the
      same as `moveTask`'s map over every task with that id. */
  lemma ReassignFoundIsMoveTask(tasks: seq<Task>, id: string, columnId: string)
    requires Distinct(TaskIds(tasks))
    ensures ReassignFound(tasks, id, columnId) == ReassignTasks(tasks, id, columnId)
  {
    var i := FindTask(tasks, id);
    var r, m := ReassignFound(tasks, id, columnId), ReassignTasks(tasks, id, columnId);
    forall j | 0 <= j < |tasks| ensures r[j] == m[j] {
      if tasks[j].id == id {
        assert tasks[j] in tasks;
        assert TaskIds(tasks)[i] == TaskIds(tasks)[j];
        assert j == i;
      }
    }
  }

  /** Reassigning to a column on the board keeps a board without orphans orphan-free. */
  lemma ReassignFoundKeepsNoOrphans(columns: seq<Column>, tasks: seq<Task>, id: string, columnId: string)
    requires NoOrphans(columns, tasks) && columnId in ColumnIds(columns)
    ensures NoOrphans(columns, ReassignFound(tasks, id, columnId))
  {
    var r := ReassignFound(tasks, id, columnId);
    forall t | t in r ensures t.columnId in ColumnIds(columns) {
      var j :| 0 <= j < |r| && r[j] == t;
      assert tasks[j] in tasks;
    }
  }

  // ---------------------------------------------------------------- arrayMove

  function RemoveAt<T>(s: seq<T>, i: nat): (r: seq<T>)
    requires i < |s|
    ensures |r| == |s| - 1 && multiset(r) + multiset{s[i]} == multiset(s)
  {
    assert s == s[..i] + [s[i]] + s[i + 1..];
    s[..i] + s[i + 1..]
  }

  function InsertAt<T>(s: seq<T>, i: nat, x: T): (r: seq<T>)
    requires i <= |s|
    ensures |r| == |s| + 1 && r[i] == x && multiset(r) == multiset(s) + multiset{x}
  {
    assert s == s[..i] + s[i..];
    s[..i] + [x] + s[i..]
  }

  /** Taking out what was just inserted gives the list back. */
  lemma RemoveInserted<T>(s: seq<T>, i: nat, x: T)
    requires i <= |s|
    ensures RemoveAt(InsertAt(s, i, x), i) == s
  {
    var t := InsertAt(s, i, x);
    assert t[..i] == s[..i] && t[i + 1..] == s[i..];
  }

  /** Where `splice` re-inserts into the shortened list of length `len`:
      at `to`, or for `to == -1` at `len`, the end. (`arrayMove` computes
      `newArray.length + to` before the inner `splice` removes the element,
      so -1 reads as the last index of the full list.) */
  function InsertPosition(len: nat, to: int): (p: nat)
    requires -1 <= to <= len
    ensures p <= len
  {
    if to < 0 then len else to
  }

  /** `arrayMove(s, from, to)` of @dnd-kit/sortable, which the source does
      not contain. Assumed definition, the library's published one: copy the
      list, take out the element at `from`, put it back at `to`; a `from` of -1
      takes the last element, a `to` of -1 puts it at the end. */
  function ArrayMove<T>(s: seq<T>, from: int, to: int): (r: seq<T>)
    requires |s| > 0 && -1 <= from < |s| && -1 <= to < |s|
    ensures |r| == |s| && multiset(r) == multiset(s)
  {
    var f := if from < 0 then |s| - 1 else from;
    var rest := RemoveAt(s, f);
    var p := InsertPosition(|rest|, to);
    InsertAt(rest, p, s[f])
  }

  /** With both indices in range, `arrayMove` puts the element at `from` at
      `to` and shifts the ones in between by one place; all others stay. */
  lemma ArrayMoveAt<T>(s: seq<T>, from: nat, to: nat)
    requires from < |s| && to < |s|
    ensures ArrayMove(s, from, to)[to] == s[from]
    ensures forall k :: 0 <= k < |s| && k < from && k < to ==> ArrayMove(s, from, to)[k] == s[k]
    ensures forall k :: 0 <= k < |s| && k > from && k > to ==> ArrayMove(s, from, to)[k] == s[k]
    ensures forall k :: from <= k < to ==> ArrayMove(s, from, to)[k] == s[k + 1]
    ensures forall k :: to < k <= from ==> ArrayMove(s, from, to)[k] == s[k - 1]
  {
    var rest := RemoveAt(s, from);
    assert forall k :: 0 <= k < from ==> rest[k] == s[k];
    assert forall k :: from <= k < |rest| ==> rest[k] == s[k + 1];
    var r := ArrayMove(s, from, to);
    assert r == InsertAt(rest, to, s[from]);
    assert forall k :: 0 <= k < to ==> r[k] == rest[k];
    assert forall k :: to < k < |r| ==> r[k] == rest[k - 1];
  }

  /** Moving an element onto its own index leaves the list as it was. */
  lemma ArrayMoveSameIndex<T>(s: seq<T>, i: nat)
    requires i < |s|
    ensures ArrayMove(s, i, i) == s
  {
    ArrayMoveAt(s, i, i);
  }

  /** A target index of -1 sends the element to the end of the list,
      keeping the others in order. */
  lemma ArrayMoveToEnd<T>(s: seq<T>, from: nat)
    requires from < |s|
    ensures ArrayMove(s, from, -1) == RemoveAt(s, from) + [s[from]]
  {
    var rest := RemoveAt(s, from);
    assert rest[..|rest|] == rest && rest[|rest|..] == [];
  }

  // ---------------------------------------------------------------- drag event

  /** `data.current?.type` of a draggable or droppable. */
  datatype ItemKind = TaskItem | ColumnItem | Untyped

  /** The dragged item: its id, type, and the task or column snapshot it carries. */
  datatype Active = Active(id: string, kind: ItemKind, task: Option<Task>, column: Option<Column>)

  /** The resolved drop target under the pointer. */
  datatype Over = Over(id: string, kind: ItemKind, task: Option<Task>, column: Option<Column>)

  /** `{ active, over }`; `over` is `None` when the pointer is outside every target. */
  datatype DragEvent = DragEvent(active: Active, over: Option<Over>)

  /** `active.data.current?.task?.columnId === "done"`. */
  predicate WasInDone(a: Active) {
    a.task.Some? && a.task.value.columnId == Done
  }

  /** `over.data.current?.task?.columnId === "done"`. */
  predicate OverTaskInDone(o: Over) {
    o.task.Some? && o.task.value.columnId == Done
  }

  // ---------------------------------------------------------------- drag transforms shared by both boards

  /** The `setTasks` updater for a task hovered over another task: when both
      are found and sit in different columns, the dragged task takes the
      hovered task's column and is moved by `arrayMove(…, active, over - 1)`;
      otherwise the list is returned as it is. */
  function HoverTaskOverTask(tasks: seq<Task>, activeId: string, overId: string): (r: seq<Task>)
    ensures |r| == |tasks|
  {
    var a := FindTask(tasks, activeId);
    var o := FindTask(tasks, overId);
    if a == -1 || o == -1 then tasks
    else if tasks[a].columnId != tasks[o].columnId then
      ArrayMove(SetColumnAt(tasks, a, tasks[o].columnId), a, o - 1)
    else tasks
  }

  /** Task over task: the result is a permutation of the list in which only
      the dragged task changed, and only its column, to the hovered task's.
      Coming from above it lands immediately before the hovered task; coming
      from below it lands one slot higher, with the task that preceded the
      hovered one between them; hovering over the very first task sends it to
      the end of the list (`arrayMove` to index -1). */
  lemma HoverTaskOverTaskMoves(tasks: seq<Task>, activeId: string, overId: string)
    requires FindTask(tasks, activeId) != -1 && FindTask(tasks, overId) != -1
    requires tasks[FindTask(tasks, activeId)].columnId != tasks[FindTask(tasks, overId)].columnId
    ensures var a, o := FindTask(tasks, activeId), FindTask(tasks, overId);
            var moved := tasks[a].(columnId := tasks[o].columnId);
            var r := HoverTaskOverTask(tasks, activeId, overId);
            && multiset(r) == multiset(tasks[a := moved])
            && (a < o ==> r[o - 1] == moved && r[o] == tasks[o])
            && (0 < o < a ==> r[o - 1] == moved && r[o] == tasks[o - 1] && r[o + 1] == tasks[o])
            && (o == 0 ==> r == RemoveAt(tasks[a := moved], a) + [moved])
  {
    var a, o := FindTask(tasks, activeId), FindTask(tasks, overId);
    var moved := tasks[a].(columnId := tasks[o].columnId);
    var s := SetColumnAt(tasks, a, tasks[o].columnId);
    assert s == tasks[a := moved];
    var r := HoverTaskOverTask(tasks, activeId, overId);
    assert r == ArrayMove(s, a, o - 1);
    if o > 0 {
      ArrayMoveAt(s, a, o - 1);
      if a < o {
        assert r[o] == s[o];
      } else {
        assert r[o] == s[o - 1] && r[o + 1] == s[o];
      }
    } else {
      ArrayMoveToEnd(s, a);
    }
  }

  /** Task over task in the same column, or with an id that is not on the
      board, changes nothing while hovering. */
  lemma HoverTaskOverTaskSameColumn(tasks: seq<Task>, activeId: string, overId: string)
    requires FindTask(tasks, activeId) == -1 || FindTask(tasks, overId) == -1
          || tasks[FindTask(tasks, activeId)].columnId == tasks[FindTask(tasks, overId)].columnId
    ensures HoverTaskOverTask(tasks, activeId, overId) == tasks
  {
  }

  /** The hover moves the dragged task into a column that already holds a
      task, so a board without orphans stays without orphans. */
  lemma HoverTaskOverTaskKeepsNoOrphans(columns: seq<Column>, tasks: seq<Task>, activeId: string, overId: string)
    requires NoOrphans(columns, tasks)
    ensures NoOrphans(columns, HoverTaskOverTask(tasks, activeId, overId))
  {
    var a, o := FindTask(tasks, activeId), FindTask(tasks, overId);
    if a != -1 && o != -1 && tasks[a].columnId != tasks[o].columnId {
      assert tasks[o] in tasks;
      SetColumnAtKeepsNoOrphans(columns, tasks, a, tasks[o].columnId);
      var s := SetColumnAt(tasks, a, tasks[o].columnId);
      PermutationKeepsNoOrphans(columns, s, ArrayMove(s, a, o - 1));
    }
  }

  /** Giving one task a column of the board keeps the board without orphans. */
  lemma SetColumnAtKeepsNoOrphans(columns: seq<Column>, tasks: seq<Task>, i: nat, columnId: string)
    requires NoOrphans(columns, tasks) && i < |tasks| && columnId in ColumnIds(columns)
    ensures NoOrphans(columns, SetColumnAt(tasks, i, columnId))
  {
    var s := SetColumnAt(tasks, i, columnId);
    forall t | t in s ensures t.columnId in ColumnIds(columns) {
      var j :| 0 <= j < |s| && s[j] == t;
      if j != i { assert tasks[j] in tasks; }
    }
  }

  /** Reordering the tasks keeps the board without orphans. */
  lemma PermutationKeepsNoOrphans(columns: seq<Column>, s: seq<Task>, r: seq<Task>)
    requires NoOrphans(columns, s) && multiset(r) == multiset(s)
    ensures NoOrphans(columns, r)
  {
    forall t | t in r ensures t.columnId in ColumnIds(columns) {
      assert t in multiset(r);
    }
  }

  /** The release updater for a task over a task: `arrayMove(…, active, over)`
      when both are found in the same column, otherwise the list unchanged. */
  function ReorderTasks(tasks: seq<Task>, activeId: string, overId: string): (r: seq<Task>)
    ensures |r| == |tasks| && multiset(r) == multiset(tasks)
    ensures var a, o := FindTask(tasks, activeId), FindTask(tasks, overId);
            a == -1 || o == -1 || tasks[a].columnId != tasks[o].columnId ==> r == tasks
  {
    var a := FindTask(tasks, activeId);
    var o := FindTask(tasks, overId);
    if a != -1 && o != -1 && tasks[a].columnId == tasks[o].columnId then ArrayMove(tasks, a, o)
    else tasks
  }

  /** A same-column release puts the dragged task at the hovered task's index
      and keeps every other task in its relative order. */
  lemma ReorderTasksPlacesDragged(tasks: seq<Task>, activeId: string, overId: string)
    requires FindTask(tasks, activeId) != -1 && FindTask(tasks, overId) != -1
    requires tasks[FindTask(tasks, activeId)].columnId == tasks[FindTask(tasks, overId)].columnId
    ensures var a, o := FindTask(tasks, activeId), FindTask(tasks, overId);
            var r := ReorderTasks(tasks, activeId, overId);
            r[o] == tasks[a] && RemoveAt(r, o) == RemoveAt(tasks, a)
  {
    var a, o := FindTask(tasks, activeId), FindTask(tasks, overId);
    RemoveInserted(RemoveAt(tasks, a), o, tasks[a]);
  }

  /** The release updater for a dragged column: `arrayMove(columns, active,
      over)` with the ids looked up among the columns. An empty list is
      returned as it is. */
  function ReorderColumns(columns: seq<Column>, activeId: string, overId: string): (r: seq<Column>)
    ensures |r| == |columns| && multiset(r) == multiset(columns)
  {
    if |columns| == 0 then columns
    else ArrayMove(columns, FindColumn(columns, activeId), FindColumn(columns, overId))
  }

  /** [A, B, C] with C released over A gives [C, A, B]. */
  lemma ReorderColumnsExample()
    ensures var a, b, c := Column("A", "A"), Column("B", "B"), Column("C", "C");
            ReorderColumns([a, b, c], "C", "A") == [c, a, b]
  {
    var a, b, c := Column("A", "A"), Column("B", "B"), Column("C", "C");
    assert ColumnIds([a, b, c]) == ["A", "B", "C"];
    assert FindColumn([a, b, c], "C") == 2;
    assert FindColumn([a, b, c], "A") == 0;
  }

  /** A column released over an id that is not a column's (a task, or a
      `column-drop-` droppable) passes -1 as the target index: the dragged
      column goes to the end and the others keep their order. */
  lemma ReorderColumnsOverUnknownId(columns: seq<Column>, activeId: string, overId: string)
    requires activeId in ColumnIds(columns) && overId !in ColumnIds(columns)
    ensures var a := FindColumn(columns, activeId);
            ReorderColumns(columns, activeId, overId) == RemoveAt(columns, a) + [columns[a]]
  {
    ArrayMoveToEnd(columns, FindColumn(columns, activeId));
  }

  /** A drag whose active id is not a column's passes -1 as the source
      index, which takes the LAST column: releasing an unknown id over a
      column moves the last column to that column's index. */
  lemma ReorderColumnsUnknownActive(columns: seq<Column>, activeId: string, overId: string)
    requires |columns| > 0 && activeId !in ColumnIds(columns) && overId in ColumnIds(columns)
    ensures ReorderColumns(columns, activeId, overId)[FindColumn(columns, overId)] == columns[|columns| - 1]
  {
  }

  // ---------------------------------------------------------------- search and grouping

  /** The search predicate both boards use: the lowercased title or content includes the lowercased query. */
  predicate MatchesQuery(t: Task, query: string) {
    Contains(ToLower(t.title), ToLower(query)) || Contains(ToLower(t.content), ToLower(query))
  }

  /** `tasks.filter(task => title or content includes query)`. */
  function SearchTasks(tasks: seq<Task>, query: string): (r: seq<Task>)
    ensures forall t :: t in r <==> t in tasks && MatchesQuery(t, query)
  {
    Filter(tasks, (t: Task) => MatchesQuery(t, query))
  }

  /** The ids of a list of columns, as a set: the keys of the grouping. */
  function ColumnIdSet(columns: seq<Column>): set<string> {
    set c | c in columns :: c.id
  }

  /** The `tasksByColumn` memo: `groups[col.id] = []` for every column, then
      each task is pushed onto the group of its column if that group exists. */
  method GroupByColumn(columns: seq<Column>, tasks: seq<Task>) returns (groups: map<string, seq<Task>>)
    ensures groups.Keys == ColumnIdSet(columns)
    ensures forall k :: k in groups ==> groups[k] == TasksIn(tasks, k)
  {
    groups := map[];
    for i := 0 to |columns|
      invariant groups.Keys == ColumnIdSet(columns[..i])
      invariant forall k :: k in groups ==> groups[k] == []
    {
      assert columns[..i + 1] == columns[..i] + [columns[i]];
      groups := groups[columns[i].id := []];
    }
    assert columns[..|columns|] == columns;
    for i := 0 to |tasks|
      invariant groups.Keys == ColumnIdSet(columns)
      invariant forall k :: k in groups ==> groups[k] == TasksIn(tasks[..i], k)
    {
      var t := tasks[i];
      assert tasks[..i + 1][..i] == tasks[..i];
      if t.columnId in groups {
        groups := groups[t.columnId := groups[t.columnId] + [t]];
      }
    }
    assert tasks[..|tasks|] == tasks;
  }

  /** In the grouping, a task appears in the group of its own column and in
      no other; a task whose column is not on the board appears nowhere. */
  lemma GroupMembership(columns: seq<Column>, tasks: seq<Task>, groups: map<string, seq<Task>>, t: Task)
    requires groups.Keys == ColumnIdSet(columns)
    requires forall k :: k in groups ==> groups[k] == TasksIn(tasks, k)
    ensures forall k :: k in groups && t in groups[k] ==> k == t.columnId
    ensures (exists k :: k in groups && t in groups[k]) <==> t in tasks && t.columnId in ColumnIdSet(columns)
  {
    if t in tasks && t.columnId in ColumnIdSet(columns) {
      assert t in groups[t.columnId];
    }
  }
}
