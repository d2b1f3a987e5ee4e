/** The mobile dock: one item per column that is a navigation link while
    idle and a teleport drop zone while a task is being dragged. */
module ColumnDock {
  import opened Wrappers
  import opened Strings
  import opened Board

  /** The prefix of a dock item's droppable id. */
  const DockPrefix: string := "dock-column-"

  /** The droppable id `dock-column-${column.id}`. */
  function DockId(c: Column): (r: string)
    ensures StartsWith(r, DockPrefix) && r[|DockPrefix|..] == c.id
  {
    DockPrefix + c.id
  }

  /** What a dock item reports as `over`: its prefixed id, type `Column` and the column. */
  function DockOver(c: Column): (o: Over)
    ensures o.id == DockId(c) && o.kind == ColumnItem && o.column == Some(c) && o.task.None?
  {
    Over(DockId(c), ColumnItem, None, Some(c))
  }

  datatype DockMode = Nav | Drop

  /** `isDragging ? 'drop' : 'nav'`. */
  function ModeOf(isDragging: bool): (m: DockMode)
    ensures m == Drop <==> isDragging
  {
    if isDragging then Drop else Nav
  }

  /** `column.title.slice(0, 3).toUpperCase()`. */
  function ShortLabel(title: string): (r: string)
    ensures |r| == (if |title| < 3 then |title| else 3)
    ensures forall i :: 0 <= i < |r| ==> r[i] == UpperChar(title[i])
  {
    ToUpper(if |title| < 3 then title else title[..3])
  }

  /** A title of at most three characters is shown whole; a longer one is
      cut, and two titles that agree on their first three characters share a label. */
  lemma ShortLabelShape(title: string, other: string)
    ensures |title| <= 3 ==> ShortLabel(title) == ToUpper(title)
    ensures |title| >= 3 && |other| >= 3 && title[..3] == other[..3] ==> ShortLabel(title) == ShortLabel(other)
  {
    if |title| >= 3 && |other| >= 3 && title[..3] == other[..3] {
      assert forall i :: 0 <= i < 3 ==> title[i] == other[i] by {
        forall i | 0 <= i < 3 ensures title[i] == other[i] {
          assert title[..3][i] == other[..3][i];
        }
      }
    }
  }

  /** The active background and glow class of an item. */
  datatype DockColor = DockColor(active: string, glow: string)

  /** The colour chain: todo, doing and done have their own colours, any
      other id gets purple. */
  function DockColorFor(columnId: string, isDark: bool): (r: DockColor)
    ensures columnId !in {"todo", "doing", "done"} ==>
      r == DockColor(if isDark then "bg-neon-purple" else "bg-purple-500", "shadow-purple-500/50")
  {
    if columnId == "todo" then DockColor(if isDark then "bg-gray-600" else "bg-slate-200", "shadow-gray-500/50")
    else if columnId == "doing" then DockColor(if isDark then "bg-neon-blue" else "bg-blue-500", "shadow-blue-500/50")
    else if columnId == "done" then DockColor(if isDark then "bg-neon-green" else "bg-green-500", "shadow-green-500/50")
    else DockColor(if isDark then "bg-neon-purple" else "bg-purple-500", "shadow-purple-500/50")
  }

  /** The colour depends on the column id alone, and the three known ids
      get three different glows, none of them the purple fallback. */
  lemma DockColorsDistinct(isDark: bool)
    ensures var todo, doing, done, other :=
              DockColorFor("todo", isDark), DockColorFor("doing", isDark),
              DockColorFor("done", isDark), DockColorFor("", isDark);
            todo.glow != doing.glow && doing.glow != done.glow && todo.glow != done.glow
            && other.glow !in {todo.glow, doing.glow, done.glow}
  {
  }

  /** What a click on a dock item does. */
  datatype NavEffect = Ignored | Handled(scrolled: bool)

  /** `handleNavClick`: in `nav` mode the click is consumed and scrolls to
      the column's element when it exists; in `drop` mode it does nothing. */
  function NavClick(mode: DockMode, targetExists: bool): (r: NavEffect)
    ensures r.Handled? <==> mode == Nav
    ensures r.Handled? ==> (r.scrolled <==> targetExists)
  {
    if mode == Nav then Handled(targetExists) else Ignored
  }
}
