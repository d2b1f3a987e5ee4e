/** One column on the board: the two drag-and-drop registrations it makes
    (a sortable item for column reordering, a droppable for task drops), its
    colour theme, the mobile accordion and the delete confirmation. */
module ColumnContainer {
  import opened Wrappers
  import opened Strings
  import opened Board

  /** The prefix of a column's droppable id. */
  const ColumnDropPrefix: string := "column-drop-"

  /** The droppable id `column-drop-${column.id}`. */
  function DroppableId(c: Column): (r: string)
    ensures StartsWith(r, ColumnDropPrefix) && r[|ColumnDropPrefix|..] == c.id
    ensures |r| == |ColumnDropPrefix| + |c.id|
  {
    ColumnDropPrefix + c.id
  }

  /** Distinct columns get distinct droppable ids. */
  lemma DroppableIdInjective(c: Column, d: Column)
    requires DroppableId(c) == DroppableId(d)
    ensures c.id == d.id
  {
    assert c.id == DroppableId(c)[|ColumnDropPrefix|..];
  }

  /** What the droppable reports as `over` when a task is dragged across it:
      its prefixed id, type `Column` and the column itself. */
  function DroppableOver(c: Column): (o: Over)
    ensures o.kind == ColumnItem && o.column == Some(c) && o.task.None?
    ensures o.id == DroppableId(c)
  {
    Over(DroppableId(c), ColumnItem, None, Some(c))
  }

  /** What the sortable reports as `over` when another column is dragged
      across it: the bare column id. */
  function SortableOver(c: Column): (o: Over)
    ensures o.kind == ColumnItem && o.column == Some(c) && o.id == c.id
  {
    Over(c.id, ColumnItem, None, Some(c))
  }

  /** The dragged item a column becomes when its header is grabbed
      (`useSortable({ id: column.id, data: { type: 'Column', column },
      disabled: editMode })`): none while the title is being edited. */
  function SortableActive(c: Column, editMode: bool): (r: Option<Active>)
    ensures r.Some? <==> !editMode
    ensures r.Some? ==> r.value.id == c.id && r.value.kind == ColumnItem && r.value.column == Some(c)
  {
    if editMode then None else Some(Active(c.id, ColumnItem, None, Some(c)))
  }

  /** The class strings of one column theme. */
  datatype ColumnTheme = ColumnTheme(borderColor: string, textColor: string, bgGlow: string,
                                     shadowGlow: string, dropBg: string)

  const DarkThemes: map<string, ColumnTheme> := map[
    "todo" := ColumnTheme("border-gray-600", "text-gray-400", "bg-gray-500",
                          "shadow-[0_0_15px_rgba(75,85,99,0.3)]", "bg-gray-500/10"),
    "doing" := ColumnTheme("border-neon-blue", "text-neon-blue", "bg-neon-blue",
                           "shadow-[0_0_15px_rgba(51,225,255,0.3)]", "bg-neon-blue/10"),
    "done" := ColumnTheme("border-neon-green", "text-neon-green", "bg-neon-green",
                          "shadow-[0_0_15px_rgba(51,255,153,0.3)]", "bg-neon-green/10"),
    "default" := ColumnTheme("border-neon-purple", "text-neon-purple", "bg-neon-purple",
                             "shadow-[0_0_15px_rgba(184,51,255,0.3)]", "bg-neon-purple/10")
  ]

  const LightThemes: map<string, ColumnTheme> := map[
    "todo" := ColumnTheme("border-slate-400", "text-slate-600", "bg-slate-400", "", "bg-slate-100"),
    "doing" := ColumnTheme("border-blue-500", "text-blue-600", "bg-blue-500", "", "bg-blue-50"),
    "done" := ColumnTheme("border-green-500", "text-green-600", "bg-green-500", "", "bg-green-50"),
    "default" := ColumnTheme("border-purple-500", "text-purple-600", "bg-purple-500", "", "bg-purple-50")
  ]

  /** `COLUMN_THEMES[column.id] || COLUMN_THEMES.default`, with the table
      chosen by `isDark`. */
  function ThemeFor(columnId: string, isDark: bool): (t: ColumnTheme)
    ensures var table := if isDark then DarkThemes else LightThemes;
            t == (if columnId in table then table[columnId] else table["default"])
  {
    var table := if isDark then DarkThemes else LightThemes;
    if columnId in table then table[columnId] else table["default"]
  }

  /** Only todo, doing and done have a theme of their own; every other
      column id falls back to the purple `default` theme, and the three own
      themes differ from it and from each other. */
  lemma ThemeFallback(columnId: string, isDark: bool)
    ensures columnId !in {"todo", "doing", "done"} ==> ThemeFor(columnId, isDark) == ThemeFor("default", isDark)
    ensures columnId in {"todo", "doing", "done"} ==> ThemeFor(columnId, isDark) != ThemeFor("default", isDark)
    ensures ThemeFor("todo", isDark) != ThemeFor("doing", isDark)
    ensures ThemeFor("doing", isDark) != ThemeFor("done", isDark)
    ensures ThemeFor("done", isDark) != ThemeFor("todo", isDark)
  {
  }

  /** The collapsed flag after a header click: it flips exactly when the
      title is not being edited, the screen is mobile-sized and the click did
      not land inside a button or an input. */
  function AfterHeaderClick(collapsed: bool, editMode: bool, isMobile: bool, insideControl: bool): (r: bool)
    ensures r != collapsed <==> !editMode && isMobile && !insideControl
  {
    if !editMode && isMobile && !insideControl then !collapsed else collapsed
  }

  /** The delete dialog's message: the task count appears only for a column
      that holds tasks, followed by "task", or "tasks" from two on. */
  function DeleteMessage(title: string, taskCount: nat): (r: string)
    ensures StartsWith(r, "Are you sure you want to delete \"" + title + "\"?")
    ensures taskCount == 0 ==> r == "Are you sure you want to delete \"" + title + "\"?"
    ensures taskCount > 0 ==> EndsWith(r, NatToString(taskCount) + (if taskCount > 1 then " tasks" else " task")
                                          + " that will also be deleted.")
  {
    var head := "Are you sure you want to delete \"" + title + "\"?";
    if taskCount > 0 then
      var tail := NatToString(taskCount) + (if taskCount > 1 then " tasks" else " task") + " that will also be deleted.";
      var r := head + " This column contains " + tail;
      assert r[..|head|] == head;
      assert r[|r| - |tail|..] == tail;
      r
    else head
  }

  /** The per-column view state: title editing, the delete dialog, the
      accordion and whether the screen is mobile-sized. */
  class ColumnView {
    var editMode: bool
    var isDeleting: bool
    var isCollapsed: bool
    var isMobile: bool

    /** A column starts open, not editing, dialog closed; the mobile flag is
        the one the mount effect measures. */
    constructor(isMobile: bool)
      ensures !editMode && !isDeleting && !isCollapsed && this.isMobile == isMobile
    {
      editMode := false;
      isDeleting := false;
      isCollapsed := false;
      this.isMobile := isMobile;
    }

    /** `toggleLegacy`: the header click. */
    method ToggleAccordion(insideControl: bool)
      modifies this
      ensures isCollapsed == AfterHeaderClick(old(isCollapsed), editMode, isMobile, insideControl)
      ensures editMode == old(editMode) && isDeleting == old(isDeleting) && isMobile == old(isMobile)
    {
      isCollapsed := AfterHeaderClick(isCollapsed, editMode, isMobile, insideControl);
    }

    /** A click on the title enters edit mode (and stops the click from
        reaching the accordion). */
    method StartEditing()
      modifies this
      ensures editMode
      ensures isDeleting == old(isDeleting) && isCollapsed == old(isCollapsed) && isMobile == old(isMobile)
    {
      editMode := true;
    }

    /** Blur, Enter or Escape in the title input leaves edit mode; any other key does not. */
    method TitleKey(key: string, blur: bool)
      modifies this
      ensures editMode == (old(editMode) && !blur && key != "Enter" && key != "Escape")
      ensures isDeleting == old(isDeleting) && isCollapsed == old(isCollapsed) && isMobile == old(isMobile)
    {
      if blur || key == "Enter" || key == "Escape" {
        editMode := false;
      }
    }

    /** The trash button opens the confirmation dialog. */
    method RequestDelete()
      modifies this
      ensures isDeleting
      ensures editMode == old(editMode) && isCollapsed == old(isCollapsed) && isMobile == old(isMobile)
    {
      isDeleting := true;
    }

    /** Closing the dialog dismisses it without deleting. */
    method CloseDialog()
      modifies this
      ensures !isDeleting
      ensures editMode == old(editMode) && isCollapsed == old(isCollapsed) && isMobile == old(isMobile)
    {
      isDeleting := false;
    }
  }
}
