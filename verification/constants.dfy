/** The application's seed data and fixed tables: the default project, the
    three default columns, the sample tasks shown on the default project,
    the priority levels and the keyboard-shortcut keys. */
module Constants {
  import opened Board

  const High: string := "High"
  const Medium: string := "Medium"
  const Low: string := "Low"

  /** `Object.values(PRIORITIES)`. */
  const Priorities: seq<string> := [High, Medium, Low]

  /** An entry of the priority selector: its value and its label. */
  datatype PriorityOption = PriorityOption(value: string, caption: string)

  const PriorityOptions: seq<PriorityOption> :=
    [PriorityOption(High, "High"), PriorityOption(Medium, "Medium"), PriorityOption(Low, "Low")]

  const Yellow: string := "bg-yellow-200"
  const Green: string := "bg-green-200"
  const Blue: string := "bg-blue-200"
  const Pink: string := "bg-pink-200"
  const Orange: string := "bg-orange-200"
  const Purple: string := "bg-purple-200"
  const White: string := "bg-white"
  const Red: string := "bg-red-200"

  /** `Object.values(TASK_COLORS)`, the palette `getRandomColor` draws from. */
  const TaskColors: seq<string> := [Yellow, Green, Blue, Pink, Orange, Purple, White, Red]

  const DefaultProject: Project := Project("default", "My Project")

  const DefaultColumns: seq<Column> :=
    [Column("todo", "Todo"), Column("doing", "In Progress"), Column(Done, "Done")]

  const SampleTasks: seq<Task> := [
    Task("1", "todo", "Admin APIs", "List admin APIs for dashboard", Yellow, High),
    Task("2", "todo", "User Registration",
         "Develop user registration functionality with OTP delivered on SMS after email confirmation",
         Green, High),
    Task("3", "doing", "Security Testing", "Conduct security testing", Blue, High),
    Task("4", "doing", "Competitor Analysis", "Analyze competitors", Pink, Medium),
    Task("5", Done, "UI Kit Docs", "Create UI kit documentation", Orange, Low)
  ]

  /** The keys of `KEYBOARD_SHORTCUTS`. */
  const NewTaskKey: string := "n"
  const SearchKey: string := "/"
  const ToggleSidebarKey: string := "b"
  const ToggleThemeKey: string := "t"
  const EscapeKey: string := "Escape"

  /** The default columns are exactly todo, doing and done, in that order, with distinct ids. */
  lemma DefaultColumnsIntegrity()
    ensures ColumnIds(DefaultColumns) == ["todo", "doing", Done]
    ensures Distinct(ColumnIds(DefaultColumns))
  {
  }

  /** The sample board has no orphan task: each sample sits in a default column. */
  lemma SampleTasksNoOrphans()
    ensures NoOrphans(DefaultColumns, SampleTasks)
  {
    var ids := ColumnIds(DefaultColumns);
    assert ids == ["todo", "doing", Done];
    forall t | t in SampleTasks ensures t.columnId in ids {
      assert t.columnId == "todo" || t.columnId == "doing" || t.columnId == Done;
    }
  }

  /** The sample ids are distinct. */
  lemma SampleTasksDistinct()
    ensures Distinct(TaskIds(SampleTasks))
  {
    assert TaskIds(SampleTasks) == ["1", "2", "3", "4", "5"];
  }

  /** Every sample priority is one of the three levels and every sample colour is in the palette. */
  lemma SampleTasksValues()
    ensures forall t :: t in SampleTasks ==> t.priority in Priorities && t.color in TaskColors
  {
  }

  /** The selector offers High, Medium and Low in that order, each labelled by its own value. */
  lemma PriorityOptionsIntegrity()
    ensures |PriorityOptions| == |Priorities|
    ensures forall i :: 0 <= i < |PriorityOptions| ==>
      PriorityOptions[i].value == Priorities[i] && PriorityOptions[i].caption == Priorities[i]
    ensures Distinct(Priorities)
  {
  }

  /** The default project's id is the one the board tests to choose the sample tasks. */
  lemma DefaultProjectId()
    ensures DefaultProject.id == "default"
  {
  }
}
