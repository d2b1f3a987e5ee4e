# kanban-to-do, modelled in Dafny

This project models kanban-to-do, a browser Kanban board. A board has
columns (todo, doing and done by default) holding task cards. Cards are
dragged between columns, a mobile dock takes drops, and confetti fires
when a task reaches `done`. The board keeps several projects in local
storage and can export and import them as one backup document. The
model covers:

- the project hook (`useKanban`): column and task CRUD, search,
  grouping by column, statistics, and the three drag handlers;
- the older `KanbanBoard` component, which has its own copy of the
  board logic;
- the column, card, dock and progress-bar components, as far as they
  decide something: droppable ids, theme lookup, the delete dialog,
  the completion flash, the percentage;
- the storage layer (`kanban-` keys, export, import) and the project
  list;
- toasts, keyboard shortcuts and the theme context.

Layout, one module per source file, plus shared modules:

| file | module | models |
|---|---|---|
| `wrappers.dfy` | `Wrappers` | `Option` |
| `strings.dfy` | `Strings` | `startsWith`, `includes`, `replace` of a prefix, `trim`, ASCII case, number printing |
| `board.dfy` | `Board` | columns, tasks, projects; `findIndex`, `filter` and `map` updates; `arrayMove`; the drag event; the drag transforms both boards share |
| `constants.dfy` | `Constants` | `src/lib/constants.js` |
| `use_kanban.dfy` | `UseKanban` | `src/hooks/useKanban.js` (class `Kanban`) |
| `kanban_board.dfy` | `KanbanBoard` | `src/components/KanbanBoard.jsx` (class `BoardState`) |
| `column_container.dfy` | `ColumnContainer` | `src/components/ColumnContainer.jsx` (class `ColumnView`) |
| `column_dock.dfy` | `ColumnDock` | `src/components/ColumnDock.jsx` |
| `task_card.dfy` | `TaskCard` | `src/components/TaskCard.jsx` (class `CardView`) |
| `progress_bar.dfy` | `ProgressBar` | `src/components/ProgressBar.jsx` |
| `storage.dfy` | `Storage` | `src/lib/storage.js` (class `Store`) |
| `use_projects.dfy` | `UseProjects` | `src/hooks/useProjects.js` (class `ProjectsHook`) |
| `toast.dfy` | `Toast` | `src/components/ui/Toast.jsx` (classes `IdCounter`, `ToastQueue`) |
| `keyboard_shortcuts.dfy` | `KeyboardShortcuts` | `src/hooks/useKeyboardShortcuts.js` |
| `theme_context.dfy` | `ThemeContext` | `src/contexts/ThemeContext.jsx` |

Hooks and components that keep state are modelled as classes:

- each `useState` and `useRef` value is a field;
- each handler is a method whose `ensures` gives the whole new state in
  terms of a pure function;
- the lemmas about those functions carry the properties.

A `setX(prev => …)` updater is applied at once, as React applies queued
updaters in order. Values the code takes from its surroundings are
parameters:

- the generated id (`uuidv4`) and the random colour (`getRandomColor`);
- the hour of day and the export time;
- the contents of local storage, and whether a click landed inside a
  button.

A fresh id is required not to collide with an id already on the board.

## Model

| member | source | states |
|---|---|---|
| Board.TaskIds | src/components/ColumnContainer.jsx:103 | the ids of the tasks, position by position |
| Board.ColumnIds | src/hooks/useKanban.js:86 | the ids of the columns, position by position |
| Board.FindTask | src/hooks/useKanban.js:282-285 | `findIndex` on tasks: -1 exactly when no task has the id, otherwise the first index holding it |
| Board.FindColumn | src/hooks/useKanban.js:239-240 | `findIndex` on columns: -1 exactly when no column has the id, otherwise the first index holding it |
| Board.WithoutTasksOf | src/hooks/useKanban.js:129 | keeps exactly the tasks of other columns |
| Board.WithoutTask | src/hooks/useKanban.js:157 | keeps exactly the tasks with another id |
| Board.WithoutColumn | src/hooks/useKanban.js:128 | keeps exactly the columns with another id |
| Board.DeleteColumnCascade | src/hooks/useKanban.js:127-130 | deleting a column removes exactly its tasks: the other columns' task lists are unchanged and in order, the deleted column has none left, and the counts add up |
| Board.DeleteColumnKeepsNoOrphans | src/hooks/useKanban.js:127-130 | a board where every task's column exists keeps that property after a column delete |
| Board.RetitleColumn | src/hooks/useKanban.js:121-125 | same ids in the same order; the matching columns take the title, the others are unchanged; an unknown id changes nothing |
| Board.PatchTasks | src/hooks/useKanban.js:148-154 | same length; matching tasks take the update's fields over their own, others unchanged; an unknown id changes nothing |
| Board.ReassignTasks | src/hooks/useKanban.js:160-166 | same ids in order; matching tasks take the target column, all else unchanged; an unknown id changes nothing |
| Board.SetColumnAt | src/hooks/useKanban.js:314-315 | the copy differs from the list only at the index, where the task has the new column |
| Board.ReassignFound | src/hooks/useKanban.js:307-317 | same ids in order; an absent task changes nothing; otherwise only the first task with the id takes the column |
| Board.ReassignFoundIsMoveTask | src/hooks/useKanban.js:160-166 | with distinct task ids, the drag handlers' reassignment equals `moveTask` |
| Board.ReassignFoundKeepsNoOrphans | src/hooks/useKanban.js:307-317 | reassigning to an existing column keeps every task in an existing column |
| Board.ArrayMove | src/hooks/useKanban.js:230 | the library's `arrayMove` (assumed definition): same length, same elements |
| Board.ArrayMoveAt | src/hooks/useKanban.js:241 | in-range move: the element lands at `to`, the ones between shift by one, the rest stay |
| Board.ArrayMoveSameIndex | src/hooks/useKanban.js:230 | moving onto its own index changes nothing |
| Board.ArrayMoveToEnd | src/hooks/useKanban.js:293 | a target index of -1 sends the element to the end, others in order |
| Board.HoverTaskOverTaskMoves | src/hooks/useKanban.js:281-296 | across columns: a permutation where only the dragged task changed, and only its column. From above it lands just before the hovered task; from below one slot higher; over the first task it goes to the end |
| Board.HoverTaskOverTaskSameColumn | src/hooks/useKanban.js:285-295 | a missing task or the same column returns the list unchanged |
| Board.HoverTaskOverTaskKeepsNoOrphans | src/hooks/useKanban.js:281-296 | the task-over-task hover keeps every task in an existing column |
| Board.ReorderTasks | src/hooks/useKanban.js:223-233 | a permutation of the same length; unchanged when either id is missing or the two tasks are in different columns |
| Board.ReorderTasksPlacesDragged | src/hooks/useKanban.js:224-233 | a same-column release puts the dragged task at the hovered index, the rest in their order |
| Board.ReorderColumnsExample | src/hooks/useKanban.js:238-242 | [A, B, C] with C released over A gives [C, A, B] |
| Board.ReorderColumnsOverUnknownId | src/hooks/useKanban.js:239-241 | released over an id that is no column's, the column goes to the end, the others keep their order |
| Board.ReorderColumnsUnknownActive | src/hooks/useKanban.js:239-241 | an active id that is no column's moves the last column to the hovered column's index |
| Board.SearchTasks | src/hooks/useKanban.js:92-95 | keeps exactly the tasks whose lowercased title or content contains the lowercased query |
| Board.GroupByColumn | src/hooks/useKanban.js:99-108 | one group per column id and no other; each group is that column's tasks in board order |
| Board.GroupMembership | src/hooks/useKanban.js:99-108 | a task appears only in its own column's group, and appears at all exactly when its column exists |
| Constants.DefaultColumnsIntegrity | src/lib/constants.js:42-46 | the default columns are todo, doing, done, in order, with distinct ids |
| Constants.SampleTasksNoOrphans | src/lib/constants.js:49-90 | every sample task sits in a default column |
| Constants.SampleTasksDistinct | src/lib/constants.js:49-90 | the sample task ids are distinct |
| Constants.SampleTasksValues | src/lib/constants.js:49-90 | each sample priority is a priority level and each colour is in the task palette |
| Constants.PriorityOptionsIntegrity | src/lib/constants.js:6-16 | the options are High, Medium, Low, each labelled by its value |
| Constants.DefaultProjectId | src/lib/constants.js:36-39 | the default project's id is `default` |
| UseKanban.ActualColumnId | src/hooks/useKanban.js:260-266 | a `column-drop-` id loses exactly that prefix; any other id is returned as is |
| UseKanban.ActualColumnIdRoundTrip | src/hooks/useKanban.js:260-266 | decoding a column's droppable id gives the column id back |
| UseKanban.DockTargetColumn | src/hooks/useKanban.js:203-204 | a dock id is recognised exactly when it has the `dock-column-` prefix, and decodes to the rest |
| UseKanban.DockTargetRoundTrip | src/hooks/useKanban.js:203-204 | decoding a dock item's id gives the column id back |
| UseKanban.HoverColumnIdOfColumn | src/hooks/useKanban.js:301 | both the sortable and the droppable registration of a column resolve to that column's id |
| UseKanban.HoverTaskOverColumn | src/hooks/useKanban.js:307-317 | the task-over-column updater is the found-task reassignment (a task already in the column is returned unchanged) |
| UseKanban.HoverTasks | src/hooks/useKanban.js:246-319 | same length; an ignored event changes nothing; over a task, the task-over-task move (`HoverTaskOverTask`, whose landing places `Board.HoverTaskOverTaskMoves` states); over a column, the task moves to the resolved column; an untyped target changes nothing |
| UseKanban.HoverKeepsNoOrphans | src/hooks/useKanban.js:246-319 | a hover onto an existing column keeps every task in an existing column |
| UseKanban.HoverOverDroppable | src/hooks/useKanban.js:300-318 | a task over a column's droppable moves into that column without orphans. The confetti is armed exactly when the task left another column for `done` |
| UseKanban.HoverArmsOnlyIntoDone | src/hooks/useKanban.js:277-279 | when the event's snapshots match the board, arming means the task was not in `done` and the hover puts it there |
| UseKanban.DropTasks | src/hooks/useKanban.js:195-234 | same length; an ignored drop or a non-task changes nothing; a dock drop moves the task to the dock's column; off the dock, a task over a task is reordered as ReorderTasks and a task over anything else changes nothing |
| UseKanban.DropColumns | src/hooks/useKanban.js:236-243 | a permutation of the columns; unchanged unless a column was dragged |
| UseKanban.DockDrop | src/hooks/useKanban.js:203-219 | a task dropped on a dock item takes that column in place. The columns stay as they are; no orphan appears when the column exists |
| UseKanban.SameColumnRelease | src/hooks/useKanban.js:223-234 | a release on a task of the same column puts the dragged task at that index, others in order |
| UseKanban.FilteredTasks | src/hooks/useKanban.js:89-96 | a blank (all white space) query shows every task; otherwise exactly the matching tasks |
| UseKanban.StatsOf | src/hooks/useKanban.js:323-331 | total, done, doing and todo counts; the progress bar's percentage, rounded as `ProgressBar.Percentage` (see "Left out"); with only default columns the three counts sum to the total |
| UseKanban.DefaultColumnCounts | src/hooks/useKanban.js:324-327 | with every task in todo, doing or done, the three counts sum to the total |
| UseKanban.NewColumnTitle | src/hooks/useKanban.js:115 | never empty: the trimmed title, or `Column n+1` for a missing or blank title |
| UseKanban.NewTask | src/hooks/useKanban.js:134-143 | the given id and column; title defaults to `Task n+1`, colour to the random colour, priority to Medium; content is kept |
| UseKanban.InitialBoardNoOrphans | src/hooks/useKanban.js:59-73 | the unsaved default board (sample tasks for `default`, none otherwise) has no orphans |
| UseKanban.Kanban.constructor | src/hooks/useKanban.js:59-83 | saved lists win; otherwise the default columns and, for `default`, the sample tasks; nothing dragged, empty query, flag clear |
| UseKanban.Kanban.TasksByColumn | src/hooks/useKanban.js:99-108 | one group per column holding its filtered tasks |
| UseKanban.Kanban.SetSearchQuery | src/hooks/useKanban.js:80 | only the query changes |
| UseKanban.Kanban.CreateColumn | src/hooks/useKanban.js:112-119 | appends and returns the new column; nothing else changes |
| UseKanban.Kanban.UpdateColumn | src/hooks/useKanban.js:121-125 | columns retitled; nothing else changes |
| UseKanban.Kanban.DeleteColumn | src/hooks/useKanban.js:127-130 | the column and its tasks removed; nothing else changes |
| UseKanban.Kanban.CreateTask | src/hooks/useKanban.js:134-146 | appends and returns the new task; nothing else changes |
| UseKanban.Kanban.UpdateTask | src/hooks/useKanban.js:148-154 | matching tasks patched; nothing else changes |
| UseKanban.Kanban.DeleteTask | src/hooks/useKanban.js:156-158 | the task removed; nothing else changes |
| UseKanban.Kanban.MoveTask | src/hooks/useKanban.js:160-166 | matching tasks take the target column; nothing else changes |
| UseKanban.Kanban.HandleDragStart | src/hooks/useKanban.js:170-181 | a dragged column or task is remembered by its type; nothing else changes |
| UseKanban.Kanban.HandleDragOver | src/hooks/useKanban.js:246-319 | the flag may be set, never cleared, and the confetti is never fired here; tasks as `HoverTasks` |
| UseKanban.Kanban.HandleDragEnd | src/hooks/useKanban.js:183-244 | the dragged item is forgotten; an armed flag fires the confetti exactly once and is cleared; tasks and columns as the drop functions |
| KanbanBoard.DefaultColsAreDefaultColumns | src/components/KanbanBoard.jsx:24-37 | the component's columns equal the shared default columns |
| KanbanBoard.DefaultTasksNoOrphans | src/components/KanbanBoard.jsx:39-144 | every seed task sits in a seed column |
| KanbanBoard.DefaultTasksDistinct | src/components/KanbanBoard.jsx:39-144 | the thirteen seed ids are distinct |
| KanbanBoard.DefaultTasksPriorities | src/components/KanbanBoard.jsx:39-144 | every seed priority is a priority level |
| KanbanBoard.InitialColumns | src/components/KanbanBoard.jsx:148-159 | a saved array wins; for `default` the legacy array next; otherwise the seed columns |
| KanbanBoard.InitialTasks | src/components/KanbanBoard.jsx:161-173 | a saved array wins. For `default` the legacy array next, else the seed tasks; other projects start empty |
| KanbanBoard.InitialBoardNoOrphans | src/components/KanbanBoard.jsx:148-173 | with nothing saved, every project starts without orphans |
| KanbanBoard.FilteredTasks | src/components/KanbanBoard.jsx:243-250 | only the empty query shows everything; any other query keeps exactly the matching tasks |
| KanbanBoard.BlankQueryDiffers | src/components/KanbanBoard.jsx:243-250 | on a query of one space, the hook shows the task and the component hides it |
| KanbanBoard.NewTask | src/components/KanbanBoard.jsx:266-276 | the given id and column, title `Task n+1`, empty content, the random colour, Medium |
| KanbanBoard.NewTaskMatchesHook | src/components/KanbanBoard.jsx:266-276 | the component's new task is the hook's task built from an empty draft |
| KanbanBoard.NewColumn | src/components/KanbanBoard.jsx:291-297 | the given id and the hook's default title `Column n+1` |
| KanbanBoard.HoverTaskOverColumnAsWritten | src/components/KanbanBoard.jsx:421-438 | the raw hovered id, unprefixed or not, is written into the found task |
| KanbanBoard.HoverTasks | src/components/KanbanBoard.jsx:376-439 | same length; an ignored event changes nothing; over a task, the same task-over-task move as the hook; over a column, the raw hovered id becomes the task's column; an untyped target changes nothing |
| KanbanBoard.HoverOverTaskMatchesHook | src/components/KanbanBoard.jsx:395-419 | over a task, the component and the hook agree on the tasks and on arming |
| KanbanBoard.ColumnDropOrphans | src/components/KanbanBoard.jsx:421-438 | as written: over a column's droppable, the task takes the prefixed id. It becomes an orphan in no column's group, and the confetti is not armed |
| KanbanBoard.ColumnDropOrphansExample | src/components/KanbanBoard.jsx:421-438 | task "1" of todo hovered over done's droppable gets column `column-drop-done`, is an orphan, does not arm |
| KanbanBoard.ColumnDropHookExample | src/hooks/useKanban.js:300-318 | the same hover in the hook moves the task into `done` and arms the confetti |
| KanbanBoard.DropTasks | src/components/KanbanBoard.jsx:343-364 | a permutation; only a task released over a task can change the order, and that release is reordered as ReorderTasks |
| KanbanBoard.DropColumns | src/components/KanbanBoard.jsx:366-373 | a permutation; unchanged unless a column was dragged |
| KanbanBoard.DropMatchesHookOffDock | src/components/KanbanBoard.jsx:330-374 | away from dock items, the component and the hook release identically |
| KanbanBoard.BoardState.constructor | src/components/KanbanBoard.jsx:148-173 | the initial columns and tasks as above; nothing dragged, empty query, flag clear |
| KanbanBoard.BoardState.TasksByColumn | src/components/KanbanBoard.jsx:252-264 | one group per column holding its filtered tasks |
| KanbanBoard.BoardState.SetSearchQuery | src/components/KanbanBoard.jsx:241 | only the query changes |
| KanbanBoard.BoardState.CreateTask | src/components/KanbanBoard.jsx:266-276 | appends the new task; nothing else changes |
| KanbanBoard.BoardState.DeleteTask | src/components/KanbanBoard.jsx:278-281 | the task removed; nothing else changes |
| KanbanBoard.BoardState.UpdateTask | src/components/KanbanBoard.jsx:283-289 | matching tasks patched; nothing else changes |
| KanbanBoard.BoardState.CreateNewColumn | src/components/KanbanBoard.jsx:291-297 | appends the new column; nothing else changes |
| KanbanBoard.BoardState.DeleteColumn | src/components/KanbanBoard.jsx:299-305 | the column and its tasks removed; nothing else changes |
| KanbanBoard.BoardState.UpdateColumn | src/components/KanbanBoard.jsx:307-313 | columns retitled; nothing else changes |
| KanbanBoard.BoardState.OnDragStart | src/components/KanbanBoard.jsx:315-328 | a dragged column or task is remembered by its type |
| KanbanBoard.BoardState.OnDragOver | src/components/KanbanBoard.jsx:376-439 | the flag may be set, never cleared or fired; tasks as the component's `HoverTasks` |
| KanbanBoard.BoardState.OnDragEnd | src/components/KanbanBoard.jsx:330-374 | the flag is fired once and cleared before the early returns; tasks and columns as the drop functions |
| ColumnContainer.DroppableId | src/components/ColumnContainer.jsx:124 | `column-drop-` followed by exactly the column id |
| ColumnContainer.DroppableIdInjective | src/components/ColumnContainer.jsx:124 | equal droppable ids mean equal column ids |
| ColumnContainer.DroppableOver | src/components/ColumnContainer.jsx:123-126 | the droppable reports type Column, the column, and the prefixed id |
| ColumnContainer.SortableOver | src/components/ColumnContainer.jsx:113-117 | the sortable reports type Column, the column, and its bare id |
| ColumnContainer.SortableActive | src/components/ColumnContainer.jsx:113-117 | a column can be dragged exactly when its title is not being edited |
| ColumnContainer.ThemeFor | src/components/ColumnContainer.jsx:143-144 | the column's own theme from the table for the mode, else the default theme |
| ColumnContainer.ThemeFallback | src/components/ColumnContainer.jsx:16-76 | only todo, doing and done have themes of their own, all three different; every other id gets the default |
| ColumnContainer.AfterHeaderClick | src/components/ColumnContainer.jsx:152-158 | the collapse flips exactly when not editing, on mobile, and not inside a button or input |
| ColumnContainer.DeleteMessage | src/components/ColumnContainer.jsx:434-438 | the question alone for an empty column; otherwise it ends with the count and "task" or "tasks" |
| ColumnContainer.ColumnView.constructor | src/components/ColumnContainer.jsx:91-98 | open, not editing, no dialog |
| ColumnContainer.ColumnView.ToggleAccordion | src/components/ColumnContainer.jsx:152-158 | collapse as `AfterHeaderClick`; nothing else changes |
| ColumnContainer.ColumnView.StartEditing | src/components/ColumnContainer.jsx:261-263 | edit mode on; nothing else changes |
| ColumnContainer.ColumnView.TitleKey | src/components/ColumnContainer.jsx:282-284 | blur, Enter or Escape leave edit mode; other keys do not |
| ColumnContainer.ColumnView.RequestDelete | src/components/ColumnContainer.jsx:295-297 | the dialog opens; nothing else changes |
| ColumnContainer.ColumnView.CloseDialog | src/components/ColumnContainer.jsx:431 | the dialog closes without deleting |
| ColumnDock.DockId | src/components/ColumnDock.jsx:13 | `dock-column-` followed by exactly the column id |
| ColumnDock.DockOver | src/components/ColumnDock.jsx:12-15 | a dock item reports type Column, the column, and the prefixed id |
| ColumnDock.ModeOf | src/components/ColumnDock.jsx:121 | drop mode exactly while dragging |
| ColumnDock.ShortLabel | src/components/ColumnDock.jsx:58 | at most three characters, each the upper case of the title's |
| ColumnDock.ShortLabelShape | src/components/ColumnDock.jsx:58 | short titles are shown whole; titles sharing three first characters share a label |
| ColumnDock.DockColorFor | src/components/ColumnDock.jsx:44-56 | any id other than todo, doing, done gets the purple colours |
| ColumnDock.DockColorsDistinct | src/components/ColumnDock.jsx:44-56 | the three known ids glow differently and none like the fallback |
| ColumnDock.NavClick | src/components/ColumnDock.jsx:25-37 | a click is handled exactly in nav mode, and scrolls exactly when the column's element exists |
| ProgressBar.CountWhere | src/components/ProgressBar.jsx:7 | at most the length; all exactly when every task matches; zero exactly when none does |
| ProgressBar.CountIsFilterLength | src/components/ProgressBar.jsx:7 | the count is the length of the filtered list |
| ProgressBar.CompletedCount | src/components/ProgressBar.jsx:7 | the number of tasks in `done`, with both extremes as iff |
| ProgressBar.Percentage | src/components/ProgressBar.jsx:8 | 0 for no tasks, otherwise the exact percentage rounded to the nearest integer, exact halves up (the app rounds a floating-point value; see "Left out"); bounded by 100, 0 when none done, 100 when all done |
| ProgressBar.Progress | src/components/ProgressBar.jsx:6-8 | all done gives 100. It reads 100 exactly when fewer than 1 task in 200 is open, and 0 exactly when fewer than 1 in 200 is done |
| ProgressBar.CountsPartition | src/hooks/useKanban.js:325-327 | with only default columns, the three counts sum to the total |
| Storage.Get | src/lib/storage.js:104 | only objects have properties |
| Storage.SetField | src/lib/storage.js:82-86 | the key reads the new value, other entries are kept, and keys stay distinct |
| Storage.Entries | src/lib/storage.js:114 | `Object.entries`: an object's fields, an array's elements and a string's characters under their decimal indexes, nothing for other values |
| Storage.ColumnsKey | src/lib/storage.js:6-12 | `kanban-columns-` followed by exactly the project id |
| Storage.TasksKey | src/lib/storage.js:6-12 | `kanban-tasks-` followed by exactly the project id |
| Storage.ProjectStorageKey | src/hooks/useLocalStorage.js:62 | a `kanban-` key |
| Storage.KeysAgreeWithHook | src/hooks/useLocalStorage.js:62 | the storage module and the storage hook name a project's columns and tasks alike |
| Storage.KeysDistinct | src/lib/storage.js:6-12 | different projects or kinds never share a key, and project keys never clash with the fixed keys |
| Storage.GetFromStorage | src/lib/storage.js:20-29 | the parsed stored value, or the fallback when the key is missing or unparsable |
| Storage.WriteThenRead | src/lib/storage.js:20-54 | a written value reads back; a removed or corrupt key reads as the fallback |
| Storage.ProjectsJson | src/lib/storage.js:78 | one JSON object per project, in order |
| Storage.ProjectEntry | src/lib/storage.js:83-86 | always a non-null object |
| Storage.ProjectEntryFields | src/lib/storage.js:83-86 | it holds the project's stored columns and tasks, `[]` when missing |
| Storage.ProjectDataOf | src/lib/storage.js:82-87 | one entry per distinct project id and no other, each that project's entry |
| Storage.ExportHoldsEveryProject | src/lib/storage.js:82-87 | every exported project is found under its id |
| Storage.ExportData | src/lib/storage.js:74-90 | version 1, the projects, the project data; no active id and no legacy maps |
| Storage.PutIfTruthy | src/lib/storage.js:115-120 | writes exactly when the value is present and truthy |
| Storage.ProjectDataStep | src/lib/storage.js:114-121 | a null entry throws and writes nothing; otherwise its truthy columns and tasks are written |
| Storage.WriteProjectData | src/lib/storage.js:113-122 | succeeds exactly when no entry is null |
| Storage.WriteLegacy | src/lib/storage.js:125-134 | every legacy entry's key is written; no key is lost |
| Storage.KeyForInjective | src/lib/storage.js:10-11 | a project's columns key, or its tasks key, names one project |
| Storage.WriteLegacyKeepsUnnamed | src/lib/storage.js:125-134 | a key that no legacy entry names keeps its entry |
| Storage.WriteLegacyLastWins | src/lib/storage.js:125-134 | a project's key holds the value of the last legacy entry for that project |
| Storage.LegacyEntries | src/lib/storage.js:125-134 | a present object or array gives its `Object.entries`; an absent key or any other value (null, a number, a string, a boolean) gives no entries |
| Storage.ActiveIdOf | src/lib/storage.js:107-110 | any active id written is truthy; a truthy `activeProjectId` is preferred |
| Storage.Import | src/lib/storage.js:97-101 | a document without a `projects` array is refused and nothing is written |
| Storage.ImportOutcomeCases | src/lib/storage.js:97-141 | success exactly when `projects` is an array and no `projectData` entry is null; the projects are stored whenever `projects` is an array, even when the import then fails |
| Storage.FixedKeysAreNotProjectKeys | src/lib/storage.js:6-12 | the fixed keys are no project's key |
| Storage.OtherKeysAreNotProjectKeys | src/lib/storage.js:6-12 | keys outside `kanban-` are no project's key |
| Storage.WriteProjectDataOnlyProjectKeys | src/lib/storage.js:113-122 | the project-data loop leaves non-project keys alone |
| Storage.ProjectDataStageOnlyProjectKeys | src/lib/storage.js:113-122 | so does the whole project-data stage |
| Storage.LegacyOnlyProjectKeys | src/lib/storage.js:125-134 | so do the legacy loops |
| Storage.ImportKeepsOtherKeys | src/lib/storage.js:97-141 | an import never touches a key outside the `kanban-` namespace |
| Storage.WriteProjectDataEffect | src/lib/storage.js:113-122 | with distinct ids and object entries, each project's keys end as the guarded write of its own entry |
| Storage.TailKeepsKey | src/lib/storage.js:113-122 | entries of other projects leave a project's key alone |
| Storage.ImportOfExport | src/lib/storage.js:97-122 | importing an export runs the header writes and a project-data loop that succeeds |
| Storage.HeaderOfExport | src/lib/storage.js:104-110 | importing a document without an active id stores the projects and makes the first project active when its id is truthy |
| Storage.ImportedExportHeader | src/lib/storage.js:97-141 | after importing an export, the fixed keys hold the projects and the first project's id |
| Storage.ImportedExportProject | src/lib/storage.js:97-141 | after importing an export, each exported project's keys hold what the export read, when truthy |
| Storage.ExportImportRoundTrip | src/lib/storage.js:74-141 | importing an export succeeds, stores the projects and makes the first active, and gives each exported project the columns and tasks the export read |
| Storage.ExportedProjectKeys | src/lib/storage.js:113-122 | the export's project-data loop writes each project's keys as exported |
| Storage.RestoreIntoSameStore | src/lib/storage.js:74-141 | restoring into the same store leaves every exported project's keys holding exactly what was exported |
| Storage.ImportFailsAfterWriting | src/lib/storage.js:104-122 | a null project entry makes the import fail after the projects list was already replaced |
| Storage.Store.constructor | src/lib/storage.js:20 | the store holds the given entries |
| Storage.Store.SetToStorage | src/lib/storage.js:36-42 | the key holds the value; nothing else changes |
| Storage.Store.RemoveFromStorage | src/lib/storage.js:48-54 | the key is gone; nothing else changes |
| Storage.Store.ClearAllKanbanData | src/lib/storage.js:59-68 | exactly the `kanban-` keys are removed, the rest keep their values |
| Storage.Store.ExportAllData | src/lib/storage.js:74-90 | returns the export of the current store, which is unchanged |
| Storage.Store.ImportData | src/lib/storage.js:97-141 | the writes run in order and the store and result are as `Import` |
| Storage.Store.WriteProjectDataLoop | src/lib/storage.js:113-122 | each `projectData` entry's truthy `columns` and `tasks` are written under that project's keys, in order; a `null` entry stops the loop with `false` |
| Storage.Store.WriteLegacyLoop | src/lib/storage.js:125-134 | every legacy `columns` or `tasks` entry is written under its project's key, in order, and nothing else changes |
| UseProjects.RepairedActiveId | src/hooks/useProjects.js:25-30 | with projects, the result names one; a valid id is kept; with none, the id is kept |
| UseProjects.ActiveProject | src/hooks/useProjects.js:33-36 | the project with the active id when there is one, else the first; none only without projects |
| UseProjects.FindProject | src/hooks/useProjects.js:83 | -1 exactly when no project has the id, otherwise the first index holding it |
| UseProjects.NewProjectName | src/hooks/useProjects.js:42 | never empty: the trimmed name, or `Untitled Project` when blank |
| UseProjects.ProjectsWithout | src/hooks/useProjects.js:57 | keeps exactly the projects with another id |
| UseProjects.NextActiveId | src/hooks/useProjects.js:65-66 | the first remaining project's id, or "" when none remains |
| UseProjects.Renamed | src/hooks/useProjects.js:73-79 | same ids; matching projects take the trimmed name unless it is blank; others unchanged |
| UseProjects.DeleteKeepsActiveValid | src/hooks/useProjects.js:51-70 | with distinct ids and more than one project, a delete leaves a valid active id |
| UseProjects.RenameAndCreateKeepActiveValid | src/hooks/useProjects.js:39-79 | renaming and creating keep the active id valid, and a created project is a valid active id |
| UseProjects.ProjectsHook.constructor | src/hooks/useProjects.js:14-22 | the saved list and id, else the default project |
| UseProjects.ProjectsHook.RepairActiveProject | src/hooks/useProjects.js:25-30 | the active id is repaired; the list is unchanged |
| UseProjects.ProjectsHook.CreateProject | src/hooks/useProjects.js:39-48 | appends the project and makes it active |
| UseProjects.ProjectsHook.DeleteProject | src/hooks/useProjects.js:51-70 | refused, changing nothing, for the last project. Otherwise the project and its two storage keys are removed, and the first remaining project becomes active when the deleted one was active |
| UseProjects.ProjectsHook.RenameProject | src/hooks/useProjects.js:73-79 | projects renamed; active id unchanged |
| UseProjects.ProjectsHook.SelectProject | src/hooks/useProjects.js:82-86 | only an existing id is selected; the list is unchanged |
| TaskCard.StyleFor | src/components/TaskCard.jsx:99-100 | the priority's style from the table for the mode, else the default style |
| TaskCard.StyleFallback | src/components/TaskCard.jsx:8-52 | the three levels have distinct styles of their own; every other priority, the unset one included, gets the default |
| TaskCard.SelectorValue | src/components/TaskCard.jsx:138 | an unset priority shows Medium; a set one shows itself |
| TaskCard.SelectorShowsALevel | src/components/TaskCard.jsx:138 | the selector shows a level whenever the priority is one or unset |
| TaskCard.Mounted | src/components/TaskCard.jsx:60-61 | the ref starts at the card's column, no flash, no timer |
| TaskCard.ColumnChanged | src/components/TaskCard.jsx:64-71 | as written: a fresh arrival in `done` turns the flash on and starts the timer without moving the ref. Any other move moves the ref and leaves the flash as it was |
| TaskCard.TimerFired | src/components/TaskCard.jsx:67 | a pending timer turns the flash off; otherwise nothing changes |
| TaskCard.FlashStaysOn | src/components/TaskCard.jsx:64-71 | as written: todo, then done, then doing before 600 ms leaves the flash on with no timer to clear it |
| TaskCard.StuckFlashPersists | src/components/TaskCard.jsx:64-71 | as written: such a flash survives every move that is not a fresh arrival in `done` |
| TaskCard.ColumnChangedFixed | src/components/TaskCard.jsx:64-71 | corrected: from a bounded state, the flash is on exactly after a fresh arrival in `done`, with its timer pending |
| TaskCard.FixedFlashAlwaysExpires | src/components/TaskCard.jsx:61-71 | corrected: every reachable flash has a timer pending; it agrees with the code while no flash shows |
| TaskCard.CardView.constructor | src/components/TaskCard.jsx:57-61 | not hovered, not editing, not deleting, effect as mounted |
| TaskCard.CardView.OnColumnChange | src/components/TaskCard.jsx:64-71 | the effect state as `ColumnChanged`; the rest unchanged |
| TaskCard.CardView.OnFlashTimer | src/components/TaskCard.jsx:67 | the effect state as `TimerFired`; the rest unchanged |
| TaskCard.CardView.CardClick | src/components/TaskCard.jsx:94-97 | in the normal view, `toggleEditMode`: edit mode on and the actions hidden; in the edit view (whose `onClick` only stops propagation, line 125) nothing changes |
| TaskCard.CardView.DoneClick | src/components/TaskCard.jsx:147-150 | edit mode off, nothing else changes |
| TaskCard.CardView.MouseEnter | src/components/TaskCard.jsx:193 | in the normal view the actions show; the edit view has no mouse handler, so nothing changes |
| TaskCard.CardView.MouseLeave | src/components/TaskCard.jsx:194-197 | in the normal view the actions hide and a delete in progress is cancelled; in the edit view both are kept |
| TaskCard.CardView.TrashClick | src/components/TaskCard.jsx:261-265 | a delete is started |
| TaskCard.CardView.CancelDelete | src/components/TaskCard.jsx:249-253 | the delete is cancelled |
| TaskCard.CardView.ConfirmDelete | src/components/TaskCard.jsx:235-243 | `deleteTask` is called exactly when the actions show, a delete was started, and the card is not in edit mode |
| TaskCard.CardView.TitleKey | src/components/TaskCard.jsx:159-169 | Enter and Escape leave edit mode |
| TaskCard.CardView.ContentKey | src/components/TaskCard.jsx:175-180 | only Escape leaves edit mode |
| TaskCard.TwoStepDelete | src/components/TaskCard.jsx:235-265 | a hovered card does not delete until the trash button is pressed, and then does |
| TaskCard.DeleteSurvivesEditing | src/components/TaskCard.jsx:119-197 | a delete started before entering edit mode is still offered, and deletes, once the card is hovered again after editing |
| Toast.ConfigFor | src/components/ui/Toast.jsx:37-39 | the type's configuration; an absent or unknown type gets info's |
| Toast.ConfigsDistinct | src/components/ui/Toast.jsx:10-32 | the three types render differently; every other type renders as info |
| Toast.NewToast | src/components/ui/Toast.jsx:95-99 | the id and message; type defaults to info and duration to 4000 |
| Toast.WithoutToast | src/components/ui/Toast.jsx:101-103 | keeps exactly the toasts with another id |
| Toast.WithoutToastKeepsOrder | src/components/ui/Toast.jsx:101-103 | removal keeps the ids increasing along the queue |
| Toast.WithoutAbsentToast | src/components/ui/Toast.jsx:101-103 | removing an id not queued changes nothing |
| Toast.IdCounter.constructor | src/components/ui/Toast.jsx:90 | the counter starts at 0 |
| Toast.IdCounter.Next | src/components/ui/Toast.jsx:96 | pre-increment: the counter grows by one and the new value is returned |
| Toast.ToastQueue.constructor | src/components/ui/Toast.jsx:93 | an empty queue on the shared counter |
| Toast.ToastQueue.AddToast | src/components/ui/Toast.jsx:95-99 | the new id is the next counter value, above every queued id; the toast goes last; ids stay increasing |
| Toast.ToastQueue.RemoveToast | src/components/ui/Toast.jsx:101-103 | the queue without that id; ids stay increasing |
| Toast.ToastQueue.Success | src/components/ui/Toast.jsx:105 | adds a success toast |
| Toast.ToastQueue.Error | src/components/ui/Toast.jsx:106 | adds an error toast |
| Toast.ToastQueue.Info | src/components/ui/Toast.jsx:107 | adds an info toast |
| Toast.SharedCounterIds | src/components/ui/Toast.jsx:90-99 | two queues sharing the counter hand out increasing ids, and removing one id takes no other toast |
| KeyboardShortcuts.Dispatch | src/hooks/useKeyboardShortcuts.js:11-27 | nothing when disabled, nothing in a field except Escape; otherwise the handler under the lowercased key, if any |
| KeyboardShortcuts.CaseInsensitiveOutsideFields | src/hooks/useKeyboardShortcuts.js:21 | outside a field, a key and its lower case run the same handler |
| KeyboardShortcuts.AppShortcuts | src/hooks/useKeyboardShortcuts.js:41-57 | each supplied callback under its key (Escape lowercased), and no other entry |
| KeyboardShortcuts.AppShortcutDispatch | src/hooks/useKeyboardShortcuts.js:15-54 | in a field only Escape runs, and it runs `onEscape`; elsewhere `n` and `N` both run `onNewTask`; an unbound key runs nothing |
| ThemeContext.TimeOfDayAt | src/contexts/ThemeContext.jsx:11-17 | morning 5-9, day 10-15, sunset 16-18, night otherwise, each as an iff |
| ThemeContext.PaletteOf | src/contexts/ThemeContext.jsx:20-61 | dark exactly at night |
| ThemeContext.PalettesDistinct | src/contexts/ThemeContext.jsx:20-61 | the four palettes differ |
| ThemeContext.Overlay | src/contexts/ThemeContext.jsx:142-145 | the palette's fields override, the rest of the configuration is kept |
| ThemeContext.GradientBase | src/contexts/ThemeContext.jsx:97-108 | the fixed gradient fields |
| ThemeContext.InitialTheme | src/contexts/ThemeContext.jsx:115-118 | always a known theme; a saved known theme is kept, anything else gives dark |
| ThemeContext.ConfigFor | src/contexts/ThemeContext.jsx:139-148 | a configuration exactly for the three themes; dark and light get their fixed configurations |
| ThemeContext.GradientFollowsTheHour | src/contexts/ThemeContext.jsx:139-148 | the gradient configuration follows the current hour; the hour the module loaded at makes no difference |
| ThemeContext.IsDarkOf | src/contexts/ThemeContext.jsx:139-163 | dark always dark, light never, gradient exactly before 5 or from 19 on |
| ThemeContext.SavedThemeRestored | src/contexts/ThemeContext.jsx:115-125 | a persisted theme is the theme on the next load, and whatever was saved gives a theme with a configuration |

## Left out

- Rendering is not modelled: JSX, Tailwind classes other than the
  tables above, animations, `framer-motion`, the ErrorBoundary and the
  modal.
- The `dnd-kit` sensors and collision detection are not modelled. A
  drag event is taken as given: the active item and the resolved
  target.
- `useAutoScroll` is not modelled, because it only scrolls the page.
- Confetti and vibration are side effects. The confetti is counted by a
  ghost counter (`confettiFired`). `navigator.vibrate` is not modelled.
- The dock drop in `handleDragEnd` fires confetti from inside the
  `setTasks` updater. That call is not counted, so the counter covers
  only the `shouldFireConfetti` path.
- `arrayMove` belongs to `@dnd-kit/sortable`, which is not part of this
  model. Its published definition is assumed, in `Board.ArrayMove`.
  `Board.ReorderColumns` returns an empty column list as it is, where
  `arrayMove([], -1, -1)` would give a list holding one `undefined`; a
  column drag needs a column on the board, so that call cannot happen.
- JSON text is not modelled: `JSON.stringify`/`JSON.parse` are
  replaced by a JSON value type. An entry is either parsed or marked
  unparsable.
- `localStorage` quota and access errors are not modelled. The `catch`
  branches that log and return the fallback appear only as the
  unparsable entry.
- Object keys are enumerated in insertion order. JavaScript lists
  integer-like keys first, which is not modelled.
- Timestamps (`createdAt`, `updatedAt`, `exportedAt`) are not modelled.
  The export time is a parameter; the other two are not stored.
- Timers are not modelled as time:
  - the toast auto-dismiss timer is left out;
  - the card's 600 ms flash timer is an explicit event
    (`OnFlashTimer`);
  - the theme's one-minute time-of-day interval is replaced by the hour
    as a parameter.
- The effects that write the theme, columns, tasks and projects back to
  storage are left out, and so is the `theme-color` meta tag.
- Case conversion covers the ASCII letters only; Unicode case mapping
  is not modelled. `trim` removes JavaScript's white-space and
  line-terminator code points.
- `Board.GroupByColumn`: the grouping object's inherited keys are not
  modelled. An orphan task whose `columnId` is `constructor`,
  `toString` or another `Object.prototype` key finds a truthy
  non-array, and `.push` throws. The model drops that task like any
  other orphan.
- `ColumnContainer.ThemeFor`: a column id that is an inherited key of
  `COLUMN_THEMES` (`constructor`, …) yields the inherited value and not
  the default theme; the model gives the default theme.
- `TaskCard.StyleFor`: a priority that is an inherited key of the style
  table (`constructor`, …) yields the inherited value and not the
  default style; the model gives the default style.
- `Toast.ConfigFor`: a type that is an inherited key of `TOAST_TYPES`
  (`constructor`, …) yields the inherited value and not `info`'s
  configuration; the model gives `info`'s.
- `ColumnDock.ShortLabel`: `slice(0, 3)` counts UTF-16 code units; the
  model counts characters (code points), so a title starting with a
  character outside the Basic Multilingual Plane (an emoji, say) is cut
  differently.
- `ProgressBar.Percentage`: the app computes `Math.round((c / t) * 100)`
  in double precision; the model rounds the exact rational value, halves
  up. They differ when the product falls just below a half, e.g. 23 of
  40 gives 57 in the app and 58 in the model (also 29, 57 and 113 of
  200).
- `ProgressBar.Progress`: the bar's width uses `ProgressBar.Percentage`
  and differs from the app in the same cases.
- `UseKanban.StatsOf`: its `percentage` uses `ProgressBar.Percentage`
  and differs from the app in the same cases.
- `UseKanban.Kanban.constructor`: the saved columns and tasks are taken
  as an array or nothing. A stored value that parses but is not an array
  (an import can write `"columns": {}`) makes the hook throw on
  `.forEach`/`.filter`; the model cannot represent it. The component's
  initial load, which checks `Array.isArray`, is modelled in
  `KanbanBoard.InitialColumns` and `KanbanBoard.InitialTasks`.
- `KeyboardShortcuts.Dispatch`: the handler object's prototype keys
  (`constructor`, `toString`, …) are not modelled; `handlers` is a
  plain map.
- `KanbanBoard.HoverTaskOverColumnAsWritten`: the component writes the
  new column into the task object shared with the previous state
  (KanbanBoard.jsx line 435), not into a copy. Aliasing is not modelled;
  the model writes to a copy.
- React StrictMode double invocation, re-render timing and the
  asynchrony of state updates are not modelled. Queued updaters are
  applied at once, in order.
- `ProjectSidebar`, `ThemeSwitcher`, `Modal`, `Input`, `Button`,
  `Skeleton` and `App` are not part of this model beyond the calls they
  make into the modelled hooks.

## Findings

| source | as written | input that shows it | evidently intended | confidence | as-written member | corrected member |
|---|---|---|---|---|---|---|
| src/components/KanbanBoard.jsx:421-438 | hovering a column's `column-drop-<id>` droppable writes the prefixed id into the task's `columnId` | task "1" in `todo` hovered over the `done` column's droppable gets `columnId` `column-drop-done`. It shows in no column and the confetti is not armed | strip the prefix, as the hook's `getActualColumnId` does, so the task moves into `done` and arms the confetti | not executed | KanbanBoard.ColumnDropOrphans | UseKanban.HoverOverDroppable |
| src/components/TaskCard.jsx:61-71 | the effect's cleanup cancels the 600 ms timer but leaves `flash` on | a card that stays mounted while its task goes todo → done → doing within 600 ms keeps its flash on until it unmounts. In the app, a card in a column is remounted when its task changes column. Only the drag-overlay card stays mounted, and it sees column changes through the in-place write of `KanbanBoard.jsx:435`. So the overlay hovered over the done column, then the doing column, within 600 ms shows the flash until the drop | the flash lasts only while its timer runs | not executed | TaskCard.FlashStaysOn | TaskCard.FixedFlashAlwaysExpires |

Two further differences are modelled and proved, but not logged as
findings:

- The two boards treat a query of spaces differently
  (`KanbanBoard.BlankQueryDiffers`).
- `importData` writes the projects list before it can fail on a null
  project entry (`Storage.ImportFailsAfterWriting`).
