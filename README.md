# Task manager: the task store and the derived task view

This project models the logic of a small client-side task manager. It covers two parts.

The first is the shared task store. It holds one ordered list of tasks. Each task has a numeric id, a title, a description, a due date, a status (Completed or In Progress) and a priority (High, Medium or Low). The store offers four operations: delete a task by id, change the priority of an id, replace the task with a given id, and add a task under a fresh id. The fresh id is the largest id plus one, or 1 when the list is empty. Every operation replaces the list with a new one.

The second is the task table. It renders the derived list `search(filter(sort(tasks)))`:

- Sorting orders the tasks by due date. The direction cycles null → ascending → descending → null.
- Filtering uses two multi-select sets, one of priorities and one of statuses. An empty set matches everything.
- Searching keeps the tasks whose title contains the query, ignoring case. A blank query keeps everything.

The table also keeps some view state: which rows are expanded, and which task is waiting in the delete or edit popup. It turns popup input into store operations.

Files and modules:

- `seqs.dfy` (`Seqs`): `Filter`, the JavaScript array filter, and `Subseq`, the order-preserving subsequence relation.
- `text.dfy` (`Text`): `trim` with the ECMAScript white-space set, ASCII lower-casing, and `includes`, proved equal to "occurs at some position".
- `dates.dfy` (`Dates`): turns a "YYYY-MM-DD" due date into an integer key whose order is calendar order.
- `task_context.dfy` (`TaskContext`): the `Task` record of src/context/TaskContext.tsx:5-12 (a datatype with the same six fields), the seed list `InitialTasks` of src/context/TaskContext.tsx:24-88, the four store operations as functions on sequences, and the class `TaskStore`. Its one `tasks` field is replaced by each method. The invariant `Valid()` says that ids are unique.
- `task_table.dfy` (`TaskTable`): sorting, filtering, searching, their composition, the small state transitions, the records the popups produce, and the class `TaskTableView`. That class holds the component's state. Its handlers call the store.

The state-changing methods are stated against the pure functions. Those functions carry the properties: permutation, sortedness, stability, subsequence, exact counts, the id sequence kept, unique ids preserved, and the toggles' cycles.

## Model

| member | source | states |
|---|---|---|
| TaskContext.InitialTasksValid | src/context/TaskContext.tsx:24-88 | the seed list (the constant TaskContext.InitialTasks, the seven records of the source field by field) has the ids 1 to 7 in order, so its ids are unique |
| TaskContext.TaskStore.constructor | src/context/TaskContext.tsx:93 | the store starts from the seed list and satisfies the unique-id invariant |
| TaskContext.Deleted | src/context/TaskContext.tsx:95-97 | the result is an order-preserving subsequence of the input with no task of that id; every other task occurs exactly as often as before, and tasks with that id not at all |
| TaskContext.DeleteAbsent | src/context/TaskContext.tsx:96 | deleting an id that no task has leaves the list unchanged |
| TaskContext.DeleteKeepsUnique | src/context/TaskContext.tsx:96 | deletion keeps ids unique |
| TaskContext.TaskStore.DeleteTask | src/context/TaskContext.tsx:95-97 | the new list is Deleted(old list, id); the unique-id invariant is kept |
| TaskContext.WithPriority | src/context/TaskContext.tsx:99-107 | same length; each task with the id gets the new priority and keeps id, title, description, due date and status; every other task is unchanged |
| TaskContext.WithPriorityAbsent | src/context/TaskContext.tsx:102-104 | an id that no task has leaves the list unchanged |
| TaskContext.WithPriorityLastWins | src/context/TaskContext.tsx:99-107 | a second priority change of the same id overrides the first |
| TaskContext.WithPriorityKeepsUnique | src/context/TaskContext.tsx:99-107 | changing a priority keeps ids unique |
| TaskContext.TaskStore.UpdateTaskPriority | src/context/TaskContext.tsx:99-107 | the new list is WithPriority(old list, id, priority); the invariant is kept |
| TaskContext.Updated | src/context/TaskContext.tsx:109-113 | same length; every task whose id equals the argument's id is replaced by the argument; every other task is unchanged |
| TaskContext.UpdateAbsent | src/context/TaskContext.tsx:111 | when no task has the argument's id, nothing changes |
| TaskContext.UpdatesKeepIds | src/context/TaskContext.tsx:100-112 | both updates leave the sequence of ids exactly as it was |
| TaskContext.UpdateKeepsUnique | src/context/TaskContext.tsx:109-113 | replacing a task keeps ids unique |
| TaskContext.TaskStore.UpdateTask | src/context/TaskContext.tsx:109-113 | the new list is Updated(old list, task); the invariant is kept |
| TaskContext.MaxId | src/context/TaskContext.tsx:117 | for a non-empty list, the result is an upper bound of all ids and is the id of some task |
| TaskContext.NextId | src/context/TaskContext.tsx:116-117 | the new id is 1 for an empty list, otherwise one more than an existing id; it is larger than every id in the list |
| TaskContext.Added | src/context/TaskContext.tsx:118 | the old tasks come first, unchanged; after them comes the argument under id NextId, an id no old task has |
| TaskContext.AddIgnoresId | src/context/TaskContext.tsx:118 | the id carried by the argument has no effect on the result |
| TaskContext.AddKeepsUnique | src/context/TaskContext.tsx:115-119 | adding keeps ids unique, because the fresh id exceeds every existing id |
| TaskContext.TaskStore.AddTask | src/context/TaskContext.tsx:115-119 | returns NextId(old list); the new list is Added(old list, task); the invariant is kept |
| Text.Trim | src/components/TaskTable.tsx:71 | the result is a piece of the query with only white space before and after it, and it neither begins nor ends with white space |
| Text.TrimStart | src/components/TaskTable.tsx:71 | removes exactly a white-space prefix, and what is left does not begin with white space |
| Text.TrimEnd | src/components/TaskTable.tsx:71 | removes exactly a white-space suffix, and what is left does not end with white space |
| Text.TrimEmptyIffAllWhiteSpace | src/components/TaskTable.tsx:71 | a query trims to the empty string exactly when every character is ECMAScript white space |
| Text.LowerChar | src/components/TaskTable.tsx:73 | maps 'A'..'Z' to 'a'..'z' and leaves every other character alone |
| Text.ToLower | src/components/TaskTable.tsx:73 | keeps the length, leaves no capital letter, and puts the lower-case form of each character in its place |
| Text.ToLowerIdempotent | src/components/TaskTable.tsx:73 | lower-casing twice gives the same string as lower-casing once |
| Text.ToLowerKeepsWhiteSpace | src/components/TaskTable.tsx:71-73 | a query is all white space exactly when its lower-cased form is |
| Text.Includes | src/components/TaskTable.tsx:73 | `includes`: the substring starts at the first position, or occurs in the rest of the string (its meaning is stated by Text.IncludesIffOccurs) |
| Text.IncludesIffOccurs | src/components/TaskTable.tsx:73 | the position-by-position search of includes succeeds exactly when the substring occurs at some position |
| TaskTable.TitleMatches | src/components/TaskTable.tsx:72-73 | the title test: the lower-cased title includes the lower-cased query (its meaning is stated by TaskTable.TitleMatchesIffOccurs) |
| TaskTable.TitleMatchesIffOccurs | src/components/TaskTable.tsx:72-73 | the title test holds exactly when the lower-cased query occurs in the lower-cased title |
| TaskTable.SearchTasks | src/components/TaskTable.tsx:70-75 | a blank query returns the input; otherwise the result is an order-preserving subsequence keeping every occurrence of a matching task and none of the others |
| TaskTable.SearchNoMatch | src/components/TaskTable.tsx:70-75 | a non-blank query that occurs in no title gives the empty list |
| TaskTable.SearchIgnoresQueryCase | src/components/TaskTable.tsx:70-75 | searching for a query and for its lower-cased form gives the same list, so the search ignores the query's case |
| TaskTable.SearchDoesNotTrimQuery | src/components/TaskTable.tsx:71-73 | the query " a" does not match the title "ab" although "a" does: only the emptiness test trims |
| TaskTable.NextDirection | src/components/TaskTable.tsx:144-148 | the direction after a press: null to "asc", "asc" to "desc", "desc" to null (its cycle is stated by TaskTable.ToggleSortCycle) |
| TaskTable.ToggleSortCycle | src/components/TaskTable.tsx:143-149 | toggling always changes the direction, twice as well, and three toggles return to the start |
| TaskTable.TaskTableView.ToggleSort | src/components/TaskTable.tsx:143-149 | the direction becomes NextDirection of the old one; no other state changes |
| Dates.DateKey | src/components/TaskTable.tsx:155-156 | the sort key of a due date: year, month and day of an ISO date packed into one integer, 0 for any other string (its order is stated by Dates.DateKeyOrder) |
| TaskTable.Rank | src/components/TaskTable.tsx:155-158 | a task's place in the sort: its date key for "asc", the negated key for "desc", whose comparator puts later dates first |
| Dates.DateKeyOrder | src/components/TaskTable.tsx:155-156 | for ISO dates, comparing keys compares year, then month, then day |
| TaskTable.InsertSorted | src/components/TaskTable.tsx:154-159 | inserting into a sorted list keeps it sorted |
| TaskTable.InsertCount | src/components/TaskTable.tsx:154-159 | inserting adds exactly the one task |
| TaskTable.SortByRank | src/components/TaskTable.tsx:154-159 | the result is sorted by rank and is a permutation of the input |
| TaskTable.SortByRankStable | src/components/TaskTable.tsx:154-159 | tasks of equal rank keep their relative input order (Array.prototype.sort is stable) |
| TaskTable.SortTasks | src/components/TaskTable.tsx:151-160 | no direction returns the input itself; otherwise a permutation, non-decreasing by due-date key for "asc" and non-increasing for "desc" |
| TaskTable.ThreeTogglesRestoreOrder | src/components/TaskTable.tsx:143-160 | after three sort toggles from the start, the sorted list is the stored list |
| TaskTable.Matches | src/components/TaskTable.tsx:179-186 | a task passes when each dimension is either empty or contains the task's value (used by TaskTable.FilterTasks) |
| TaskTable.FilterTasks | src/components/TaskTable.tsx:177-188 | an order-preserving subsequence that keeps every occurrence of a task passing both dimensions and none of the others; with both selections empty it is the input |
| TaskTable.Toggled | src/components/TaskTable.tsx:165-168 | a present value has every occurrence removed and the rest kept in order, with their counts; an absent value is appended; membership of the toggled value flips and no other membership changes |
| TaskTable.ToggledTwice | src/components/TaskTable.tsx:163-175 | checking an unchecked box and unchecking it again restores the selection exactly |
| TaskTable.ToggledFilter | src/components/TaskTable.tsx:163-175 | the chosen value's membership flips in its own dimension; the other dimension is unchanged |
| TaskTable.TaskTableView.ToggleFilter | src/components/TaskTable.tsx:163-175 | the filter options become ToggledFilter of the old ones; no other state changes |
| TaskTable.Processed | src/components/TaskTable.tsx:191 | the composed view: search of filter of sort (its meaning is stated by TaskTable.ProcessedSpec) |
| TaskTable.TaskTableView.ProcessedTasks | src/components/TaskTable.tsx:191 | the list the view renders: Processed of the store's list and the view's direction, selections and query |
| TaskTable.ProcessedSpec | src/components/TaskTable.tsx:191 | the view is a subsequence of the sorted list; a task appears in it, as often as it is stored, exactly when it passes the filter and the search |
| TaskTable.ProcessedIdentity | src/components/TaskTable.tsx:191 | with no direction, empty selections and a blank query the view is the stored list |
| TaskTable.OtherPriorities | src/components/TaskTable.tsx:137-140 | the two priorities other than the current one, both present, in the order High, Medium, Low |
| TaskTable.ToggledRow | src/components/TaskTable.tsx:47-52 | the toggled row's expanded state flips, a missing entry counting as collapsed; every other entry is unchanged |
| TaskTable.ToggledRowTwice | src/components/TaskTable.tsx:47-52 | toggling a row twice leaves every row showing as it was |
| TaskTable.TaskTableView.ToggleRowExpansion | src/components/TaskTable.tsx:47-52 | the expanded rows become ToggledRow of the old ones |
| TaskTable.TaskTableView.constructor | src/components/TaskTable.tsx:32-45 | no sort, empty selections, no expanded rows, no task pending, popups closed |
| TaskTable.TaskTableView.HandleDelete | src/components/TaskTable.tsx:78-81 | remembers the id and opens the confirmation popup |
| TaskTable.TaskTableView.ConfirmDelete | src/components/TaskTable.tsx:83-89 | with a remembered id (0 included) it deletes it, closes the popup and forgets the id; with none, nothing changes |
| TaskTable.TaskTableView.HandleEdit | src/components/TaskTable.tsx:92-95 | remembers the task and opens the edit popup |
| TaskTable.EditedTask | src/components/TaskTable.tsx:103-107 | the saved record keeps the edited task's id and priority and takes title, description, due date and status from the form |
| TaskTable.SaveEditKeepsIds | src/components/TaskTable.tsx:103-107 | saving an edit moves no id, and the edited task's entries become the saved record |
| TaskTable.TaskTableView.HandleSaveEdit | src/components/TaskTable.tsx:97-111 | with a task being edited it stores the edited record, closes the popup and forgets the task; with none, nothing changes |
| TaskTable.NewTask | src/components/TaskTable.tsx:122-129 | the created task is "In Progress" and "Low" and takes its title, description and due date from the form |
| TaskTable.TaskTableView.HandleAddTask | src/components/TaskTable.tsx:114-130 | appends the form's task, "In Progress" and "Low", under id NextId of the old list; the invariant is kept |
| TaskTable.TaskTableView.HandlePriorityChange | src/components/TaskTable.tsx:133-135 | the new list is WithPriority(old list, id, priority) |

## Left out

- Rendering and framework wiring are not modelled: the table and card markup, the three popups, the page and layout files, and the error `useTaskContext` throws outside a provider. They hold no logic that can be stated.
- The resize listener, the mobile flag, the click-outside handler of the filter menu, and the flags that only open menus (`showFilterMenu`, `addPopupOpen`) are browser events and display state.
- React state batching and stale closures are not modelled. `addTask` computes its id from the rendered list rather than from the updater's argument. The model applies each operation to the current list, in order.
- Ids are unbounded integers. JavaScript numbers are doubles; precision loss above 2^53 is not modelled.
- `updateTaskPriority` casts any string to a priority. The model takes a `Priority`, the only values the select offers.
- TaskTable.ToggledFilter: takes a typed choice, a priority or a status. The source accepts any string in either dimension, but its checkboxes only pass matching values.
- Dates.DateKey: only "YYYY-MM-DD" strings get a meaningful key; every other string gets 0. The seed's dates have this form, and so do the values of the required date inputs for years 0001 to 9999. Those inputs set no upper bound, so a year of five or more digits (such as "12345-01-01") can be stored, and it gets key 0. For that and any other string the key 0 differs from what the source's `new Date(...)` gives: a real timestamp for strings the engine can parse (an ISO date-time, or a form its fallback parser accepts), and NaN for the empty string and for text it cannot parse. Month and day ranges are not checked either. Time zones do not matter for date-only strings.
- TaskTable.SortByRank: models the engine's sort as one stable insertion sort. Array.prototype.sort is stable, so any conforming sort gives the same order, but that uniqueness is not proved here.
- Text.LowerChar, Text.ToLower: lower-case ASCII letters only. The source's toLowerCase applies full Unicode case mapping.
- The search query is a property passed in by the page. The model holds it as a constant field of the view.
- `updateTask` replaces every entry whose id matches, and so does the model. Under the store's unique-id invariant that is at most one entry.
