/** The task table: the derived view processedTasks = search(filter(sort(tasks)))
    with the state it depends on (sort direction, filter selections, search
    query), the row expansion toggle, and the handlers that turn popup input
    into store operations. */
module TaskTable {
  import opened Seqs
  import opened Text
  import opened Dates
  import opened TaskContext

  datatype Option<T> = None | Some(value: T)

  // ---------------------------------------------------------------------------
  // Sorting by due date

  /** The sort state; Unsorted is the null direction. */
  datatype SortDirection = Unsorted | Asc | Desc

  /** toggleSort: null goes to "asc", "asc" to "desc", and "desc" back to null. */
  function NextDirection(d: SortDirection): SortDirection
  {
    match d
    case Unsorted => Asc
    case Asc => Desc
    case Desc => Unsorted
  }

  /** Every press changes the direction, and three presses bring it back. */
  lemma ToggleSortCycle(d: SortDirection)
    ensures NextDirection(d) != d
    ensures NextDirection(NextDirection(d)) != d
    ensures NextDirection(NextDirection(NextDirection(d))) == d
  {
  }

  /** The place a task takes in a sort: its date key, negated when sorting descending,
      because the descending comparator puts larger keys first. */
  function Rank(t: Task, descending: bool): int
  {
    if descending then -DateKey(t.dueDate) else DateKey(t.dueDate)
  }

  predicate SortedByRank(s: seq<Task>, descending: bool)
  {
    forall i, j :: 0 <= i < j < |s| ==> Rank(s[i], descending) <= Rank(s[j], descending)
  }

  /** Puts x in front of the first task whose rank is not smaller than its own. */
  function Insert(x: Task, s: seq<Task>, descending: bool): seq<Task>
  {
    if s == [] || Rank(x, descending) <= Rank(s[0], descending) then [x] + s
    else [s[0]] + Insert(x, s[1..], descending)
  }

  lemma {:induction false} InsertCount(x: Task, s: seq<Task>, descending: bool)
    ensures multiset(Insert(x, s, descending)) == multiset(s) + multiset{x}
  {
    if s != [] && Rank(x, descending) > Rank(s[0], descending) {
      assert s == [s[0]] + s[1..];
      InsertCount(x, s[1..], descending);
    }
  }

  /** A task ranked no higher than x and than every task of s is ranked no higher than
      anything in Insert(x, s). */
  lemma InsertLowerBound(y: Task, x: Task, s: seq<Task>, descending: bool)
    requires Rank(y, descending) <= Rank(x, descending)
    requires forall k :: 0 <= k < |s| ==> Rank(y, descending) <= Rank(s[k], descending)
    ensures forall k :: 0 <= k < |Insert(x, s, descending)| ==>
      Rank(y, descending) <= Rank(Insert(x, s, descending)[k], descending)
  {
  }

  lemma SortedCons(h: Task, s: seq<Task>, descending: bool)
    requires SortedByRank(s, descending)
    requires forall k :: 0 <= k < |s| ==> Rank(h, descending) <= Rank(s[k], descending)
    ensures SortedByRank([h] + s, descending)
  {
  }

  lemma {:induction false} InsertSorted(x: Task, s: seq<Task>, descending: bool)
    requires SortedByRank(s, descending)
    ensures SortedByRank(Insert(x, s, descending), descending)
  {
    if s == [] || Rank(x, descending) <= Rank(s[0], descending) {
      SortedCons(x, s, descending);
    } else {
      InsertSorted(x, s[1..], descending);
      InsertLowerBound(s[0], x, s[1..], descending);
      SortedCons(s[0], Insert(x, s[1..], descending), descending);
    }
  }

  /** The stable sort of s by rank: insertion sort, each task going in front of the
      tasks after it whose rank is equal. */
  function SortByRank(s: seq<Task>, descending: bool): (r: seq<Task>)
    ensures SortedByRank(r, descending)
    ensures multiset(r) == multiset(s)
  {
    if s == [] then []
    else
      var rest := SortByRank(s[1..], descending);
      InsertSorted(s[0], rest, descending);
      InsertCount(s[0], rest, descending);
      assert s == [s[0]] + s[1..];
      Insert(s[0], rest, descending)
  }

  /** Selects the tasks of one rank. */
  function HasRank(descending: bool, k: int): Task -> bool
  {
    (t: Task) => Rank(t, descending) == k
  }

  lemma {:induction false} InsertRun(x: Task, s: seq<Task>, descending: bool, k: int)
    ensures Filter(Insert(x, s, descending), HasRank(descending, k))
         == (if Rank(x, descending) == k then [x] else []) + Filter(s, HasRank(descending, k))
  {
    if s == [] || Rank(x, descending) <= Rank(s[0], descending) {
      assert ([x] + s)[1..] == s;
    } else {
      InsertRun(x, s[1..], descending, k);
      assert ([s[0]] + Insert(x, s[1..], descending))[1..] == Insert(x, s[1..], descending);
    }
  }

  /** The sort is stable, as Array.prototype.sort is: tasks of equal rank keep the
      order they had in the input. */
  lemma {:induction false} SortByRankStable(s: seq<Task>, descending: bool, k: int)
    ensures Filter(SortByRank(s, descending), HasRank(descending, k)) == Filter(s, HasRank(descending, k))
  {
    if s != [] {
      SortByRankStable(s[1..], descending, k);
      InsertRun(s[0], SortByRank(s[1..], descending), descending, k);
    }
  }

  /** sortTasks: the input itself when no direction is set, otherwise a rearrangement
      of it ordered by due date, earliest first for "asc" and latest first for "desc". */
  function SortTasks(ts: seq<Task>, dir: SortDirection): (r: seq<Task>)
    ensures dir == Unsorted ==> r == ts
    ensures multiset(r) == multiset(ts)
    ensures dir == Asc ==>
      forall i, j :: 0 <= i < j < |r| ==> DateKey(r[i].dueDate) <= DateKey(r[j].dueDate)
    ensures dir == Desc ==>
      forall i, j :: 0 <= i < j < |r| ==> DateKey(r[i].dueDate) >= DateKey(r[j].dueDate)
  {
    if dir == Unsorted then ts else SortByRank(ts, dir == Desc)
  }

  /** Pressing sort three times from the start shows the list in its stored order again. */
  lemma ThreeTogglesRestoreOrder(ts: seq<Task>)
    ensures SortTasks(ts, NextDirection(NextDirection(NextDirection(Unsorted)))) == ts
  {
  }

  // ---------------------------------------------------------------------------
  // Filtering by priority and status

  /** The two multi-select filter dimensions; an empty selection matches everything. */
  datatype FilterOptions = FilterOptions(priority: seq<Priority>, status: seq<Status>)

  /** One checkbox of the filter menu. */
  datatype FilterChoice = PriorityChoice(p: Priority) | StatusChoice(s: Status)

  /** A task passes when each dimension is either unselected or selects its value. */
  predicate Matches(opts: FilterOptions, t: Task)
  {
    (|opts.priority| == 0 || t.priority in opts.priority)
    && (|opts.status| == 0 || t.status in opts.status)
  }

  /** filterTasks: the tasks that pass both dimensions, in their order. */
  function FilterTasks(ts: seq<Task>, opts: FilterOptions): (r: seq<Task>)
    ensures Subseq(r, ts)
    ensures forall t :: multiset(r)[t] == if Matches(opts, t) then multiset(ts)[t] else 0
    ensures opts.priority == [] && opts.status == [] ==> r == ts
  {
    var pass := (t: Task) => Matches(opts, t);
    FilterIsSubseq(ts, pass);
    FilterCount(ts, pass);
    if opts.priority == [] && opts.status == [] then FilterAll(ts, pass); Filter(ts, pass)
    else Filter(ts, pass)
  }

  /** The value list after toggling v: every occurrence removed when v is there,
      otherwise v appended. */
  function Toggled<T(==, !new)>(vs: seq<T>, v: T): (r: seq<T>)
    ensures v in vs ==> v !in r && Subseq(r, vs)
    ensures v in vs ==> forall x :: x != v ==> multiset(r)[x] == multiset(vs)[x]
    ensures v !in vs ==> r == vs + [v]
    ensures forall x :: x in r <==> (if x == v then v !in vs else x in vs)
  {
    if v in vs then
      var other := (x: T) => x != v;
      FilterIsSubseq(vs, other);
      FilterCount(vs, other);
      FilterMembership(vs, other);
      Filter(vs, other)
    else vs + [v]
  }

  /** Checking a box and unchecking it again restores the selection. */
  lemma ToggledTwice<T(!new)>(vs: seq<T>, v: T)
    requires v !in vs
    ensures Toggled(Toggled(vs, v), v) == vs
  {
    var other := (x: T) => x != v;
    FilterAppend(vs, [v], other);
    FilterAll(vs, other);
    assert Filter([v], other) == [];
  }

  /** toggleFilter: toggles the chosen value in its own dimension only. */
  function ToggledFilter(opts: FilterOptions, c: FilterChoice): (r: FilterOptions)
    ensures c.PriorityChoice? ==>
      && r.status == opts.status
      && forall p :: p in r.priority <==> (if p == c.p then p !in opts.priority else p in opts.priority)
    ensures c.StatusChoice? ==>
      && r.priority == opts.priority
      && forall s :: s in r.status <==> (if s == c.s then s !in opts.status else s in opts.status)
  {
    match c
    case PriorityChoice(p) => opts.(priority := Toggled(opts.priority, p))
    case StatusChoice(s) => opts.(status := Toggled(opts.status, s))
  }

  // ---------------------------------------------------------------------------
  // Searching titles

  /** The title test of the search: the lower-cased title includes the lower-cased query. */
  function TitleMatches(q: string): Task -> bool
  {
    (t: Task) => Includes(ToLower(t.title), ToLower(q))
  }

  /** What the search keeps: everything for a blank query, otherwise the tasks whose
      lower-cased title holds the lower-cased query, untrimmed, somewhere. */
  ghost predicate SearchMatches(q: string, t: Task)
  {
    AllWhiteSpace(q) || Occurs(ToLower(q), ToLower(t.title))
  }

  /** searchTasks: the input itself for a query that trims to nothing, otherwise the
      tasks whose title matches, in their order. */
  function SearchTasks(ts: seq<Task>, q: string): (r: seq<Task>)
    ensures AllWhiteSpace(q) ==> r == ts
    ensures Subseq(r, ts)
    ensures forall t :: multiset(r)[t] == if SearchMatches(q, t) then multiset(ts)[t] else 0
  {
    TrimEmptyIffAllWhiteSpace(q);
    if Trim(q) == [] then
      SubseqReflexive(ts);
      ts
    else
      var hit := TitleMatches(q);
      FilterIsSubseq(ts, hit);
      FilterCount(ts, hit);
      TitleMatchesIffOccurs(q);
      Filter(ts, hit)
  }

  lemma TitleMatchesIffOccurs(q: string)
    ensures forall t :: TitleMatches(q)(t) <==> Occurs(ToLower(q), ToLower(t.title))
  {
    forall t ensures TitleMatches(q)(t) <==> Occurs(ToLower(q), ToLower(t.title)) {
      IncludesIffOccurs(ToLower(t.title), ToLower(q));
    }
  }

  /** A query that is not blank and occurs in no title finds nothing. */
  lemma SearchNoMatch(ts: seq<Task>, q: string)
    requires !AllWhiteSpace(q)
    requires forall i :: 0 <= i < |ts| ==> !Occurs(ToLower(q), ToLower(ts[i].title))
    ensures SearchTasks(ts, q) == []
  {
    TrimEmptyIffAllWhiteSpace(q);
    TitleMatchesIffOccurs(q);
    FilterNone(ts, TitleMatches(q));
  }

  /** The search ignores the case of the query: a query and its lower-cased form find
      the same tasks. */
  lemma SearchIgnoresQueryCase(ts: seq<Task>, q: string)
    ensures SearchTasks(ts, ToLower(q)) == SearchTasks(ts, q)
  {
    ToLowerKeepsWhiteSpace(q);
    ToLowerIdempotent(q);
    TrimEmptyIffAllWhiteSpace(q);
    TrimEmptyIffAllWhiteSpace(ToLower(q));
    assert TitleMatches(ToLower(q)) == TitleMatches(q);
  }

  /** Only the emptiness test trims: a leading space stays part of the query. */
  lemma SearchDoesNotTrimQuery()
    ensures SearchTasks([Task(1, "ab", "", "2024-01-01", InProgress, Low)], " a") == []
    ensures SearchTasks([Task(1, "ab", "", "2024-01-01", InProgress, Low)], "a")
         == [Task(1, "ab", "", "2024-01-01", InProgress, Low)]
  {
    var t := Task(1, "ab", "", "2024-01-01", InProgress, Low);
    assert !IsWhiteSpace('a');
    assert ToLower(" a") == " a" && ToLower("a") == "a" && ToLower("ab") == "ab";
    assert !Includes("ab", " a") by {
      assert "ab"[..2] == "ab" && "ab"[1..] == "b";
      assert !Includes("b", " a");
    }
    assert Includes("ab", "a") by {
      assert "ab"[..1] == "a";
    }
    assert Filter([t], TitleMatches(" a")) == [];
    assert Filter([t], TitleMatches("a")) == [t];
  }

  // ---------------------------------------------------------------------------
  // The composed view

  /** processedTasks = searchTasks(filterTasks(sortTasks(tasks))). */
  function Processed(ts: seq<Task>, dir: SortDirection, opts: FilterOptions, q: string): seq<Task>
  {
    SearchTasks(FilterTasks(SortTasks(ts, dir), opts), q)
  }

  /** The view is the sorted list with some tasks left out: filter and search never
      reorder or add. A task is shown, as often as it is stored, exactly when it passes
      the filter and the search. */
  lemma ProcessedSpec(ts: seq<Task>, dir: SortDirection, opts: FilterOptions, q: string)
    ensures Subseq(Processed(ts, dir, opts, q), SortTasks(ts, dir))
    ensures forall t ::
      multiset(Processed(ts, dir, opts, q))[t]
      == if Matches(opts, t) && SearchMatches(q, t) then multiset(ts)[t] else 0
  {
    var sorted := SortTasks(ts, dir);
    var filtered := FilterTasks(sorted, opts);
    SubseqTransitive(Processed(ts, dir, opts, q), filtered, sorted);
  }

  /** With no direction, no selection and a blank query the view is the stored list. */
  lemma ProcessedIdentity(ts: seq<Task>, q: string)
    requires AllWhiteSpace(q)
    ensures Processed(ts, Unsorted, FilterOptions([], []), q) == ts
  {
  }

  // ---------------------------------------------------------------------------
  // Small pieces of view state

  const AllPriorities: seq<Priority> := [High, Medium, Low]

  /** getOtherPriorities: the two priorities other than current, in the order
      High, Medium, Low. */
  function OtherPriorities(current: Priority): (r: seq<Priority>)
    ensures |r| == 2 && current !in r
    ensures forall p :: p != current ==> p in r
    ensures Subseq(r, AllPriorities)
  {
    var other := (p: Priority) => p != current;
    FilterIsSubseq(AllPriorities, other);
    assert AllPriorities[1..] == [Medium, Low] && AllPriorities[1..][1..] == [Low];
    Filter(AllPriorities, other)
  }

  /** A row is expanded when its entry is true; a missing entry reads as collapsed. */
  predicate IsExpanded(rows: map<int, bool>, id: int)
  {
    id in rows && rows[id]
  }

  /** toggleRowExpansion: flips the one row and leaves every other entry as it was. */
  function ToggledRow(rows: map<int, bool>, id: int): (r: map<int, bool>)
    ensures id in r && IsExpanded(r, id) == !IsExpanded(rows, id)
    ensures forall k :: k != id ==> (k in r <==> k in rows)
    ensures forall k :: k != id && k in rows ==> r[k] == rows[k]
  {
    rows[id := !IsExpanded(rows, id)]
  }

  /** Expanding and collapsing a row again leaves every row showing as before. */
  lemma ToggledRowTwice(rows: map<int, bool>, id: int, k: int)
    ensures IsExpanded(ToggledRow(ToggledRow(rows, id), id), k) == IsExpanded(rows, k)
  {
  }

  // ---------------------------------------------------------------------------
  // Turning popup input into tasks

  /** What the add popup collects. */
  datatype AddForm = AddForm(title: string, description: string, dueDate: string)

  /** What the edit popup collects. */
  datatype EditForm = EditForm(title: string, description: string, dueDate: string, status: Status)

  /** The record handleAddTask builds: the form's text fields, "In Progress", "Low". */
  function NewTask(id: int, form: AddForm): (t: Task)
    ensures t.id == id && t.status == InProgress && t.priority == Low
    ensures t.title == form.title && t.description == form.description && t.dueDate == form.dueDate
  {
    Task(id, form.title, form.description, form.dueDate, InProgress, Low)
  }

  /** The record handleSaveEdit builds, { ...taskToEdit, ...updatedTask }: the form
      overwrites title, description, due date and status; id and priority stay. */
  function EditedTask(original: Task, form: EditForm): (t: Task)
    ensures t.id == original.id && t.priority == original.priority
    ensures t.title == form.title && t.description == form.description
    ensures t.dueDate == form.dueDate && t.status == form.status
  {
    original.(title := form.title, description := form.description,
              dueDate := form.dueDate, status := form.status)
  }

  /** Saving an edit replaces the edited task in place and moves no id. */
  lemma SaveEditKeepsIds(ts: seq<Task>, original: Task, form: EditForm)
    ensures Ids(Updated(ts, EditedTask(original, form))) == Ids(ts)
    ensures forall i :: 0 <= i < |ts| && ts[i].id == original.id ==>
      Updated(ts, EditedTask(original, form))[i] == EditedTask(original, form)
  {
  }

  // ---------------------------------------------------------------------------
  // The component's state

  /** The table component: the store it is given, the search query it is given, and
      the view state it keeps. */
  class TaskTableView {
    const store: TaskStore
    const searchQuery: string
    var sortDirection: SortDirection
    var filterOptions: FilterOptions
    var expandedRows: map<int, bool>
    var taskToDelete: Option<int>
    var deletePopupOpen: bool
    var taskToEdit: Option<Task>
    var editPopupOpen: bool

    constructor (store: TaskStore, searchQuery: string)
      ensures this.store == store && this.searchQuery == searchQuery
      ensures sortDirection == Unsorted && filterOptions == FilterOptions([], [])
      ensures expandedRows == map[]
      ensures taskToDelete == None && !deletePopupOpen
      ensures taskToEdit == None && !editPopupOpen
    {
      this.store := store;
      this.searchQuery := searchQuery;
      sortDirection := Unsorted;
      filterOptions := FilterOptions([], []);
      expandedRows := map[];
      taskToDelete := None;
      deletePopupOpen := false;
      taskToEdit := None;
      editPopupOpen := false;
    }

    /** processedTasks: the list the table and the cards render. */
    function ProcessedTasks(): seq<Task>
      reads this, store
    {
      Processed(store.tasks, sortDirection, filterOptions, searchQuery)
    }

    method ToggleSort()
      modifies this`sortDirection
      ensures sortDirection == NextDirection(old(sortDirection))
    {
      sortDirection := NextDirection(sortDirection);
    }

    method ToggleFilter(choice: FilterChoice)
      modifies this`filterOptions
      ensures filterOptions == ToggledFilter(old(filterOptions), choice)
    {
      filterOptions := ToggledFilter(filterOptions, choice);
    }

    method ToggleRowExpansion(taskId: int)
      modifies this`expandedRows
      ensures expandedRows == ToggledRow(old(expandedRows), taskId)
    {
      expandedRows := ToggledRow(expandedRows, taskId);
    }

    /** handleDelete: remembers the task and opens the confirmation popup. */
    method HandleDelete(id: int)
      modifies this`taskToDelete, this`deletePopupOpen
      ensures taskToDelete == Some(id) && deletePopupOpen
    {
      taskToDelete := Some(id);
      deletePopupOpen := true;
    }

    /** confirmDelete: deletes the remembered task, if any, and closes the popup;
      with none remembered (id 0 counts as remembered) it does nothing. */
    method ConfirmDelete()
      modifies store, this`taskToDelete, this`deletePopupOpen
      ensures old(taskToDelete).Some? ==>
        store.tasks == Deleted(old(store.tasks), old(taskToDelete).value)
        && taskToDelete == None && !deletePopupOpen
      ensures old(taskToDelete).None? ==>
        store.tasks == old(store.tasks) && taskToDelete == None
        && deletePopupOpen == old(deletePopupOpen)
      ensures old(store.Valid()) ==> store.Valid()
    {
      if taskToDelete.Some? {
        store.DeleteTask(taskToDelete.value);
        deletePopupOpen := false;
        taskToDelete := None;
      }
    }

    /** handleEdit: remembers the task and opens the edit popup. */
    method HandleEdit(task: Task)
      modifies this`taskToEdit, this`editPopupOpen
      ensures taskToEdit == Some(task) && editPopupOpen
    {
      taskToEdit := Some(task);
      editPopupOpen := true;
    }

    /** handleSaveEdit: stores the edited record and closes the popup; with no task
      being edited it does nothing. */
    method HandleSaveEdit(form: EditForm)
      modifies store, this`taskToEdit, this`editPopupOpen
      ensures old(taskToEdit).Some? ==>
        store.tasks == Updated(old(store.tasks), EditedTask(old(taskToEdit).value, form))
        && taskToEdit == None && !editPopupOpen
      ensures old(taskToEdit).None? ==>
        store.tasks == old(store.tasks) && taskToEdit == None
        && editPopupOpen == old(editPopupOpen)
      ensures old(store.Valid()) ==> store.Valid()
    {
      if taskToEdit.Some? {
        store.UpdateTask(EditedTask(taskToEdit.value, form));
        editPopupOpen := false;
        taskToEdit := None;
      }
    }

    /** handleAddTask: builds an "In Progress", "Low" task from the form and adds it;
      the id it computes is the one the store assigns anyway. */
    method HandleAddTask(form: AddForm)
      modifies store
      ensures store.tasks == old(store.tasks) + [NewTask(NextId(old(store.tasks)), form)]
      ensures old(store.Valid()) ==> store.Valid()
    {
      var newId := NextId(store.tasks);
      var storedId := store.AddTask(NewTask(newId, form));
      assert storedId == newId;
    }

    /** handlePriorityChange: passes the choice straight to the store. */
    method HandlePriorityChange(id: int, newPriority: Priority)
      modifies store
      ensures store.tasks == WithPriority(old(store.tasks), id, newPriority)
      ensures old(store.Valid()) ==> store.Valid()
    {
      store.UpdateTaskPriority(id, newPriority);
    }
  }
}
