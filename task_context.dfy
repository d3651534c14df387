/** The shared task store: the Task record, the seed list, and the four
    operations the provider exposes (deleteTask, updateTaskPriority,
    updateTask, addTask). Each operation replaces the list with a new one;
    the new list is given by a function on sequences, and TaskStore holds the
    one mutable list and applies those functions to it. */
module TaskContext {
  import opened Seqs

  datatype Status = Completed | InProgress

  datatype Priority = High | Medium | Low

  /** A task; dueDate is the ISO date string "YYYY-MM-DD" the form produces. */
  datatype Task = Task(
    id: int,
    title: string,
    description: string,
    dueDate: string,
    status: Status,
    priority: Priority)

  /** The ids of ts, in order. */
  function Ids(ts: seq<Task>): seq<int>
  {
    seq(|ts|, i requires 0 <= i < |ts| => ts[i].id)
  }

  /** No two tasks share an id. */
  predicate UniqueIds(ts: seq<Task>)
  {
    forall i, j :: 0 <= i < j < |ts| ==> ts[i].id != ts[j].id
  }

  /** True when some task in ts has the given id. */
  predicate HasId(ts: seq<Task>, id: int)
  {
    exists i :: 0 <= i < |ts| && ts[i].id == id
  }

  const SeedTitle: string := "Lorem ipsum dolor sit consec"
  const SeedDescription: string :=
    "Lorem ipsum dolor sit amet, consectetur sadipscing elitr, sed diam nonumy eirmod tempor invidunt ut labore et dolore magna"

  /** The list a session starts with. */
  const InitialTasks: seq<Task> := [
    Task(1, SeedTitle, SeedDescription, "2021-04-23", Completed, Medium),
    Task(2, SeedTitle, SeedDescription, "2027-04-23", InProgress, High),
    Task(3, SeedTitle, SeedDescription, "1990-04-19", InProgress, Medium),
    Task(4, SeedTitle, SeedDescription, "2000-07-23", Completed, Low),
    Task(5, SeedTitle, SeedDescription, "2024-12-12", Completed, Low),
    Task(6, SeedTitle, SeedDescription, "2024-01-01", Completed, High),
    Task(7, SeedTitle, SeedDescription, "2020-04-29", InProgress, High)
  ]

  /** The seed holds the ids 1 to 7 in order, so its ids are unique. */
  lemma InitialTasksValid()
    ensures Ids(InitialTasks) == [1, 2, 3, 4, 5, 6, 7]
    ensures UniqueIds(InitialTasks)
  {
  }

  /** Math.max over the ids of a non-empty list. */
  function MaxId(ts: seq<Task>): (m: int)
    requires ts != []
    ensures forall i :: 0 <= i < |ts| ==> ts[i].id <= m
    ensures HasId(ts, m)
  {
    if |ts| == 1 then ts[0].id
    else
      var rest := MaxId(ts[1..]);
      if ts[0].id >= rest then ts[0].id else rest
  }

  /** The id addTask assigns: one more than the largest id, or 1 for an empty list.
      It is larger than every id in the list. */
  function NextId(ts: seq<Task>): (n: int)
    ensures forall i :: 0 <= i < |ts| ==> ts[i].id < n
    ensures ts == [] ==> n == 1
    ensures ts != [] ==> HasId(ts, n - 1)
  {
    if |ts| > 0 then MaxId(ts) + 1 else 1
  }

  /** deleteTask: the tasks whose id differs from id, in their original order. */
  function Deleted(ts: seq<Task>, id: int): (r: seq<Task>)
    ensures Subseq(r, ts)
    ensures forall t :: t in r ==> t.id != id
    ensures forall t :: multiset(r)[t] == if t.id == id then 0 else multiset(ts)[t]
  {
    var keep := (t: Task) => t.id != id;
    FilterIsSubseq(ts, keep);
    FilterCount(ts, keep);
    FilterMembership(ts, keep);
    Filter(ts, keep)
  }

  /** updateTaskPriority: every task with the id gets the new priority and keeps its
      other fields; every other task is left as it was. */
  function WithPriority(ts: seq<Task>, id: int, p: Priority): (r: seq<Task>)
    ensures |r| == |ts|
    ensures forall i :: 0 <= i < |ts| && ts[i].id == id ==>
      r[i].priority == p && r[i].id == ts[i].id && r[i].title == ts[i].title
      && r[i].description == ts[i].description && r[i].dueDate == ts[i].dueDate
      && r[i].status == ts[i].status
    ensures forall i :: 0 <= i < |ts| && ts[i].id != id ==> r[i] == ts[i]
  {
    seq(|ts|, i requires 0 <= i < |ts| => if ts[i].id == id then ts[i].(priority := p) else ts[i])
  }

  /** updateTask: every task with the id of t is replaced by t; every other task is
      left as it was. */
  function Updated(ts: seq<Task>, t: Task): (r: seq<Task>)
    ensures |r| == |ts|
    ensures forall i :: 0 <= i < |ts| && ts[i].id == t.id ==> r[i] == t
    ensures forall i :: 0 <= i < |ts| && ts[i].id != t.id ==> r[i] == ts[i]
  {
    seq(|ts|, i requires 0 <= i < |ts| => if ts[i].id == t.id then t else ts[i])
  }

  /** addTask: t, with its id replaced by NextId(ts), appended after every existing task. */
  function Added(ts: seq<Task>, t: Task): (r: seq<Task>)
    ensures |r| == |ts| + 1 && r[..|ts|] == ts
    ensures r[|ts|] == t.(id := NextId(ts))
    ensures !HasId(ts, r[|ts|].id)
  {
    ts + [t.(id := NextId(ts))]
  }

  /** Deleting an id no task has changes nothing. */
  lemma DeleteAbsent(ts: seq<Task>, id: int)
    requires !HasId(ts, id)
    ensures Deleted(ts, id) == ts
  {
    FilterAll(ts, (t: Task) => t.id != id);
  }

  /** Setting the priority of an id no task has changes nothing. */
  lemma WithPriorityAbsent(ts: seq<Task>, id: int, p: Priority)
    requires !HasId(ts, id)
    ensures WithPriority(ts, id, p) == ts
  {
  }

  /** Replacing a task whose id no task has changes nothing. */
  lemma UpdateAbsent(ts: seq<Task>, t: Task)
    requires !HasId(ts, t.id)
    ensures Updated(ts, t) == ts
  {
  }

  /** Neither update moves, adds or removes a task: the ids stay exactly as they were. */
  lemma UpdatesKeepIds(ts: seq<Task>, id: int, p: Priority, t: Task)
    ensures Ids(WithPriority(ts, id, p)) == Ids(ts)
    ensures Ids(Updated(ts, t)) == Ids(ts)
  {
  }

  /** A second priority change of the same id overrides the first. */
  lemma WithPriorityLastWins(ts: seq<Task>, id: int, p: Priority, q: Priority)
    ensures WithPriority(WithPriority(ts, id, p), id, q) == WithPriority(ts, id, q)
  {
  }

  /** The id carried by addTask's argument is never used: the store picks the id. */
  lemma AddIgnoresId(ts: seq<Task>, t: Task, k: int)
    ensures Added(ts, t.(id := k)) == Added(ts, t)
  {
  }

  /** A subsequence of a list with unique ids has unique ids. */
  lemma {:induction false} SubseqKeepsUnique(a: seq<Task>, b: seq<Task>)
    requires Subseq(a, b) && UniqueIds(b)
    ensures UniqueIds(a)
    decreases |b|
  {
    if a != [] {
      if a[0] == b[0] && Subseq(a[1..], b[1..]) {
        SubseqKeepsUnique(a[1..], b[1..]);
        SubseqMembership(a[1..], b[1..]);
        forall i, j | 0 <= i < j < |a| ensures a[i].id != a[j].id {
          if i == 0 {
            assert a[j] == a[1..][j - 1] && a[j] in a[1..];
            assert a[j] in b[1..];
            var k :| 0 <= k < |b[1..]| && b[1..][k] == a[j];
            assert b[k + 1] == a[j];
          } else {
            assert a[i] == a[1..][i - 1] && a[j] == a[1..][j - 1];
          }
        }
      } else {
        SubseqKeepsUnique(a, b[1..]);
      }
    }
  }

  lemma DeleteKeepsUnique(ts: seq<Task>, id: int)
    requires UniqueIds(ts)
    ensures UniqueIds(Deleted(ts, id))
  {
    SubseqKeepsUnique(Deleted(ts, id), ts);
  }

  lemma WithPriorityKeepsUnique(ts: seq<Task>, id: int, p: Priority)
    requires UniqueIds(ts)
    ensures UniqueIds(WithPriority(ts, id, p))
  {
  }

  lemma UpdateKeepsUnique(ts: seq<Task>, t: Task)
    requires UniqueIds(ts)
    ensures UniqueIds(Updated(ts, t))
  {
  }

  /** The fresh id is larger than every existing one, so it collides with none. */
  lemma AddKeepsUnique(ts: seq<Task>, t: Task)
    requires UniqueIds(ts)
    ensures UniqueIds(Added(ts, t))
  {
  }

  /** The one mutable list behind every view. */
  class TaskStore {
    var tasks: seq<Task>

    /** The store's invariant: ids are unique. */
    ghost predicate Valid()
      reads this
    {
      UniqueIds(tasks)
    }

    /** A session starts from the seed list. */
    constructor ()
      ensures tasks == InitialTasks
      ensures Valid()
    {
      tasks := InitialTasks;
      InitialTasksValid();
    }

    method DeleteTask(id: int)
      modifies this
      ensures tasks == Deleted(old(tasks), id)
      ensures old(Valid()) ==> Valid()
    {
      if Valid() {
        DeleteKeepsUnique(tasks, id);
      }
      tasks := Deleted(tasks, id);
    }

    method UpdateTaskPriority(id: int, priority: Priority)
      modifies this
      ensures tasks == WithPriority(old(tasks), id, priority)
      ensures old(Valid()) ==> Valid()
    {
      if Valid() {
        WithPriorityKeepsUnique(tasks, id, priority);
      }
      tasks := WithPriority(tasks, id, priority);
    }

    method UpdateTask(updatedTask: Task)
      modifies this
      ensures tasks == Updated(old(tasks), updatedTask)
      ensures old(Valid()) ==> Valid()
    {
      if Valid() {
        UpdateKeepsUnique(tasks, updatedTask);
      }
      tasks := Updated(tasks, updatedTask);
    }

    /** Appends task under a fresh id and returns that id. */
    method AddTask(task: Task) returns (newId: int)
      modifies this
      ensures newId == NextId(old(tasks))
      ensures tasks == Added(old(tasks), task)
      ensures old(Valid()) ==> Valid()
    {
      newId := NextId(tasks);
      if Valid() {
        AddKeepsUnique(tasks, task);
      }
      tasks := Added(tasks, task);
    }
  }
}
