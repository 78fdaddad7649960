/** The task record of task/task.go and the facts about task sequences that
    every operation relies on: ID lookup and the ID ordering invariant. */
module Tasks {
  import opened Results
  import opened Selection

  /** One task as stored in the collection. Status, priority and the
      timestamps are free text in the program, so they are strings here. */
  datatype Task = Task(
    id: int,
    description: string,
    status: string,
    createdAt: string,
    updatedAt: string,
    dueDate: string,
    priority: string)

  /** The status every new task starts in. */
  const Todo: string := "todo"

  /** The ways an operation of the task store can fail. */
  datatype Error =
    | NotFound                        // no task carries the requested ID
    | AlreadyMarked(status: string)   // the task already has the requested status
    | NoBackup                        // undo was asked for but no backup slot exists
    | IoFailure                       // a read or write of a storage slot failed

  /** Some task in the collection carries `id`. */
  predicate HasId(tasks: seq<Task>, id: int) {
    exists i :: 0 <= i < |tasks| && tasks[i].id == id
  }

  /** Position `i` holds the first task with `id`, scanning from the front. */
  ghost predicate IsFirstWithId(tasks: seq<Task>, id: int, i: int) {
    && 0 <= i < |tasks|
    && tasks[i].id == id
    && forall k :: 0 <= k < i ==> tasks[k].id != id
  }

  /** The IDs strictly increase from front to back (the order in which Add appends). */
  ghost predicate IdsIncreasing(tasks: seq<Task>) {
    forall i, j :: 0 <= i < j < |tasks| ==> tasks[i].id < tasks[j].id
  }

  /** No two tasks share an ID. */
  ghost predicate IdsUnique(tasks: seq<Task>) {
    forall i, j :: 0 <= i < |tasks| && 0 <= j < |tasks| && i != j ==> tasks[i].id != tasks[j].id
  }

  /** Both sequences carry the same IDs at the same positions. */
  ghost predicate SameIds(a: seq<Task>, b: seq<Task>) {
    |a| == |b| && forall i :: 0 <= i < |a| ==> a[i].id == b[i].id
  }

  /** The index the lookup loops of UpdateTask and MarkTask stop at:
      the first task with `id`, or none when the ID is absent. */
  function FirstIndexOf(tasks: seq<Task>, id: int): (r: Option<nat>)
    ensures r.None? <==> !HasId(tasks, id)
    ensures r.Some? ==> IsFirstWithId(tasks, id, r.value)
  {
    if |tasks| == 0 then None
    else if tasks[0].id == id then Some(0)
    else match FirstIndexOf(tasks[1..], id)
      case None =>
        assert forall i :: 1 <= i < |tasks| ==> tasks[i] == tasks[1..][i - 1];
        None
      case Some(k) =>
        assert forall i :: 1 <= i <= k + 1 ==> tasks[i] == tasks[1..][i - 1];
        Some(k + 1)
  }

  /** Strictly increasing IDs are unique IDs. */
  lemma IncreasingIsUnique(tasks: seq<Task>)
    requires IdsIncreasing(tasks)
    ensures IdsUnique(tasks)
  {
  }

  /** Under the ordering invariant, the task carrying `id` is the first one with it,
      so "the first match" of UpdateTask and MarkTask is "the task with that ID". */
  lemma IncreasingFirstIsOnly(tasks: seq<Task>, id: int, j: int)
    requires IdsIncreasing(tasks)
    requires 0 <= j < |tasks| && tasks[j].id == id
    ensures IsFirstWithId(tasks, id, j)
  {
  }

  /** Dropping tasks, keeping the order of the rest, keeps the ordering invariant. */
  lemma {:induction false} SubseqKeepsIncreasing(a: seq<Task>, b: seq<Task>)
    requires SubseqOf(a, b)
    requires IdsIncreasing(b)
    ensures IdsIncreasing(a)
    decreases |b|
  {
    if |a| == 0 {
    } else if a[0] == b[0] && SubseqOf(a[1..], b[1..]) {
      SubseqKeepsIncreasing(a[1..], b[1..]);
      SubseqOfContained(a[1..], b[1..]);
      forall i, j | 0 <= i < j < |a|
        ensures a[i].id < a[j].id
      {
        assert a[j] == a[1..][j - 1];
        if i == 0 {
          assert a[j] in b[1..];
          var m :| 0 <= m < |b[1..]| && b[1..][m] == a[j];
          assert b[m + 1] == a[j];
        } else {
          assert a[i] == a[1..][i - 1];
        }
      }
    } else {
      assert forall i, j :: 0 <= i < j < |b[1..]| ==> b[1..][i] == b[i + 1] && b[1..][j] == b[j + 1];
      SubseqKeepsIncreasing(a, b[1..]);
    }
  }
}
