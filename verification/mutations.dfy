/** The four mutations of task/task.go (AddTasks, UpdateTask, DeleteTask,
    MarkTask) on the loaded sequence, before anything is saved. The clock
    reading `now` is a parameter. */
module Mutations {
  import opened Results
  import opened Selection
  import opened Tasks

  /** The ID AddTasks assigns: one past the last task's ID, or 1 for an empty
      collection. It is the last ID, not the largest, so freshness rests on
      the ordering invariant. */
  function NextId(tasks: seq<Task>): (id: int)
    ensures IdsIncreasing(tasks) ==> forall i :: 0 <= i < |tasks| ==> tasks[i].id < id
  {
    if |tasks| == 0 then 1 else tasks[|tasks| - 1].id + 1
  }

  /** Appends a new `todo` task stamped `now`; always succeeds. */
  function AddTask(tasks: seq<Task>, description: string, dueDate: string, priority: string, now: string)
    : (r: seq<Task>)
    ensures |r| == |tasks| + 1
    ensures r[..|tasks|] == tasks
    ensures r[|tasks|] == Task(NextId(tasks), description, Todo, now, now, dueDate, priority)
    ensures IdsIncreasing(tasks) ==> IdsIncreasing(r) && !HasId(tasks, r[|tasks|].id)
  {
    tasks + [Task(NextId(tasks), description, Todo, now, now, dueDate, priority)]
  }

  /** Rewrites the description of the first task with `id`, stamping it `now`. */
  function UpdateTask(tasks: seq<Task>, id: int, newDescription: string, now: string)
    : (r: Result<seq<Task>, Error>)
    ensures r.Err? <==> !HasId(tasks, id)
    ensures r.Err? ==> r.error == NotFound
    ensures r.Ok? ==> |r.value| == |tasks|
    ensures r.Ok? ==> forall j :: 0 <= j < |tasks| ==>
      r.value[j] == if IsFirstWithId(tasks, id, j)
                    then tasks[j].(description := newDescription, updatedAt := now)
                    else tasks[j]
    ensures r.Ok? && IdsIncreasing(tasks) ==> IdsIncreasing(r.value)
  {
    match FirstIndexOf(tasks, id)
    case None => Err(NotFound)
    case Some(i) =>
      var updated := tasks[i := tasks[i].(description := newDescription, updatedAt := now)];
      assert SameIds(tasks, updated);
      Ok(updated)
  }

  /** Removes every task with `id`, keeping the order of the others. */
  function DeleteTask(tasks: seq<Task>, id: int): (r: Result<seq<Task>, Error>)
    ensures r.Err? <==> !HasId(tasks, id)
    ensures r.Err? ==> r.error == NotFound
    ensures r.Ok? ==> !HasId(r.value, id)
    ensures r.Ok? ==> |r.value| < |tasks|
    ensures r.Ok? ==> SubseqOf(r.value, tasks)
    ensures r.Ok? ==> forall t :: multiset(r.value)[t] == if t.id == id then 0 else multiset(tasks)[t]
    ensures r.Ok? && IdsIncreasing(tasks) ==> IdsIncreasing(r.value)
  {
    if HasId(tasks, id) then
      var kept := Keep(tasks, (t: Task) => t.id != id);
      assert !HasId(kept, id) by {
        forall i | 0 <= i < |kept| ensures kept[i].id != id {
          assert kept[i] in kept;
        }
      }
      var i :| 0 <= i < |tasks| && tasks[i].id == id;
      KeepDropsSome(tasks, (t: Task) => t.id != id, i);
      assert IdsIncreasing(tasks) ==> IdsIncreasing(kept) by {
        if IdsIncreasing(tasks) {
          SubseqKeepsIncreasing(kept, tasks);
        }
      }
      Ok(kept)
    else Err(NotFound)
  }

  /** Sets the status of the first task with `id` to `newStatus`, stamping it `now`.
      Any target status is accepted, except the one the task already has. */
  function MarkTask(tasks: seq<Task>, id: int, newStatus: string, now: string)
    : (r: Result<seq<Task>, Error>)
    ensures r == Err(NotFound) <==> !HasId(tasks, id)
    ensures r == Err(AlreadyMarked(newStatus)) <==>
      exists j :: IsFirstWithId(tasks, id, j) && tasks[j].status == newStatus
    ensures r.Err? ==> r.error == NotFound || r.error == AlreadyMarked(newStatus)
    ensures r.Ok? ==> |r.value| == |tasks|
    ensures r.Ok? ==> forall j :: 0 <= j < |tasks| ==>
      r.value[j] == if IsFirstWithId(tasks, id, j)
                    then tasks[j].(status := newStatus, updatedAt := now)
                    else tasks[j]
    ensures r.Ok? && IdsIncreasing(tasks) ==> IdsIncreasing(r.value)
  {
    match FirstIndexOf(tasks, id)
    case None => Err(NotFound)
    case Some(i) =>
      if tasks[i].status == newStatus then Err(AlreadyMarked(newStatus))
      else
        var marked := tasks[i := tasks[i].(status := newStatus, updatedAt := now)];
        assert SameIds(tasks, marked);
        Ok(marked)
  }

  /** The ordering invariant is what makes "last ID + 1" fresh: on a collection
      whose IDs are out of order, Add hands out an ID that is already taken. */
  lemma NextIdCollidesWithoutOrder()
    ensures var tasks := [Task(3, "a", Todo, "", "", "", ""), Task(2, "b", Todo, "", "", "", "")];
            !IdsIncreasing(tasks) && HasId(tasks, NextId(tasks))
  {
    var tasks := [Task(3, "a", Todo, "", "", "", ""), Task(2, "b", Todo, "", "", "", "")];
    assert tasks[0].id == NextId(tasks);
  }

  /** Under the ordering invariant Update rewrites exactly the task carrying `id`. */
  lemma UpdateTouchesOnlyThatId(tasks: seq<Task>, id: int, newDescription: string, now: string)
    requires IdsIncreasing(tasks)
    requires HasId(tasks, id)
    ensures var r := UpdateTask(tasks, id, newDescription, now);
            r.Ok? && forall j :: 0 <= j < |tasks| ==>
              r.value[j] == if tasks[j].id == id
                            then tasks[j].(description := newDescription, updatedAt := now)
                            else tasks[j]
  {
  }

  /** Marking the same task with the same status twice in a row: the second call is rejected. */
  lemma MarkTwiceRejected(tasks: seq<Task>, id: int, newStatus: string, now: string, later: string)
    requires MarkTask(tasks, id, newStatus, now).Ok?
    ensures MarkTask(MarkTask(tasks, id, newStatus, now).value, id, newStatus, later)
            == Err(AlreadyMarked(newStatus))
  {
  }

  /** The arguments of one AddTasks call. */
  datatype AddRequest = AddRequest(description: string, dueDate: string, priority: string, now: string)

  /** The collection after one AddTasks call per request, in order. */
  function AddEach(tasks: seq<Task>, requests: seq<AddRequest>): (r: seq<Task>)
    ensures |r| == |tasks| + |requests|
    ensures r[..|tasks|] == tasks
    decreases |requests|
  {
    if |requests| == 0 then tasks
    else
      var q := requests[|requests| - 1];
      AddTask(AddEach(tasks, requests[..|requests| - 1]), q.description, q.dueDate, q.priority, q.now)
  }

  /** Starting from an empty collection, the n-th added task gets ID n. */
  lemma {:induction false} AddEachNumbersFromOne(requests: seq<AddRequest>)
    ensures forall i :: 0 <= i < |requests| ==> AddEach([], requests)[i].id == i + 1
    ensures IdsIncreasing(AddEach([], requests))
    decreases |requests|
  {
    if |requests| > 0 {
      var front := requests[..|requests| - 1];
      AddEachNumbersFromOne(front);
      var q := requests[|requests| - 1];
      var before := AddEach([], front);
      var after := AddEach([], requests);
      assert after == AddTask(before, q.description, q.dueDate, q.priority, q.now);
      assert after[..|before|] == before;
      forall i | 0 <= i < |requests|
        ensures after[i].id == i + 1
      {
        if i < |front| {
          assert after[i] == before[i];
        } else {
          assert NextId(before) == |front| + 1;
        }
      }
    }
  }
}
