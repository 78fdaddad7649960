/** The persistence layer of task/task.go as a two-slot store: the main file
    and the single backup file. Each slot holds a task sequence or is absent;
    JSON encoding is the identity here, so a slot holds the sequence itself.
    IO errors are modelled by naming the step that fails, if any. */
module Storage {
  import opened Results
  import opened Tasks

  /** The main slot (the task file) and the backup slot. */
  datatype Store = Store(main: Option<seq<Task>>, backup: Option<seq<Task>>)

  /** The file-system steps that can fail. */
  datatype Step =
    | CreateMain    // writing "[]" to a missing task file
    | ReadMain      // reading the task file
    | WriteBackup   // copying the task file to the backup file
    | WriteMain     // overwriting the task file
    | ReadBackup    // reading the backup file

  /** A store and the answer of the operation that produced it. */
  datatype Outcome<+T> = Outcome(store: Store, result: Result<T, Error>)

  /** A store with no task file and no backup, as before the first command. */
  const Fresh: Store := Store(None, None)

  /** LoadTasks: a missing task file is created empty, then the file is read. */
  function LoadTasks(st: Store, fault: Option<Step>): (r: Outcome<seq<Task>>)
    ensures r.store.backup == st.backup
    ensures st.main.Some? ==> r.store == st
    ensures r.result.Ok? ==> r.store.main == Some(r.result.value)
    ensures st.main.None? && r.store.main.Some? ==> r.store.main == Some([])
    ensures r.result.Err? <==> fault == Some(ReadMain) || (st.main.None? && fault == Some(CreateMain))
    ensures r.result.Err? ==> r.result.error == IoFailure
    ensures st.main.None? ==> r.store.main == if fault == Some(CreateMain) then None else Some([])
  {
    var created :=
      if st.main.Some? then Outcome(st, Ok(()))
      else if fault == Some(CreateMain) then Outcome(st, Err(IoFailure))
      else Outcome(st.(main := Some([])), Ok(()));
    if created.result.Err? then Outcome(created.store, Err(IoFailure))
    else if fault == Some(ReadMain) then Outcome(created.store, Err(IoFailure))
    else Outcome(created.store, Ok(created.store.main.value))
  }

  /** CreateBackup: copies the current task file into the backup slot; a missing
      task file is not an error and leaves the backup slot as it was. */
  function CreateBackup(st: Store, fault: Option<Step>): (r: Outcome<()>)
    ensures r.store.main == st.main
    ensures r.result.Err? ==> r.store == st && r.result.error == IoFailure
    ensures r.result.Ok? && st.main.Some? ==> r.store.backup == st.main
    ensures st.main.None? ==> r == Outcome(st, Ok(()))
    ensures r.result.Err? <==> st.main.Some? && (fault == Some(ReadMain) || fault == Some(WriteBackup))
  {
    if st.main.None? then Outcome(st, Ok(()))
    else if fault == Some(ReadMain) || fault == Some(WriteBackup) then Outcome(st, Err(IoFailure))
    else Outcome(st.(backup := st.main), Ok(()))
  }

  /** SaveTasks: back up the current task file, then overwrite it with `tasks`.
      A failed backup aborts the save before the task file is touched. */
  function SaveTasks(st: Store, tasks: seq<Task>, fault: Option<Step>): (r: Outcome<()>)
    ensures r.result.Err? ==> r.store.main == st.main && r.result.error == IoFailure
    ensures r.result.Err? && fault != Some(WriteMain) ==> r.store == st
    ensures r.result.Ok? ==> r.store.main == Some(tasks)
    ensures r.result.Ok? ==> r.store.backup == if st.main.Some? then st.main else st.backup
    ensures fault.None? ==> r.result.Ok?
    ensures r.result.Err? <==>
      fault == Some(WriteMain) || (st.main.Some? && (fault == Some(ReadMain) || fault == Some(WriteBackup)))
    ensures r.result.Ok? || fault == Some(WriteMain) ==>
      r.store.backup == if st.main.Some? then st.main else st.backup
  {
    var b := CreateBackup(st, fault);
    if b.result.Err? then b
    else if fault == Some(WriteMain) then Outcome(b.store, Err(IoFailure))
    else Outcome(b.store.(main := Some(tasks)), Ok(()))
  }

  /** UndoLastAction: with no backup slot there is nothing to undo; otherwise the
      backup overwrites the task file and itself stays in place. */
  function UndoLastAction(st: Store, fault: Option<Step>): (r: Outcome<()>)
    ensures r.result == Err(NoBackup) <==> st.backup.None?
    ensures r.result.Err? ==> r.store == st
    ensures r.result.Ok? ==> r.store == Store(st.backup, st.backup)
    ensures st.backup.Some? && fault.None? ==> r.result.Ok?
    ensures r.result.Err? <==> st.backup.None? || fault == Some(ReadBackup) || fault == Some(WriteMain)
    ensures r.result.Err? && st.backup.Some? ==> r.result.error == IoFailure
  {
    if st.backup.None? then Outcome(st, Err(NoBackup))
    else if fault == Some(ReadBackup) || fault == Some(WriteMain) then Outcome(st, Err(IoFailure))
    else Outcome(st.(main := st.backup), Ok(()))
  }

  /** What was saved is what the next load reads back. */
  lemma SaveThenLoad(st: Store, tasks: seq<Task>)
    ensures var saved := SaveTasks(st, tasks, None).store;
            LoadTasks(saved, None) == Outcome(saved, Ok(tasks))
  {
  }

  /** Undo right after a save restores the task file the save replaced. */
  lemma SaveThenUndo(st: Store, tasks: seq<Task>)
    requires st.main.Some?
    ensures var u := UndoLastAction(SaveTasks(st, tasks, None).store, None);
            u.result.Ok? && u.store.main == st.main
  {
  }

  /** Undo does not chain: a second undo restores the same snapshot again. */
  lemma UndoTwiceIsUndoOnce(st: Store, f1: Option<Step>, f2: Option<Step>)
    requires UndoLastAction(st, f1).result.Ok?
    ensures var once := UndoLastAction(st, f1).store;
            UndoLastAction(once, f2).store == once
  {
  }

  /** On a store that has never been saved to, undo fails and changes nothing. */
  lemma UndoOnFreshStoreFails(fault: Option<Step>)
    ensures UndoLastAction(Fresh, fault) == Outcome(Fresh, Err(NoBackup))
  {
  }
}
