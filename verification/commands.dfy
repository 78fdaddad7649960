/** The exported operations of task/task.go as whole commands on the store:
    each mutation loads the collection, changes it and saves it (taking the
    backup on the way); each query loads and reads. */
module Commands {
  import opened Results
  import opened Selection
  import opened Tasks
  import opened Mutations
  import opened Queries
  import opened Storage

  /** One mutating command and its arguments. */
  datatype Command =
    | Add(description: string, dueDate: string, priority: string)
    | Update(id: int, description: string)
    | Delete(id: int)
    | Mark(id: int, status: string)

  /** The collection a load reads: the task file, or nothing when it is missing. */
  function Current(st: Store): (tasks: seq<Task>)
    ensures LoadTasks(st, None) == Outcome(st.(main := Some(tasks)), Ok(tasks))
  {
    if st.main.Some? then st.main.value else []
  }

  /** The in-memory step of a command, stamped `now`. */
  function Mutate(tasks: seq<Task>, c: Command, now: string): (r: Result<seq<Task>, Error>)
    ensures c.Add? ==> r.Ok?
    ensures c.Update? || c.Delete? ==> (r.Err? <==> !HasId(tasks, c.id))
    ensures c.Mark? ==>
      (r.Err? <==> !HasId(tasks, c.id) || exists j :: IsFirstWithId(tasks, c.id, j) && tasks[j].status == c.status)
    ensures r.Ok? && IdsIncreasing(tasks) ==> IdsIncreasing(r.value)
  {
    match c
    case Add(d, due, p) => Ok(AddTask(tasks, d, due, p, now))
    case Update(id, d) => UpdateTask(tasks, id, d, now)
    case Delete(id) => DeleteTask(tasks, id)
    case Mark(id, s) => MarkTask(tasks, id, s, now)
  }

  /** Load, mutate, save. A load failure or a rejected mutation saves nothing. */
  function Run(st: Store, c: Command, now: string, loadFault: Option<Step>, saveFault: Option<Step>)
    : (r: Outcome<()>)
    ensures r.result.Err? ==> r.store.main == LoadTasks(st, loadFault).store.main
    ensures r.result.Err? && (saveFault != Some(WriteMain) || Mutate(Current(st), c, now).Err?) ==>
      r.store.backup == st.backup
    ensures r.store.backup == st.backup || r.store.backup == Some(Current(st))
    ensures r.result.Ok? ==> r.store.backup == Some(Current(st))
    ensures r.result.Ok? ==>
      Mutate(Current(st), c, now).Ok? && r.store.main == Some(Mutate(Current(st), c, now).value)
    ensures loadFault.None? && saveFault.None? ==>
      (r.result.Ok? <==> Mutate(Current(st), c, now).Ok?)
    ensures LoadTasks(st, loadFault).result.Ok? && Mutate(Current(st), c, now).Err? ==>
      r.result == Err(Mutate(Current(st), c, now).error)
    ensures LoadTasks(st, loadFault).result.Err? ==> r == Outcome(LoadTasks(st, loadFault).store, Err(IoFailure))
    ensures r.result.Ok? <==>
      && LoadTasks(st, loadFault).result.Ok?
      && Mutate(Current(st), c, now).Ok?
      && saveFault != Some(ReadMain) && saveFault != Some(WriteBackup) && saveFault != Some(WriteMain)
    ensures LoadTasks(st, loadFault).result.Ok? && Mutate(Current(st), c, now).Ok? ==>
      r == SaveTasks(LoadTasks(st, loadFault).store, Mutate(Current(st), c, now).value, saveFault)
  {
    var loaded := LoadTasks(st, loadFault);
    if loaded.result.Err? then Outcome(loaded.store, Err(loaded.result.error))
    else match Mutate(loaded.result.value, c, now)
      case Err(e) => Outcome(loaded.store, Err(e))
      case Ok(next) => SaveTasks(loaded.store, next, saveFault)
  }

  /** The `list` query: FilterTasks on the loaded collection. */
  function List(st: Store, status: string, fault: Option<Step>): (r: Outcome<seq<Task>>)
    ensures r.store.backup == st.backup
    ensures st.main.Some? ==> r.store == st
    ensures r.result.Ok? ==> r.result.value == FilterTasks(Current(st), status)
    ensures fault.None? ==> r.result.Ok?
    ensures r.result.Err? <==> LoadTasks(st, fault).result.Err?
    ensures r.store == LoadTasks(st, fault).store
    ensures r.result.Err? ==> r.result.error == IoFailure
  {
    var loaded := LoadTasks(st, fault);
    if loaded.result.Err? then Outcome(loaded.store, Err(loaded.result.error))
    else Outcome(loaded.store, Ok(FilterTasks(loaded.result.value, status)))
  }

  /** The `search` query: SearchTask on the loaded collection. */
  function Search(st: Store, keyword: string, fault: Option<Step>): (r: Outcome<seq<Task>>)
    ensures r.store.backup == st.backup
    ensures st.main.Some? ==> r.store == st
    ensures r.result.Ok? ==> r.result.value == SearchTask(Current(st), keyword)
    ensures fault.None? ==> r.result.Ok?
    ensures r.result.Err? <==> LoadTasks(st, fault).result.Err?
    ensures r.store == LoadTasks(st, fault).store
    ensures r.result.Err? ==> r.result.error == IoFailure
  {
    var loaded := LoadTasks(st, fault);
    if loaded.result.Err? then Outcome(loaded.store, Err(loaded.result.error))
    else Outcome(loaded.store, Ok(SearchTask(loaded.result.value, keyword)))
  }

  /** Both slots hold collections whose IDs strictly increase. */
  ghost predicate Consistent(st: Store) {
    && (st.main.Some? ==> IdsIncreasing(st.main.value))
    && (st.backup.Some? ==> IdsIncreasing(st.backup.value))
  }

  /** Every command, failed or not and whatever IO step fails, keeps both slots consistent. */
  lemma RunKeepsConsistent(st: Store, c: Command, now: string, loadFault: Option<Step>, saveFault: Option<Step>)
    requires Consistent(st)
    ensures Consistent(Run(st, c, now, loadFault, saveFault).store)
  {
  }

  /** Undo keeps both slots consistent. */
  lemma UndoKeepsConsistent(st: Store, fault: Option<Step>)
    requires Consistent(st)
    ensures Consistent(UndoLastAction(st, fault).store)
  {
  }

  /** Undo right after a successful command brings back the collection that command loaded. */
  lemma RunThenUndoRestores(st: Store, c: Command, now: string, loadFault: Option<Step>, saveFault: Option<Step>)
    requires Run(st, c, now, loadFault, saveFault).result.Ok?
    ensures var u := UndoLastAction(Run(st, c, now, loadFault, saveFault).store, None);
            u.result.Ok? && u.store.main == Some(Current(st))
  {
  }

  /** Deleting a present ID succeeds, and afterwards the full listing holds no task with that ID
      and every other task, each as often as before and in its old order. */
  lemma DeleteThenListOmitsId(st: Store, id: int, now: string)
    requires HasId(Current(st), id)
    ensures Run(st, Delete(id), now, None, None).result.Ok?
    ensures var l := List(Run(st, Delete(id), now, None, None).store, "", None);
            && l.result.Ok?
            && !HasId(l.result.value, id)
            && SubseqOf(l.result.value, Current(st))
            && forall t :: multiset(l.result.value)[t] == if t.id == id then 0 else multiset(Current(st))[t]
  {
  }

  /** Marking a task twice with the same status: the second command is rejected and saves nothing. */
  lemma MarkTwiceCommandRejected(st: Store, id: int, status: string, now: string, later: string)
    requires Run(st, Mark(id, status), now, None, None).result.Ok?
    ensures var first := Run(st, Mark(id, status), now, None, None).store;
            Run(first, Mark(id, status), later, None, None) == Outcome(first, Err(AlreadyMarked(status)))
  {
  }

  /** The two tasks of the session below, as added at times "t1" and "t2". */
  const Milk: Task := Task(1, "buy milk", Todo, "t1", "t1", "", "medium")
  const Report: Task := Task(2, "write report", Todo, "t2", "t2", "2025-01-01", "high")

  /** Session step: the first add numbers its task 1. */
  lemma SessionFirstAdd()
    ensures Run(Fresh, Add("buy milk", "", "medium"), "t1", None, None)
            == Outcome(Store(Some([Milk]), Some([])), Ok(()))
  {
  }

  /** Session step: the second add numbers its task 2 and backs up the first collection. */
  lemma SessionSecondAdd()
    ensures Run(Store(Some([Milk]), Some([])), Add("write report", "2025-01-01", "high"), "t2", None, None)
            == Outcome(Store(Some([Milk, Report]), Some([Milk])), Ok(()))
  {
    assert Current(Store(Some([Milk]), Some([]))) == [Milk];
    assert NextId([Milk]) == 2;
    assert AddTask([Milk], "write report", "2025-01-01", "high", "t2") == [Milk, Report];
  }

  /** Session step: deleting ID 1 keeps only the report. */
  lemma SessionDelete()
    ensures Run(Store(Some([Milk, Report]), Some([Milk])), Delete(1), "t3", None, None)
            == Outcome(Store(Some([Report]), Some([Milk, Report])), Ok(()))
  {
    assert Current(Store(Some([Milk, Report]), Some([Milk]))) == [Milk, Report];
    assert [Milk, Report][0].id == 1;
    assert Keep([Milk, Report], (t: Task) => t.id != 1) == [Report];
  }

  /** Session steps: marking the report `done` succeeds, and the repeat is rejected without saving. */
  lemma SessionMarks()
    ensures Run(Store(Some([Report]), Some([Milk, Report])), Mark(2, "done"), "t4", None, None)
            == Outcome(Store(Some([Report.(status := "done", updatedAt := "t4")]), Some([Report])), Ok(()))
    ensures var marked := Store(Some([Report.(status := "done", updatedAt := "t4")]), Some([Report]));
            Run(marked, Mark(2, "done"), "t5", None, None) == Outcome(marked, Err(AlreadyMarked("done")))
  {
    var done := Report.(status := "done", updatedAt := "t4");
    assert Current(Store(Some([Report]), Some([Milk, Report]))) == [Report];
    assert FirstIndexOf([Report], 2) == Some(0);
    assert Report.status != "done" by {
      assert Report.status == "todo";
      assert Report.status[0] != "done"[0];
    }
    assert [Report][0 := done] == [done];
    assert MarkTask([Report], 2, "done", "t4") == Ok([done]);
    assert Current(Store(Some([done]), Some([Report]))) == [done];
    assert FirstIndexOf([done], 2) == Some(0);
  }

  /** A session: two adds, a delete, a mark, a rejected repeat of the mark, and an undo.
      The rejected mark saved nothing, so the undo restores the collection from before
      the accepted mark. */
  lemma Session()
    ensures var s1 := Run(Fresh, Add("buy milk", "", "medium"), "t1", None, None);
            var s2 := Run(s1.store, Add("write report", "2025-01-01", "high"), "t2", None, None);
            var s3 := Run(s2.store, Delete(1), "t3", None, None);
            var s4 := Run(s3.store, Mark(2, "done"), "t4", None, None);
            var s5 := Run(s4.store, Mark(2, "done"), "t5", None, None);
            var s6 := UndoLastAction(s5.store, None);
            && s2.store.main == Some([Milk, Report])
            && s3.store.main == Some([Report])
            && s4.store.main == Some([Report.(status := "done", updatedAt := "t4")])
            && s5.result == Err(AlreadyMarked("done"))
            && s6.result.Ok?
            && s6.store.main == Some([Report])
  {
    SessionFirstAdd();
    SessionSecondAdd();
    SessionDelete();
    SessionMarks();
  }
}
