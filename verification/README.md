# task-cli core, modelled in Dafny

This project models the persistence and mutation layer of a command-line task
tracker (`task/task.go`). Tasks are records with an ID, a description, a status,
creation and update timestamps, a due date and a priority. They are kept as an
ordered collection in a task file. A single backup file lets the user undo the last save.

The model has these modules:

- `Results` (results.dfy): `Option` and `Result`.
- `Selection` (selection.dfy): `Keep` keeps the elements of a sequence that satisfy a test, in their original order. It is the loop shape shared by DeleteTask, FilterTasks and SearchTask. `SubseqOf` is the "order-preserving subsequence" relation.
- `Tasks` (tasks.dfy): the `Task` record, the error kinds, ID lookup (`FirstIndexOf`), and the ID ordering invariant `IdsIncreasing`.
- `Mutations` (mutations.dfy): AddTasks, UpdateTask, DeleteTask and MarkTask on the loaded sequence. The clock reading is a parameter.
- `Queries` (queries.dfy): FilterTasks and SearchTask, with `strings.ToLower` and `strings.Contains` written out.
- `Storage` (storage.dfy): the file pair as a two-slot store `Store(main, backup)`. It covers LoadTasks, CreateBackup, SaveTasks and UndoLastAction. An optional `Step` argument names the one file-system step that fails.
- `Commands` (commands.dfy): each exported operation as a whole command. A mutation is load, then mutate, then save. A query is load, then read. This module also holds the store invariant and an end-to-end session.

Behaviour of the code worth knowing before reading the contracts:

- AddTasks numbers a new task with the last task's ID + 1, not the largest ID + 1. `Mutations.NextIdCollidesWithoutOrder` shows why that is safe only under the ordering invariant.
- DeleteTask removes every task carrying the ID.
- Status is free text. MarkTask accepts any target string, so backward moves are allowed. Only a repeat of the current status is rejected.
- A rejected MarkTask saves nothing. So an undo after it restores the collection from before the last accepted command (`Commands.Session`).
- If the backup is written and the following write of the task file then fails, the backup has already been overwritten. The task file itself is unchanged.

## Model

| member | source | states |
|---|---|---|
| `Selection.Keep` | task/task.go:159-165 | The selection is an order-preserving subsequence of its input. Each element occurs in it exactly as often as in the input if it passes the test, and never otherwise. |
| `Selection.KeepIdempotent` | task/task.go:215-219 | Selecting twice with the same test gives the same result as selecting once. |
| `Tasks.FirstIndexOf` | task/task.go:132-140 | The lookup finds nothing exactly when no task has the ID. Otherwise it returns the position of the first task with that ID. |
| `Tasks.IncreasingIsUnique` | task/task.go:100-103 | Strictly increasing IDs are pairwise distinct. |
| `Tasks.IncreasingFirstIsOnly` | task/task.go:183-193 | Under the ordering invariant, any task carrying the ID is the first one with it. So "first match" means "the task with that ID". |
| `Tasks.SubseqKeepsIncreasing` | task/task.go:159-165 | Dropping tasks while keeping the order of the rest preserves strictly increasing IDs. |
| `Mutations.NextId` | task/task.go:100-103 | When the IDs increase, the new ID is larger than every existing ID. |
| `Mutations.AddTask` | task/task.go:100-115 | Add appends exactly one task and leaves all earlier tasks unchanged. The new task has the next ID, status `todo`, equal creation and update stamps, and the given description, due date and priority. It keeps the ordering invariant and its ID was not in use. |
| `Mutations.NextIdCollidesWithoutOrder` | task/task.go:100-103 | On a collection whose IDs are out of order, the next ID can already be taken. |
| `Mutations.UpdateTask` | task/task.go:131-146 | Update fails with NotFound exactly when the ID is absent. Otherwise the length is kept, and only the first task with the ID gets a new description and update stamp. Every other task and field is unchanged, and the ID order is kept. |
| `Mutations.UpdateTouchesOnlyThatId` | task/task.go:131-140 | Under the ordering invariant, Update rewrites exactly the tasks carrying the ID, and leaves every other task as it was. |
| `Mutations.DeleteTask` | task/task.go:156-171 | Delete fails with NotFound exactly when the ID is absent. Otherwise the result is shorter and holds no task with the ID. It is an order-preserving subsequence that keeps every other task with its multiplicity, and it keeps the ID order. |
| `Mutations.MarkTask` | task/task.go:181-199 | Mark fails with NotFound exactly when the ID is absent. It fails with AlreadyMarked exactly when the first task with the ID already has the status, and it has no other error. Otherwise only that task's status and update stamp change, and any other target status is accepted. |
| `Mutations.MarkTwiceRejected` | task/task.go:183-187 | Marking a task again with the status it was just given is rejected as AlreadyMarked. |
| `Mutations.AddEach` | task/task.go:94-121 | A run of Add calls grows the collection by one task per call and leaves the tasks already there untouched at the front. |
| `Mutations.AddEachNumbersFromOne` | task/task.go:100-115 | Starting from an empty collection, the n-th added task gets ID n, so the IDs strictly increase. |
| `Queries.LowerChar` | task/task.go:234 | An ASCII upper-case letter becomes its lower-case counterpart. Every other character is left alone. The result is never an upper-case letter. |
| `Queries.Lower` | task/task.go:234 | Lower-casing keeps the length and lower-cases each character in place. |
| `Queries.Contains` | task/task.go:234 | The substring test holds exactly when the keyword occurs at some position of the text. The empty keyword occurs everywhere. |
| `Queries.FilterTasks` | task/task.go:209-221 | The empty status returns the collection unchanged. Any other status returns the order-preserving subsequence of tasks with exactly that status, each with its original multiplicity. |
| `Queries.FilterIdempotent` | task/task.go:213-221 | Filtering a filtered list by the same status changes nothing. |
| `Queries.SearchTask` | task/task.go:231-239 | Search returns the order-preserving subsequence of tasks whose lower-cased description contains the keyword, each with its original multiplicity. |
| `Queries.SearchEmptyKeywordKeepsAll` | task/task.go:231-239 | The empty keyword returns every task. |
| `Queries.SearchUpperKeywordFindsNothing` | task/task.go:234 | A keyword with an upper-case letter matches nothing. Search is case-insensitive only because the caller lower-cases the keyword (main.go line 70). |
| `Storage.LoadTasks` | task/task.go:24-54 | A missing task file is created holding the empty collection, and it stays created even when the following read fails. If the creation itself fails, the file stays absent. An existing file is read back as stored and the store is unchanged. The backup is never touched. Only a failing create or read step gives an error, and that error is IoFailure. |
| `Storage.CreateBackup` | task/task.go:69-79 | The task file is copied into the backup slot. The copy fails exactly when the task file exists and its read or the backup write fails, and a failed step changes nothing. A missing task file is not an error and leaves the backup as it was. |
| `Storage.SaveTasks` | task/task.go:56-67 | The save fails exactly when the task-file write fails, or when the task file exists and its read or the backup write fails. A successful save puts the new collection in the task file and the previous task file (if any) in the backup slot. The backup is also overwritten when only the final task-file write fails. A failed save never changes the task file. |
| `Storage.UndoLastAction` | task/task.go:81-92 | Undo fails with NoBackup exactly when there is no backup. Otherwise it fails with IoFailure exactly when the backup read or the task-file write fails. A failed undo changes nothing. A successful undo puts the backup into the task file and keeps the backup. |
| `Storage.SaveThenLoad` | task/task.go:56-67 | What a save writes is exactly what the next load reads back. |
| `Storage.SaveThenUndo` | task/task.go:61-91 | Undo right after a save restores the task file the save replaced. |
| `Storage.UndoTwiceIsUndoOnce` | task/task.go:86-91 | A second undo leaves the store as the first undo left it. |
| `Storage.UndoOnFreshStoreFails` | task/task.go:82-84 | With no files yet, undo fails with NoBackup and changes nothing. |
| `Commands.Current` | task/task.go:32-38 | Loading a store reads the task file, or the empty collection when the file is missing (and creates it). |
| `Commands.Mutate` | task/task.go:94-199 | Add always succeeds. Update and Delete fail exactly when the ID is absent. Mark fails exactly when the ID is absent or its first task already has the status. Every successful mutation keeps the IDs strictly increasing. |
| `Commands.Run` | task/task.go:94-200 | A failed load fails the command with IoFailure and saves nothing. A rejected mutation reports its own error (NotFound or AlreadyMarked) and leaves the backup alone. An accepted mutation is handed to SaveTasks, so a failing save step is reported as IoFailure, and the backup is already overwritten when only the final task-file write fails. The command succeeds exactly when the load, the mutation and every save step succeed. A successful command stores the mutated collection and backs up the loaded one. |
| `Commands.List` | task/task.go:202-222 | Listing leaves the store exactly as the load left it: it only creates a missing task file. It fails with IoFailure exactly when the load fails. Otherwise it answers FilterTasks of the loaded collection. |
| `Commands.Search` | task/task.go:224-240 | Searching leaves the store exactly as the load left it: it only creates a missing task file. It fails with IoFailure exactly when the load fails. Otherwise it answers SearchTask of the loaded collection. |
| `Commands.RunKeepsConsistent` | task/task.go:100-103 | Every command, failed or not and whatever IO step fails, keeps the IDs in both slots strictly increasing. |
| `Commands.UndoKeepsConsistent` | task/task.go:81-92 | Undo keeps the IDs in both slots strictly increasing. |
| `Commands.RunThenUndoRestores` | task/task.go:56-91 | Undo right after a successful command restores the collection that command loaded. |
| `Commands.DeleteThenListOmitsId` | task/task.go:156-171 | Deleting a present ID succeeds. Afterwards the full listing holds no task with that ID. Every other task is still listed, as often as before and in its old relative order. |
| `Commands.MarkTwiceCommandRejected` | task/task.go:183-187 | A repeated mark with the same status is rejected as AlreadyMarked and saves nothing. |
| `Commands.Session` | task/task.go:94-199 | Two adds number the tasks 1 and 2. Deleting 1 leaves task 2. Marking 2 `done` succeeds and repeating it is rejected. The undo that follows restores task 2 as `todo`. |

## Left out

- JSON encoding and decoding (`json.MarshalIndent`, `json.Unmarshal`) are left out: a storage slot holds the task sequence itself. Parse errors of a corrupt file are therefore not modelled. A `null` file, which DeleteTask writes when it removes the last task, reads back as the empty collection and is modelled as that.
- File-system calls are left out. They become the two slots of `Storage.Store` plus the optional failing `Step`. Creating the `task` directory is folded into the `CreateMain` step.
- Storage.LoadTasks: a failing creation of a missing task file is modelled as leaving the file absent. The same truncate-first write can leave an empty file that later loads reject as malformed JSON.
- Storage.SaveTasks: a failing write of the task file is modelled as leaving the file as it was. `os.WriteFile` truncates first, so a real failure can leave a partial file.
- Storage.CreateBackup: a failing write of the backup file is modelled as leaving the backup as it was. The same truncate-first write can leave a partial backup.
- Storage.UndoLastAction: a failing write of the task file during undo is modelled as leaving the task file as it was. The same truncate-first write can leave a partial task file.
- `time.Now().Format(...)` is left out: every mutation takes the timestamp as the string argument `now`.
- Queries.Lower, Queries.LowerChar: only ASCII letters are lower-cased. `strings.ToLower` also maps non-ASCII letters, and this model leaves them unchanged.
- Mutations.NextId: IDs are unbounded integers. Go's 64-bit `int` would wrap `last ID + 1` to a negative ID at the maximum value, and that is not modelled.
- main.go is left out: the input loop, prompts, `strconv.Atoi` ID parsing, table printing and help text. The caller's defaults appear only as arguments: priority `"medium"` when none is given (main.go lines 33-35), and a lower-cased search keyword (main.go line 70).
- Concurrent access to the files is left out: the program has no locking and assumes one command at a time.
- Exact error message texts are left out. Errors are the enum `Tasks.Error` (NotFound, AlreadyMarked, NoBackup, IoFailure).
