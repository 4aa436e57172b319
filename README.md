# todo-cli: the two-pane cursor model and its key-driven controller

todo-cli is a terminal task manager. The screen has two panes. The lists pane shows every task
list. The tasks pane shows the tasks of the list selected in the lists pane. Each pane is a
sequence of items with a cursor. The controller reads keys in two modes:
- browsing mode (`ModeList`) moves cursors, switches focus, flips a task's status and deletes;
- add mode (`ModeAdd`) types a name and confirms it.

Every add, flip and delete is also written to a store of lists and tasks.

The model has seven modules, one per source component:

- `TaskStatus` (internal/status/status.go): the three statuses and `Is`.
- `Database`: the store as the controller sees it. It holds two tables in key order and the next key of each. There is one function per write the controller issues (create, delete, save) and the query `FindTasksForList`. A failed write is a `fail` flag chosen by the caller.
- `Containers` (container.go): the panes, `String`, `CurrentItem` and `NewContainer`. `NewContainer` is a method, because the source builds the panes with append loops.
- `Update` (update.go): each handler is a function from the state before a key to the state after it. A command returned by a handler is run at once, so each step gives the new state, the new store and the message the command returns. A Go runtime panic is the message `Panicked`. This covers a nil dereference, an index out of range and a failed type assertion.
- `Invariants`: what the controller keeps and what it breaks. It proves these properties for every key:
  - cursor discipline (`Update.Valid`): a real pane is focused, each pane holds its own kind of item, the lists cursor is in range or 0, and the tasks cursor is in range whenever there are tasks;
  - exactly when a key panics;
  - agreement with the store: the tasks pane shows the selected list's stored tasks and the lists pane shows the stored lists. This needs only the weaker shape invariant (`Invariants.Shaped`: cursor discipline without the tasks-cursor bound), which every key keeps, so it chains along every run, including through states where the tasks cursor is stranded. The one exception is a status flip whose save fails.

  It also holds worked key sequences that strand the tasks cursor past the end of its pane.
- `Snapshot` (model.go): the older copy of the controller. It differs in the tasks-pane refill (no cursor clamp) and in `addTaskCmd` (no input reset). Each difference is related to update.go by a lemma.
- `App`: the source's `model` struct as a class. Each update.go handler is a method that changes the fields in place, proved equal to the matching `Update` function. `InitialModel` builds the start state and proves it valid and in agreement with the store. The lists pane is the one exception: when the store has no lists and creating "Default" fails, the pane shows a "Default" list that the store does not hold.

The model follows the code where it departs from what a user of a task manager would expect:
- A status flip whose save fails keeps the flipped status on screen. The save wrapper only logs the error, so nothing is rolled back.
- Flipping a status with an empty tasks pane panics. It is not a no-op.
- Deleting a list while no list is selected panics. It is not a no-op.
- Only the list named "Default" is protected from deletion. If the store had no list of that name, every list can be deleted.
- Deleting a list refills the tasks pane without re-clamping its cursor.
- Refilling an empty tasks pane leaves its cursor where it was.
- The add commands reset the input before the write, so a failed write loses the typed text.
- Cancelling add mode keeps the typed text.
- Entering add mode does not clear the input.
- Deleting a list does not delete its tasks.

## Model

| member | source | states |
|---|---|---|
| `TaskStatus.NamedStatuses` | internal/status/status.go:3-9 | Done, InProgress and Ready are distinct; their values are 0, 1 and 2, so the zero value is Done |
| `TaskStatus.IsReflexive` | internal/status/status.go:11-13 | `Is(s, s)` always holds |
| `TaskStatus.IsEquality` | internal/status/status.go:11-13 | `Is(s, t)` holds exactly when `s == t`, hence it is symmetric |
| `Database.FindTasksForList` | update.go:207 | a nil list yields no tasks; otherwise a task is in the result exactly when it is stored and owned by that list |
| `Database.TasksOf` | container.go:46 | the tasks owned by a list are exactly the stored tasks with that list key, and no more than the table holds |
| `Database.CreateListKeepsValid` | update.go:87-92 | creating a list keeps the keys ordered and gives the saved list the next key and the typed name |
| `Database.CreateTaskKeepsValid` | update.go:65-70 | creating a task under a handed-out list key keeps the keys ordered |
| `Database.DeleteListKeepsValid` | update.go:256-259 | deleting a list keeps the keys ordered |
| `Database.DeleteTaskKeepsValid` | update.go:294-297 | deleting a task keeps the keys ordered |
| `Database.SaveExistingTaskKeepsValid` | update.go:237 | saving a task whose key is stored overwrites that row in place and keeps the keys ordered |
| `Database.TasksOfAfterDelete` | update.go:294-299 | deleting the c-th task of a list removes exactly position c from that list's tasks |
| `Database.TasksOfAfterReplace` | update.go:230-237 | saving a changed c-th task of a list changes exactly position c of that list's tasks |
| `Database.ListsWithoutAt` | update.go:256-261 | deleting the c-th stored list removes exactly position c from the lists table |
| `Containers.StringNames` | container.go:16-25 | Lists prints as "List", Tasks as "Task", every other value as "" |
| `Containers.CurrentItem` | container.go:75-77 | with the cursor in range, the result is an item of that pane |
| `Containers.BuildListItems` | container.go:61-63 | the loop yields one list item per list, in store order |
| `Containers.BuildTaskItems` | container.go:65-67 | the loop yields one task item per task, in the order returned |
| `Containers.NewContainer` | container.go:32-73 | a failed read is fatal; with no stored lists exactly one "Default" list is created, and a failed create still shows it; both cursors start at 0; the lists pane shows the lists in store order; the tasks pane shows the first list's tasks; the store's key order is kept |
| `Update.DecrementCursor` | update.go:29-33 | only the focused pane's cursor moves, down by exactly one when it is above 0 and never below 0; items, focus, mode and inputs are unchanged; the cursor discipline is kept |
| `Update.IncrementCursor` | update.go:35-39 | only the focused pane's cursor moves, up by exactly one while it is before the last item; a cursor at or past the last item, or on an empty pane, leaves the state unchanged; the cursor discipline is kept |
| `Update.CurrentList` | update.go:101-110 | nil when the lists cursor is past the end; a non-nil result is an item of the lists pane; in a valid state it is non-nil exactly when the lists pane is non-empty |
| `Update.CurrentListItem` | model.go:42-45 | the focused pane's selected item; it panics exactly when no pane is focused or the cursor is out of range |
| `Update.CurrentTask` | update.go:312-314 | when a task is selected, the result is an item of the tasks pane |
| `Update.UpdateTasksForCurrentList` | update.go:206-220 | only the tasks pane changes; it shows the selected list's stored tasks; its cursor moves back to the last task when past the end of a non-empty result and is unchanged otherwise; the tasks cursor ends in range |
| `Update.HandleUpKey` | update.go:186-194 | on the lists pane the lists cursor moves as `decementCursor` moves it, the tasks pane is refilled for the new selection and the tasks cursor is clamped to it; on the tasks pane only the tasks cursor moves, down by one unless it is at 0; validity is kept |
| `Update.HandleDownKey` | update.go:196-204 | the same for the down key, with `incrementCursor`: on the tasks pane the cursor moves up by one only while it is before the last task |
| `Update.ToggleActiveContainer` | update.go:222-228 | the lists focus becomes the tasks focus and every other value becomes the lists focus; panes, mode and inputs are untouched |
| `Update.ToggleTwice` | update.go:222-228 | toggling twice is the identity for either pane focus |
| `Update.Flipped` | update.go:232-236 | Done becomes InProgress, every other status becomes Done, and the status always changes |
| `Update.FlippedTwice` | update.go:232-236 | flipping twice restores Done and InProgress but sends Ready to InProgress |
| `Update.ToggleTaskStatus` | update.go:230-238 | panics exactly when no task is selected; otherwise the selected task's status flips in the pane, the flipped task is saved unless the save fails, and nothing else changes |
| `Update.AddTaskCmd` | update.go:56-77 | empty input changes nothing; otherwise the input is reset first; a nil selected list panics; a failed save changes nothing else; a successful one stores a Ready task with an empty description under the next key and the selected list, appends it to the tasks pane with the cursor unchanged, returns to browsing and reports "Task <name> created" |
| `Update.AddListCmd` | update.go:79-99 | empty input changes nothing; otherwise the input is reset; a failed create changes nothing else; a successful one stores the list under the next key, appends it to the lists pane and returns to browsing |
| `Update.RemoveItem` | update.go:308-310 | the sequence without position `index`: one shorter, earlier items kept, later items shifted down by one, and the same multiset less the removed item |
| `Update.DeleteTaskCmd` | update.go:282-306 | with no task selected nothing happens; a failed delete changes nothing; otherwise the task leaves the store and the pane becomes `old[..c] + old[c+1..]`, with the cursor moved back to the last item only when it is past the end of a non-empty pane |
| `Update.DeleteListCmd` | update.go:240-280 | a nil selection panics; "Default" is never deleted; a failed delete changes nothing; otherwise the list leaves the store and the pane is spliced with the cursor clamped; the tasks pane shows the new selection's tasks, or none when no list is left; the tasks cursor is not touched |
| `Update.TextInputUpdate` | update.go:133-140 | typing keeps a buffer within the 100-character limit and only appends or erases one character at the end |
| `Update.HandleAddModeKey` | update.go:119-143 | in add mode only "enter" can write to the store or send a message; "esc" and "ctrl+c" return to browsing and keep the typed text; every other key edits only the focused pane's buffer |
| `Update.HandleListModeKey` | update.go:145-184 | a key quits exactly when it is "ctrl+c" or "q", and quitting changes nothing; only "enter", " ", "x" and "d" can write to the store; browsing never touches the input buffers; only "a" enters add mode, and it does so whenever a pane is focused |
| `Update.HandleKeyMsg` | update.go:112-117 | a key quits exactly when browsing and the key is "ctrl+c" or "q", so add mode never quits; the store changes only under "enter", or under " ", "x" or "d" while browsing |
| `Invariants.AddTaskCmdKeepsValid` | update.go:56-77 | adding a task keeps the cursor discipline when the tasks cursor is in range or at 0 |
| `Invariants.AddListCmdKeepsValid` | update.go:79-99 | adding a list keeps the cursor discipline |
| `Invariants.DeleteTaskCmdKeepsValid` | update.go:282-306 | deleting a task keeps the cursor discipline, because the cursor is clamped after the splice |
| `Invariants.ToggleTaskStatusKeepsValid` | update.go:230-238 | flipping a status keeps the cursor discipline |
| `Invariants.DeleteListCmdValid` | update.go:240-280 | deleting from the focused lists pane panics exactly when that pane is empty; the result is valid exactly when the untouched tasks cursor fits the refilled tasks pane |
| `Invariants.ListModeKeyValid` | update.go:145-184 | in browsing mode every key but a list delete keeps the cursor discipline; a key panics exactly when it flips a status with no task shown or deletes a list with no list shown |
| `Invariants.AddModeKeyValid` | update.go:119-143 | in add mode every key keeps the cursor discipline unless it confirms a task while the tasks cursor is past the end of an empty pane; a key panics exactly when it confirms a non-empty task with no list shown |
| `Invariants.HandleKeyMsgPreservesValid` | update.go:112-117 | every key keeps the cursor discipline except a list delete and a task confirmed over a stranded tasks cursor; after a list delete the state is valid exactly when the tasks cursor is in range |
| `Invariants.HandleKeyMsgPanics` | update.go:112-117 | from a valid state a key panics exactly when it flips a status on an empty tasks pane, or when no list is shown and it deletes a list or confirms a non-empty task |
| `Invariants.ToggleKeepsSync` | update.go:230-238 | from any shaped state in agreement with the store, a successful status save keeps the tasks pane equal to the store's tasks for the selected list |
| `Invariants.AddTaskKeepsSync` | update.go:56-77 | from any shaped state in agreement with the store, a successful task add keeps both panes equal to the store |
| `Invariants.AddListKeepsSync` | update.go:79-99 | from any shaped state in agreement with the store, a successful list add keeps both panes equal to the store; a first list shows no tasks because its key is new |
| `Invariants.DeleteTaskKeepsSync` | update.go:282-306 | from any shaped state in agreement with the store, a successful task delete keeps the tasks pane equal to the store |
| `Invariants.DeleteListKeepsSync` | update.go:240-280 | from any shaped state in agreement with the store, a list delete that does not panic keeps both panes equal to the store |
| `Invariants.ShapedKept` | update.go:112-184 | every key keeps a real pane focused, each pane's own kind of item and the lists cursor in range or 0, whatever the tasks cursor is |
| `Invariants.ListModeKeyKeepsSync` | update.go:145-184 | from any shaped state in agreement with the store, in browsing mode every key that does not panic keeps both panes equal to the store, unless a status save fails; a failed write leaves the store as it was |
| `Invariants.AddModeKeyKeepsSync` | update.go:119-143 | from any shaped state in agreement with the store, in add mode every key that does not panic keeps both panes equal to the store; a failed write leaves the store as it was |
| `Invariants.HandleKeyMsgKeepsStoreInSync` | update.go:112-117 | from any shaped state in agreement with the store, every key keeps the shape, and every key that does not panic keeps both panes equal to the store and the store's keys in order, unless a status save fails; so agreement holds along every run without a failed status save |
| `Invariants.FailedToggleDesyncs` | update.go:230-238 | a status flip whose save fails still flips the task on screen, so the pane and the store disagree |
| `Invariants.WorkSelectedIsConsistent` | update.go:240-280 | the example state before the list delete is valid and agrees with the store |
| `Invariants.DeleteWorkStep` | update.go:240-280 | deleting "Work" from the example leaves only "Default" in the store and the pane, shows its one task under the old tasks cursor 1, and reports the delete |
| `Invariants.WorkDeletedIsStranded` | update.go:266-273 | after that delete the state breaks the cursor discipline and the next status flip panics, yet it keeps the shape invariant that store agreement needs |
| `Invariants.DeleteListStrandsTasksCursor` | update.go:266-273 | deleting "Work" refills the tasks pane with one task and keeps the tasks cursor at 1; the next status flip panics |
| `Invariants.MoveToEmptyList` | update.go:213-219 | moving to a list with no tasks empties the tasks pane and leaves its cursor at 1 |
| `Invariants.BeforeAndAfterMoveValid` | update.go:196-204 | both example states around that move satisfy the cursor discipline |
| `Invariants.BeforeMoveSynced` | update.go:206-220 | the example state before the move agrees with the store |
| `Invariants.AfterMoveSynced` | update.go:206-220 | the example state after the move agrees with the store |
| `Invariants.FocusTasksAndType` | update.go:119-173 | "l", "a" and "z" focus the tasks pane, enter add mode and type the name |
| `Invariants.AddUnderStrandedCursor` | update.go:56-77 | confirming then appends one task under a cursor of 1; the state is not valid and the next status flip panics |
| `Snapshot.UpdateTasksFromCurrentList` | model.go:354-362 | only the tasks pane changes; it shows the selected list's tasks and keeps its cursor, which is in range exactly when the pane is empty or the cursor fits |
| `Snapshot.ClampIsTheDifference` | model.go:354-362 | update.go's refill is model.go's refill followed by the clamp |
| `Snapshot.HandleUpKey` | model.go:334-342 | on the lists pane the lists cursor moves as before and the tasks pane is refilled with its cursor unchanged; on any other focus it equals update.go's up key |
| `Snapshot.HandleDownKey` | model.go:344-352 | the same for the down key |
| `Snapshot.UpKeyOverrunsTasksCursor` | model.go:334-362 | moving up from "Work" to "Default" leaves the tasks cursor past the end of the one-task pane |
| `Snapshot.UpKeyClampsTasksCursor` | update.go:186-220 | the same move in update.go pulls the tasks cursor back to 0 and keeps the state valid |
| `Snapshot.AddTaskCmd` | model.go:206-226 | equals update.go's `addTaskCmd` except that the input buffer is never reset |
| `Snapshot.KeptInputIsAddedAgain` | model.go:206-226 | confirming twice stores the same name as two tasks, with the same message both times |
| `App.Model.constructor` | model.go:58-65 | the new model browses, with the lists pane focused and both inputs empty |
| `App.Model.DecrementCursor` | update.go:29-33 | the in-place update equals `Update.DecrementCursor` and leaves the store alone |
| `App.Model.IncrementCursor` | update.go:35-39 | the in-place update equals `Update.IncrementCursor` and leaves the store alone |
| `App.Model.CurrentList` | update.go:101-110 | returns `Update.CurrentList` of the fields; a non-nil result is in the lists pane |
| `App.Model.CurrentListItem` | model.go:42-45 | returns `Update.CurrentListItem` of the fields |
| `App.Model.CurrentTask` | update.go:312-314 | returns the selected task, which is in the tasks pane |
| `App.Model.UpdateTasksForCurrentList` | update.go:206-220 | the copy loop and the clamp equal `Update.UpdateTasksForCurrentList` |
| `App.Model.UpdateTasksFromCurrentList` | model.go:354-362 | the copy loop equals `Snapshot.UpdateTasksFromCurrentList` |
| `App.Model.HandleUpKey` | update.go:186-194 | equals `Update.HandleUpKey` |
| `App.Model.HandleDownKey` | update.go:196-204 | equals `Update.HandleDownKey` |
| `App.Model.ToggleActiveContainer` | update.go:222-228 | equals `Update.ToggleActiveContainer` |
| `App.Model.ToggleTaskStatus` | update.go:230-238 | the state, store and message equal `Update.ToggleTaskStatus` |
| `App.Model.AddTaskCmd` | update.go:56-77 | the state, store and message equal `Update.AddTaskCmd` |
| `App.Model.AddListCmd` | update.go:79-99 | the state, store and message equal `Update.AddListCmd` |
| `App.Model.DeleteListCmd` | update.go:240-280 | the state, store and message equal `Update.DeleteListCmd` |
| `App.Model.DeleteTaskCmd` | update.go:282-306 | the state, store and message equal `Update.DeleteTaskCmd` |
| `App.Model.HandleAddModeKey` | update.go:119-143 | the state, store and message equal `Update.HandleAddModeKey` |
| `App.Model.HandleListModeKey` | update.go:145-184 | the state, store and message equal `Update.HandleListModeKey` |
| `App.Model.HandleKeyMsg` | update.go:112-117 | the state, store and message equal `Update.HandleKeyMsg` |
| `App.InitialModel` | model.go:47-66 | a failed read ends the program; otherwise the model browses with the lists pane focused, empty inputs, both cursors at 0 and at least one list; it is valid; its tasks pane agrees with the store; its lists pane does too unless creating "Default" failed |

## Left out

- Rendering is not modelled: view.go and model.go:83-172.
- The view sorts the tasks pane in place by creation time (view.go:16-18, model.go:86-88), and the handlers then index that reordered pane with the cursor. The model has no timestamps. It assumes creation time grows with the task key, so the sort leaves the pane in the query's key order, which is the order `Invariants.Synced` states. Tasks with equal timestamps, which the unstable sort may reorder, are left out.
- `updateWindowSize` and the `tea.WindowSizeMsg` branch of `Update` are not modelled (update.go:18-27, 51-54). They only record the terminal size.
- Configuration, startup wiring and logging (config/config.go, main.go) are not modelled.
- The GORM/SQLite store is an abstract value. `FindTasksForList`, `NewTask` and `NewList` are not part of this model's source files, so they are specified only by what their callers use:
  - the query returns the list's tasks in table order, and no tasks for a nil list;
  - the constructors give unsaved records with key 0.
- Update.TextInputUpdate: the text-input widget is external. It is reduced to typing one character at the end (up to the 100-character limit) and "backspace". Cursor movement inside the text, other editing keys, focus and blinking are left out.
- The Go type assertions on pane items are modelled by the item's tag (`ListItem`/`TaskItem`). A failed assertion is a panic only where the source does not check it.
- The tasks pane holds the same task values the store holds, and the flipped task is written back into the pane. Pointer aliasing is modelled no further. That includes the `&list` loop variable in `NewContainer`, whose sharing depends on the Go version: the list items are modelled as distinct values.
- Timestamps, soft deletion and the `Tasks` association of a list are not modelled. Deleting a list leaves its tasks in the store, as the code does.
- The bubbletea runtime runs a returned command later, on another goroutine, and its closure writes to the model from there. The model runs each command at once, inside the step that returned it, so interleavings of a pending command with later keys, and the concurrency itself, are not modelled.
- Store errors carry no text. `ErrorMsg` stands for any `MsgError`, and a failed `Save` inside `toggleTaskStatus` is only logged.
- `Update.Valid` does not require the tasks cursor to be 0 on an empty pane, because the source leaves it there. That is exactly what the stranded-cursor lemmas exhibit.
- Of model.go's handlers, only those that differ from update.go are modelled separately:
  - `updateTasksFromCurrentList`, `handleUpKey`, `handleDownKey` and `addTaskCmd`;
  - `CurrentListItem`, which update.go calls but does not define.

  The others are the same code as update.go's and share its model: `addListCmd`, whose differences are `Save` instead of `Create` and an extra log line; the cursor moves; `CurrentList`; the key dispatch; both deletes; `removeItem`; `CurrentTask`. The class `App.Model` follows update.go.
