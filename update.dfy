// update.go: the key-driven controller, as functions from the state before a key to the state after
// it. The commands the handlers return are run at once, so each step also carries the store after
// the command and the message the command hands back.

module Update {
  import opened TaskStatus
  import opened Database
  import opened Containers

  datatype Mode = ModeList | ModeAdd

  /** What a command hands back to the runtime. */
  datatype Msg =
    | NoMsg                          // nil
    | QuitMsg                        // tea.Quit
    | ErrorMsg                       // MsgError carrying the store's error text
    | TaskCreatedMsg(text: string)   // MsgTaskCreated
    | DeletedMsg                     // the string "yay"
    | Panicked                       // a Go runtime panic: nil dereference, index out of range, failed type assertion

  /** The controller's state: both panes, the focused pane, the mode and the two input buffers. */
  datatype Ui = Ui(containers: Containers, active: Container, mode: Mode, addTaskInput: string, addListInput: string)

  /** The state, the store and the message after one key. */
  datatype Step = Step(ui: Ui, db: Store, msg: Msg)

  /** `CharLimit` of both text inputs (model.go, `initialModel`). */
  const CHAR_LIMIT := 100

  // ---------------------------------------------------------------------------------------------
  // Cursor discipline

  /** The cursor selects an item whenever there is one. */
  predicate InRange(d: ContainerData)
  {
    |d.items| > 0 ==> d.cursor < |d.items|
  }

  /** Stronger: the cursor also rests at 0 when the pane is empty. */
  predicate Anchored(d: ContainerData)
  {
    d.cursor == 0 || d.cursor < |d.items|
  }

  /** The state the controller is meant to keep: a real pane is focused, each pane holds its own kind
      of item, the lists cursor is anchored and the tasks cursor is in range. */
  predicate Valid(ui: Ui)
  {
    && (ui.active == CONTAINER_LISTS || ui.active == CONTAINER_TASKS)
    && AllLists(ui.containers.lists.items) && AllTasks(ui.containers.tasks.items)
    && Anchored(ui.containers.lists) && InRange(ui.containers.tasks)
  }

  // ---------------------------------------------------------------------------------------------
  // Cursor moves (update.go:29-39)

  /** The guarded decrement. */
  function Decremented(d: ContainerData): (r: ContainerData)
    ensures r.items == d.items
    ensures r.cursor == d.cursor || r.cursor + 1 == d.cursor
    ensures d.cursor > 0 ==> r.cursor < d.cursor
    ensures InRange(d) ==> InRange(r)
    ensures Anchored(d) ==> Anchored(r)
  {
    if d.cursor > 0 then d.(cursor := d.cursor - 1) else d
  }

  /** The guarded increment: it stops at the last item and never moves on an empty pane. */
  function Incremented(d: ContainerData): (r: ContainerData)
    ensures r.items == d.items
    ensures r.cursor == d.cursor || r.cursor == d.cursor + 1
    ensures d.cursor + 1 < |d.items| ==> r.cursor > d.cursor
    ensures d.cursor + 1 >= |d.items| ==> r == d
    ensures InRange(d) ==> InRange(r)
    ensures Anchored(d) ==> Anchored(r)
  {
    if d.cursor < |d.items| - 1 then d.(cursor := d.cursor + 1) else d
  }

  /** The focused pane, replaced by `f` of itself; nothing when no pane is focused. */
  function WithActive(ui: Ui, f: ContainerData -> ContainerData): (r: Ui)
    ensures r.active == ui.active && r.mode == ui.mode
    ensures r.addTaskInput == ui.addTaskInput && r.addListInput == ui.addListInput
    ensures ui.active != CONTAINER_LISTS ==> r.containers.lists == ui.containers.lists
    ensures ui.active != CONTAINER_TASKS ==> r.containers.tasks == ui.containers.tasks
    ensures ui.active == CONTAINER_LISTS ==> r.containers.lists == f(ui.containers.lists)
    ensures ui.active == CONTAINER_TASKS ==> r.containers.tasks == f(ui.containers.tasks)
  {
    if ui.active == CONTAINER_LISTS then ui.(containers := ui.containers.(lists := f(ui.containers.lists)))
    else if ui.active == CONTAINER_TASKS then ui.(containers := ui.containers.(tasks := f(ui.containers.tasks)))
    else ui
  }

  /** `decementCursor`: only the focused pane's cursor moves, down by at most one and never below 0. */
  function DecrementCursor(ui: Ui): (r: Ui)
    ensures r.active == ui.active && r.mode == ui.mode
    ensures r.addTaskInput == ui.addTaskInput && r.addListInput == ui.addListInput
    ensures r.containers.lists.items == ui.containers.lists.items
    ensures r.containers.tasks.items == ui.containers.tasks.items
    ensures ui.active != CONTAINER_LISTS ==> r.containers.lists == ui.containers.lists
    ensures ui.active != CONTAINER_TASKS ==> r.containers.tasks == ui.containers.tasks
    ensures var a, b := ui.containers.lists.cursor, r.containers.lists.cursor; b == a || b + 1 == a
    ensures var a, b := ui.containers.tasks.cursor, r.containers.tasks.cursor; b == a || b + 1 == a
    ensures ui.active == CONTAINER_LISTS && ui.containers.lists.cursor > 0 ==>
      r.containers.lists.cursor + 1 == ui.containers.lists.cursor
    ensures ui.active == CONTAINER_TASKS && ui.containers.tasks.cursor > 0 ==>
      r.containers.tasks.cursor + 1 == ui.containers.tasks.cursor
    ensures Valid(ui) ==> Valid(r)
  {
    WithActive(ui, Decremented)
  }

  /** `incrementCursor`: only the focused pane's cursor moves, up by at most one and never past the
      last item; an empty pane is left as it is. */
  function IncrementCursor(ui: Ui): (r: Ui)
    ensures r.active == ui.active && r.mode == ui.mode
    ensures r.addTaskInput == ui.addTaskInput && r.addListInput == ui.addListInput
    ensures r.containers.lists.items == ui.containers.lists.items
    ensures r.containers.tasks.items == ui.containers.tasks.items
    ensures ui.active != CONTAINER_LISTS ==> r.containers.lists == ui.containers.lists
    ensures ui.active != CONTAINER_TASKS ==> r.containers.tasks == ui.containers.tasks
    ensures var a, b := ui.containers.lists.cursor, r.containers.lists.cursor; b == a || b == a + 1
    ensures var a, b := ui.containers.tasks.cursor, r.containers.tasks.cursor; b == a || b == a + 1
    ensures |ui.containers.lists.items| == 0 ==> r.containers.lists == ui.containers.lists
    ensures |ui.containers.tasks.items| == 0 ==> r.containers.tasks == ui.containers.tasks
    ensures ui.active == CONTAINER_LISTS && ui.containers.lists.cursor + 1 < |ui.containers.lists.items| ==>
      r.containers.lists.cursor == ui.containers.lists.cursor + 1
    ensures ui.active == CONTAINER_TASKS && ui.containers.tasks.cursor + 1 < |ui.containers.tasks.items| ==>
      r.containers.tasks.cursor == ui.containers.tasks.cursor + 1
    ensures ui.active == CONTAINER_LISTS && ui.containers.lists.cursor + 1 >= |ui.containers.lists.items| ==> r == ui
    ensures ui.active == CONTAINER_TASKS && ui.containers.tasks.cursor + 1 >= |ui.containers.tasks.items| ==> r == ui
    ensures Valid(ui) ==> Valid(r)
  {
    WithActive(ui, Incremented)
  }

  // ---------------------------------------------------------------------------------------------
  // Reading the selection

  /** `CurrentList`: the selected list, or nil when the cursor is past the end or the selected item is
      not a list. */
  function CurrentList(ui: Ui): (r: Option<List>)
    ensures ui.containers.lists.cursor >= |ui.containers.lists.items| ==> r.None?
    ensures r.Some? ==> ListItem(r.value) in ui.containers.lists.items
    ensures Valid(ui) ==> (r.Some? <==> |ui.containers.lists.items| > 0)
  {
    var d := ui.containers.lists;
    if d.cursor < |d.items| && d.items[d.cursor].ListItem? then Some(d.items[d.cursor].list) else None
  }

  /** `CurrentListItem` (model.go): the selected item of the focused pane; None where the source
      panics (no such pane, or the cursor out of range). */
  function CurrentListItem(ui: Ui): (r: Option<Item>)
    ensures r.Some? <==>
      Lookup(ui.containers, ui.active).Some? && Lookup(ui.containers, ui.active).value.cursor < |Lookup(ui.containers, ui.active).value.items|
    ensures r.Some? ==> r.value == CurrentItem(ui.containers, ui.active)
  {
    match Lookup(ui.containers, ui.active)
    case None => None
    case Some(d) => if d.cursor < |d.items| then Some(d.items[d.cursor]) else None
  }

  /** Whether `CurrentTask` finds a task: the source indexes and type-asserts without a check. */
  predicate TaskSelected(ui: Ui)
  {
    var d := ui.containers.tasks;
    d.cursor < |d.items| && d.items[d.cursor].TaskItem?
  }

  /** `CurrentTask`. */
  function CurrentTask(ui: Ui): (r: Task)
    requires TaskSelected(ui)
    ensures TaskItem(r) in ui.containers.tasks.items
  {
    ui.containers.tasks.items[ui.containers.tasks.cursor].task
  }

  // ---------------------------------------------------------------------------------------------
  // Recomputing the tasks pane (update.go:206-220)

  /** `updateTasksForCurrentList`: the tasks pane shows the selected list's tasks, and a cursor past
      the end of a non-empty result is pulled back to the last task. */
  function UpdateTasksForCurrentList(ui: Ui, db: Store): (r: Ui)
    ensures r == ui.(containers := ui.containers.(tasks := r.containers.tasks))
    ensures r.containers.tasks.items == TaskItems(FindTasksForList(db, CurrentList(ui)))
    ensures InRange(r.containers.tasks)
    ensures var n, c := |r.containers.tasks.items|, ui.containers.tasks.cursor;
      && (c < n || n == 0 ==> r.containers.tasks.cursor == c)
      && (0 < n <= c ==> r.containers.tasks.cursor == n - 1)
  {
    var items := TaskItems(FindTasksForList(db, CurrentList(ui)));
    var cursor := ui.containers.tasks.cursor;
    var cursor' := if |items| > 0 && cursor >= |items| then |items| - 1 else cursor;
    ui.(containers := ui.containers.(tasks := ContainerData(items, cursor')))
  }

  /** `handleUpKey`: on the lists pane the tasks pane follows the new selection. */
  function HandleUpKey(ui: Ui, db: Store): (r: Ui)
    ensures r.active == ui.active && r.mode == ui.mode
    ensures r.addTaskInput == ui.addTaskInput && r.addListInput == ui.addListInput
    ensures r.containers.lists.items == ui.containers.lists.items
    ensures ui.active == CONTAINER_LISTS ==>
      && r.containers.lists == DecrementCursor(ui).containers.lists
      && r.containers.tasks.items == TaskItems(FindTasksForList(db, CurrentList(r)))
      && r.containers.tasks.cursor == Clamped(ui.containers.tasks.cursor, |r.containers.tasks.items|)
    ensures ui.active == CONTAINER_TASKS ==>
      r.containers.lists == ui.containers.lists && r.containers.tasks == Decremented(ui.containers.tasks)
    ensures ui.active != CONTAINER_LISTS && ui.active != CONTAINER_TASKS ==> r == ui
    ensures Valid(ui) ==> Valid(r)
  {
    if ui.active == CONTAINER_LISTS then UpdateTasksForCurrentList(DecrementCursor(ui), db)
    else if ui.active == CONTAINER_TASKS then DecrementCursor(ui)
    else ui
  }

  /** `handleDownKey`. */
  function HandleDownKey(ui: Ui, db: Store): (r: Ui)
    ensures r.active == ui.active && r.mode == ui.mode
    ensures r.addTaskInput == ui.addTaskInput && r.addListInput == ui.addListInput
    ensures r.containers.lists.items == ui.containers.lists.items
    ensures ui.active == CONTAINER_LISTS ==>
      && r.containers.lists == IncrementCursor(ui).containers.lists
      && r.containers.tasks.items == TaskItems(FindTasksForList(db, CurrentList(r)))
      && r.containers.tasks.cursor == Clamped(ui.containers.tasks.cursor, |r.containers.tasks.items|)
    ensures ui.active == CONTAINER_TASKS ==>
      r.containers.lists == ui.containers.lists && r.containers.tasks == Incremented(ui.containers.tasks)
    ensures ui.active != CONTAINER_LISTS && ui.active != CONTAINER_TASKS ==> r == ui
    ensures Valid(ui) ==> Valid(r)
  {
    if ui.active == CONTAINER_LISTS then UpdateTasksForCurrentList(IncrementCursor(ui), db)
    else if ui.active == CONTAINER_TASKS then IncrementCursor(ui)
    else ui
  }

  // ---------------------------------------------------------------------------------------------
  // Focus and status (update.go:222-238)

  /** `toggleActiveContainer`: any focus other than the lists pane goes to the lists pane. */
  function ToggleActiveContainer(ui: Ui): (r: Ui)
    ensures r.containers == ui.containers && r.mode == ui.mode
    ensures r.addTaskInput == ui.addTaskInput && r.addListInput == ui.addListInput
    ensures ui.active == CONTAINER_LISTS ==> r.active == CONTAINER_TASKS
    ensures ui.active != CONTAINER_LISTS ==> r.active == CONTAINER_LISTS
    ensures Valid(ui) ==> Valid(r)
  {
    ui.(active := if ui.active == CONTAINER_LISTS then CONTAINER_TASKS else CONTAINER_LISTS)
  }

  /** Toggling the focus twice restores a pane focus; any other value ends on the tasks pane. */
  lemma ToggleTwice(ui: Ui)
    ensures ui.active == CONTAINER_LISTS || ui.active == CONTAINER_TASKS ==>
      ToggleActiveContainer(ToggleActiveContainer(ui)) == ui
    ensures ui.active != CONTAINER_LISTS && ui.active != CONTAINER_TASKS ==>
      ToggleActiveContainer(ToggleActiveContainer(ui)) == ui.(active := CONTAINER_TASKS)
  {
  }

  /** The status flip of `toggleTaskStatus`. */
  function Flipped(s: Status): (r: Status)
    ensures Is(r, Done) <==> !Is(s, Done)
    ensures r == Done || r == InProgress
    ensures r != s
  {
    if Is(s, Done) then InProgress else Done
  }

  /** Flipping twice restores Done and InProgress but sends Ready (or any other value) to InProgress. */
  lemma FlippedTwice(s: Status)
    ensures s == Done || s == InProgress ==> Flipped(Flipped(s)) == s
    ensures s != Done ==> Flipped(Flipped(s)) == InProgress
  {
  }

  /** `toggleTaskStatus`: flip the selected task in the pane and save it. A failed save is only
      logged by the store wrapper, so the pane keeps the flipped status either way. */
  function ToggleTaskStatus(ui: Ui, db: Store, fail: bool): (r: Step)
    ensures r.msg == Panicked <==> !TaskSelected(ui)
    ensures r.msg == Panicked ==> r.ui == ui && r.db == db
    ensures r.msg != Panicked ==>
      var d, c := ui.containers.tasks, ui.containers.tasks.cursor;
      var t := CurrentTask(ui).(status := Flipped(CurrentTask(ui).status));
      && r.msg == NoMsg
      && r.ui == ui.(containers := ui.containers.(tasks := d.(items := d.items[c := TaskItem(t)])))
      && r.db == (if fail then db else SaveTask(db, t))
  {
    if !TaskSelected(ui) then Step(ui, db, Panicked)
    else
      var d := ui.containers.tasks;
      var task := CurrentTask(ui);
      var toggled := task.(status := Flipped(task.status));
      var ui' := ui.(containers := ui.containers.(tasks := d.(items := d.items[d.cursor := TaskItem(toggled)])));
      Step(ui', if fail then db else SaveTask(db, toggled), NoMsg)
  }

  // ---------------------------------------------------------------------------------------------
  // Adding (update.go:56-99)

  /** `addTaskCmd`: an empty buffer does nothing; otherwise the buffer is reset, a Ready task with an
      empty description is saved under the selected list (a nil list panics), and on success it is
      appended to the tasks pane and the mode returns to browsing. */
  function AddTaskCmd(ui: Ui, db: Store, fail: bool): (r: Step)
    ensures ui.addTaskInput == "" ==> r == Step(ui, db, NoMsg)
    ensures ui.addTaskInput != "" ==> r.ui.addTaskInput == ""
    ensures ui.addTaskInput != "" && CurrentList(ui).None? ==> r == Step(ui.(addTaskInput := ""), db, Panicked)
    ensures ui.addTaskInput != "" && CurrentList(ui).Some? && fail ==>
      r == Step(ui.(addTaskInput := ""), db, ErrorMsg)
    ensures ui.addTaskInput != "" && CurrentList(ui).Some? && !fail ==>
      && r.msg == TaskCreatedMsg("Task " + ui.addTaskInput + " created")
      && |r.db.tasks| == |db.tasks| + 1 && r.db.tasks[..|db.tasks|] == db.tasks && r.db.lists == db.lists
      && r.db.nextTaskId == db.nextTaskId + 1 && r.db.nextListId == db.nextListId
      && var t := r.db.tasks[|db.tasks|];
        && t == Task(db.nextTaskId, CurrentList(ui).value.id, ui.addTaskInput, "", Ready)
        && r.ui == ui.(addTaskInput := "", mode := ModeList,
                       containers := ui.containers.(tasks := ui.containers.tasks.(items := ui.containers.tasks.items + [TaskItem(t)])))
  {
    var input := ui.addTaskInput;
    if input == "" then Step(ui, db, NoMsg)
    else
      var ui1 := ui.(addTaskInput := "");
      match CurrentList(ui1)
      case None => Step(ui1, db, Panicked)
      case Some(selectedList) =>
        var task := NewTask(input, "", Ready, selectedList.id);
        if fail then Step(ui1, db, ErrorMsg)
        else
          var (saved, db') := CreateTask(db, task);
          var tasks := ui1.containers.tasks;
          var ui2 := ui1.(containers := ui1.containers.(tasks := tasks.(items := tasks.items + [TaskItem(saved)])), mode := ModeList);
          Step(ui2, db', TaskCreatedMsg("Task " + saved.name + " created"))
  }

  /** `addListCmd`: an empty buffer does nothing; otherwise the buffer is reset, the list is created,
      and on success it is appended to the lists pane and the mode returns to browsing. */
  function AddListCmd(ui: Ui, db: Store, fail: bool): (r: Step)
    ensures ui.addListInput == "" ==> r == Step(ui, db, NoMsg)
    ensures ui.addListInput != "" && fail ==> r == Step(ui.(addListInput := ""), db, ErrorMsg)
    ensures ui.addListInput != "" && !fail ==>
      && r.msg == NoMsg
      && |r.db.lists| == |db.lists| + 1 && r.db.lists[..|db.lists|] == db.lists && r.db.tasks == db.tasks
      && r.db.nextListId == db.nextListId + 1 && r.db.nextTaskId == db.nextTaskId
      && var l := r.db.lists[|db.lists|];
        && l == List(db.nextListId, ui.addListInput)
        && r.ui == ui.(addListInput := "", mode := ModeList,
                       containers := ui.containers.(lists := ui.containers.lists.(items := ui.containers.lists.items + [ListItem(l)])))
  {
    var input := ui.addListInput;
    if input == "" then Step(ui, db, NoMsg)
    else
      var ui1 := ui.(addListInput := "");
      var list := NewList(input);
      if fail then Step(ui1, db, ErrorMsg)
      else
        var (saved, db') := CreateList(db, list);
        var lists := ui1.containers.lists;
        var ui2 := ui1.(containers := ui1.containers.(lists := lists.(items := lists.items + [ListItem(saved)])), mode := ModeList);
        Step(ui2, db', NoMsg)
  }

  // ---------------------------------------------------------------------------------------------
  // Deleting (update.go:240-310)

  /** `removeItem`: the sequence without position `index`. */
  function RemoveItem<T>(s: seq<T>, index: nat): (r: seq<T>)
    requires index < |s|
    ensures |r| == |s| - 1
    ensures forall k :: 0 <= k < index ==> r[k] == s[k]
    ensures forall k :: index <= k < |r| ==> r[k] == s[k + 1]
    ensures multiset(r) + multiset{s[index]} == multiset(s)
  {
    assert s == s[..index] + [s[index]] + s[index + 1..];
    s[..index] + s[index + 1..]
  }

  /** The cursor after a splice: pulled back to the last item when it is past the end of a non-empty
      pane, otherwise unchanged. */
  function Clamped(cursor: nat, n: nat): (c: nat)
    ensures n > 0 ==> c < n
    ensures cursor < n || n == 0 ==> c == cursor
  {
    if cursor >= n && n > 0 then n - 1 else cursor
  }

  /** `deleteTaskCmd`: no-op when the cursor selects no task; on a failed delete nothing changes;
      otherwise the task leaves the store and the pane, and the cursor is clamped. */
  function DeleteTaskCmd(ui: Ui, db: Store, fail: bool): (r: Step)
    ensures !TaskSelected(ui) ==> r == Step(ui, db, NoMsg)
    ensures TaskSelected(ui) && fail ==> r == Step(ui, db, ErrorMsg)
    ensures TaskSelected(ui) && !fail ==>
      var d, c := ui.containers.tasks, ui.containers.tasks.cursor;
      var d' := r.ui.containers.tasks;
      && r.msg == DeletedMsg
      && r.db == DeleteTask(db, CurrentTask(ui))
      && r.ui == ui.(containers := ui.containers.(tasks := d'))
      && d'.items == d.items[..c] + d.items[c + 1..]
      && |d'.items| == |d.items| - 1
      && (c < |d'.items| || |d'.items| == 0 ==> d'.cursor == c)
      && (0 < |d'.items| <= c ==> d'.cursor == |d'.items| - 1)
  {
    var d := ui.containers.tasks;
    var cursor := d.cursor;
    if cursor >= |d.items| then Step(ui, db, NoMsg)
    else if !d.items[cursor].TaskItem? then Step(ui, db, NoMsg)
    else
      var task := d.items[cursor].task;
      if fail then Step(ui, db, ErrorMsg)
      else
        var items := RemoveItem(d.items, cursor);
        var ui' := ui.(containers := ui.containers.(tasks := ContainerData(items, Clamped(d.cursor, |items|))));
        Step(ui', DeleteTask(db, task), DeletedMsg)
  }

  /** `deleteListCmd`: a nil selection panics; the list named "Default" is never deleted; on a failed
      delete nothing changes; otherwise the list leaves the store and the pane, the lists cursor is
      clamped, and the tasks pane is refilled for the newly selected list (emptied when no list is
      left) WITHOUT adjusting the tasks cursor. The source re-checks the cursor and the item's type
      after `CurrentList` succeeded; those checks cannot fail and have no branch here. */
  function DeleteListCmd(ui: Ui, db: Store, fail: bool): (r: Step)
    ensures CurrentList(ui).None? ==> r == Step(ui, db, Panicked)
    ensures CurrentList(ui).Some? && CurrentList(ui).value.name == DEFAULT_LIST_NAME ==> r == Step(ui, db, NoMsg)
    ensures CurrentList(ui).Some? && CurrentList(ui).value.name != DEFAULT_LIST_NAME && fail ==>
      r == Step(ui, db, ErrorMsg)
    ensures CurrentList(ui).Some? && CurrentList(ui).value.name != DEFAULT_LIST_NAME && !fail ==>
      var d, c := ui.containers.lists, ui.containers.lists.cursor;
      var d' := r.ui.containers.lists;
      && r.db == DeleteList(db, CurrentList(ui).value)
      && d'.items == d.items[..c] + d.items[c + 1..]
      && (c < |d'.items| || |d'.items| == 0 ==> d'.cursor == c)
      && (0 < |d'.items| <= c ==> d'.cursor == |d'.items| - 1)
      && r.ui.containers.tasks.cursor == ui.containers.tasks.cursor
      && r.ui.active == ui.active && r.ui.mode == ui.mode
      && r.ui.addTaskInput == ui.addTaskInput && r.ui.addListInput == ui.addListInput
      && (r.msg == Panicked || r.msg == DeletedMsg)
      && (r.msg == DeletedMsg && ui.active == CONTAINER_LISTS ==>
            r.ui.containers.tasks.items == TaskItems(FindTasksForList(r.db, CurrentList(r.ui))))
      && (ui.active == CONTAINER_LISTS && AllLists(d.items) ==> r.msg == DeletedMsg)
  {
    match CurrentList(ui)
    case None => Step(ui, db, Panicked)
    case Some(current) =>
      if current.name == DEFAULT_LIST_NAME then Step(ui, db, NoMsg)
      else if fail then Step(ui, db, ErrorMsg)
      else
        var d := ui.containers.lists;
        var cursor := d.cursor;
        var db' := DeleteList(db, current);
        var items := RemoveItem(d.items, cursor);
        var ui1 := ui.(containers := ui.containers.(lists := ContainerData(items, Clamped(d.cursor, |items|))));
        if |items| > 0 then
          match CurrentListItem(ui1)
          case Some(ListItem(selectedList)) =>
            var tasks := ui1.containers.tasks;
            var ui2 := ui1.(containers := ui1.containers.(tasks := tasks.(items := TaskItems(FindTasksForList(db', Some(selectedList))))));
            Step(ui2, db', DeletedMsg)
          case _ => Step(ui1, db', Panicked)
        else
          var tasks := ui1.containers.tasks;
          Step(ui1.(containers := ui1.containers.(tasks := tasks.(items := []))), db', DeletedMsg)
  }

  // ---------------------------------------------------------------------------------------------
  // Key dispatch (update.go:112-184)

  /** The text-input widget's handling of a key, reduced to: a one-character key is typed while the
      buffer is under the character limit, "backspace" erases the last character, and any other key
      leaves the buffer as it is. */
  function TextInputUpdate(buffer: string, key: string): (r: string)
    ensures |buffer| <= CHAR_LIMIT ==> |r| <= CHAR_LIMIT
    ensures r <= buffer || buffer <= r
    ensures |r| <= |buffer| + 1 && |buffer| <= |r| + 1
  {
    if |key| == 1 && |buffer| < CHAR_LIMIT then buffer + key
    else if key == "backspace" && |buffer| > 0 then buffer[..|buffer| - 1]
    else buffer
  }

  /** `handleAddModeKey`: only "enter" writes to the store or sends a message; "esc" and "ctrl+c"
      return to browsing with the typed text kept; every other key edits the focused pane's buffer. */
  function HandleAddModeKey(ui: Ui, db: Store, key: string, fail: bool): (r: Step)
    ensures key != "enter" ==> r.db == db && r.msg == NoMsg
    ensures key == "ctrl+c" || key == "esc" ==> r.ui == ui.(mode := ModeList)
    ensures key != "enter" && key != "ctrl+c" && key != "esc" ==>
      && r.ui == ui.(addListInput := r.ui.addListInput, addTaskInput := r.ui.addTaskInput)
      && (ui.active != CONTAINER_LISTS ==> r.ui.addListInput == ui.addListInput)
      && (ui.active != CONTAINER_TASKS ==> r.ui.addTaskInput == ui.addTaskInput)
  {
    if key == "enter" && ui.active == CONTAINER_LISTS then AddListCmd(ui, db, fail)
    else if key == "enter" && ui.active == CONTAINER_TASKS then AddTaskCmd(ui, db, fail)
    else if key == "ctrl+c" || key == "esc" then Step(ui.(mode := ModeList), db, NoMsg)
    else if ui.active == CONTAINER_LISTS then Step(ui.(addListInput := TextInputUpdate(ui.addListInput, key)), db, NoMsg)
    else if ui.active == CONTAINER_TASKS then Step(ui.(addTaskInput := TextInputUpdate(ui.addTaskInput, key)), db, NoMsg)
    else Step(ui, db, NoMsg)
  }

  /** `handleListModeKey`: "ctrl+c" and "q" quit, and only the flip and delete keys write to the
      store; browsing never touches the input buffers, and only "a" enters add mode. */
  function HandleListModeKey(ui: Ui, db: Store, key: string, fail: bool): (r: Step)
    ensures r.msg == QuitMsg <==> key == "ctrl+c" || key == "q"
    ensures r.msg == QuitMsg ==> r.ui == ui && r.db == db
    ensures key != "enter" && key != " " && key != "x" && key != "d" ==> r.db == db
    ensures r.ui.addTaskInput == ui.addTaskInput && r.ui.addListInput == ui.addListInput
    ensures r.ui.mode == ui.mode || (key == "a" && r.ui.mode == ModeAdd)
    ensures key == "a" && (ui.active == CONTAINER_LISTS || ui.active == CONTAINER_TASKS) ==> r.ui.mode == ModeAdd
  {
    if key == "ctrl+c" || key == "q" then Step(ui, db, QuitMsg)
    else if key == "up" || key == "k" then Step(HandleUpKey(ui, db), db, NoMsg)
    else if key == "down" || key == "j" then Step(HandleDownKey(ui, db), db, NoMsg)
    else if key == "h" || key == "l" then Step(ToggleActiveContainer(ui), db, NoMsg)
    else if key == "enter" || key == " " || key == "x" then ToggleTaskStatus(ui, db, fail)
    else if key == "a" && (ui.active == CONTAINER_LISTS || ui.active == CONTAINER_TASKS) then
      Step(ui.(mode := ModeAdd), db, NoMsg)
    else if key == "d" && ui.active == CONTAINER_LISTS then DeleteListCmd(ui, db, fail)
    else if key == "d" && ui.active == CONTAINER_TASKS then DeleteTaskCmd(ui, db, fail)
    else Step(ui, db, NoMsg)
  }

  /** `handleKeyMsg`: the mode picks the handler. `fail` says whether the store write the key
      triggers (if any) fails. Only browsing mode quits; the store changes only under "enter", or
      under a flip or delete key while browsing. */
  function HandleKeyMsg(ui: Ui, db: Store, key: string, fail: bool): (r: Step)
    ensures r.msg == QuitMsg <==> ui.mode != ModeAdd && (key == "ctrl+c" || key == "q")
    ensures r.db != db ==> key == "enter" || (ui.mode != ModeAdd && (key == " " || key == "x" || key == "d"))
  {
    if ui.mode == ModeAdd then HandleAddModeKey(ui, db, key, fail)
    else HandleListModeKey(ui, db, key, fail)
  }
}
