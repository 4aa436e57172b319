// model.go: the older copy of the controller. Its handlers are the same as update.go's except for
// the three modelled here: the tasks pane is refilled without clamping its cursor, the up and down
// keys use that refill, and adding a task never resets the input buffer.

module Snapshot {
  import opened TaskStatus
  import opened Database
  import opened Containers
  import opened Update
  import Invariants

  /** `updateTasksFromCurrentList`: the tasks pane shows the selected list's tasks and its cursor is
      left where it was, so it selects nothing when the new pane is shorter. */
  function UpdateTasksFromCurrentList(ui: Ui, db: Store): (r: Ui)
    ensures r == ui.(containers := ui.containers.(tasks := r.containers.tasks))
    ensures r.containers.tasks.items == TaskItems(FindTasksForList(db, CurrentList(ui)))
    ensures r.containers.tasks.cursor == ui.containers.tasks.cursor
    ensures InRange(r.containers.tasks) <==>
      |r.containers.tasks.items| == 0 || ui.containers.tasks.cursor < |r.containers.tasks.items|
  {
    var tasks := FindTasksForList(db, CurrentList(ui));
    var items := TaskItems(tasks);
    ui.(containers := ui.containers.(tasks := ui.containers.tasks.(items := items)))
  }

  /** The clamp is the only difference from update.go's refill. */
  lemma ClampIsTheDifference(ui: Ui, db: Store)
    ensures var r := UpdateTasksFromCurrentList(ui, db);
      var d := r.containers.tasks;
      Update.UpdateTasksForCurrentList(ui, db) == r.(containers := r.containers.(tasks := d.(cursor := Clamped(d.cursor, |d.items|))))
  {
  }

  /** `handleUpKey` of model.go: the focused pane's cursor obeys the same guards as in update.go, but on
      the lists pane the refilled tasks pane keeps its old cursor. */
  function HandleUpKey(ui: Ui, db: Store): (r: Ui)
    ensures r.active == ui.active && r.mode == ui.mode
    ensures r.addTaskInput == ui.addTaskInput && r.addListInput == ui.addListInput
    ensures r.containers.lists.items == ui.containers.lists.items
    ensures ui.active == CONTAINER_LISTS ==>
      && r.containers.lists == DecrementCursor(ui).containers.lists
      && r.containers.tasks.items == TaskItems(FindTasksForList(db, CurrentList(r)))
      && r.containers.tasks.cursor == ui.containers.tasks.cursor
    ensures ui.active != CONTAINER_LISTS ==> r == Update.HandleUpKey(ui, db)
    ensures Update.Valid(ui) ==> Anchored(r.containers.lists) && AllTasks(r.containers.tasks.items)
  {
    if ui.active == CONTAINER_LISTS then UpdateTasksFromCurrentList(DecrementCursor(ui), db)
    else if ui.active == CONTAINER_TASKS then DecrementCursor(ui)
    else ui
  }

  /** `handleDownKey` of model.go. */
  function HandleDownKey(ui: Ui, db: Store): (r: Ui)
    ensures r.active == ui.active && r.mode == ui.mode
    ensures r.addTaskInput == ui.addTaskInput && r.addListInput == ui.addListInput
    ensures r.containers.lists.items == ui.containers.lists.items
    ensures ui.active == CONTAINER_LISTS ==>
      && r.containers.lists == IncrementCursor(ui).containers.lists
      && r.containers.tasks.items == TaskItems(FindTasksForList(db, CurrentList(r)))
      && r.containers.tasks.cursor == ui.containers.tasks.cursor
    ensures ui.active != CONTAINER_LISTS ==> r == Update.HandleDownKey(ui, db)
    ensures Update.Valid(ui) ==> Anchored(r.containers.lists) && AllTasks(r.containers.tasks.items)
  {
    if ui.active == CONTAINER_LISTS then UpdateTasksFromCurrentList(IncrementCursor(ui), db)
    else if ui.active == CONTAINER_TASKS then IncrementCursor(ui)
    else ui
  }

  /** Moving up from "Work" (two tasks, the second selected) to "Default" (one task): model.go leaves
      the tasks cursor at 1, past the end. */
  lemma UpKeyOverrunsTasksCursor()
    ensures var r := HandleUpKey(Invariants.WorkSelected(), Invariants.TwoListsStore());
      r.containers.tasks == ContainerData([TaskItem(Task(1, 1, "a", "", Ready))], 1) && !Update.Valid(r)
  {
    Invariants.TwoListsTasks();
    var ui := Invariants.WorkSelected();
    assert CurrentList(DecrementCursor(ui)) == Some(List(1, DEFAULT_LIST_NAME));
    assert TaskItems([Task(1, 1, "a", "", Ready)]) == [TaskItem(Task(1, 1, "a", "", Ready))];
  }

  /** The same move in update.go pulls the tasks cursor back to 0. */
  lemma UpKeyClampsTasksCursor()
    ensures var r := Update.HandleUpKey(Invariants.WorkSelected(), Invariants.TwoListsStore());
      r.containers.tasks == ContainerData([TaskItem(Task(1, 1, "a", "", Ready))], 0) && Update.Valid(r)
  {
    Invariants.TwoListsTasks();
    var ui, db := Invariants.WorkSelected(), Invariants.TwoListsStore();
    var ui1 := DecrementCursor(ui);
    assert ui1.containers.lists.cursor == 0;
    assert CurrentList(ui1) == Some(List(1, DEFAULT_LIST_NAME));
    assert TaskItems([Task(1, 1, "a", "", Ready)]) == [TaskItem(Task(1, 1, "a", "", Ready))];
    var r := Update.UpdateTasksForCurrentList(ui1, db);
    assert r.containers.tasks.items == [TaskItem(Task(1, 1, "a", "", Ready))];
    assert Update.HandleUpKey(ui, db) == r;
  }

  /** `addTaskCmd` of model.go: as in update.go, except that the input buffer is never reset. */
  function AddTaskCmd(ui: Ui, db: Store, fail: bool): (r: Step)
    ensures r.ui.addTaskInput == ui.addTaskInput
    ensures var u := Update.AddTaskCmd(ui, db, fail);
      r == Step(u.ui.(addTaskInput := ui.addTaskInput), u.db, u.msg)
  {
    var input := ui.addTaskInput;
    if input == "" then Step(ui, db, NoMsg)
    else
      match CurrentList(ui)
      case None => Step(ui, db, Panicked)
      case Some(selectedList) =>
        var task := NewTask(input, "", Ready, selectedList.id);
        if fail then Step(ui, db, ErrorMsg)
        else
          var (saved, db') := CreateTask(db, task);
          var tasks := ui.containers.tasks;
          var ui' := ui.(containers := ui.containers.(tasks := tasks.(items := tasks.items + [TaskItem(saved)])), mode := ModeList);
          Step(ui', db', TaskCreatedMsg("Task " + saved.name + " created"))
  }

  /** Because the buffer is kept, the next time add mode is entered on the tasks pane and "enter" is
      pressed, the same name is saved again as a second task. */
  lemma KeptInputIsAddedAgain(ui: Ui, db: Store)
    requires ui.addTaskInput != "" && CurrentList(ui).Some?
    ensures var s1 := AddTaskCmd(ui, db, false);
      var s2 := AddTaskCmd(s1.ui, s1.db, false);
      && s2.msg == s1.msg
      && |s2.db.tasks| == |db.tasks| + 2
      && s2.db.tasks[|db.tasks|].name == s2.db.tasks[|db.tasks| + 1].name == ui.addTaskInput
  {
    var s1 := AddTaskCmd(ui, db, false);
    assert CurrentList(s1.ui) == CurrentList(ui);
  }
}
