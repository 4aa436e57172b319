// What the controller of update.go keeps and what it breaks: the cursor discipline of `Update.Valid`,
// the panics, and the agreement between the panes and the store.

module Invariants {
  import opened TaskStatus
  import opened Database
  import opened Containers
  import opened Update

  /** The tasks pane shows exactly the store's tasks for the selected list, in store order. */
  predicate Synced(ui: Ui, db: Store)
  {
    ui.containers.tasks.items == TaskItems(FindTasksForList(db, CurrentList(ui)))
  }

  /** The lists pane shows exactly the store's lists, in store order. */
  predicate Mirrored(ui: Ui, db: Store)
  {
    ui.containers.lists.items == ListItems(db.lists)
  }

  /** The part of `Update.Valid` that no key breaks: a real pane is focused, each pane holds its own
      kind of item, and the lists cursor is in range or 0. The tasks cursor is left free, since a
      list delete or a refill of an empty pane can leave it past the end. */
  predicate Shaped(ui: Ui)
  {
    && (ui.active == CONTAINER_LISTS || ui.active == CONTAINER_TASKS)
    && AllLists(ui.containers.lists.items) && AllTasks(ui.containers.tasks.items)
    && Anchored(ui.containers.lists)
  }

  /** The key deletes the selected list. */
  predicate DeletesList(ui: Ui, key: string)
  {
    ui.mode == ModeList && key == "d" && ui.active == CONTAINER_LISTS
  }

  /** The key confirms a new task. */
  predicate ConfirmsTaskAdd(ui: Ui, key: string)
  {
    ui.mode == ModeAdd && key == "enter" && ui.active == CONTAINER_TASKS
  }

  /** The key flips the selected task's status (whatever pane has the focus). */
  predicate TogglesStatus(ui: Ui, key: string)
  {
    ui.mode == ModeList && (key == "enter" || key == " " || key == "x")
  }

  // ---------------------------------------------------------------------------------------------
  // The cursor discipline, operation by operation

  /** Appending a task keeps the tasks cursor in range only when it was anchored: a cursor left
      behind on an empty pane selects nothing after the append. */
  lemma AddTaskCmdKeepsValid(ui: Ui, db: Store, fail: bool)
    requires Update.Valid(ui) && Anchored(ui.containers.tasks)
    ensures Update.Valid(AddTaskCmd(ui, db, fail).ui)
    ensures Anchored(AddTaskCmd(ui, db, fail).ui.containers.tasks)
  {
  }

  lemma AddListCmdKeepsValid(ui: Ui, db: Store, fail: bool)
    requires Update.Valid(ui)
    ensures Update.Valid(AddListCmd(ui, db, fail).ui)
  {
  }

  lemma DeleteTaskCmdKeepsValid(ui: Ui, db: Store, fail: bool)
    requires Update.Valid(ui)
    ensures Update.Valid(DeleteTaskCmd(ui, db, fail).ui)
  {
  }

  lemma ToggleTaskStatusKeepsValid(ui: Ui, db: Store, fail: bool)
    requires Update.Valid(ui)
    ensures Update.Valid(ToggleTaskStatus(ui, db, fail).ui)
  {
  }

  /** Deleting a list from the focused lists pane never panics, and the result is valid exactly when
      the untouched tasks cursor still fits the refilled tasks pane. */
  lemma DeleteListCmdValid(ui: Ui, db: Store, fail: bool)
    requires Update.Valid(ui) && ui.active == CONTAINER_LISTS
    ensures var r := DeleteListCmd(ui, db, fail);
      && (r.msg == Panicked <==> |ui.containers.lists.items| == 0)
      && (Update.Valid(r.ui) <==> InRange(r.ui.containers.tasks))
  {
  }

  /** The keys of browsing mode, one handler at a time. */
  lemma ListModeKeyValid(ui: Ui, db: Store, key: string, fail: bool)
    requires Update.Valid(ui) && ui.mode == ModeList
    ensures var r := HandleListModeKey(ui, db, key, fail);
      && (!DeletesList(ui, key) ==> Update.Valid(r.ui))
      && (DeletesList(ui, key) ==> (Update.Valid(r.ui) <==> InRange(r.ui.containers.tasks)))
      && (r.msg == Panicked <==>
            || (TogglesStatus(ui, key) && |ui.containers.tasks.items| == 0)
            || (|ui.containers.lists.items| == 0 && DeletesList(ui, key)))
  {
    var r := HandleListModeKey(ui, db, key, fail);
    if key == "ctrl+c" || key == "q" {
      assert r == Step(ui, db, QuitMsg);
    } else if key == "up" || key == "k" {
      assert r == Step(HandleUpKey(ui, db), db, NoMsg);
    } else if key == "down" || key == "j" {
      assert r == Step(HandleDownKey(ui, db), db, NoMsg);
    } else if key == "h" || key == "l" {
      assert r == Step(ToggleActiveContainer(ui), db, NoMsg);
    } else if key == "enter" || key == " " || key == "x" {
      assert r == ToggleTaskStatus(ui, db, fail);
      ToggleTaskStatusKeepsValid(ui, db, fail);
    } else if key == "a" {
      assert r == Step(ui.(mode := ModeAdd), db, NoMsg);
    } else if key == "d" && ui.active == CONTAINER_LISTS {
      assert r == DeleteListCmd(ui, db, fail);
      DeleteListCmdValid(ui, db, fail);
    } else if key == "d" {
      assert r == DeleteTaskCmd(ui, db, fail);
      DeleteTaskCmdKeepsValid(ui, db, fail);
    } else {
      assert r == Step(ui, db, NoMsg);
    }
  }

  /** The keys of add mode: only confirming a task can break the discipline, and only from a tasks
      cursor that is not anchored. */
  lemma AddModeKeyValid(ui: Ui, db: Store, key: string, fail: bool)
    requires Update.Valid(ui) && ui.mode == ModeAdd
    ensures var r := HandleAddModeKey(ui, db, key, fail);
      && (ConfirmsTaskAdd(ui, key) ==> Anchored(ui.containers.tasks)) ==> Update.Valid(r.ui)
    ensures var r := HandleAddModeKey(ui, db, key, fail);
      r.msg == Panicked <==> |ui.containers.lists.items| == 0 && ConfirmsTaskAdd(ui, key) && ui.addTaskInput != ""
  {
    var r := HandleAddModeKey(ui, db, key, fail);
    if key == "enter" && ui.active == CONTAINER_LISTS {
      assert r == AddListCmd(ui, db, fail);
      AddListCmdKeepsValid(ui, db, fail);
    } else if key == "enter" && ui.active == CONTAINER_TASKS {
      assert r == AddTaskCmd(ui, db, fail);
      if Anchored(ui.containers.tasks) {
        AddTaskCmdKeepsValid(ui, db, fail);
      }
    } else if key == "ctrl+c" || key == "esc" {
      assert r == Step(ui.(mode := ModeList), db, NoMsg);
    } else if ui.active == CONTAINER_LISTS {
      assert r == Step(ui.(addListInput := TextInputUpdate(ui.addListInput, key)), db, NoMsg);
    } else {
      assert r == Step(ui.(addTaskInput := TextInputUpdate(ui.addTaskInput, key)), db, NoMsg);
    }
  }

  /** Every key keeps the cursor discipline, except a list delete (the tasks cursor is not re-clamped)
      and a task add onto a tasks cursor left past the end of an empty pane. */
  lemma HandleKeyMsgPreservesValid(ui: Ui, db: Store, key: string, fail: bool)
    requires Update.Valid(ui)
    ensures var r := HandleKeyMsg(ui, db, key, fail);
      && (!DeletesList(ui, key) && (ConfirmsTaskAdd(ui, key) ==> Anchored(ui.containers.tasks)) ==> Update.Valid(r.ui))
      && (DeletesList(ui, key) ==> (Update.Valid(r.ui) <==> InRange(r.ui.containers.tasks)))
  {
    if ui.mode == ModeAdd {
      AddModeKeyValid(ui, db, key, fail);
    } else {
      ListModeKeyValid(ui, db, key, fail);
    }
  }

  /** From a valid state a key panics exactly when it flips a status with no task shown, or when no
      list is left and the key deletes a list or confirms a non-empty task. */
  lemma HandleKeyMsgPanics(ui: Ui, db: Store, key: string, fail: bool)
    requires Update.Valid(ui)
    ensures HandleKeyMsg(ui, db, key, fail).msg == Panicked <==>
      || (TogglesStatus(ui, key) && |ui.containers.tasks.items| == 0)
      || (|ui.containers.lists.items| == 0 &&
          (DeletesList(ui, key) || (ConfirmsTaskAdd(ui, key) && ui.addTaskInput != "")))
  {
    if ui.mode == ModeAdd {
      AddModeKeyValid(ui, db, key, fail);
    } else {
      ListModeKeyValid(ui, db, key, fail);
    }
  }

  // ---------------------------------------------------------------------------------------------
  // The panes and the store, operation by operation

  lemma {:induction false} ToggleKeepsSync(ui: Ui, db: Store)
    requires Shaped(ui) && Database.Valid(db) && Synced(ui, db)
    requires TaskSelected(ui)
    ensures var r := ToggleTaskStatus(ui, db, false);
      Synced(r.ui, r.db) && Database.Valid(r.db) && r.db.lists == db.lists
  {
    var list := CurrentList(ui).value;
    var owned := TasksOf(db.tasks, list.id);
    var c := ui.containers.tasks.cursor;
    var t := CurrentTask(ui);
    assert t == owned[c];
    var t' := t.(status := Flipped(t.status));
    assert t in db.tasks;
    var k :| 0 <= k < |db.tasks| && db.tasks[k] == t;
    SaveExistingTaskKeepsValid(db, t', k);
    TasksOfAfterReplace(db.tasks, db.nextTaskId, list.id, c, t');
    TaskItemsUpdate(owned, c, t');
  }

  lemma {:induction false} AddTaskKeepsSync(ui: Ui, db: Store)
    requires Shaped(ui) && Database.Valid(db) && Synced(ui, db) && Mirrored(ui, db)
    ensures var r := AddTaskCmd(ui, db, false);
      r.msg != Panicked ==> Synced(r.ui, r.db) && Mirrored(r.ui, r.db) && Database.Valid(r.db)
  {
    if ui.addTaskInput != "" && CurrentList(ui).Some? {
      var list := CurrentList(ui).value;
      var task := NewTask(ui.addTaskInput, "", Ready, list.id);
      assert ListItem(list) in ListItems(db.lists);
      assert list in db.lists;
      CreateTaskKeepsValid(db, task);
      var saved := CreateTask(db, task).0;
      TasksOfAppend(db.tasks, saved, list.id);
      TaskItemsAppend(TasksOf(db.tasks, list.id), saved);
    }
  }

  lemma {:induction false} AddListKeepsSync(ui: Ui, db: Store)
    requires Shaped(ui) && Database.Valid(db) && Synced(ui, db) && Mirrored(ui, db)
    ensures var r := AddListCmd(ui, db, false);
      Synced(r.ui, r.db) && Mirrored(r.ui, r.db) && Database.Valid(r.db)
  {
    if ui.addListInput != "" {
      var list := NewList(ui.addListInput);
      CreateListKeepsValid(db, list);
      var saved := CreateList(db, list).0;
      ListItemsAppend(db.lists, saved);
      if |db.lists| == 0 {
        TasksOfUnusedList(db.tasks, saved.id);
      }
    }
  }

  lemma {:induction false} DeleteTaskKeepsSync(ui: Ui, db: Store)
    requires Shaped(ui) && Database.Valid(db) && Synced(ui, db)
    ensures var r := DeleteTaskCmd(ui, db, false);
      Synced(r.ui, r.db) && Database.Valid(r.db) && r.db.lists == db.lists
  {
    if TaskSelected(ui) {
      var list := CurrentList(ui).value;
      var owned := TasksOf(db.tasks, list.id);
      var c := ui.containers.tasks.cursor;
      DeleteTaskKeepsValid(db, CurrentTask(ui));
      TasksOfAfterDelete(db.tasks, db.nextTaskId, list.id, c);
      TaskItemsSplice(owned, c);
    }
  }

  lemma {:induction false} DeleteListKeepsSync(ui: Ui, db: Store)
    requires Shaped(ui) && Database.Valid(db) && Synced(ui, db) && Mirrored(ui, db)
    requires ui.active == CONTAINER_LISTS
    ensures var r := DeleteListCmd(ui, db, false);
      r.msg != Panicked ==> Synced(r.ui, r.db) && Mirrored(r.ui, r.db) && Database.Valid(r.db)
  {
    var r := DeleteListCmd(ui, db, false);
    if CurrentList(ui).Some? && CurrentList(ui).value.name != DEFAULT_LIST_NAME {
      var c := ui.containers.lists.cursor;
      DeleteListKeepsValid(db, CurrentList(ui).value);
      ListsWithoutAt(db.lists, db.nextListId, c);
      ListItemsSplice(db.lists, c);
    }
  }

  lemma {:induction false} ListModeKeyKeepsSync(ui: Ui, db: Store, key: string, fail: bool)
    requires Shaped(ui) && Database.Valid(db) && Synced(ui, db) && Mirrored(ui, db)
    requires ui.mode == ModeList && !(TogglesStatus(ui, key) && fail)
    ensures var r := HandleListModeKey(ui, db, key, fail);
      && (r.msg != Panicked ==> Synced(r.ui, r.db) && Mirrored(r.ui, r.db) && Database.Valid(r.db))
      && (r.msg == ErrorMsg ==> r.db == db)
  {
    var r := HandleListModeKey(ui, db, key, fail);
    if key == "ctrl+c" || key == "q" {
      assert r == Step(ui, db, QuitMsg);
    } else if key == "up" || key == "k" {
      assert r == Step(HandleUpKey(ui, db), db, NoMsg);
    } else if key == "down" || key == "j" {
      assert r == Step(HandleDownKey(ui, db), db, NoMsg);
    } else if key == "h" || key == "l" {
      assert r == Step(ToggleActiveContainer(ui), db, NoMsg);
    } else if key == "enter" || key == " " || key == "x" {
      assert r == ToggleTaskStatus(ui, db, false);
      if TaskSelected(ui) {
        ToggleKeepsSync(ui, db);
      }
    } else if key == "a" {
      assert r == Step(ui.(mode := ModeAdd), db, NoMsg);
    } else if key == "d" && ui.active == CONTAINER_LISTS {
      assert r == DeleteListCmd(ui, db, fail);
      if !fail {
        DeleteListKeepsSync(ui, db);
      }
    } else if key == "d" {
      assert r == DeleteTaskCmd(ui, db, fail);
      if !fail {
        DeleteTaskKeepsSync(ui, db);
      }
    } else {
      assert r == Step(ui, db, NoMsg);
    }
  }

  lemma {:induction false} AddModeKeyKeepsSync(ui: Ui, db: Store, key: string, fail: bool)
    requires Shaped(ui) && Database.Valid(db) && Synced(ui, db) && Mirrored(ui, db)
    requires ui.mode == ModeAdd
    ensures var r := HandleAddModeKey(ui, db, key, fail);
      && (r.msg != Panicked ==> Synced(r.ui, r.db) && Mirrored(r.ui, r.db) && Database.Valid(r.db))
      && (r.msg == ErrorMsg ==> r.db == db)
  {
    var r := HandleAddModeKey(ui, db, key, fail);
    if key == "enter" && ui.active == CONTAINER_LISTS {
      assert r == AddListCmd(ui, db, fail);
      if !fail {
        AddListKeepsSync(ui, db);
      }
    } else if key == "enter" && ui.active == CONTAINER_TASKS {
      assert r == AddTaskCmd(ui, db, fail);
      if !fail {
        AddTaskKeepsSync(ui, db);
      }
    } else if key == "ctrl+c" || key == "esc" {
      assert r == Step(ui.(mode := ModeList), db, NoMsg);
    } else if ui.active == CONTAINER_LISTS {
      assert r == Step(ui.(addListInput := TextInputUpdate(ui.addListInput, key)), db, NoMsg);
    } else {
      assert r == Step(ui.(addTaskInput := TextInputUpdate(ui.addTaskInput, key)), db, NoMsg);
    }
  }

  /** Every key keeps the focus on a real pane, each pane's kind of item, and the lists cursor in
      range or at 0, whatever the tasks cursor is. */
  lemma ShapedKept(ui: Ui, db: Store, key: string, fail: bool)
    requires Shaped(ui)
    ensures Shaped(HandleKeyMsg(ui, db, key, fail).ui)
  {
    if ui.mode == ModeAdd {
      ShapedKeptAddMode(ui, db, key, fail);
    } else {
      ShapedKeptListMode(ui, db, key, fail);
    }
  }

  lemma ShapedKeptAddMode(ui: Ui, db: Store, key: string, fail: bool)
    requires Shaped(ui)
    ensures Shaped(HandleAddModeKey(ui, db, key, fail).ui)
  {
  }

  lemma ShapedKeptListMode(ui: Ui, db: Store, key: string, fail: bool)
    requires Shaped(ui)
    ensures Shaped(HandleListModeKey(ui, db, key, fail).ui)
  {
    var r := HandleListModeKey(ui, db, key, fail);
    if key == "ctrl+c" || key == "q" {
      assert r == Step(ui, db, QuitMsg);
    } else if key == "up" || key == "k" {
      assert r == Step(HandleUpKey(ui, db), db, NoMsg);
    } else if key == "down" || key == "j" {
      assert r == Step(HandleDownKey(ui, db), db, NoMsg);
    } else if key == "h" || key == "l" {
      assert r == Step(ToggleActiveContainer(ui), db, NoMsg);
    } else if key == "enter" || key == " " || key == "x" {
      assert r == ToggleTaskStatus(ui, db, fail);
    } else if key == "a" {
      assert r == Step(ui.(mode := ModeAdd), db, NoMsg);
    } else if key == "d" && ui.active == CONTAINER_LISTS {
      assert r == DeleteListCmd(ui, db, fail);
    } else if key == "d" {
      assert r == DeleteTaskCmd(ui, db, fail);
    } else {
      assert r == Step(ui, db, NoMsg);
    }
  }

  /** Outside a status flip whose save fails, every key that does not panic keeps the panes equal to
      what the store holds, and keeps the store's keys in order; a failed write leaves the store as
      it was. */
  lemma {:induction false} HandleKeyMsgKeepsStoreInSync(ui: Ui, db: Store, key: string, fail: bool)
    requires Shaped(ui) && Database.Valid(db) && Synced(ui, db) && Mirrored(ui, db)
    requires !(TogglesStatus(ui, key) && fail)
    ensures var r := HandleKeyMsg(ui, db, key, fail);
      && Shaped(r.ui)
      && (r.msg != Panicked ==> Synced(r.ui, r.db) && Mirrored(r.ui, r.db) && Database.Valid(r.db))
      && (r.msg == ErrorMsg ==> r.db == db)
  {
    ShapedKept(ui, db, key, fail);
    if ui.mode == ModeAdd {
      AddModeKeyKeepsSync(ui, db, key, fail);
    } else {
      ListModeKeyKeepsSync(ui, db, key, fail);
    }
  }

  /** A status flip whose save fails still flips the task on screen: the pane and the store disagree
      afterwards. */
  lemma {:induction false} FailedToggleDesyncs(ui: Ui, db: Store, key: string)
    requires Update.Valid(ui) && Synced(ui, db)
    requires TogglesStatus(ui, key) && |ui.containers.tasks.items| > 0
    ensures var r := HandleKeyMsg(ui, db, key, true);
      r.msg == NoMsg && r.db == db && !Synced(r.ui, r.db)
  {
    var r := HandleKeyMsg(ui, db, key, true);
    var c := ui.containers.tasks.cursor;
    assert r.ui.containers.tasks.items[c] != ui.containers.tasks.items[c];
    assert CurrentList(r.ui) == CurrentList(ui);
  }

  // ---------------------------------------------------------------------------------------------
  // Two key sequences that leave the tasks cursor past the end of the tasks pane

  /** Lists "Default" (one task) and "Work" (two tasks), "Work" and its second task selected. */
  function TwoListsStore(): Store
  {
    Store([List(1, DEFAULT_LIST_NAME), List(2, "Work")],
          [Task(1, 1, "a", "", Ready), Task(2, 2, "b", "", Ready), Task(3, 2, "c", "", Ready)], 3, 4)
  }

  function WorkSelected(): Ui
  {
    Ui(Containers(ContainerData([ListItem(List(1, DEFAULT_LIST_NAME)), ListItem(List(2, "Work"))], 1),
                  ContainerData([TaskItem(Task(2, 2, "b", "", Ready)), TaskItem(Task(3, 2, "c", "", Ready))], 1)),
       CONTAINER_LISTS, ModeList, "", "")
  }

  lemma TwoListsTasks()
    ensures TasksOf(TwoListsStore().tasks, 1) == [Task(1, 1, "a", "", Ready)]
  {
    var t1, t2, t3 := Task(1, 1, "a", "", Ready), Task(2, 2, "b", "", Ready), Task(3, 2, "c", "", Ready);
    assert [t1, t2, t3][..2] == [t1, t2] && [t1, t2][..1] == [t1] && [t1][..0] == [];
    assert TasksOf([t1], 1) == [t1];
    assert TasksOf([t1, t2], 1) == [t1];
  }

  lemma TwoListsWorkTasks()
    ensures TasksOf(TwoListsStore().tasks, 2) == [Task(2, 2, "b", "", Ready), Task(3, 2, "c", "", Ready)]
  {
    var t1, t2, t3 := Task(1, 1, "a", "", Ready), Task(2, 2, "b", "", Ready), Task(3, 2, "c", "", Ready);
    assert [t1, t2, t3][..2] == [t1, t2] && [t1, t2][..1] == [t1] && [t1][..0] == [];
    assert TasksOf([t1], 2) == [];
    assert TasksOf([t1, t2], 2) == [t2];
  }

  lemma TwoListsWithoutWork()
    ensures ListsWithout(TwoListsStore().lists, 2) == [List(1, DEFAULT_LIST_NAME)]
  {
    var home, work := List(1, DEFAULT_LIST_NAME), List(2, "Work");
    assert [home, work][..1] == [home] && [home][..0] == [];
    assert ListsWithout([home], 2) == [home];
  }

  lemma TwoListsQueries()
    ensures TasksOf(TwoListsStore().tasks, 1) == [Task(1, 1, "a", "", Ready)]
    ensures TasksOf(TwoListsStore().tasks, 2) == [Task(2, 2, "b", "", Ready), Task(3, 2, "c", "", Ready)]
    ensures ListsWithout(TwoListsStore().lists, 2) == [List(1, DEFAULT_LIST_NAME)]
  {
    TwoListsTasks();
    TwoListsWorkTasks();
    TwoListsWithoutWork();
  }

  /** The starting point is a state the controller keeps: valid, synced and mirrored. */
  lemma WorkSelectedIsConsistent()
    ensures Update.Valid(WorkSelected()) && Database.Valid(TwoListsStore())
    ensures Synced(WorkSelected(), TwoListsStore()) && Mirrored(WorkSelected(), TwoListsStore())
  {
    TwoListsQueries();
    var db := TwoListsStore();
    assert forall i :: 0 <= i < |db.tasks| ==> db.tasks[i].id == i + 1;
    assert forall i :: 0 <= i < |db.lists| ==> db.lists[i].id == i + 1;
  }

  /** The step that deletes "Work": "Default" is left, with its one task shown under a cursor of 1. */
  function WorkDeleted(): Step
  {
    var home := List(1, DEFAULT_LIST_NAME);
    Step(Ui(Containers(ContainerData([ListItem(home)], 0), ContainerData([TaskItem(Task(1, 1, "a", "", Ready))], 1)),
            CONTAINER_LISTS, ModeList, "", ""),
         TwoListsStore().(lists := [home]), DeletedMsg)
  }

  lemma DeleteWorkStep()
    ensures HandleKeyMsg(WorkSelected(), TwoListsStore(), "d", false) == WorkDeleted()
  {
    TwoListsQueries();
    var ui, db := WorkSelected(), TwoListsStore();
    var home, work := List(1, DEFAULT_LIST_NAME), List(2, "Work");
    assert CurrentList(ui) == Some(work);
    assert work.name != DEFAULT_LIST_NAME;
    var db' := DeleteList(db, work);
    assert db'.lists == [home];
    var s := DeleteListCmd(ui, db, false);
    assert s.ui.containers.lists == ContainerData([ListItem(home)], 0);
    assert s.ui.containers.tasks.items == TaskItems(TasksOf(db.tasks, 1));
    assert TaskItems([Task(1, 1, "a", "", Ready)]) == [TaskItem(Task(1, 1, "a", "", Ready))];
    assert HandleKeyMsg(ui, db, "d", false) == s;
  }

  /** Deleting "Work" refills the tasks pane with the one task of "Default" but keeps the tasks
      cursor at 1; the next status flip indexes past the end. */
  lemma DeleteListStrandsTasksCursor()
    ensures var s := HandleKeyMsg(WorkSelected(), TwoListsStore(), "d", false);
      && s.msg == DeletedMsg
      && s.ui.containers.tasks == ContainerData([TaskItem(Task(1, 1, "a", "", Ready))], 1)
      && !Update.Valid(s.ui)
      && HandleKeyMsg(s.ui, s.db, "x", false).msg == Panicked
  {
    DeleteWorkStep();
    WorkDeletedIsStranded();
  }

  /** In the state after the delete the tasks cursor is past the end, so a status flip panics; the
      state is still `Shaped`, so store agreement carries on past it. */
  lemma WorkDeletedIsStranded()
    ensures !Update.Valid(WorkDeleted().ui) && Shaped(WorkDeleted().ui)
    ensures HandleKeyMsg(WorkDeleted().ui, WorkDeleted().db, "x", false).msg == Panicked
  {
    var s := WorkDeleted();
    assert s.ui.containers.tasks.cursor == 1 && |s.ui.containers.tasks.items| == 1;
    assert !TaskSelected(s.ui);
    assert s.ui.mode == ModeList;
    assert HandleListModeKey(s.ui, s.db, "x", false) == ToggleTaskStatus(s.ui, s.db, false);
  }

  /** Lists "Default" (two tasks) and "Work" (no task), "Default" and its second task selected. */
  function EmptyWorkStore(): Store
  {
    Store([List(1, DEFAULT_LIST_NAME), List(2, "Work")], [Task(1, 1, "a", "", Ready), Task(2, 1, "b", "", Ready)], 3, 3)
  }

  function SecondTaskSelected(): Ui
  {
    Ui(Containers(ContainerData([ListItem(List(1, DEFAULT_LIST_NAME)), ListItem(List(2, "Work"))], 0),
                  ContainerData([TaskItem(Task(1, 1, "a", "", Ready)), TaskItem(Task(2, 1, "b", "", Ready))], 1)),
       CONTAINER_LISTS, ModeList, "", "")
  }

  lemma DefaultTasks()
    ensures TasksOf(EmptyWorkStore().tasks, 1) == [Task(1, 1, "a", "", Ready), Task(2, 1, "b", "", Ready)]
  {
    var t1, t2 := Task(1, 1, "a", "", Ready), Task(2, 1, "b", "", Ready);
    TasksOfAppend([], t1, 1);
    assert [] + [t1] == [t1] && [t1] + [t2] == [t1, t2];
    TasksOfAppend([t1], t2, 1);
  }

  lemma EmptyWorkTasks()
    ensures TasksOf(EmptyWorkStore().tasks, 2) == []
    ensures TasksOf(EmptyWorkStore().tasks + [Task(3, 2, "z", "", Ready)], 2) == [Task(3, 2, "z", "", Ready)]
  {
    var t1, t2, t3 := Task(1, 1, "a", "", Ready), Task(2, 1, "b", "", Ready), Task(3, 2, "z", "", Ready);
    TasksOfUnusedList([t1, t2], 2);
    TasksOfAppend([t1, t2], t3, 2);
  }

  /** "Work" selected, the tasks pane empty and its cursor left at 1. */
  function Stranded(): Ui
  {
    Ui(Containers(ContainerData([ListItem(List(1, DEFAULT_LIST_NAME)), ListItem(List(2, "Work"))], 1),
                  ContainerData([], 1)),
       CONTAINER_LISTS, ModeList, "", "")
  }

  /** Moving down to "Work" empties the tasks pane but leaves its cursor at 1: the clamp only acts on
      a non-empty pane. */
  lemma MoveToEmptyList()
    ensures HandleKeyMsg(SecondTaskSelected(), EmptyWorkStore(), "j", false) == Step(Stranded(), EmptyWorkStore(), NoMsg)
    ensures !Anchored(Stranded().containers.tasks)
  {
    EmptyWorkTasks();
    var ui, db := SecondTaskSelected(), EmptyWorkStore();
    assert HandleListModeKey(ui, db, "j", false) == Step(HandleDownKey(ui, db), db, NoMsg);
    assert CurrentList(IncrementCursor(ui)) == Some(List(2, "Work"));
  }

  /** Both states are ones the controller keeps: valid and synced with the store. */
  lemma BeforeAndAfterMoveValid()
    ensures Update.Valid(SecondTaskSelected()) && Update.Valid(Stranded())
  {
    var d := SecondTaskSelected().containers;
    assert d.lists.items[0].ListItem? && d.lists.items[1].ListItem?;
    assert d.tasks.items[0].TaskItem? && d.tasks.items[1].TaskItem?;
  }

  lemma BeforeMoveSynced()
    ensures Synced(SecondTaskSelected(), EmptyWorkStore())
  {
    var t1, t2 := Task(1, 1, "a", "", Ready), Task(2, 1, "b", "", Ready);
    var ui, db := SecondTaskSelected(), EmptyWorkStore();
    assert CurrentList(ui) == Some(List(1, DEFAULT_LIST_NAME));
    calc {
      TaskItems(FindTasksForList(db, CurrentList(ui)));
      TaskItems(TasksOf(db.tasks, 1));
      { DefaultTasks(); }
      TaskItems([t1, t2]);
      [TaskItem(t1), TaskItem(t2)];
      ui.containers.tasks.items;
    }
  }

  lemma AfterMoveSynced()
    ensures Synced(Stranded(), EmptyWorkStore())
  {
    EmptyWorkTasks();
    assert CurrentList(Stranded()) == Some(List(2, "Work"));
    assert TaskItems([]) == [];
  }

  /** Then "l", "a" and "z" focus the tasks pane, enter add mode and type the name. */
  lemma FocusTasksAndType()
    ensures var ui1 := Stranded().(active := CONTAINER_TASKS);
      HandleKeyMsg(Stranded(), EmptyWorkStore(), "l", false) == Step(ui1, EmptyWorkStore(), NoMsg)
    ensures var ui1 := Stranded().(active := CONTAINER_TASKS);
      HandleKeyMsg(ui1, EmptyWorkStore(), "a", false) == Step(ui1.(mode := ModeAdd), EmptyWorkStore(), NoMsg)
    ensures var ui2 := Stranded().(active := CONTAINER_TASKS, mode := ModeAdd);
      HandleKeyMsg(ui2, EmptyWorkStore(), "z", false) == Step(ui2.(addTaskInput := "z"), EmptyWorkStore(), NoMsg)
  {
    var db := EmptyWorkStore();
    assert HandleListModeKey(Stranded(), db, "l", false) == Step(ToggleActiveContainer(Stranded()), db, NoMsg);
    var ui1 := Stranded().(active := CONTAINER_TASKS);
    assert HandleListModeKey(ui1, db, "a", false) == Step(ui1.(mode := ModeAdd), db, NoMsg);
  }

  /** Confirming appends the task under the stranded cursor: the pane holds one task, the cursor is 1,
      and the next status flip indexes past the end. */
  lemma AddUnderStrandedCursor()
    ensures var ui3 := Stranded().(active := CONTAINER_TASKS, mode := ModeAdd, addTaskInput := "z");
      var s := HandleKeyMsg(ui3, EmptyWorkStore(), "enter", false);
      && s.msg == TaskCreatedMsg("Task z created")
      && s.ui.containers.tasks == ContainerData([TaskItem(Task(3, 2, "z", "", Ready))], 1)
      && Synced(s.ui, s.db)
      && !Update.Valid(s.ui)
      && HandleKeyMsg(s.ui, s.db, "x", false).msg == Panicked
  {
    EmptyWorkTasks();
    var db := EmptyWorkStore();
    var ui3 := Stranded().(active := CONTAINER_TASKS, mode := ModeAdd, addTaskInput := "z");
    assert HandleAddModeKey(ui3, db, "enter", false) == AddTaskCmd(ui3, db, false);
    assert CurrentList(ui3) == Some(List(2, "Work"));
    var s := AddTaskCmd(ui3, db, false);
    assert s.db.tasks == db.tasks + [Task(3, 2, "z", "", Ready)];
    assert s.ui.containers.tasks == ContainerData([TaskItem(Task(3, 2, "z", "", Ready))], 1);
    assert s.ui.mode == ModeList;
    assert HandleListModeKey(s.ui, s.db, "x", false) == ToggleTaskStatus(s.ui, s.db, false);
  }
}
