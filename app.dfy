// The `model` struct of model.go and the handlers update.go defines on it, as a class whose methods
// update its fields in place. The two panes are the two entries of the source's container map; the
// store is a field because the handlers read it and write it. Each method is proved to do exactly
// what the matching function of `Update` specifies, so the lemmas of `Invariants` apply to it.

module App {
  import opened TaskStatus
  import opened Database
  import opened Containers
  import opened Update
  import Snapshot
  import Invariants

  class Model {
    var lists: ContainerData      // m.containers[containerLists]
    var tasks: ContainerData      // m.containers[containerTasks]
    var db: Store
    var activeContainer: Container
    var mode: Mode
    var addTaskInput: string      // the value of m.addTaskTi
    var addListInput: string      // the value of m.addListTi

    /** The controller state the `Update` functions speak about. */
    function State(): Ui
      reads this
    {
      Ui(Containers(lists, tasks), activeContainer, mode, addTaskInput, addListInput)
    }

    /** The struct literal of `initialModel`: browsing mode, the lists pane focused, empty inputs. */
    constructor (containers: Containers, store: Store)
      ensures State() == Ui(containers, CONTAINER_LISTS, ModeList, "", "") && db == store
    {
      lists, tasks := containers.lists, containers.tasks;
      db := store;
      activeContainer := CONTAINER_LISTS;
      mode := ModeList;
      addTaskInput, addListInput := "", "";
    }

    /** `decementCursor`. */
    method DecrementCursor()
      modifies this
      ensures State() == Update.DecrementCursor(old(State())) && db == old(db)
    {
      if activeContainer == CONTAINER_LISTS {
        if lists.cursor > 0 {
          lists := lists.(cursor := lists.cursor - 1);
        }
      } else if activeContainer == CONTAINER_TASKS {
        if tasks.cursor > 0 {
          tasks := tasks.(cursor := tasks.cursor - 1);
        }
      }
    }

    /** `incrementCursor`. */
    method IncrementCursor()
      modifies this
      ensures State() == Update.IncrementCursor(old(State())) && db == old(db)
    {
      if activeContainer == CONTAINER_LISTS {
        if lists.cursor < |lists.items| - 1 {
          lists := lists.(cursor := lists.cursor + 1);
        }
      } else if activeContainer == CONTAINER_TASKS {
        if tasks.cursor < |tasks.items| - 1 {
          tasks := tasks.(cursor := tasks.cursor + 1);
        }
      }
    }

    /** `CurrentList`. */
    method CurrentList() returns (list: Option<List>)
      ensures list == Update.CurrentList(State())
      ensures list.Some? ==> ListItem(list.value) in lists.items
    {
      if lists.cursor < |lists.items| {
        var item := lists.items[lists.cursor];
        if item.ListItem? {
          return Some(item.list);
        }
      }
      return None;
    }

    /** `CurrentListItem` (model.go); None stands for the panic. */
    method CurrentListItem() returns (item: Option<Item>)
      ensures item == Update.CurrentListItem(State())
    {
      var c := Lookup(Containers(lists, tasks), activeContainer);
      if c.None? || c.value.cursor >= |c.value.items| {
        return None;
      }
      return Some(c.value.items[c.value.cursor]);
    }

    /** `CurrentTask`: the source indexes and type-asserts without a check. */
    method CurrentTask() returns (task: Task)
      requires TaskSelected(State())
      ensures task == Update.CurrentTask(State())
      ensures TaskItem(task) in tasks.items
    {
      task := tasks.items[tasks.cursor].task;
    }

    /** `updateTasksForCurrentList`: the copy loop, then the clamp. */
    method UpdateTasksForCurrentList()
      modifies this
      ensures State() == Update.UpdateTasksForCurrentList(old(State()), db) && db == old(db)
    {
      var current := CurrentList();
      var found := FindTasksForList(db, current);
      var items := BuildTaskItems(found);
      TaskItemsOf(items, found);
      var cursor := tasks.cursor;
      if |items| > 0 && cursor >= |items| {
        cursor := |items| - 1;
        tasks := tasks.(cursor := cursor);
      }
      tasks := tasks.(items := items);
    }

    /** `updateTasksFromCurrentList` of model.go: the copy loop without the clamp. */
    method UpdateTasksFromCurrentList()
      modifies this
      ensures State() == Snapshot.UpdateTasksFromCurrentList(old(State()), db) && db == old(db)
    {
      var current := CurrentList();
      var found := FindTasksForList(db, current);
      var items := BuildTaskItems(found);
      TaskItemsOf(items, found);
      tasks := tasks.(items := items);
    }

    /** `handleUpKey`. */
    method HandleUpKey()
      modifies this
      ensures State() == Update.HandleUpKey(old(State()), old(db)) && db == old(db)
    {
      if activeContainer == CONTAINER_LISTS {
        DecrementCursor();
        UpdateTasksForCurrentList();
      } else if activeContainer == CONTAINER_TASKS {
        DecrementCursor();
      }
    }

    /** `handleDownKey`. */
    method HandleDownKey()
      modifies this
      ensures State() == Update.HandleDownKey(old(State()), old(db)) && db == old(db)
    {
      if activeContainer == CONTAINER_LISTS {
        IncrementCursor();
        UpdateTasksForCurrentList();
      } else if activeContainer == CONTAINER_TASKS {
        IncrementCursor();
      }
    }

    /** `toggleActiveContainer`. */
    method ToggleActiveContainer()
      modifies this
      ensures State() == Update.ToggleActiveContainer(old(State())) && db == old(db)
    {
      if activeContainer == CONTAINER_LISTS {
        activeContainer := CONTAINER_TASKS;
      } else {
        activeContainer := CONTAINER_LISTS;
      }
    }

    /** `toggleTaskStatus`: the pane and the save share the task, so the flipped task is written back
        into the pane before it is saved; a failed save changes nothing else. */
    method ToggleTaskStatus(fail: bool) returns (msg: Msg)
      modifies this
      ensures var s := Update.ToggleTaskStatus(old(State()), old(db), fail);
        State() == s.ui && db == s.db && msg == s.msg
    {
      if !(tasks.cursor < |tasks.items| && tasks.items[tasks.cursor].TaskItem?) {
        return Panicked;
      }
      var task := CurrentTask();
      if Is(task.status, Done) {
        task := task.(status := InProgress);
      } else {
        task := task.(status := Done);
      }
      tasks := tasks.(items := tasks.items[tasks.cursor := TaskItem(task)]);
      if !fail {
        db := SaveTask(db, task);
      }
      return NoMsg;
    }

    /** `addTaskCmd`, its command run at once. */
    method AddTaskCmd(fail: bool) returns (msg: Msg)
      modifies this
      ensures var s := Update.AddTaskCmd(old(State()), old(db), fail);
        State() == s.ui && db == s.db && msg == s.msg
    {
      var input := addTaskInput;
      if input == "" {
        return NoMsg;
      }
      addTaskInput := "";
      var selectedList := CurrentList();
      if selectedList.None? {
        return Panicked;
      }
      var task := NewTask(input, "", Ready, selectedList.value.id);
      if fail {
        return ErrorMsg;
      }
      var created := CreateTask(db, task);
      db := created.1;
      tasks := tasks.(items := tasks.items + [TaskItem(created.0)]);
      mode := ModeList;
      return TaskCreatedMsg("Task " + created.0.name + " created");
    }

    /** `addListCmd`, its command run at once. */
    method AddListCmd(fail: bool) returns (msg: Msg)
      modifies this
      ensures var s := Update.AddListCmd(old(State()), old(db), fail);
        State() == s.ui && db == s.db && msg == s.msg
    {
      var input := addListInput;
      if input == "" {
        return NoMsg;
      }
      addListInput := "";
      var list := NewList(input);
      if fail {
        return ErrorMsg;
      }
      var created := CreateList(db, list);
      db := created.1;
      lists := lists.(items := lists.items + [ListItem(created.0)]);
      mode := ModeList;
      return NoMsg;
    }

    /** `deleteListCmd`, its command run at once. The source's second look at the cursor and the
        item's type repeats what `CurrentList` has just checked and has no branch here. */
    method DeleteListCmd(fail: bool) returns (msg: Msg)
      modifies this
      ensures var s := Update.DeleteListCmd(old(State()), old(db), fail);
        State() == s.ui && db == s.db && msg == s.msg
    {
      var current := CurrentList();
      if current.None? {
        return Panicked;
      }
      if current.value.name == DEFAULT_LIST_NAME {
        return NoMsg;
      }
      var cursor := lists.cursor;
      if fail {
        return ErrorMsg;
      }
      db := DeleteList(db, current.value);
      lists := lists.(items := RemoveItem(lists.items, cursor));
      if lists.cursor >= |lists.items| && |lists.items| > 0 {
        lists := lists.(cursor := |lists.items| - 1);
      }
      if |lists.items| > 0 {
        var selected := CurrentListItem();
        if selected.None? || !selected.value.ListItem? {
          return Panicked;
        }
        var found := FindTasksForList(db, Some(selected.value.list));
        var items := BuildTaskItems(found);
        TaskItemsOf(items, found);
        tasks := tasks.(items := items);
      } else {
        tasks := tasks.(items := []);
      }
      return DeletedMsg;
    }

    /** `deleteTaskCmd`, its command run at once. */
    method DeleteTaskCmd(fail: bool) returns (msg: Msg)
      modifies this
      ensures var s := Update.DeleteTaskCmd(old(State()), old(db), fail);
        State() == s.ui && db == s.db && msg == s.msg
    {
      var cursor := tasks.cursor;
      if cursor >= |tasks.items| {
        return NoMsg;
      }
      if !tasks.items[cursor].TaskItem? {
        return NoMsg;
      }
      var task := tasks.items[cursor].task;
      if fail {
        return ErrorMsg;
      }
      db := DeleteTask(db, task);
      tasks := tasks.(items := RemoveItem(tasks.items, cursor));
      if tasks.cursor >= |tasks.items| && |tasks.items| > 0 {
        tasks := tasks.(cursor := |tasks.items| - 1);
      }
      return DeletedMsg;
    }

    /** `handleAddModeKey`. */
    method HandleAddModeKey(key: string, fail: bool) returns (msg: Msg)
      modifies this
      ensures var s := Update.HandleAddModeKey(old(State()), old(db), key, fail);
        State() == s.ui && db == s.db && msg == s.msg
    {
      if key == "enter" && activeContainer == CONTAINER_LISTS {
        msg := AddListCmd(fail);
        return;
      } else if key == "enter" && activeContainer == CONTAINER_TASKS {
        msg := AddTaskCmd(fail);
        return;
      } else if key == "ctrl+c" || key == "esc" {
        mode := ModeList;
        return NoMsg;
      }
      if activeContainer == CONTAINER_LISTS {
        addListInput := TextInputUpdate(addListInput, key);
      } else if activeContainer == CONTAINER_TASKS {
        addTaskInput := TextInputUpdate(addTaskInput, key);
      }
      return NoMsg;
    }

    /** `handleListModeKey`. */
    method HandleListModeKey(key: string, fail: bool) returns (msg: Msg)
      modifies this
      ensures var s := Update.HandleListModeKey(old(State()), old(db), key, fail);
        State() == s.ui && db == s.db && msg == s.msg
    {
      if key == "ctrl+c" || key == "q" {
        return QuitMsg;
      } else if key == "up" || key == "k" {
        HandleUpKey();
        return NoMsg;
      } else if key == "down" || key == "j" {
        HandleDownKey();
        return NoMsg;
      } else if key == "h" || key == "l" {
        ToggleActiveContainer();
        return NoMsg;
      } else if key == "enter" || key == " " || key == "x" {
        msg := ToggleTaskStatus(fail);
        return;
      } else if key == "a" {
        if activeContainer == CONTAINER_LISTS || activeContainer == CONTAINER_TASKS {
          mode := ModeAdd;
        }
        return NoMsg;
      } else if key == "d" && activeContainer == CONTAINER_LISTS {
        msg := DeleteListCmd(fail);
        return;
      } else if key == "d" && activeContainer == CONTAINER_TASKS {
        msg := DeleteTaskCmd(fail);
        return;
      }
      return NoMsg;
    }

    /** `handleKeyMsg`. */
    method HandleKeyMsg(key: string, fail: bool) returns (msg: Msg)
      modifies this
      ensures var s := Update.HandleKeyMsg(old(State()), old(db), key, fail);
        State() == s.ui && db == s.db && msg == s.msg
    {
      if mode == ModeAdd {
        msg := HandleAddModeKey(key, fail);
      } else {
        msg := HandleListModeKey(key, fail);
      }
    }
  }

  /** `initialModel`: build the panes (a failed read of the lists ends the program, here `null`) and
      start browsing with the lists pane focused. The result is valid and its tasks pane agrees with
      the store; its lists pane does too unless the "Default" list had to be created and that failed. */
  method InitialModel(store: Store, findFails: bool, createFails: bool) returns (m: Model?)
    ensures m == null <==> findFails
    ensures m != null ==> fresh(m)
    ensures m != null ==>
      && m.mode == ModeList && m.activeContainer == CONTAINER_LISTS
      && m.addTaskInput == "" && m.addListInput == ""
      && m.lists.cursor == 0 && m.tasks.cursor == 0 && |m.lists.items| > 0
      && Update.Valid(m.State()) && Invariants.Synced(m.State(), m.db)
      && (store.lists != [] || !createFails ==> Invariants.Mirrored(m.State(), m.db))
      && (Database.Valid(store) ==> Database.Valid(m.db))
  {
    var fatal, store', containers := NewContainer(store, findFails, createFails);
    if fatal {
      return null;
    }
    m := new Model(containers, store');
    if store.lists == [] && !createFails {
      ListItemsAppend([], containers.lists.items[0].list);
    }
  }
}
