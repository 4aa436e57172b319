// container.go: the two cursor-addressed panes and their construction at startup.

module Containers {
  import opened Database

  /** `Container` is an unsigned integer in the source; two values name the panes. */
  type Container = nat

  const CONTAINER_LISTS: Container := 0
  const CONTAINER_TASKS: Container := 1

  /** `Container.String`. */
  function String(c: Container): string
  {
    if c == CONTAINER_LISTS then "List"
    else if c == CONTAINER_TASKS then "Task"
    else ""
  }

  lemma StringNames(c: Container)
    ensures String(CONTAINER_LISTS) == "List" && String(CONTAINER_TASKS) == "Task"
    ensures c != CONTAINER_LISTS && c != CONTAINER_TASKS ==> String(c) == ""
  {
  }

  /** The source's `Item` interface, as the two kinds of value the panes hold. */
  datatype Item = ListItem(list: List) | TaskItem(task: Task)

  /** `ContainerData`: the items of a pane and the index of the selected one. Every assignment the
      source makes to a cursor is guarded so that it never becomes negative, hence `nat`. */
  datatype ContainerData = ContainerData(items: seq<Item>, cursor: nat)

  /** The source's `map[Container]*ContainerData`. It is built with exactly these two keys and no key
      is ever added or removed. */
  datatype Containers = Containers(lists: ContainerData, tasks: ContainerData)

  /** The lookup `m.containers[c]` together with its `ok` flag. */
  function Lookup(cs: Containers, c: Container): (r: Option<ContainerData>)
  {
    if c == CONTAINER_LISTS then Some(cs.lists)
    else if c == CONTAINER_TASKS then Some(cs.tasks)
    else None
  }

  /** `Container.CurrentItem`: the selected item of pane `c`; the source indexes without a check. */
  function CurrentItem(cs: Containers, c: Container): (r: Item)
    requires Lookup(cs, c).Some?
    requires Lookup(cs, c).value.cursor < |Lookup(cs, c).value.items|
    ensures r in Lookup(cs, c).value.items
  {
    var d := Lookup(cs, c).value;
    d.items[d.cursor]
  }

  predicate AllLists(items: seq<Item>)
  {
    forall k :: 0 <= k < |items| ==> items[k].ListItem?
  }

  predicate AllTasks(items: seq<Item>)
  {
    forall k :: 0 <= k < |items| ==> items[k].TaskItem?
  }

  /** One list item per list, in order. */
  function ListItems(ls: seq<List>): seq<Item>
  {
    seq(|ls|, k requires 0 <= k < |ls| => ListItem(ls[k]))
  }

  /** One task item per task, in order. */
  function TaskItems(ts: seq<Task>): seq<Item>
  {
    seq(|ts|, k requires 0 <= k < |ts| => TaskItem(ts[k]))
  }

  /** The append loop over the lists. */
  method BuildListItems(ls: seq<List>) returns (items: seq<Item>)
    ensures |items| == |ls| && AllLists(items)
    ensures forall k :: 0 <= k < |ls| ==> items[k].list == ls[k]
  {
    items := [];
    var i := 0;
    while i < |ls|
      invariant 0 <= i <= |ls|
      invariant |items| == i && AllLists(items)
      invariant forall k :: 0 <= k < i ==> items[k].list == ls[k]
    {
      items := items + [ListItem(ls[i])];
      i := i + 1;
    }
  }

  /** The copy loop over the tasks. */
  method BuildTaskItems(ts: seq<Task>) returns (items: seq<Item>)
    ensures |items| == |ts| && AllTasks(items)
    ensures forall k :: 0 <= k < |ts| ==> items[k].task == ts[k]
  {
    items := [];
    var i := 0;
    while i < |ts|
      invariant 0 <= i <= |ts|
      invariant |items| == i && AllTasks(items)
      invariant forall k :: 0 <= k < i ==> items[k].task == ts[k]
    {
      items := items + [TaskItem(ts[i])];
      i := i + 1;
    }
  }

  lemma ListItemsOf(items: seq<Item>, ls: seq<List>)
    requires |items| == |ls| && AllLists(items)
    requires forall k :: 0 <= k < |ls| ==> items[k].list == ls[k]
    ensures items == ListItems(ls)
  {
  }

  lemma TaskItemsOf(items: seq<Item>, ts: seq<Task>)
    requires |items| == |ts| && AllTasks(items)
    requires forall k :: 0 <= k < |ts| ==> items[k].task == ts[k]
    ensures items == TaskItems(ts)
  {
  }

  lemma ListItemsAppend(ls: seq<List>, l: List)
    ensures ListItems(ls + [l]) == ListItems(ls) + [ListItem(l)]
  {
  }

  lemma TaskItemsAppend(ts: seq<Task>, t: Task)
    ensures TaskItems(ts + [t]) == TaskItems(ts) + [TaskItem(t)]
  {
  }

  lemma ListItemsSplice(ls: seq<List>, c: nat)
    requires c < |ls|
    ensures ListItems(ls[..c] + ls[c + 1..]) == ListItems(ls)[..c] + ListItems(ls)[c + 1..]
  {
  }

  lemma TaskItemsSplice(ts: seq<Task>, c: nat)
    requires c < |ts|
    ensures TaskItems(ts[..c] + ts[c + 1..]) == TaskItems(ts)[..c] + TaskItems(ts)[c + 1..]
  {
  }

  lemma TaskItemsUpdate(ts: seq<Task>, c: nat, t: Task)
    requires c < |ts|
    ensures TaskItems(ts[c := t]) == TaskItems(ts)[c := TaskItem(t)]
  {
  }

  /** `NewContainer`: read every list (a failed read is fatal), create the "Default" list when there
      is none, and build both panes with their cursors at 0; the tasks pane shows the first list's
      tasks. A failed create of "Default" is ignored by the source. */
  method NewContainer(db: Store, findFails: bool, createFails: bool)
    returns (fatal: bool, db': Store, cs: Containers)
    ensures fatal <==> findFails
    ensures fatal ==> db' == db
    ensures !fatal ==> cs.lists.cursor == 0 && cs.tasks.cursor == 0
    ensures !fatal ==> AllLists(cs.lists.items) && AllTasks(cs.tasks.items) && |cs.lists.items| > 0
    ensures !fatal && db.lists != [] ==> db' == db && cs.lists.items == ListItems(db.lists)
    ensures !fatal && db.lists == [] ==>
      |cs.lists.items| == 1 && cs.lists.items[0].list.name == DEFAULT_LIST_NAME
    ensures !fatal && db.lists == [] && createFails ==> db' == db
    ensures !fatal && db.lists == [] && !createFails ==>
      && db'.lists == [cs.lists.items[0].list] && db'.tasks == db.tasks
      && cs.lists.items[0].list.id == db.nextListId
    ensures !fatal ==>
      cs.tasks.items == TaskItems(FindTasksForList(db', Some(cs.lists.items[0].list)))
    ensures !fatal && Valid(db) ==> Valid(db')
  {
    if findFails {
      return true, db, Containers(ContainerData([], 0), ContainerData([], 0));
    }
    var lists := db.lists;
    db' := db;
    if |lists| == 0 {
      lists := [NewList(DEFAULT_LIST_NAME)];
      if !createFails {
        var saved, db1 := CreateList(db, lists[0]).0, CreateList(db, lists[0]).1;
        if Valid(db) {
          CreateListKeepsValid(db, lists[0]);
        }
        lists, db' := [saved], db1;
      }
    }
    var tasks := FindTasksForList(db', Some(lists[0]));
    var listItems := BuildListItems(lists);
    var taskItems := BuildTaskItems(tasks);
    ListItemsOf(listItems, lists);
    TaskItemsOf(taskItems, tasks);
    cs := Containers(ContainerData(listItems, 0), ContainerData(taskItems, 0));
    fatal := false;
  }
}
