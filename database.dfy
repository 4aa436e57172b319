// The entity store the controller talks to. The GORM/SQLite repository itself is not part of this
// model: the store is a value holding the two tables in primary-key order, each write is a function
// on that value, and whether a write fails is decided by the caller (a `fail` flag).

module Database {
  import opened TaskStatus

  datatype Option<+T> = None | Some(value: T)

  /** A task list: primary key and name (timestamps are only used for rendering and are left out). */
  datatype List = List(id: nat, name: string)

  /** A task, owned by the list whose key is `listId`. */
  datatype Task = Task(id: nat, listId: nat, name: string, description: string, status: Status)

  /** Both tables in key order, and the next key each table hands out. */
  datatype Store = Store(lists: seq<List>, tasks: seq<Task>, nextListId: nat, nextTaskId: nat)

  const DEFAULT_LIST_NAME := "Default"

  /** A list not yet written to the store: its key is zero. */
  function NewList(name: string): List
  {
    List(0, name)
  }

  /** A task not yet written to the store: its key is zero. */
  function NewTask(name: string, description: string, status: Status, listId: nat): Task
  {
    Task(0, listId, name, description, status)
  }

  // ---------------------------------------------------------------------------------------------
  // Key discipline: keys are positive, strictly increasing along a table, and below the next key.

  ghost predicate ListKeysOrdered(ls: seq<List>, next: nat)
  {
    && (forall i, j :: 0 <= i < j < |ls| ==> ls[i].id < ls[j].id)
    && (forall i :: 0 <= i < |ls| ==> 0 < ls[i].id < next)
  }

  ghost predicate TaskKeysOrdered(ts: seq<Task>, next: nat)
  {
    && (forall i, j :: 0 <= i < j < |ts| ==> ts[i].id < ts[j].id)
    && (forall i :: 0 <= i < |ts| ==> 0 < ts[i].id < next)
  }

  /** Keys are in order and every task names a list key that has been handed out. */
  ghost predicate Valid(s: Store)
  {
    && 0 < s.nextListId && 0 < s.nextTaskId
    && ListKeysOrdered(s.lists, s.nextListId)
    && TaskKeysOrdered(s.tasks, s.nextTaskId)
    && (forall i :: 0 <= i < |s.tasks| ==> s.tasks[i].listId < s.nextListId)
  }

  // ---------------------------------------------------------------------------------------------
  // Queries

  /** The tasks of `ts` owned by list `listId`, in table order. */
  function TasksOf(ts: seq<Task>, listId: nat): (r: seq<Task>)
    ensures forall t :: t in r <==> t in ts && t.listId == listId
    ensures |r| <= |ts|
  {
    if ts == [] then []
    else
      var n := |ts| - 1;
      assert ts == ts[..n] + [ts[n]];
      var init := TasksOf(ts[..n], listId);
      if ts[n].listId == listId then init + [ts[n]] else init
  }

  /** `FindTasksForList`: the tasks whose list key is the given list's. The source's query is not
      shown; for a nil list this model returns no tasks. */
  function FindTasksForList(s: Store, list: Option<List>): (r: seq<Task>)
    ensures list.None? ==> r == []
    ensures list.Some? ==> forall t :: t in r <==> t in s.tasks && t.listId == list.value.id
  {
    match list
    case None => []
    case Some(l) => TasksOf(s.tasks, l.id)
  }

  // ---------------------------------------------------------------------------------------------
  // Writes. Each is the effect of a successful write; the callers model failure.

  /** Insert a list under the next key; returns the saved list and the new store. */
  function CreateList(s: Store, l: List): (List, Store)
  {
    var saved := l.(id := s.nextListId);
    (saved, s.(lists := s.lists + [saved], nextListId := s.nextListId + 1))
  }

  /** Insert a task under the next key; returns the saved task and the new store. */
  function CreateTask(s: Store, t: Task): (Task, Store)
  {
    var saved := t.(id := s.nextTaskId);
    (saved, s.(tasks := s.tasks + [saved], nextTaskId := s.nextTaskId + 1))
  }

  // The two tables get their own removal functions (and their own ordering and absence lemmas)
  // because `List` and `Task` share no key field Dafny can abstract over without a key-function
  // parameter, which would put a higher-order term into every store proof.

  /** `ls` with every row whose key is `id` removed. */
  function ListsWithout(ls: seq<List>, id: nat): (r: seq<List>)
    ensures forall l :: l in r <==> l in ls && l.id != id
  {
    if ls == [] then []
    else
      var n := |ls| - 1;
      assert ls == ls[..n] + [ls[n]];
      var init := ListsWithout(ls[..n], id);
      if ls[n].id == id then init else init + [ls[n]]
  }

  /** `ts` with every row whose key is `id` removed. */
  function TasksWithout(ts: seq<Task>, id: nat): (r: seq<Task>)
    ensures forall t :: t in r <==> t in ts && t.id != id
  {
    if ts == [] then []
    else
      var n := |ts| - 1;
      assert ts == ts[..n] + [ts[n]];
      var init := TasksWithout(ts[..n], id);
      if ts[n].id == id then init else init + [ts[n]]
  }

  /** `ts` with the row whose key is `t.id` overwritten by `t`. */
  function TasksReplaced(ts: seq<Task>, t: Task): (r: seq<Task>)
    ensures |r| == |ts|
  {
    if ts == [] then []
    else
      var n := |ts| - 1;
      TasksReplaced(ts[..n], t) + [if ts[n].id == t.id then t else ts[n]]
  }

  /** `Delete(list)`: the row with the list's key is gone (its tasks are not touched). */
  function DeleteList(s: Store, l: List): Store
  {
    s.(lists := ListsWithout(s.lists, l.id))
  }

  /** `Delete(task)`: the row with the task's key is gone. */
  function DeleteTask(s: Store, t: Task): Store
  {
    s.(tasks := TasksWithout(s.tasks, t.id))
  }

  /** `Save(task)`: update the row with the task's key, or insert the task when no row has it. */
  function SaveTask(s: Store, t: Task): Store
  {
    if exists k :: 0 <= k < |s.tasks| && s.tasks[k].id == t.id then s.(tasks := TasksReplaced(s.tasks, t))
    else s.(tasks := s.tasks + [t])
  }

  // ---------------------------------------------------------------------------------------------
  // Writes keep the key discipline.

  lemma CreateListKeepsValid(s: Store, l: List)
    requires Valid(s)
    ensures Valid(CreateList(s, l).1)
    ensures CreateList(s, l).0.id == s.nextListId && CreateList(s, l).0.name == l.name
  {
  }

  lemma CreateTaskKeepsValid(s: Store, t: Task)
    requires Valid(s)
    requires t.listId < s.nextListId
    ensures Valid(CreateTask(s, t).1)
  {
  }

  lemma {:induction false} ListsWithoutOrdered(ls: seq<List>, id: nat, next: nat)
    requires ListKeysOrdered(ls, next)
    ensures ListKeysOrdered(ListsWithout(ls, id), next)
  {
    if ls != [] {
      var n := |ls| - 1;
      ListsWithoutOrdered(ls[..n], id, next);
      var init := ListsWithout(ls[..n], id);
      forall i | 0 <= i < |init|
        ensures init[i].id < ls[n].id
      {
        assert init[i] in init;
        var k :| 0 <= k < n && ls[..n][k] == init[i];
      }
    }
  }

  lemma {:induction false} TasksWithoutOrdered(ts: seq<Task>, id: nat, next: nat)
    requires TaskKeysOrdered(ts, next)
    ensures TaskKeysOrdered(TasksWithout(ts, id), next)
  {
    if ts != [] {
      var n := |ts| - 1;
      TasksWithoutOrdered(ts[..n], id, next);
      var init := TasksWithout(ts[..n], id);
      forall i | 0 <= i < |init|
        ensures init[i].id < ts[n].id
      {
        assert init[i] in init;
        var k :| 0 <= k < n && ts[..n][k] == init[i];
      }
    }
  }

  lemma DeleteListKeepsValid(s: Store, l: List)
    requires Valid(s)
    ensures Valid(DeleteList(s, l))
  {
    ListsWithoutOrdered(s.lists, l.id, s.nextListId);
  }

  lemma DeleteTaskKeepsValid(s: Store, t: Task)
    requires Valid(s)
    ensures Valid(DeleteTask(s, t))
  {
    TasksWithoutOrdered(s.tasks, t.id, s.nextTaskId);
    var r := TasksWithout(s.tasks, t.id);
    forall i | 0 <= i < |r|
      ensures r[i].listId < s.nextListId
    {
      assert r[i] in r;
    }
  }

  /** Only the row with the task's key changes. */
  lemma {:induction false} TasksReplacedAt(ts: seq<Task>, t: Task)
    ensures forall k :: 0 <= k < |ts| ==> TasksReplaced(ts, t)[k] == if ts[k].id == t.id then t else ts[k]
  {
    if ts != [] {
      TasksReplacedAt(ts[..|ts| - 1], t);
    }
  }

  /** Overwriting an existing row with one of the same owner-list discipline keeps the store valid. */
  lemma SaveExistingTaskKeepsValid(s: Store, t: Task, k: nat)
    requires Valid(s)
    requires k < |s.tasks| && s.tasks[k].id == t.id
    requires t.listId < s.nextListId
    ensures SaveTask(s, t) == s.(tasks := TasksReplaced(s.tasks, t))
    ensures Valid(SaveTask(s, t))
  {
    TasksReplacedAt(s.tasks, t);
  }

  // ---------------------------------------------------------------------------------------------
  // How the query sees each write.

  lemma TasksOfAppend(ts: seq<Task>, t: Task, listId: nat)
    ensures TasksOf(ts + [t], listId) == TasksOf(ts, listId) + (if t.listId == listId then [t] else [])
  {
    assert (ts + [t])[..|ts|] == ts;
  }

  /** A list key no task refers to has no tasks. */
  lemma TasksOfUnusedList(ts: seq<Task>, listId: nat)
    requires forall i :: 0 <= i < |ts| ==> ts[i].listId != listId
    ensures TasksOf(ts, listId) == []
  {
  }

  lemma {:induction false} TasksWithoutAbsent(ts: seq<Task>, id: nat)
    requires forall i :: 0 <= i < |ts| ==> ts[i].id != id
    ensures TasksWithout(ts, id) == ts
  {
    if ts != [] {
      var n := |ts| - 1;
      TasksWithoutAbsent(ts[..n], id);
      assert ts == ts[..n] + [ts[n]];
    }
  }

  lemma {:induction false} TasksReplacedAbsent(ts: seq<Task>, t: Task)
    requires forall i :: 0 <= i < |ts| ==> ts[i].id != t.id
    ensures TasksReplaced(ts, t) == ts
  {
    if ts != [] {
      var n := |ts| - 1;
      TasksReplacedAbsent(ts[..n], t);
      assert ts == ts[..n] + [ts[n]];
    }
  }

  /** Deleting the task at position `c` of a list's tasks removes exactly that position from the
      list's tasks. */
  lemma {:induction false} TasksOfAfterDelete(ts: seq<Task>, next: nat, listId: nat, c: nat)
    requires TaskKeysOrdered(ts, next)
    requires c < |TasksOf(ts, listId)|
    ensures var owned := TasksOf(ts, listId);
      TasksOf(TasksWithout(ts, owned[c].id), listId) == owned[..c] + owned[c + 1..]
  {
    var owned := TasksOf(ts, listId);
    var x := owned[c];
    var n := |ts| - 1;
    var init, last := ts[..n], ts[n];
    assert ts == init + [last];
    assert TaskKeysOrdered(init, next);
    var ownedInit := TasksOf(init, listId);
    assert x in owned;
    if last.listId == listId && c == |ownedInit| {
      assert x == last;
      TasksWithoutAbsent(init, x.id);
      assert owned[..c] + owned[c + 1..] == ownedInit;
    } else {
      assert x in ownedInit by {
        if last.listId == listId {
          assert owned == ownedInit + [last];
          assert x == ownedInit[c];
        } else {
          assert owned == ownedInit;
        }
      }
      var k :| 0 <= k < n && init[k] == x;
      assert x.id != last.id;
      TasksOfAfterDelete(init, next, listId, c);
      var rest := TasksWithout(init, x.id);
      assert TasksWithout(ts, x.id) == rest + [last];
      TasksOfAppend(rest, last, listId);
      if last.listId == listId {
        assert owned == ownedInit + [last];
        SpliceBeforeLast(ownedInit, last, c);
      }
    }
  }

  /** Overwriting the task at position `c` of a list's tasks (same key, same owner) overwrites exactly
      that position of the list's tasks. */
  lemma {:induction false} TasksOfAfterReplace(ts: seq<Task>, next: nat, listId: nat, c: nat, t: Task)
    requires TaskKeysOrdered(ts, next)
    requires c < |TasksOf(ts, listId)|
    requires t.id == TasksOf(ts, listId)[c].id && t.listId == listId
    ensures TasksOf(TasksReplaced(ts, t), listId) == TasksOf(ts, listId)[c := t]
  {
    var n := |ts| - 1;
    var init, last := ts[..n], ts[n];
    assert ts == init + [last];
    assert TaskKeysOrdered(init, next);
    TasksOfAppend(init, last, listId);
    var ownedInit := TasksOf(init, listId);
    if last.listId == listId && c == |ownedInit| {
      ReplaceOwnedLast(init, last, next, listId, t);
    } else {
      assert c < |ownedInit| && ownedInit[c] == TasksOf(ts, listId)[c];
      TasksOfAfterReplace(init, next, listId, c, t);
      ReplaceBeforeLast(init, last, next, listId, c, t);
    }
  }

  /** The step of `TasksOfAfterReplace` where the overwritten task is the last row. */
  lemma ReplaceOwnedLast(init: seq<Task>, last: Task, next: nat, listId: nat, t: Task)
    requires TaskKeysOrdered(init + [last], next)
    requires last.listId == listId && t.id == last.id && t.listId == listId
    ensures TasksOf(TasksReplaced(init + [last], t), listId) == TasksOf(init + [last], listId)[|TasksOf(init, listId)| := t]
  {
    var ts := init + [last];
    assert ts[..|init|] == init;
    ReplacedLast(init, last, next, t);
    assert TasksReplaced(ts, t) == init + [t];
    TasksOfAppend(init, t, listId);
    TasksOfAppend(init, last, listId);
  }

  /** The step of `TasksOfAfterReplace` where the overwritten task comes before the last row. */
  lemma ReplaceBeforeLast(init: seq<Task>, last: Task, next: nat, listId: nat, c: nat, t: Task)
    requires TaskKeysOrdered(init + [last], next)
    requires c < |TasksOf(init, listId)| && t.id == TasksOf(init, listId)[c].id
    requires TasksOf(TasksReplaced(init, t), listId) == TasksOf(init, listId)[c := t]
    ensures TasksOf(TasksReplaced(init + [last], t), listId) == TasksOf(init + [last], listId)[c := t]
  {
    var ts := init + [last];
    var ownedInit := TasksOf(init, listId);
    var replacedInit := TasksReplaced(init, t);
    KeyBeforeLast(init, last, next, listId, c);
    assert ts[..|init|] == init;
    assert TasksReplaced(ts, t) == replacedInit + [last];
    TasksOfAppend(init, last, listId);
    TasksOfAppend(replacedInit, last, listId);
    if last.listId == listId {
      UpdateBeforeLast(ownedInit, last, c, t);
    }
  }

  /** With keys in order, overwriting the last row leaves the rows before it alone. */
  lemma ReplacedLast(init: seq<Task>, last: Task, next: nat, t: Task)
    requires TaskKeysOrdered(init + [last], next)
    requires t.id == last.id
    ensures TasksReplaced(init, t) == init
  {
    var ts := init + [last];
    assert forall i :: 0 <= i < |init| ==> init[i] == ts[i] && ts[i].id < ts[|init|].id;
    TasksReplacedAbsent(init, t);
  }

  /** With keys in order, every task of a list before the last row has a smaller key than that row. */
  lemma KeyBeforeLast(init: seq<Task>, last: Task, next: nat, listId: nat, c: nat)
    requires TaskKeysOrdered(init + [last], next)
    requires c < |TasksOf(init, listId)|
    ensures TasksOf(init, listId)[c].id < last.id
  {
    var x := TasksOf(init, listId)[c];
    assert x in init;
    var k :| 0 <= k < |init| && init[k] == x;
    assert (init + [last])[k] == x && (init + [last])[|init|] == last;
  }

  /** Splicing out a position before an appended element commutes with the append. */
  lemma SpliceBeforeLast<T>(a: seq<T>, x: T, c: nat)
    requires c < |a|
    ensures (a + [x])[..c] + (a + [x])[c + 1..] == a[..c] + a[c + 1..] + [x]
  {
    assert (a + [x])[..c] == a[..c];
    assert (a + [x])[c + 1..] == a[c + 1..] + [x];
  }

  /** Overwriting a position before an appended element commutes with the append. */
  lemma UpdateBeforeLast<T>(a: seq<T>, x: T, c: nat, y: T)
    requires c < |a|
    ensures (a + [x])[c := y] == a[c := y] + [x]
  {
  }

  lemma {:induction false} ListsWithoutAbsent(ls: seq<List>, id: nat)
    requires forall i :: 0 <= i < |ls| ==> ls[i].id != id
    ensures ListsWithout(ls, id) == ls
  {
    if ls != [] {
      var n := |ls| - 1;
      ListsWithoutAbsent(ls[..n], id);
      assert ls == ls[..n] + [ls[n]];
    }
  }

  /** Deleting the list at position `c` of the lists table removes exactly that position. */
  lemma {:induction false} ListsWithoutAt(ls: seq<List>, next: nat, c: nat)
    requires ListKeysOrdered(ls, next)
    requires c < |ls|
    ensures ListsWithout(ls, ls[c].id) == ls[..c] + ls[c + 1..]
  {
    var n := |ls| - 1;
    var init, last := ls[..n], ls[n];
    assert ls == init + [last];
    if c == n {
      ListsWithoutAbsent(init, last.id);
    } else {
      ListsWithoutAt(init, next, c);
      assert ls[c] == init[c];
      SpliceBeforeLast(init, last, c);
    }
  }
}
