/**
 * The task-list edits both controllers perform: prepend a new task, flip
 * `done` on the tasks with an id, and drop the tasks with an id. Ids are
 * matched with `===`; an unknown id is silently ignored.
 */
module TaskList {
  import opened Constants

  /** `tasks.unshift({ id, text, done: false })`: newest first. */
  function AddTask(tasks: seq<Task>, id: string, text: string): (r: seq<Task>)
    ensures |r| == |tasks| + 1
    ensures r[0] == Task(id, text, false) && r[1..] == tasks
  {
    [Task(id, text, false)] + tasks
  }

  /** One step of the toggle's map: `done` flips exactly on a matching id. */
  function Flip(t: Task, id: string): (r: Task)
    ensures r.id == t.id && r.text == t.text
    ensures r.done != t.done <==> t.id == id
  {
    if t.id == id then t.(done := !t.done) else t
  }

  /** `tasks.map(t => t.id === id ? { ...t, done: !t.done } : t)`. */
  function ToggleTask(tasks: seq<Task>, id: string): (r: seq<Task>)
    ensures |r| == |tasks|
    ensures forall i :: 0 <= i < |tasks| ==>
      r[i].id == tasks[i].id && r[i].text == tasks[i].text &&
      r[i].done == (if tasks[i].id == id then !tasks[i].done else tasks[i].done)
  {
    if tasks == [] then [] else [Flip(tasks[0], id)] + ToggleTask(tasks[1..], id)
  }

  /** `tasks.filter(t => t.id !== id)`. */
  function DeleteTask(tasks: seq<Task>, id: string): (r: seq<Task>)
    ensures |r| <= |tasks|
    ensures forall i :: 0 <= i < |r| ==> r[i].id != id && r[i] in tasks
    ensures forall t :: t in tasks && t.id != id ==> t in r
  {
    if tasks == [] then []
    else if tasks[0].id == id then DeleteTask(tasks[1..], id)
    else [tasks[0]] + DeleteTask(tasks[1..], id)
  }

  predicate HasId(tasks: seq<Task>, id: string)
  {
    exists i :: 0 <= i < |tasks| && tasks[i].id == id
  }

  /** Toggling an id no task has leaves the list equal. */
  lemma ToggleUnknownId(tasks: seq<Task>, id: string)
    requires !HasId(tasks, id)
    ensures ToggleTask(tasks, id) == tasks
  {
    var r := ToggleTask(tasks, id);
    forall i | 0 <= i < |tasks|
      ensures r[i] == tasks[i]
    {
      assert tasks[i].id != id;
    }
  }

  /** Toggling the same id twice restores the list. */
  lemma ToggleTwice(tasks: seq<Task>, id: string)
    ensures ToggleTask(ToggleTask(tasks, id), id) == tasks
  {
    var r := ToggleTask(ToggleTask(tasks, id), id);
    forall i | 0 <= i < |tasks|
      ensures r[i] == tasks[i]
    {
    }
  }

  /** Deleting keeps the order: it distributes over concatenation. */
  lemma {:induction false} DeleteDistributes(a: seq<Task>, b: seq<Task>, id: string)
    ensures DeleteTask(a + b, id) == DeleteTask(a, id) + DeleteTask(b, id)
  {
    if a != [] {
      assert (a + b)[0] == a[0];
      assert (a + b)[1..] == a[1..] + b;
      DeleteDistributes(a[1..], b, id);
    } else {
      assert a + b == b;
    }
  }

  /** Deleting an id no task has leaves the list equal. */
  lemma {:induction false} DeleteUnknownId(tasks: seq<Task>, id: string)
    requires !HasId(tasks, id)
    ensures DeleteTask(tasks, id) == tasks
  {
    if tasks != [] {
      assert tasks[0].id != id;
      DeleteUnknownId(tasks[1..], id);
    }
  }

  /** Adding a task under a fresh id and deleting that id restores the list. */
  lemma AddThenDelete(tasks: seq<Task>, id: string, text: string)
    requires !HasId(tasks, id)
    ensures DeleteTask(AddTask(tasks, id, text), id) == tasks
  {
    var added := AddTask(tasks, id, text);
    assert added[1..] == tasks;
    DeleteUnknownId(tasks, id);
  }

  /** Deleting twice is deleting once. */
  lemma DeleteIdempotent(tasks: seq<Task>, id: string)
    ensures DeleteTask(DeleteTask(tasks, id), id) == DeleteTask(tasks, id)
  {
    var r := DeleteTask(tasks, id);
    assert !HasId(r, id);
    DeleteUnknownId(r, id);
  }
}
