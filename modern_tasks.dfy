/**
 * The dock's task panel (src/components/ModernTasks.tsx): timestamped tasks with
 * in-place editing, persisted under `edge-homepage-tasks`, and an expand flag
 * driven by the page's `expandPanel` event.
 */
module ModernTasks {
  import opened Wrappers
  import opened Storage
  import opened Text
  import opened Lists

  const Key := "edge-homepage-tasks"

  datatype Task = Task(id: string, text: string, completed: bool, createdAt: int)

  function TaskId(t: Task): string { t.id }

  function Encode(t: Task): Record {
    map["id" := Str(t.id), "text" := Str(t.text), "completed" := Bool(t.completed), "createdAt" := Num(t.createdAt)]
  }

  function Decode(r: Record): Option<Task> {
    match (GetStr(r, "id"), GetStr(r, "text"), GetBool(r, "completed"), GetNum(r, "createdAt"))
    case (Some(id), Some(text), Some(completed), Some(createdAt)) => Some(Task(id, text, completed, createdAt))
    case _ => None
  }

  lemma DecodeEncode()
    ensures forall t :: Decode(Encode(t)) == Some(t)
  {
    forall t: Task ensures Decode(Encode(t)) == Some(t) {
      var r := Encode(t);
      assert GetStr(r, "id") == Some(t.id) && GetStr(r, "text") == Some(t.text);
      assert GetBool(r, "completed") == Some(t.completed) && GetNum(r, "createdAt") == Some(t.createdAt);
    }
  }

  /** What the next page load reads back from a store the panel has written. */
  lemma Reload(items: map<string, Value>, tasks: seq<Task>)
    requires Key in items && items[Key] == Records(EncodeList(tasks, Encode))
    ensures LoadList(items, Key, Decode, []) == tasks
  {
    DecodeEncode();
    LoadAfterSave(items, Key, tasks, Encode, Decode, []);
    assert items[Key := Records(EncodeList(tasks, Encode))] == items;
  }

  /** `addTask`: whitespace-only text adds nothing; otherwise one open task with the trimmed text goes at the end. */
  function Add(tasks: seq<Task>, input: string, now: nat): (r: seq<Task>)
    ensures AllWhitespace(input) ==> r == tasks
    ensures !AllWhitespace(input) ==> |r| == |tasks| + 1 && r[..|tasks|] == tasks
    ensures !AllWhitespace(input) ==> r[|tasks|] == Task(NatToString(now), Trim(input), false, now)
  {
    TrimEmptyIffBlank(input);
    if Trim(input) != "" then tasks + [Task(NatToString(now), Trim(input), false, now)] else tasks
  }

  function Flip(t: Task): Task { t.(completed := !t.completed) }

  /** `toggleTaskCompletion`: only tasks with the id change, and only in `completed`. */
  function Toggle(tasks: seq<Task>, id: string): (r: seq<Task>)
    ensures |r| == |tasks|
    ensures forall i :: 0 <= i < |tasks| ==>
      r[i] == if tasks[i].id == id then tasks[i].(completed := !tasks[i].completed) else tasks[i]
  {
    UpdateWhere(tasks, TaskId, id, Flip)
  }

  /** Toggling the same id twice restores the list. */
  lemma ToggleTwice(tasks: seq<Task>, id: string)
    ensures Toggle(Toggle(tasks, id), id) == tasks
  {
    UpdateTwice(tasks, TaskId, id, Flip);
  }

  /**
   * `saveEdit`: acts only when a (non-empty) id is being edited and the edit text
   * is not blank; then the tasks with that id take the trimmed text and nothing
   * else changes. `None` means the call does nothing.
   */
  function SaveEdit(tasks: seq<Task>, editing: Option<string>, editText: string): (r: Option<seq<Task>>)
    ensures r.Some? <==> editing.Some? && editing.value != "" && !AllWhitespace(editText)
    ensures r.Some? ==> |r.value| == |tasks|
    ensures r.Some? ==> forall i :: 0 <= i < |tasks| ==>
      r.value[i] == if tasks[i].id == editing.value then tasks[i].(text := Trim(editText)) else tasks[i]
  {
    TrimEmptyIffBlank(editText);
    if editing.Some? && editing.value != "" && Trim(editText) != "" then
      Some(UpdateWhere(tasks, TaskId, editing.value, (t: Task) => t.(text := Trim(editText))))
    else None
  }

  /** `deleteTask`: exactly the tasks with another id remain. */
  function Delete(tasks: seq<Task>, id: string): (r: seq<Task>)
    ensures forall t :: t in r <==> t in tasks && t.id != id
  {
    Without(tasks, TaskId, id)
  }

  /** Deleting keeps the survivors in their order: deleting from a concatenation deletes from each part. */
  lemma DeleteKeepsOrder(a: seq<Task>, b: seq<Task>, id: string)
    ensures Delete(a + b, id) == Delete(a, id) + Delete(b, id)
  {
    WithoutAppend(a, b, TaskId, id);
  }

  /**
   * The `expandPanel` handler: 'tasks' toggles, 'none' closes, and every other
   * category leaves the panel as it was.
   */
  function ExpandedAfter(expanded: bool, category: string): (r: bool)
    ensures category == "tasks" ==> r != expanded
    ensures category == "none" ==> !r
    ensures category != "tasks" && category != "none" ==> r == expanded
  {
    if category == "tasks" then !expanded
    else if category == "none" then false
    else expanded
  }

  /** The panel stays open while a tool panel opens: it is not part of the exclusive group. */
  lemma NotExclusive(category: string)
    requires category != "tasks" && category != "none"
    ensures ExpandedAfter(true, category)
  {
  }

  class Panel {
    var isExpanded: bool
    var tasks: seq<Task>
    var newTaskText: string
    var editingTaskId: Option<string>
    var editText: string
    const store: Store

    ghost predicate Persisted()
      reads this, store
    {
      store.items == store.items[Key := Records(EncodeList(tasks, Encode))]
    }

    /** Mount: closed, the stored list or [], no edit in progress; the save effect writes the list. */
    constructor (store: Store)
      modifies store
      ensures this.store == store && !isExpanded && newTaskText == "" && editingTaskId == None && editText == ""
      ensures tasks == LoadList(old(store.items), Key, Decode, [])
      ensures store.items == old(store.items)[Key := Records(EncodeList(tasks, Encode))]
      ensures Persisted()
    {
      this.store := store;
      isExpanded := false;
      tasks := LoadList(store.items, Key, Decode, []);
      newTaskText := "";
      editingTaskId := None;
      editText := "";
      new;
      store.Set(Key, Records(EncodeList(tasks, Encode)));
    }

    method Persist()
      modifies store
      ensures store.items == old(store.items)[Key := Records(EncodeList(tasks, Encode))]
      ensures Persisted()
    {
      store.Set(Key, Records(EncodeList(tasks, Encode)));
    }

    method HandlePanelExpand(category: string)
      modifies this`isExpanded
      ensures isExpanded == ExpandedAfter(old(isExpanded), category)
    {
      if category == "tasks" {
        isExpanded := !isExpanded;
      } else if category == "none" {
        isExpanded := false;
      }
    }

    /** The panel's round button flips the flag. */
    method ToggleButton()
      modifies this`isExpanded
      ensures isExpanded == !old(isExpanded)
    {
      isExpanded := !isExpanded;
    }

    /** The prop-sync effect: an `isOpen` prop, when given, overrides the panel's own flag. */
    method SyncOpen(propIsOpen: Option<bool>)
      modifies this`isExpanded
      ensures isExpanded == if propIsOpen.Some? then propIsOpen.value else old(isExpanded)
    {
      if propIsOpen.Some? {
        isExpanded := propIsOpen.value;
      }
    }

    /**
     * The panel's close button. The closing effect then calls the page's
     * `onClose` (reported here) when the page holds the panel open by its prop.
     */
    method Close(propIsOpen: Option<bool>, hasOnClose: bool) returns (callsOnClose: bool)
      modifies this`isExpanded
      ensures !isExpanded
      ensures callsOnClose <==> hasOnClose && propIsOpen == Some(true)
    {
      isExpanded := false;
      callsOnClose := hasOnClose && propIsOpen == Some(true);
    }

    method AddTask(now: nat)
      requires Persisted()
      modifies this`tasks, this`newTaskText, store
      ensures tasks == Add(old(tasks), old(newTaskText), now)
      ensures newTaskText == if AllWhitespace(old(newTaskText)) then old(newTaskText) else ""
      ensures store.items == old(store.items)[Key := Records(EncodeList(tasks, Encode))]
      ensures Persisted()
    {
      TrimEmptyIffBlank(newTaskText);
      if Trim(newTaskText) != "" {
        tasks := tasks + [Task(NatToString(now), Trim(newTaskText), false, now)];
        newTaskText := "";
        Persist();
      }
    }

    method ToggleTaskCompletion(id: string)
      requires Persisted()
      modifies this`tasks, store
      ensures tasks == Toggle(old(tasks), id)
      ensures store.items == old(store.items)[Key := Records(EncodeList(tasks, Encode))]
      ensures Persisted()
    {
      tasks := Toggle(tasks, id);
      Persist();
    }

    method StartEditing(task: Task)
      modifies this`editingTaskId, this`editText
      ensures editingTaskId == Some(task.id) && editText == task.text
    {
      editingTaskId := Some(task.id);
      editText := task.text;
    }

    method SaveEditing()
      requires Persisted()
      modifies this`tasks, this`editingTaskId, store
      ensures var edited := SaveEdit(old(tasks), old(editingTaskId), editText);
        (edited.None? ==> tasks == old(tasks) && editingTaskId == old(editingTaskId) && store.items == old(store.items)) &&
        (edited.Some? ==> tasks == edited.value && editingTaskId == None)
      ensures store.items == old(store.items)[Key := Records(EncodeList(tasks, Encode))]
      ensures Persisted()
    {
      var edited := SaveEdit(tasks, editingTaskId, editText);
      if edited.None? {
        return;
      }
      tasks := edited.value;
      editingTaskId := None;
      Persist();
    }

    /** Escape in the edit field: editing ends and the list is untouched. */
    method CancelEditing()
      modifies this`editingTaskId
      ensures editingTaskId == None
    {
      editingTaskId := None;
    }

    method DeleteTask(id: string)
      requires Persisted()
      modifies this`tasks, store
      ensures tasks == Delete(old(tasks), id)
      ensures store.items == old(store.items)[Key := Records(EncodeList(tasks, Encode))]
      ensures Persisted()
    {
      tasks := Delete(tasks, id);
      Persist();
    }
  }
}
