/**
 * The quick-task widget (src/components/TodoWidget.tsx): a list of todos kept in
 * component state and mirrored to the store key `edge-homepage-todos`.
 */
module TodoWidget {
  import opened Wrappers
  import opened Storage
  import opened Text
  import opened Lists

  const Key := "edge-homepage-todos"

  datatype Todo = Todo(id: string, text: string, completed: bool)

  function TodoId(t: Todo): string { t.id }

  function Encode(t: Todo): Record {
    map["id" := Str(t.id), "text" := Str(t.text), "completed" := Bool(t.completed)]
  }

  function Decode(r: Record): Option<Todo> {
    match (GetStr(r, "id"), GetStr(r, "text"), GetBool(r, "completed"))
    case (Some(id), Some(text), Some(completed)) => Some(Todo(id, text, completed))
    case _ => None
  }

  lemma DecodeEncode()
    ensures forall t :: Decode(Encode(t)) == Some(t)
  {
    forall t: Todo ensures Decode(Encode(t)) == Some(t) {
      var r := Encode(t);
      assert GetStr(r, "id") == Some(t.id) && GetStr(r, "text") == Some(t.text);
      assert GetBool(r, "completed") == Some(t.completed);
    }
  }

  /** `addTodo`: whitespace-only input adds nothing; otherwise one open todo with the trimmed text goes at the end. */
  function Add(todos: seq<Todo>, input: string, now: nat): (r: seq<Todo>)
    ensures AllWhitespace(input) ==> r == todos
    ensures !AllWhitespace(input) ==> |r| == |todos| + 1 && r[..|todos|] == todos
    ensures !AllWhitespace(input) ==> r[|todos|] == Todo(NatToString(now), Trim(input), false)
  {
    TrimEmptyIffBlank(input);
    if Trim(input) != "" then todos + [Todo(NatToString(now), Trim(input), false)] else todos
  }

  function Flip(t: Todo): Todo { t.(completed := !t.completed) }

  /** `toggleTodo`: only the todos with the id change, and only in `completed`. */
  function Toggle(todos: seq<Todo>, id: string): (r: seq<Todo>)
    ensures |r| == |todos|
    ensures forall i :: 0 <= i < |todos| ==>
      r[i].id == todos[i].id && r[i].text == todos[i].text &&
      r[i].completed == (if todos[i].id == id then !todos[i].completed else todos[i].completed)
  {
    UpdateWhere(todos, TodoId, id, Flip)
  }

  /** Toggling the same id twice restores the list. */
  lemma ToggleTwice(todos: seq<Todo>, id: string)
    ensures Toggle(Toggle(todos, id), id) == todos
  {
    UpdateTwice(todos, TodoId, id, Flip);
  }

  /** `deleteTodo`: exactly the todos with another id remain. */
  function Delete(todos: seq<Todo>, id: string): (r: seq<Todo>)
    ensures forall t :: t in r <==> t in todos && t.id != id
  {
    Without(todos, TodoId, id)
  }

  /** Deleting the todo just added gives back the list from before the add, when its id was new. */
  lemma DeleteUndoesAdd(todos: seq<Todo>, input: string, now: nat)
    requires !AllWhitespace(input)
    requires forall i :: 0 <= i < |todos| ==> todos[i].id != NatToString(now)
    ensures Delete(Add(todos, input, now), NatToString(now)) == todos
  {
    var t := Todo(NatToString(now), Trim(input), false);
    assert Add(todos, input, now) == todos + [t];
    WithoutAppendedLast(todos, t, TodoId);
    WithoutAbsent(todos, TodoId, NatToString(now));
  }

  /** What the next page load reads back from a store the widget has written. */
  lemma Reload(items: map<string, Value>, todos: seq<Todo>)
    requires Key in items && items[Key] == Records(EncodeList(todos, Encode))
    ensures LoadList(items, Key, Decode, []) == todos
  {
    DecodeEncode();
    LoadAfterSave(items, Key, todos, Encode, Decode, []);
    assert items[Key := Records(EncodeList(todos, Encode))] == items;
  }

  class Widget {
    var todos: seq<Todo>
    var newTodo: string
    const store: Store

    /** The persisting effect keeps the store's copy equal to the list. */
    ghost predicate Persisted()
      reads this, store
    {
      store.items == store.items[Key := Records(EncodeList(todos, Encode))]
    }

    /** Mount: the list starts empty, the load effect replaces it by the stored list, the save effect writes it back. */
    constructor (store: Store)
      modifies store
      ensures this.store == store && newTodo == ""
      ensures todos == LoadList(old(store.items), Key, Decode, [])
      ensures store.items == old(store.items)[Key := Records(EncodeList(todos, Encode))]
      ensures Persisted()
    {
      this.store := store;
      todos := LoadList(store.items, Key, Decode, []);
      newTodo := "";
      new;
      store.Set(Key, Records(EncodeList(todos, Encode)));
    }

    method Persist()
      modifies store
      ensures store.items == old(store.items)[Key := Records(EncodeList(todos, Encode))]
      ensures Persisted()
    {
      store.Set(Key, Records(EncodeList(todos, Encode)));
    }

    method AddTodo(now: nat)
      requires Persisted()
      modifies this, store
      ensures todos == Add(old(todos), old(newTodo), now)
      ensures newTodo == if AllWhitespace(old(newTodo)) then old(newTodo) else ""
      ensures store.items == old(store.items)[Key := Records(EncodeList(todos, Encode))]
      ensures Persisted()
    {
      TrimEmptyIffBlank(newTodo);
      if Trim(newTodo) != "" {
        todos := todos + [Todo(NatToString(now), Trim(newTodo), false)];
        newTodo := "";
        Persist();
      }
    }

    method ToggleTodo(id: string)
      requires Persisted()
      modifies this`todos, store
      ensures todos == Toggle(old(todos), id)
      ensures store.items == old(store.items)[Key := Records(EncodeList(todos, Encode))]
      ensures Persisted()
    {
      todos := Toggle(todos, id);
      Persist();
    }

    method DeleteTodo(id: string)
      requires Persisted()
      modifies this`todos, store
      ensures todos == Delete(old(todos), id)
      ensures store.items == old(store.items)[Key := Records(EncodeList(todos, Encode))]
      ensures Persisted()
    {
      todos := Delete(todos, id);
      Persist();
    }
  }
}
