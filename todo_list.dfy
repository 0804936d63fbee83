/**
 * The task list of the `App` component: an ordered list of task records, the
 * text of the new-task input, and a one-slot edit draft. The list updates are
 * `filter`/`map` expressions, modelled as functions; each event handler
 * overwrites the component's state fields, modelled as a method of `App`.
 */
module TodoList {
  import opened Wrappers
  import opened Text
  import opened Lists

  /** A task id. The application uses `Date.now()`; here the caller supplies it. */
  type Id = int

  /** A task record `{ id, text, done }`. */
  datatype Todo = Todo(id: Id, text: string, done: bool)

  /** Some task in `todos` carries `id`. */
  predicate HasId(todos: seq<Todo>, id: Id) {
    exists i | 0 <= i < |todos| :: todos[i].id == id
  }

  /** `todos.filter(todo => todo.id !== id)`, the list after `deleteTodo(id)`. */
  function Without(todos: seq<Todo>, id: Id): (r: seq<Todo>)
    ensures !HasId(r, id)
    ensures IsSubsequence(r, todos)
    ensures forall t :: multiset(r)[t] == if t.id == id then 0 else multiset(todos)[t]
  {
    FilterCharacterized(todos, (t: Todo) => t.id != id);
    Filter(todos, (t: Todo) => t.id != id)
  }

  /** Deleting an id no task carries leaves the list as it was. */
  lemma WithoutAbsent(todos: seq<Todo>, id: Id)
    requires !HasId(todos, id)
    ensures Without(todos, id) == todos
  {
    FilterKeepsAll(todos, (t: Todo) => t.id != id);
  }

  /** Deleting twice is deleting once. */
  lemma WithoutIdempotent(todos: seq<Todo>, id: Id)
    ensures Without(Without(todos, id), id) == Without(todos, id)
  {
    WithoutAbsent(Without(todos, id), id);
  }

  /** `todo.id === id ? { ...todo, done: !todo.done } : todo`. */
  function Flip(id: Id): Todo -> Todo {
    (t: Todo) => if t.id == id then t.(done := !t.done) else t
  }

  /** `todos.map(Flip(id))`, the list after `toggleDone(id)`. */
  function Toggled(todos: seq<Todo>, id: Id): (r: seq<Todo>)
    ensures |r| == |todos|
    ensures forall i | 0 <= i < |r| :: r[i].id == todos[i].id && r[i].text == todos[i].text
    ensures forall i | 0 <= i < |r| :: r[i].done == (todos[i].done != (todos[i].id == id))
  {
    Map(todos, Flip(id))
  }

  /** Toggling the same id twice restores the list. */
  lemma ToggledTwice(todos: seq<Todo>, id: Id)
    ensures Toggled(Toggled(todos, id), id) == todos
  {
  }

  /** `todo.id === id ? { ...todo, text } : todo`. */
  function Retext(id: Id, text: string): Todo -> Todo {
    (t: Todo) => if t.id == id then t.(text := text) else t
  }

  /** `todos.map(Retext(id, text))`, the list after a successful `saveEdit(id)`. */
  function Renamed(todos: seq<Todo>, id: Id, text: string): (r: seq<Todo>)
    ensures |r| == |todos|
    ensures forall i | 0 <= i < |r| :: r[i].id == todos[i].id && r[i].done == todos[i].done
    ensures forall i | 0 <= i < |r| :: r[i].text == if todos[i].id == id then text else todos[i].text
  {
    Map(todos, Retext(id, text))
  }

  /** `todos.filter(t => !t.done)`. */
  function Pending(todos: seq<Todo>): seq<Todo> {
    Filter(todos, (t: Todo) => !t.done)
  }

  /** `todos.filter(t => t.done)`. */
  function Finished(todos: seq<Todo>): seq<Todo> {
    Filter(todos, (t: Todo) => t.done)
  }

  /** Every task is counted exactly once, as remaining or as completed. */
  lemma {:induction false} CountsAddUp(todos: seq<Todo>)
    ensures |Pending(todos)| + |Finished(todos)| == |todos|
  {
    if todos != [] {
      CountsAddUp(todos[1..]);
    }
  }

  /** Appending a new, not yet done task adds one to the remaining count only. */
  lemma AppendPending(todos: seq<Todo>, t: Todo)
    requires !t.done
    ensures |Pending(todos + [t])| == |Pending(todos)| + 1
    ensures |Finished(todos + [t])| == |Finished(todos)|
  {
    FilterConcat(todos, [t], (t: Todo) => !t.done);
    FilterConcat(todos, [t], (t: Todo) => t.done);
  }

  /** The state of the `App` component. */
  class App {
    var todos: seq<Todo>
    var input: string
    var editId: Option<Id>
    var editText: string

    /** `useState([])`, `useState('')`, `useState(null)`, `useState('')`. */
    constructor ()
      ensures todos == [] && input == "" && editId == None && editText == ""
    {
      todos, input, editId, editText := [], "", None, "";
    }

    /** The new-task input's change handler. */
    method SetInput(value: string)
      modifies this`input
      ensures input == value
    {
      input := value;
    }

    /** The edit input's change handler. */
    method SetEditText(value: string)
      modifies this`editText
      ensures editText == value
    {
      editText := value;
    }

    /**
     * `addTodo`, with `id` standing for `Date.now()`: a blank input changes
     * nothing; otherwise the untrimmed input is appended as a new task and
     * the input is emptied.
     */
    method AddTodo(id: Id)
      modifies this`todos, this`input
      ensures Trim(old(input)) == "" ==> todos == old(todos) && input == old(input)
      ensures Trim(old(input)) != "" ==>
        todos == old(todos) + [Todo(id, old(input), false)] && input == ""
      ensures Trim(old(input)) != "" ==>
        Remaining() == old(Remaining()) + 1 && Completed() == old(Completed())
    {
      if Trim(input) == "" {
        return;
      }
      AppendPending(todos, Todo(id, input, false));
      todos := todos + [Todo(id, input, false)];
      input := "";
    }

    /** `deleteTodo(id)`. */
    method DeleteTodo(id: Id)
      modifies this`todos
      ensures todos == Without(old(todos), id)
    {
      todos := Without(todos, id);
    }

    /** `toggleDone(id)`. */
    method ToggleDone(id: Id)
      modifies this`todos
      ensures todos == Toggled(old(todos), id)
    {
      todos := Toggled(todos, id);
    }

    /** `startEdit(id, text)`: the draft is replaced, whatever it held. */
    method StartEdit(id: Id, text: string)
      modifies this`editId, this`editText
      ensures editId == Some(id) && editText == text
    {
      editId := Some(id);
      editText := text;
    }

    /**
     * `saveEdit(id)`: a blank draft changes nothing; otherwise the untrimmed
     * draft text replaces the text of the tasks carrying the ARGUMENT `id`
     * (not `editId`) and the draft is reset.
     */
    method SaveEdit(id: Id)
      modifies this`todos, this`editId, this`editText
      ensures Trim(old(editText)) == "" ==>
        todos == old(todos) && editId == old(editId) && editText == old(editText)
      ensures Trim(old(editText)) != "" ==>
        todos == Renamed(old(todos), id, old(editText)) && editId == None && editText == ""
    {
      if Trim(editText) == "" {
        return;
      }
      todos := Renamed(todos, id, editText);
      editId := None;
      editText := "";
    }

    /** `cancelEdit()`. */
    method CancelEdit()
      modifies this`editId, this`editText
      ensures editId == None && editText == ""
    {
      editId := None;
      editText := "";
    }

    /**
     * The "remaining" figure of the stats line: with "completed" it accounts
     * for every task, and it is zero exactly when every task is done.
     */
    function Remaining(): (n: nat)
      reads this
      ensures n + Completed() == |todos|
      ensures n == 0 <==> forall i | 0 <= i < |todos| :: todos[i].done
    {
      CountsAddUp(todos);
      FilterEmptyIff(todos, (t: Todo) => !t.done);
      |Pending(todos)|
    }

    /** The "completed" figure of the stats line: zero exactly when no task is done. */
    function Completed(): (n: nat)
      reads this
      ensures n <= |todos|
      ensures n == 0 <==> forall i | 0 <= i < |todos| :: !todos[i].done
    {
      FilterEmptyIff(todos, (t: Todo) => t.done);
      |Finished(todos)|
    }
  }

  /**
   * Empty list, add "Buy milk", add "Walk dog", toggle the first: one task
   * remains and one is completed.
   */
  method AddAndToggleScenario() returns (remaining: nat, completed: nat)
    ensures remaining == 1 && completed == 1
  {
    var app := new App();
    app.SetInput("Buy milk");
    NotBlank("Buy milk", 0);
    app.AddTodo(1);
    app.SetInput("Walk dog");
    NotBlank("Walk dog", 0);
    app.AddTodo(2);
    app.ToggleDone(1);
    assert app.todos == [Todo(1, "Buy milk", true), Todo(2, "Walk dog", false)];
    remaining, completed := app.Remaining(), app.Completed();
  }

  /** Start editing a task, then cancel: its text is untouched and the draft is cleared. */
  method EditThenCancelScenario() returns (text: string, draft: Option<Id>, draftText: string)
    ensures text == "old" && draft == None && draftText == ""
  {
    var app := new App();
    app.SetInput("old");
    NotBlank("old", 0);
    app.AddTodo(7);
    app.StartEdit(7, "old");
    app.SetEditText("new");
    app.CancelEdit();
    text, draft, draftText := app.todos[0].text, app.editId, app.editText;
  }
}
