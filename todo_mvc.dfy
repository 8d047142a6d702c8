/**
 * The to-do application of `11_Architectural_Patterns/MVC.js`: a model
 * holding the list of tasks, a view turning a list into console lines, and
 * a controller that updates the model, guards the index of a removal and
 * asks the view to report. Console output is returned as lines.
 */
module TodoMvc {
  import Strings

  /**
   * `array.splice(index, 1)` in JavaScript: a negative index counts back
   * from the end (and stops at the front), an index at or past the end
   * removes nothing.
   */
  function SpliceOne(todos: seq<string>, index: int): (r: seq<string>)
    ensures 0 <= index < |todos| ==> r == todos[..index] + todos[index + 1..]
    ensures index >= |todos| ==> r == todos
    ensures -|todos| <= index < 0 ==> r == todos[..|todos| + index] + todos[|todos| + index + 1..]
    ensures index < -|todos| && todos != [] ==> r == todos[1..]
  {
    var start := if index < 0 then (if |todos| + index < 0 then 0 else |todos| + index) else index;
    if start < |todos| then todos[..start] + todos[start + 1..] else todos
  }

  /** Removing a valid index drops exactly that element and keeps the rest in order. */
  lemma RemoveExactly(todos: seq<string>, i: nat)
    requires i < |todos|
    ensures |SpliceOne(todos, i)| == |todos| - 1
    ensures forall k :: 0 <= k < i ==> SpliceOne(todos, i)[k] == todos[k]
    ensures forall k :: i <= k < |todos| - 1 ==> SpliceOne(todos, i)[k] == todos[k + 1]
  {
  }

  /** `TodoModel`. */
  class TodoModel {
    var todos: seq<string>

    /** `new TodoModel()`: no tasks. */
    constructor()
      ensures todos == []
    {
      todos := [];
    }

    /** `addTodo(todo)`: appends and returns the list. */
    method AddTodo(todo: string) returns (r: seq<string>)
      modifies this
      ensures todos == old(todos) + [todo] && r == todos
    {
      todos := todos + [todo];
      r := todos;
    }

    /** `removeTodo(index)`: `splice(index, 1)`, with no check of `index`, then returns the list. */
    method RemoveTodo(index: int) returns (r: seq<string>)
      modifies this
      ensures todos == SpliceOne(old(todos), index) && r == todos
    {
      todos := SpliceOne(todos, index);
      r := todos;
    }
  }

  /** The lines of `showTodos`. */
  const Header := "\n📋 Current To-Do List:"
  const NoTasks := "   (No tasks yet)"
  const Rule := "-------------------------"

  /** The line of the item at position `number`, counting from 1. */
  function ItemLine(number: nat, todo: string): string {
    "   " + Strings.NatToString(number) + ". " + todo
  }

  /** The numbered lines of a non-empty list, in list order. */
  function Numbered(todos: seq<string>): seq<string> {
    if todos == [] then [] else Numbered(todos[..|todos| - 1]) + [ItemLine(|todos|, todos[|todos| - 1])]
  }

  /** Task `k` is on line `k` of the listing and is numbered `k + 1`. */
  lemma {:induction false} NumberedFromOne(todos: seq<string>)
    ensures |Numbered(todos)| == |todos|
    ensures forall k :: 0 <= k < |todos| ==> Numbered(todos)[k] == ItemLine(k + 1, todos[k])
  {
    if todos != [] {
      NumberedFromOne(todos[..|todos| - 1]);
    }
  }

  /** What `showTodos(todos)` prints: a header, the numbered tasks or a placeholder, a rule. */
  function Screen(todos: seq<string>): seq<string> {
    [Header] + (if todos == [] then [NoTasks] else Numbered(todos)) + [Rule]
  }

  /** The shape of the screen: a placeholder for an empty list, one numbered line per task otherwise. */
  lemma ScreenShape(todos: seq<string>)
    ensures var lines := Screen(todos);
      lines[0] == Header && lines[|lines| - 1] == Rule &&
      (todos == [] ==> lines == [Header, NoTasks, Rule]) &&
      (todos != [] ==>
        |lines| == |todos| + 2 && forall k :: 0 <= k < |todos| ==> lines[k + 1] == ItemLine(k + 1, todos[k]))
  {
    NumberedFromOne(todos);
  }

  /** `TodoView`. */
  class TodoView {
    constructor() {
    }

    /** `showTodos(todos)`: the `forEach` over the items prints one numbered line each. */
    method ShowTodos(todos: seq<string>) returns (lines: seq<string>)
      ensures lines == Screen(todos)
    {
      lines := [Header];
      if |todos| == 0 {
        lines := lines + [NoTasks];
      } else {
        var index := 0;
        while index < |todos|
          invariant 0 <= index <= |todos|
          invariant lines == [Header] + Numbered(todos[..index])
        {
          assert todos[..index + 1][..index] == todos[..index];
          lines := lines + [ItemLine(index + 1, todos[index])];
          index := index + 1;
        }
        assert todos[..index] == todos;
      }
      lines := lines + [Rule];
    }

    /** `showMessage(message)`. */
    method ShowMessage(message: string) returns (lines: seq<string>)
      ensures lines == [message]
    {
      lines := [message];
    }
  }

  /** The message reporting an added task. */
  function AddedMessage(todo: string): string {
    "✅ Added: \"" + todo + "\""
  }

  /** The message reporting a removed task. */
  function RemovedMessage(todo: string): string {
    "❌ Removed: \"" + todo + "\""
  }

  const InvalidIndex := "⚠️ Invalid index!"

  /** `TodoController`. */
  class TodoController {
    const model: TodoModel
    const view: TodoView

    /** `new TodoController(model, view)`. */
    constructor(model: TodoModel, view: TodoView)
      ensures this.model == model && this.view == view
    {
      this.model := model;
      this.view := view;
    }

    /** `addTodo(todo)`: appends to the model, reports the item, shows the new list. */
    method AddTodo(todo: string) returns (lines: seq<string>)
      modifies model
      ensures model.todos == old(model.todos) + [todo]
      ensures lines == [AddedMessage(todo)] + Screen(model.todos)
    {
      var _ := model.AddTodo(todo);
      var message := view.ShowMessage(AddedMessage(todo));
      var screen := view.ShowTodos(model.todos);
      lines := message + screen;
    }

    /**
     * `removeTodo(index)`: an index outside the list leaves the model alone
     * and warns; a valid one removes that item, reports the item it held
     * before the call and shows the list, one shorter.
     */
    method RemoveTodo(index: int) returns (lines: seq<string>)
      modifies model
      ensures !(0 <= index < |old(model.todos)|) ==> model.todos == old(model.todos) && lines == [InvalidIndex]
      ensures 0 <= index < |old(model.todos)| ==>
        model.todos == old(model.todos)[..index] + old(model.todos)[index + 1..] &&
        |model.todos| == |old(model.todos)| - 1 &&
        lines == [RemovedMessage(old(model.todos)[index])] + Screen(model.todos)
    {
      var todos := model.todos;
      if index < 0 || index >= |todos| {
        lines := view.ShowMessage(InvalidIndex);
        return;
      }
      var removed := todos[index];
      var _ := model.RemoveTodo(index);
      var message := view.ShowMessage(RemovedMessage(removed));
      var screen := view.ShowTodos(model.todos);
      lines := message + screen;
    }

    /** `showTodos()`. */
    method ShowTodos() returns (lines: seq<string>)
      ensures lines == Screen(model.todos)
    {
      lines := view.ShowTodos(model.todos);
    }
  }

  /**
   * The client code: three tasks added, the second removed, and the
   * final listing shows the first and the third.
   */
  method ClientCode() returns (todos: seq<string>, lines: seq<string>)
    ensures todos == ["Learn JavaScript", "Practice Design Patterns"]
    ensures lines == Screen(todos) && |lines| == 4
  {
    var model := new TodoModel();
    var view := new TodoView();
    var controller := new TodoController(model, view);
    var shown := controller.AddTodo("Learn JavaScript");
    shown := controller.AddTodo("Build an MVC App");
    shown := controller.AddTodo("Practice Design Patterns");
    shown := controller.RemoveTodo(1);
    lines := controller.ShowTodos();
    todos := model.todos;
    ScreenShape(todos);
  }
}
