/** The task list page: a list of to-do records split into a shared and a
    personal tab, with toggling, deleting, adding and the per-tab view. */
module TodoList {
  import opened Js
  import Auth

  /** The two tabs; a record's `kind` says which tab it belongs to. */
  datatype Tab = Shared | Personal

  /** One task. `kind` is the record's `type` field (a reserved word here);
      `assignee` is optional. */
  datatype Todo = Todo(id: int, text: string, completed: bool, kind: Tab, assignee: Option<string>)

  function OtherTab(tab: Tab): Tab {
    if tab == Shared then Personal else Shared
  }

  /** The list the page starts with. */
  const InitialTodos: seq<Todo> := [
    Todo(1, "Buy groceries", false, Shared, Some("Mom")),
    Todo(2, "Walk the dog", true, Shared, Some("Dad")),
    Todo(3, "Finish homework", false, Personal, Some("Me"))
  ]

  /** `x` is `xs` with some elements left out and the rest in their order. */
  predicate IsSubsequence<T(==)>(x: seq<T>, xs: seq<T>) {
    if x == [] then true
    else if xs == [] then false
    else if x[0] == xs[0] then IsSubsequence(x[1..], xs[1..])
    else IsSubsequence(x, xs[1..])
  }

  /** No two records share an id. */
  predicate DistinctIds(todos: seq<Todo>) {
    forall i, j :: 0 <= i < j < |todos| ==> todos[i].id != todos[j].id
  }

  predicate HasId(todos: seq<Todo>, id: int) {
    exists i :: 0 <= i < |todos| && todos[i].id == id
  }

  // ---------------------------------------------------------------------------
  // The list transforms

  /** `todos.map(t => t.id === id ? {...t, completed: !t.completed} : t)`:
      the same records in the same places, where only `completed` may change
      and it changes exactly on the records with that id. */
  function Toggle(todos: seq<Todo>, id: int): (r: seq<Todo>)
    ensures |r| == |todos|
    ensures forall i :: 0 <= i < |r| ==> r[i].(completed := todos[i].completed) == todos[i]
    ensures forall i :: 0 <= i < |r| ==> (r[i].completed != todos[i].completed <==> todos[i].id == id)
  {
    if todos == [] then []
    else
      var t := todos[0];
      [if t.id == id then t.(completed := !t.completed) else t] + Toggle(todos[1..], id)
  }

  /** `todos.filter(t => t.id !== id)`: no record with that id is left, every
      record with another id is kept as often as it occurred, and the kept
      ones stay in their order. */
  function Delete(todos: seq<Todo>, id: int): (r: seq<Todo>)
    ensures |r| <= |todos|
    ensures forall t :: t in r ==> t.id != id
  {
    if todos == [] then []
    else if todos[0].id == id then Delete(todos[1..], id)
    else [todos[0]] + Delete(todos[1..], id)
  }

  /** `todos.filter(t => t.type === tab)`: the records of that tab, each as
      often as it occurred, in list order, and nothing else. */
  function OfTab(todos: seq<Todo>, tab: Tab): (r: seq<Todo>)
    ensures |r| <= |todos|
    ensures forall t :: t in r ==> t.kind == tab
  {
    if todos == [] then []
    else if todos[0].kind == tab then [todos[0]] + OfTab(todos[1..], tab)
    else OfTab(todos[1..], tab)
  }

  /** The record `handleAdd` builds: the input text as typed, not done, in
      the active tab, assigned to the signed-in user's name if there is one;
      `id` stands for the `Date.now()` reading. */
  function NewTodo(id: int, text: string, tab: Tab, user: Option<Auth.User>): (t: Todo)
    ensures t.id == id && t.text == text && !t.completed && t.kind == tab
    ensures t.assignee.Some? <==> user.Some?
    ensures user.Some? ==> t.assignee == Some(user.value.name)
  {
    Todo(id, text, false, tab, if user.Some? then Some(user.value.name) else None)
  }

  // ---------------------------------------------------------------------------
  // Properties of the transforms

  /** Delete keeps every record whose id differs, as often as it occurred. */
  lemma {:induction false} DeleteKeepsOthers(todos: seq<Todo>, id: int)
    ensures forall t: Todo :: t.id != id ==> multiset(Delete(todos, id))[t] == multiset(todos)[t]
  {
    if todos != [] {
      DeleteKeepsOthers(todos[1..], id);
      assert todos == [todos[0]] + todos[1..];
    }
  }

  /** Delete keeps the surviving records in their original order. */
  lemma {:induction false} DeleteKeepsOrder(todos: seq<Todo>, id: int)
    ensures IsSubsequence(Delete(todos, id), todos)
  {
    if todos != [] {
      DeleteKeepsOrder(todos[1..], id);
      var r := Delete(todos[1..], id);
      if todos[0].id == id && r != [] {
        assert r[0] in r;
      }
    }
  }

  /** A tab's view holds every record of that tab, as often as it occurs. */
  lemma {:induction false} OfTabKeepsAll(todos: seq<Todo>, tab: Tab)
    ensures forall t: Todo :: t.kind == tab ==> multiset(OfTab(todos, tab))[t] == multiset(todos)[t]
  {
    if todos != [] {
      OfTabKeepsAll(todos[1..], tab);
      assert todos == [todos[0]] + todos[1..];
    }
  }

  /** A tab's view lists its records in list order. */
  lemma {:induction false} OfTabKeepsOrder(todos: seq<Todo>, tab: Tab)
    ensures IsSubsequence(OfTab(todos, tab), todos)
  {
    if todos != [] {
      OfTabKeepsOrder(todos[1..], tab);
      var r := OfTab(todos[1..], tab);
      if todos[0].kind != tab && r != [] {
        assert r[0] in r;
      }
    }
  }

  /** Toggling the same id twice gives back the list. */
  lemma ToggleTwice(todos: seq<Todo>, id: int)
    ensures Toggle(Toggle(todos, id), id) == todos
  {
    var r := Toggle(Toggle(todos, id), id);
    assert forall i :: 0 <= i < |r| ==> r[i] == todos[i];
  }

  /** Toggling an id no record has changes nothing. */
  lemma ToggleAbsent(todos: seq<Todo>, id: int)
    requires !HasId(todos, id)
    ensures Toggle(todos, id) == todos
  {
    var r := Toggle(todos, id);
    assert forall i :: 0 <= i < |r| ==> r[i] == todos[i];
  }

  /** Deleting an id no record has changes nothing. */
  lemma {:induction false} DeleteAbsent(todos: seq<Todo>, id: int)
    requires !HasId(todos, id)
    ensures Delete(todos, id) == todos
  {
    if todos != [] {
      assert todos[0].id != id;
      assert !HasId(todos[1..], id) by {
        forall i | 0 <= i < |todos[1..]| ensures todos[1..][i].id != id {
          assert todos[1..][i] == todos[i + 1];
        }
      }
      DeleteAbsent(todos[1..], id);
    }
  }

  /** With distinct ids, deleting a present id removes exactly one record. */
  lemma {:induction false} DeleteRemovesOne(todos: seq<Todo>, id: int)
    requires DistinctIds(todos) && HasId(todos, id)
    ensures |Delete(todos, id)| == |todos| - 1
  {
    if todos[0].id == id {
      assert !HasId(todos[1..], id) by {
        forall i | 0 <= i < |todos[1..]| ensures todos[1..][i].id != id {
          assert todos[1..][i] == todos[i + 1];
        }
      }
      DeleteAbsent(todos[1..], id);
    } else {
      var k :| 0 <= k < |todos| && todos[k].id == id;
      assert todos[1..][k - 1].id == id;
      DeleteRemovesOne(todos[1..], id);
    }
  }

  /** The two tabs partition the list: every record is in exactly one view,
      as often as it occurs in the list. */
  lemma TabsPartition(todos: seq<Todo>)
    ensures multiset(OfTab(todos, Shared)) + multiset(OfTab(todos, Personal)) == multiset(todos)
    ensures |OfTab(todos, Shared)| + |OfTab(todos, Personal)| == |todos|
  {
    var s, p := OfTab(todos, Shared), OfTab(todos, Personal);
    OfTabKeepsAll(todos, Shared);
    OfTabKeepsAll(todos, Personal);
    assert forall t: Todo :: t.kind == Personal ==> multiset(s)[t] == 0;
    assert forall t: Todo :: t.kind == Shared ==> multiset(p)[t] == 0;
    assert multiset(s) + multiset(p) == multiset(todos);
    assert |multiset(s) + multiset(p)| == |multiset(todos)|;
  }

  /** The view of a concatenation is the concatenation of the views. */
  lemma {:induction false} OfTabAppend(a: seq<Todo>, b: seq<Todo>, tab: Tab)
    ensures OfTab(a + b, tab) == OfTab(a, tab) + OfTab(b, tab)
  {
    if a != [] {
      assert (a + b)[1..] == a[1..] + b;
      OfTabAppend(a[1..], b, tab);
    } else {
      assert a + b == b;
    }
  }

  /** Appending a record of tab `t.kind` grows that tab's view by that record
      at its end and leaves the other tab's view as it was. */
  lemma AppendGrowsOneView(todos: seq<Todo>, t: Todo)
    ensures OfTab(todos + [t], t.kind) == OfTab(todos, t.kind) + [t]
    ensures OfTab(todos + [t], OtherTab(t.kind)) == OfTab(todos, OtherTab(t.kind))
  {
    OfTabAppend(todos, [t], t.kind);
    OfTabAppend(todos, [t], OtherTab(t.kind));
  }

  /** The starting list has distinct ids, two shared tasks and one personal. */
  lemma InitialViews()
    ensures DistinctIds(InitialTodos)
    ensures OfTab(InitialTodos, Shared) == InitialTodos[..2]
    ensures OfTab(InitialTodos, Personal) == [InitialTodos[2]]
  {
    assert OfTab(InitialTodos[2..], Shared) == [];
  }

  // ---------------------------------------------------------------------------
  // The page's state

  /** The page's state slots: the active tab, the list and the input box. */
  class TodoPage {
    var activeTab: Tab
    var todos: seq<Todo>
    var newTodo: string

    constructor ()
      ensures activeTab == Shared && todos == InitialTodos && newTodo == ""
    {
      activeTab := Shared;
      todos := InitialTodos;
      newTodo := "";
    }

    /** `filteredTodos`: the records of the active tab. */
    function FilteredTodos(): (r: seq<Todo>)
      reads this
      ensures |r| <= |todos|
      ensures forall t :: t in r ==> t.kind == activeTab
    {
      OfTab(todos, activeTab)
    }

    /** Clicking a tab. */
    method SelectTab(tab: Tab)
      modifies this
      ensures activeTab == tab && todos == old(todos) && newTodo == old(newTodo)
    {
      activeTab := tab;
    }

    /** Typing into the input box. */
    method EditInput(text: string)
      modifies this
      ensures newTodo == text && todos == old(todos) && activeTab == old(activeTab)
    {
      newTodo := text;
    }

    /** `toggleTodo(id)`. */
    method ToggleTodo(id: int)
      modifies this
      ensures todos == Toggle(old(todos), id)
      ensures activeTab == old(activeTab) && newTodo == old(newTodo)
    {
      todos := Toggle(todos, id);
    }

    /** `deleteTodo(id)`. */
    method DeleteTodo(id: int)
      modifies this
      ensures todos == Delete(old(todos), id)
      ensures activeTab == old(activeTab) && newTodo == old(newTodo)
    {
      todos := Delete(todos, id);
    }

    /** `handleAdd`: a blank input changes nothing; otherwise the new record
        goes to the end of the list, only the active tab's view grows, and the
        input is cleared. `id` is the `Date.now()` reading and `user` the
        signed-in user. */
    method HandleAdd(id: int, user: Option<Auth.User>)
      modifies this
      ensures activeTab == old(activeTab)
      ensures Trim(old(newTodo)) == "" ==> todos == old(todos) && newTodo == old(newTodo)
      ensures Trim(old(newTodo)) != "" ==>
                && todos == old(todos) + [NewTodo(id, old(newTodo), activeTab, user)]
                && newTodo == ""
                && FilteredTodos() == old(FilteredTodos()) + [NewTodo(id, old(newTodo), activeTab, user)]
                && OfTab(todos, OtherTab(activeTab)) == OfTab(old(todos), OtherTab(activeTab))
    {
      if Trim(newTodo) == "" {
        return;
      }
      var todo := NewTodo(id, newTodo, activeTab, user);
      AppendGrowsOneView(todos, todo);
      todos := todos + [todo];
      newTodo := "";
    }
  }
}
