/**
 * A user's todo lists: named lists of items, one of which has the focus.
 * Item commands act on the focused list and number items from 1; list
 * commands lower-case the list name.
 */
module Todo {
  import opened Common

  const DEFAULT_LIST := "todo"

  /** `s` without its element at `i`. */
  function Without<T>(s: seq<T>, i: nat): (r: seq<T>)
    requires i < |s|
    ensures |r| == |s| - 1
    ensures forall j :: 0 <= j < i ==> r[j] == s[j]
    ensures forall j :: i <= j < |r| ==> r[j] == s[j + 1]
  {
    s[..i] + s[i + 1..]
  }

  lemma WithoutMultiset<T>(s: seq<T>, i: nat)
    requires i < |s|
    ensures multiset(s) == multiset(Without(s, i)) + multiset{s[i]}
  {
    assert s == s[..i] + [s[i]] + s[i + 1..];
  }

  /** `pop(i)` followed by `insert(0, item)`. */
  function MoveToFront<T>(s: seq<T>, i: nat): (r: seq<T>)
    requires i < |s|
    ensures |r| == |s| && r[0] == s[i]
    ensures multiset(r) == multiset(s)
  {
    WithoutMultiset(s, i);
    [s[i]] + Without(s, i)
  }

  /** Moving to the front keeps the length and the items, puts item `i` first and keeps the others in order. */
  lemma MoveToFrontKeepsOthers<T>(s: seq<T>, i: nat)
    requires i < |s|
    ensures |MoveToFront(s, i)| == |s| && MoveToFront(s, i)[0] == s[i]
    ensures MoveToFront(s, i)[1..] == Without(s, i)
    ensures multiset(MoveToFront(s, i)) == multiset(s)
  {
    WithoutMultiset(s, i);
    assert MoveToFront(s, i)[1..] == Without(s, i);
  }

  /** Whether `number` names an item of `s` (`1 <= number <= len`). */
  predicate InRange<T>(s: seq<T>, number: int) {
    1 <= number <= |s|
  }

  /** What `purge` as written does: it raises NameError. */
  datatype PurgeOutcome = PurgeNameError

  /** One user's stored todo data. */
  class TodoUser {
    var todos: map<string, seq<string>>
    var focus: string

    /** The focused list and the default list always exist. */
    predicate Valid()
      reads this
    {
      focus in todos && DEFAULT_LIST in todos
    }

    /** The registered defaults: an empty "todo" list, focused. */
    constructor ()
      ensures Valid()
      ensures todos == map[DEFAULT_LIST := []] && focus == DEFAULT_LIST
    {
      todos := map[DEFAULT_LIST := []];
      focus := DEFAULT_LIST;
    }

    function Focused(): seq<string>
      reads this
      requires Valid()
    {
      todos[focus]
    }

    /** `add`: appends to the focused list; the reply number is the new length. */
    method Add(item: string) returns (number: nat)
      requires Valid()
      modifies this
      ensures Valid() && focus == old(focus)
      ensures todos == old(todos)[focus := old(Focused()) + [item]]
      ensures number == |Focused()| && Focused()[number - 1] == item
    {
      todos := todos[focus := todos[focus] + [item]];
      number := |todos[focus]|;
    }

    /** `remove`: None ("isn't that long") out of range, else the popped item. */
    method Remove(number: int) returns (removed: Option<string>)
      requires Valid()
      modifies this
      ensures Valid() && focus == old(focus)
      ensures !InRange(old(Focused()), number) ==> removed.None? && todos == old(todos)
      ensures InRange(old(Focused()), number) ==>
        removed == Some(old(Focused())[number - 1]) &&
        todos == old(todos)[focus := Without(old(Focused()), number - 1)]
    {
      var list := todos[focus];
      if |list| < number || number < 1 {
        return None;
      }
      removed := Some(list[number - 1]);
      todos := todos[focus := Without(list, number - 1)];
    }

    /**
     * `purge` as written: its confirmation goes through `tsutils`, which the
     * module never imports, so the command raises NameError before it reads
     * or changes anything.
     */
    method PurgeAsWritten() returns (r: PurgeOutcome)
      requires Valid()
      ensures r == PurgeNameError
    {
      return PurgeNameError;
    }

    /** `purge` as intended, once confirmed: the focused list becomes empty. */
    method Purge(confirmed: bool)
      requires Valid()
      modifies this
      ensures Valid() && focus == old(focus)
      ensures todos == if confirmed then old(todos)[focus := []] else old(todos)
    {
      if !confirmed {
        return;
      }
      todos := todos[focus := []];
    }

    /** `edit`: None out of range, else replaces only item `number` and returns the old text. */
    method Edit(number: int, newItem: string) returns (oldItem: Option<string>)
      requires Valid()
      modifies this
      ensures Valid() && focus == old(focus)
      ensures !InRange(old(Focused()), number) ==> oldItem.None? && todos == old(todos)
      ensures InRange(old(Focused()), number) ==>
        oldItem == Some(old(Focused())[number - 1]) &&
        todos == old(todos)[focus := old(Focused())[number - 1 := newItem]]
    {
      var list := todos[focus];
      if |list| < number || number < 1 {
        return None;
      }
      oldItem := Some(list[number - 1]);
      todos := todos[focus := list[number - 1 := newItem]];
    }

    /** `prioritize`: None out of range, else moves item `number` to the top. */
    method Prioritize(number: int) returns (moved: Option<string>)
      requires Valid()
      modifies this
      ensures Valid() && focus == old(focus)
      ensures !InRange(old(Focused()), number) ==> moved.None? && todos == old(todos)
      ensures InRange(old(Focused()), number) ==>
        moved == Some(old(Focused())[number - 1]) &&
        todos == old(todos)[focus := MoveToFront(old(Focused()), number - 1)]
    {
      var list := todos[focus];
      if |list| < number || number < 1 {
        return None;
      }
      var item := list[number - 1];
      list := Without(list, number - 1);
      list := [item] + list;
      todos := todos[focus := list];
      moved := Some(item);
    }

    /** `changelist`: focuses an existing list (by lower-cased name) and refuses any other. */
    method ChangeList(name: string) returns (ok: bool)
      requires Valid()
      modifies this
      ensures Valid() && todos == old(todos)
      ensures ok <==> Lower(name) in old(todos)
      ensures focus == if ok then Lower(name) else old(focus)
    {
      var n := Lower(name);
      if n !in todos {
        return false;
      }
      focus := n;
      ok := true;
    }

    /** `lists add`: the named list becomes empty, replacing any list of that name. */
    method ListsAdd(name: string)
      requires Valid()
      modifies this
      ensures Valid() && focus == old(focus)
      ensures todos == old(todos)[Lower(name) := []]
    {
      todos := todos[Lower(name) := []];
    }

    /**
     * `lists remove`: refuses "todo"; otherwise deletes the list if it
     * exists and moves the focus back to "todo" if it was on that list.
     */
    method ListsRemove(name: string) returns (ok: bool)
      requires Valid()
      modifies this
      ensures Valid()
      ensures ok <==> Lower(name) != DEFAULT_LIST
      ensures !ok ==> todos == old(todos) && focus == old(focus)
      ensures ok ==> todos == old(todos) - {Lower(name)}
      ensures ok ==> focus == if old(focus) == Lower(name) then DEFAULT_LIST else old(focus)
    {
      var n := Lower(name);
      if n == DEFAULT_LIST {
        return false;
      }
      if n in todos {
        todos := todos - {n};
      }
      if n == focus {
        focus := DEFAULT_LIST;
      }
      ok := true;
    }
  }

  /**
   * A focused list with an item keeps it under `purge` as written, which
   * raises NameError, and loses it under the intended, confirmed purge.
   */
  method PurgeNeverClears() returns (asWritten: PurgeOutcome, keptAsWritten: nat, keptAsIntended: nat)
    ensures asWritten == PurgeNameError && keptAsWritten == 1 && keptAsIntended == 0
  {
    var u := new TodoUser();
    var n := u.Add("milk");
    asWritten := u.PurgeAsWritten();
    keptAsWritten := |u.Focused()|;
    u.Purge(true);
    keptAsIntended := |u.Focused()|;
  }
}
