/** To-do items and the filter that deletes one of them by position (src/App.tsx:17-21, 78-80). */
module Todos {
  import opened Priorities

  /** An item; `id` is an opaque token chosen when the item is created. */
  datatype Todo = Todo(id: string, title: string, priority: Priority)

  /**
   * The delete handler's filter (src/App.tsx:79): keeps every item whose
   * position differs from `index`, in order. Walking the list from the
   * front, the position of the head is 0, so the index to drop shifts down
   * by one per step. An index outside the list matches no position and
   * removes nothing.
   */
  function FilterOutIndex<T>(todoList: seq<T>, index: int): (r: seq<T>)
    ensures 0 <= index < |todoList| ==> r == todoList[..index] + todoList[index + 1..]
    ensures !(0 <= index < |todoList|) ==> r == todoList
  {
    if todoList == [] then []
    else
      var rest := FilterOutIndex(todoList[1..], index - 1);
      if index == 0 then rest
      else
        assert 0 < index < |todoList| ==>
          && [todoList[0]] + todoList[1..][..index - 1] == todoList[..index]
          && todoList[1..][index..] == todoList[index + 1..];
        assert [todoList[0]] + todoList[1..] == todoList;
        [todoList[0]] + rest
  }

  /**
   * Deleting a valid position removes exactly that item: the length drops by
   * one, the items before it keep their positions, the items after it move
   * up by one, and the removed item is the only one missing.
   */
  lemma DeleteRemovesExactlyOne<T>(todoList: seq<T>, index: int)
    requires 0 <= index < |todoList|
    ensures |FilterOutIndex(todoList, index)| == |todoList| - 1
    ensures forall k :: 0 <= k < index ==> FilterOutIndex(todoList, index)[k] == todoList[k]
    ensures forall k :: index <= k < |todoList| - 1 ==> FilterOutIndex(todoList, index)[k] == todoList[k + 1]
    ensures multiset(FilterOutIndex(todoList, index)) + multiset{todoList[index]} == multiset(todoList)
  {
    var before, after := todoList[..index], todoList[index + 1..];
    var r := FilterOutIndex(todoList, index);
    assert r == before + after;
    forall k | index <= k < |todoList| - 1
      ensures r[k] == todoList[k + 1]
    {
      assert r[k] == after[k - index];
    }
    MultisetWithout(todoList, index);
  }

  /** Removing position `i` from a sequence takes exactly one copy of `s[i]` out of its multiset. */
  lemma MultisetWithout<T>(s: seq<T>, i: int)
    requires 0 <= i < |s|
    ensures multiset(s[..i] + s[i + 1..]) + multiset{s[i]} == multiset(s)
  {
    assert s == s[..i] + [s[i]] + s[i + 1..];
  }
}
