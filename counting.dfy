/**
 * The per-priority counts shown above the list (src/App.tsx:58-66, 140): a
 * fold of the items' priorities into a partial map, read with a default of 0.
 */
module Counting {
  import opened Priorities
  import opened Todos

  /** The number of items of `todoList` that have priority `p`. */
  function Count(todoList: seq<Todo>, p: Priority): nat {
    if todoList == [] then 0
    else
      var last := |todoList| - 1;
      Count(todoList[..last], p) + (if todoList[last].priority == p then 1 else 0)
  }

  /** The items' priorities, in list order (src/App.tsx:61). */
  function PrioritiesOf(todoList: seq<Todo>): seq<Priority> {
    seq(|todoList|, i requires 0 <= i < |todoList| => todoList[i].priority)
  }

  /** The count of `p` in a partial count map, 0 when the map has no entry for `p` (src/App.tsx:63, 140). */
  function CountOf(counts: map<Priority, nat>, p: Priority): nat {
    if p in counts then counts[p] else 0
  }

  /**
   * countByPriority: starting from an empty map, each item's priority either
   * gets its first entry, 1, or has its entry incremented. The result holds
   * an entry for exactly the priorities that occur, and every entry (and the
   * default 0 for a missing one) is the number of items with that priority.
   */
  method CountByPriority(todoList: seq<Todo>) returns (counts: map<Priority, nat>)
    ensures forall p :: CountOf(counts, p) == Count(todoList, p)
    ensures forall p :: p in counts <==> Count(todoList, p) > 0
  {
    var priorities := PrioritiesOf(todoList);
    counts := map[];
    var i := 0;
    while i < |priorities|
      invariant 0 <= i <= |priorities|
      invariant forall p :: CountOf(counts, p) == Count(todoList[..i], p)
      invariant forall p :: p in counts <==> Count(todoList[..i], p) > 0
    {
      var p := priorities[i];
      counts := counts[p := CountOf(counts, p) + 1];
      assert todoList[..i + 1][..i] == todoList[..i];
      i := i + 1;
    }
    assert todoList[..|todoList|] == todoList;
  }

  /** Counting distributes over concatenation. */
  lemma {:induction false} CountAppend(a: seq<Todo>, b: seq<Todo>, p: Priority)
    ensures Count(a + b, p) == Count(a, p) + Count(b, p)
  {
    if b == [] {
      assert a + b == a;
    } else {
      var last := |b| - 1;
      assert (a + b)[..|a + b| - 1] == a + b[..last];
      CountAppend(a, b[..last], p);
    }
  }

  /** The three counts add up to the length of the list. */
  lemma {:induction false} CountsSumToLength(todoList: seq<Todo>)
    ensures Count(todoList, High) + Count(todoList, Mid) + Count(todoList, Low) == |todoList|
  {
    if todoList != [] {
      CountsSumToLength(todoList[..|todoList| - 1]);
    }
  }

  /** A priority is counted 0 exactly when no item has it. */
  lemma {:induction false} CountZeroIffAbsent(todoList: seq<Todo>, p: Priority)
    ensures Count(todoList, p) == 0 <==> forall i :: 0 <= i < |todoList| ==> todoList[i].priority != p
  {
    if todoList != [] {
      var last := |todoList| - 1;
      CountZeroIffAbsent(todoList[..last], p);
      assert forall i :: 0 <= i < last ==> todoList[..last][i] == todoList[i];
    }
  }

  /** The count of `p` is its multiplicity among the items' priorities. */
  lemma {:induction false} CountIsMultiplicity(todoList: seq<Todo>, p: Priority)
    ensures Count(todoList, p) == multiset(PrioritiesOf(todoList))[p]
  {
    if todoList != [] {
      var last := |todoList| - 1;
      CountIsMultiplicity(todoList[..last], p);
      assert PrioritiesOf(todoList) == PrioritiesOf(todoList[..last]) + [todoList[last].priority];
    }
  }

  /** Deleting a valid position lowers the count of the deleted item's priority by one and leaves the others. */
  lemma CountAfterDelete(todoList: seq<Todo>, index: int, p: Priority)
    requires 0 <= index < |todoList|
    ensures Count(FilterOutIndex(todoList, index), p)
         == Count(todoList, p) - (if todoList[index].priority == p then 1 else 0)
  {
    var before, after := todoList[..index], todoList[index + 1..];
    assert todoList == before + [todoList[index]] + after;
    CountAppend(before, [todoList[index]], p);
    CountAppend(before + [todoList[index]], after, p);
    CountAppend(before, after, p);
    assert Count([todoList[index]], p) == (if todoList[index].priority == p then 1 else 0) by {
      assert [todoList[index]][..0] == [];
    }
  }
}
