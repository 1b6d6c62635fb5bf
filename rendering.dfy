/**
 * What the page shows for a given state (src/App.tsx:23-56, 119-148): the
 * create button's enabled state, and either the empty-list prompt or the
 * count summary followed by one row per item.
 */
module Rendering {
  import opened Priorities
  import opened Todos
  import opened Counting

  /** One list row: its badge, its title, and the position its delete button removes. */
  datatype Row = Row(key: string, badgeClass: string, caption: string, title: string, deleteIndex: int)

  /** One entry of the count summary: a priority's label and its count. */
  datatype CountEntry = CountEntry(caption: string, count: nat)

  /** The lower half of the page: the prompt for an empty list, or the summary and the rows. */
  datatype Screen = EmptyPrompt | ListView(summary: seq<CountEntry>, rows: seq<Row>)

  /** The create button is disabled when the draft title is falsy, that is, the empty string; nothing is trimmed. */
  predicate CreateEnabled(title: string) {
    title != ""
  }

  /** A title made only of spaces still enables the create button. */
  lemma BlankTitleIsSubmittable(n: nat)
    requires n > 0
    ensures CreateEnabled(seq(n, _ => ' '))
    ensures !CreateEnabled("")
  {
    assert seq(n, _ => ' ')[0] == ' ';
  }

  /** The row of the item at position `i`. */
  function RenderRow(todo: Todo, i: int): Row {
    Row(todo.id, BadgeClass(todo.priority), Label(todo.priority), todo.title, i)
  }

  /**
   * `Render(todoList, counts)` is the page body for the list `todoList` whose
   * per-priority counts are `counts`: the prompt exactly when the list is
   * empty; otherwise one summary entry per priority in display order, read
   * with the default 0, and one row per item in list order, each with a
   * badge showing the priority's colour and label, the title, and a delete
   * button bound to its own position.
   */
  function Render(todoList: seq<Todo>, counts: map<Priority, nat>): (s: Screen)
    ensures s.EmptyPrompt? <==> |todoList| == 0
    ensures s.ListView? ==>
      && |s.summary| == |DisplayOrder|
      && (forall k :: 0 <= k < |s.summary| ==>
            s.summary[k] == CountEntry(Label(DisplayOrder[k]), CountOf(counts, DisplayOrder[k])))
      && |s.rows| == |todoList|
      && (forall i :: 0 <= i < |s.rows| ==>
            && s.rows[i].key == todoList[i].id
            && s.rows[i].title == todoList[i].title
            && s.rows[i].caption == Label(todoList[i].priority)
            && s.rows[i].badgeClass == BadgeClass(todoList[i].priority)
            && s.rows[i].badgeClass != ""
            && s.rows[i].deleteIndex == i)
  {
    if |todoList| == 0 then EmptyPrompt
    else
      ListView(
        seq(|DisplayOrder|, k requires 0 <= k < |DisplayOrder| =>
          CountEntry(Label(DisplayOrder[k]), CountOf(counts, DisplayOrder[k]))),
        seq(|todoList|, i requires 0 <= i < |todoList| => RenderRow(todoList[i], i)))
  }

  /** Pressing the delete button of row `k` removes exactly the item shown in that row. */
  lemma DeleteButtonRemovesItsRow(todoList: seq<Todo>, counts: map<Priority, nat>, k: int)
    requires Render(todoList, counts).ListView?
    requires 0 <= k < |Render(todoList, counts).rows|
    ensures var i := Render(todoList, counts).rows[k].deleteIndex;
      FilterOutIndex(todoList, i) == todoList[..k] + todoList[k + 1..]
  {
  }
}
