/**
 * The App component's state and its event handlers (src/App.tsx:68-153):
 * the draft title, the draft priority and the list, each handler one atomic
 * transition.
 */
module TodoApp {
  import opened Wrappers
  import opened Priorities
  import opened Todos
  import opened Counting
  import opened Rendering

  class App {
    var title: string
    var priority: Priority
    var todoList: seq<Todo>
    /** The number of items created and the number deleted so far. */
    ghost var creations: nat
    ghost var deletions: nat

    /** Every item was created and not yet deleted, and no item has an empty title. */
    ghost predicate Valid()
      reads this
    {
      && |todoList| + deletions == creations
      && forall i :: 0 <= i < |todoList| ==> todoList[i].title != ""
    }

    /** The initial state: empty title, priority Mid (code 2), empty list. */
    constructor ()
      ensures Valid()
      ensures title == "" && priority == Mid && todoList == []
      ensures creations == 0 && deletions == 0
    {
      title := "";
      priority := Mid;
      todoList := [];
      creations, deletions := 0, 0;
    }

    /** The title input's change handler stores the new text verbatim. */
    method EditTitle(value: string)
      requires Valid()
      modifies this
      ensures Valid()
      ensures title == value
      ensures priority == old(priority) && todoList == old(todoList)
      ensures creations == old(creations) && deletions == old(deletions)
    {
      title := value;
    }

    /** The priority selector's change handler stores a valid code's priority and ignores anything else. */
    method EditPriority(value: int)
      requires Valid()
      modifies this
      ensures Valid()
      ensures value == 1 || value == 2 || value == 3 ==> Code(priority) == value
      ensures !(value == 1 || value == 2 || value == 3) ==> priority == old(priority)
      ensures title == old(title) && todoList == old(todoList)
      ensures creations == old(creations) && deletions == old(deletions)
    {
      match ParsePriority(value)
      case Some(p) => priority := p;
      case None =>
    }

    /**
     * A click on the create button. The button is disabled while the title is
     * empty, so such a click changes nothing; otherwise the item with the
     * given id and the current draft is appended and the title is cleared,
     * while the priority is kept for the next item.
     */
    method Submit(id: string) returns (created: bool)
      requires Valid()
      modifies this
      ensures Valid()
      ensures created <==> old(title) != ""
      ensures created ==>
        && todoList == old(todoList) + [Todo(id, old(title), old(priority))]
        && title == "" && priority == old(priority)
        && creations == old(creations) + 1 && deletions == old(deletions)
      ensures !created ==>
        && todoList == old(todoList) && title == old(title) && priority == old(priority)
        && creations == old(creations) && deletions == old(deletions)
    {
      if !CreateEnabled(title) {
        return false;
      }
      todoList := todoList + [Todo(id, title, priority)];
      title := "";
      creations := creations + 1;
      created := true;
    }

    /**
     * The delete button of row `index`: the list is replaced by the list
     * without that position; an index outside the list removes nothing.
     */
    method Delete(index: int)
      requires Valid()
      modifies this
      ensures Valid()
      ensures todoList == FilterOutIndex(old(todoList), index)
      ensures 0 <= index < |old(todoList)| ==> |todoList| == |old(todoList)| - 1
      ensures !(0 <= index < |old(todoList)|) ==> todoList == old(todoList)
      ensures title == old(title) && priority == old(priority)
      ensures creations == old(creations)
      ensures deletions == old(deletions) + (if 0 <= index < |old(todoList)| then 1 else 0)
    {
      var remaining := FilterOutIndex(todoList, index);
      if 0 <= index < |todoList| {
        deletions := deletions + 1;
        DeleteRemovesExactlyOne(todoList, index);
      }
      todoList := remaining;
    }

    /**
     * The page body for the current list: the counts are recomputed from the
     * list and shown only for a non-empty list, where each is the number of
     * items of its priority and together they add up to the list's length.
     */
    method Show() returns (screen: Screen)
      ensures screen.EmptyPrompt? <==> todoList == []
      ensures screen.ListView? ==>
        && |screen.summary| == 3
        && (forall k :: 0 <= k < 3 ==>
              screen.summary[k] == CountEntry(Label(DisplayOrder[k]), Count(todoList, DisplayOrder[k])))
        && screen.summary[0].count + screen.summary[1].count + screen.summary[2].count == |todoList|
        && |screen.rows| == |todoList|
        && (forall i :: 0 <= i < |todoList| ==> screen.rows[i] == RenderRow(todoList[i], i))
    {
      var counts := CountByPriority(todoList);
      screen := Render(todoList, counts);
      CountsSumToLength(todoList);
    }
  }

  /** Creating "Buy milk" with priority Mid and then deleting position 0 leaves the list empty again. */
  method BuyMilkScenario() {
    var app := new App();
    app.EditPriority(7);
    assert app.priority == Mid;
    app.EditTitle("Buy milk");
    var created := app.Submit("1");
    assert created && app.todoList == [Todo("1", "Buy milk", Mid)];
    assert app.title == "" && app.priority == Mid;
    var again := app.Submit("2");
    assert !again && |app.todoList| == 1;
    app.Delete(0);
    assert app.todoList == [];
  }
}
