# To-do list editor: a Dafny model of its state machine

This project models the core of a single-page to-do list editor, the `App`
component in `src/App.tsx`. Its state is a draft title, a draft priority and
an ordered list of items `Todo {id, title, priority}`. Four events change
that state:

- editing the title, which stores the text verbatim;
- choosing a priority, which is accepted only for the codes 1, 2 and 3;
- creating an item, which appends the draft to the list and clears the
  title, and which is only possible while the title is non-empty;
- deleting the item at a position, which filters that position out.

From the list the page derives the per-priority counts, a badge colour and
a label for every item, and the choice between the empty-list prompt and
the list view.

Modules, one per concern of the source file:

- `Wrappers`: the `Option` type the priority validator returns.
- `Priorities`: the `Priority` enumeration `High | Mid | Low`. It also holds
  the numeric codes, the validator `ParsePriority`, the labels and the badge
  colour chain.
- `Todos`: the `Todo` record and `FilterOutIndex`, the index filter used by
  the delete handler.
- `Counting`: `Count`, the specification of a per-priority count. It also holds
  `CountByPriority`, the fold that builds the partial count map with a loop,
  and `CountOf`, the `?? 0` read.
- `Rendering`: the create button's enabled state, the rows and the
  empty-prompt versus list-view choice.
- `TodoApp`: the class `App`, whose fields are the three pieces of state and
  whose methods are the event handlers. Two ghost counters, `creations` and
  `deletions`, record the history, so that the invariant
  `|todoList| + deletions == creations` can be stated.

The id of a new item is a parameter of `Submit`. The source takes it from
the clock, which the model does not read.

## Model

| member | source | states |
|---|---|---|
| `Priorities.ParsePriority` | src/App.tsx:105-110 | a value names a priority exactly when it is 1, 2 or 3, and then the priority's code is that value |
| `Priorities.Code` | src/App.tsx:5-9 | the enum value of a priority: High 1, Mid 2, Low 3; `ParseCode` and `ParsePriority` state its relation to the validator |
| `Priorities.Label` | src/App.tsx:11-15 | the label table; `LabelInjective` states that distinct priorities get distinct labels, and `Render` that each row's badge shows its item's label |
| `Priorities.BadgeClassOfCode` | src/App.tsx:34-40 | the colour chain on the numeric value, with its empty fallback; `BadgeColours` states its values and when the fallback fires |
| `Priorities.BadgeClass` | src/App.tsx:34-40 | the chain applied to a priority's code; `BadgeColours` and `BadgeClassInjective` state that it is danger/warning/success and one-to-one |
| `Priorities.ParseCode` | src/App.tsx:5-9 | every priority's code is accepted by the validator and read back as the same priority |
| `Priorities.LabelInjective` | src/App.tsx:11-15 | distinct priorities have distinct labels |
| `Priorities.BadgeColours` | src/App.tsx:34-40 | High is danger, Mid is warning, Low is success; the empty fallback class is produced exactly for the values the validator rejects |
| `Priorities.BadgeClassInjective` | src/App.tsx:34-40 | the badge colour is one-to-one on priorities |
| `Priorities.DisplayOrderIsComplete` | src/App.tsx:112-116 | the enumeration order of the label table lists each priority exactly once, by ascending code |
| `Todos.FilterOutIndex` | src/App.tsx:78-80 | filtering out position `index` is the list without that element when `index` is a valid position, and the unchanged list otherwise |
| `Todos.DeleteRemovesExactlyOne` | src/App.tsx:79 | deleting a valid position shrinks the list by one, keeps the earlier items in place, moves the later ones up by one, and removes only the item at that position (as a multiset) |
| `Counting.CountByPriority` | src/App.tsx:58-66 | the fold's map, read with default 0, gives for every priority the number of items with it, and it holds a key exactly for the priorities that occur |
| `Counting.CountOf` | src/App.tsx:63 | reading a partial count map with default 0; `CountByPriority` states that this read gives every priority's count, including 0 for a priority with no entry |
| `Counting.CountAppend` | src/App.tsx:62-65 | counting a concatenation adds the counts of its parts |
| `Counting.CountsSumToLength` | src/App.tsx:58-66 | the three counts add up to the length of the list |
| `Counting.CountZeroIffAbsent` | src/App.tsx:140 | a priority is counted 0 exactly when no item has it |
| `Counting.CountIsMultiplicity` | src/App.tsx:60-65 | the count of a priority is its multiplicity in `PrioritiesOf(todoList)`, the list of the items' priorities produced by the map step at line 61, so the fold over that list counts every item exactly once |
| `Counting.CountAfterDelete` | src/App.tsx:78-82 | after deleting a valid position, the deleted item's priority counts one less and the other counts are unchanged |
| `Rendering.CreateEnabled` | src/App.tsx:122-125 | the create button's enabled state, true exactly for a non-empty title; `BlankTitleIsSubmittable` and `TodoApp.App.Submit` state its consequences |
| `Rendering.RenderRow` | src/App.tsx:29-52 | one list row; `Render` states that row `i` shows item `i`'s id, title, badge colour and label and deletes position `i` |
| `Rendering.BlankTitleIsSubmittable` | src/App.tsx:122-125 | the create button is enabled for a title of spaces and disabled for the empty title |
| `Rendering.Render` | src/App.tsx:132-148 | the prompt is shown exactly when the list is empty; otherwise there is one summary entry per priority in display order, holding its label and its count with default 0, and one row per item in list order, with its id, its title, its priority's badge class (never empty) and label, and a delete button bound to its own position |
| `Rendering.DeleteButtonRemovesItsRow` | src/App.tsx:46-49 | the delete button of the row at `k` removes exactly the item at position `k` |
| `TodoApp.App.constructor` | src/App.tsx:69-71 | the initial state is the empty title, priority Mid and the empty list |
| `TodoApp.App.EditTitle` | src/App.tsx:97 | the title becomes the typed text verbatim, and nothing else changes |
| `TodoApp.App.EditPriority` | src/App.tsx:105-110 | a valid code sets the priority to the one with that code; any other value leaves the priority unchanged; nothing else changes |
| `TodoApp.App.Submit` | src/App.tsx:73-76 | with a non-empty title, exactly one item is appended at the end with the given id, the draft title and the draft priority; the earlier items are unchanged, the title becomes empty and the priority is kept. With an empty title, whose button is disabled, nothing changes. The list invariant is kept |
| `TodoApp.App.Delete` | src/App.tsx:78-80 | the list becomes the filtered list; a valid position shrinks it by one, an out-of-range one leaves it unchanged; the draft is untouched and the list invariant is kept |
| `TodoApp.App.Show` | src/App.tsx:134-146 | the prompt is shown exactly when the list is empty; otherwise the three summary entries are High, Mid and Low, each with its label and its count in the list, the counts add up to the list's length, and row `i` is the row of item `i` |

## Left out

- The fixed-iteration busy loop at the start of `countByPriority` (src/App.tsx:59). It has no functional effect.
- The id generation `Date.now().toString()`. The id is a parameter of `Submit`. The model therefore claims nothing about the uniqueness of ids, which the source does not guarantee within one millisecond.
- The mount-time `console.log` of the title input's value. It is output through a DOM reference.
- `React.useMemo` and `React.useCallback` caching. They affect performance only, and the model recomputes the counts on every `Show`.
- The string-to-number conversion `Number(e.target.value)` in the priority selector. The selector's input is modelled as an `int`.
- React's asynchronous batching of state setters. Each handler is modelled as one atomic transition.
- JSX layout, Bootstrap classes other than the badge colour, and the fixed texts of the form labels, the create button and the empty-list prompt. Only the priority labels and badge colours are modelled.
- `TodoApp.App.Delete`: a row's position is captured when the page is rendered, and the model treats a click as applying to the current list. A change to the list between render and click cannot happen in the single-threaded event loop.
