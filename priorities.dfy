/**
 * The three priority levels of a to-do item, their numeric codes, their
 * display labels and badge colours (src/App.tsx:5-15, 34-40).
 */
module Priorities {
  import opened Wrappers

  datatype Priority = High | Mid | Low

  /** The enum value of a priority; also the value of its option in the selector. */
  function Code(p: Priority): int {
    match p
    case High => 1
    case Mid => 2
    case Low => 3
  }

  /**
   * The selector's change handler accepts a value only when it is one of the
   * three codes; any other value names no priority.
   */
  function ParsePriority(value: int): (r: Option<Priority>)
    ensures r.Some? <==> (value == 1 || value == 2 || value == 3)
    ensures r.Some? ==> Code(r.value) == value
  {
    if value == 1 then Some(High)
    else if value == 2 then Some(Mid)
    else if value == 3 then Some(Low)
    else None
  }

  /** Every priority's code is accepted by the validator and read back as that priority. */
  lemma ParseCode(p: Priority)
    ensures ParsePriority(Code(p)) == Some(p)
  {
  }

  /** The label shown for a priority (the PriorityNames table). */
  function Label(p: Priority): string {
    match p
    case High => "高"
    case Mid => "中"
    case Low => "低"
  }

  /** Distinct priorities have distinct labels. */
  lemma LabelInjective(p: Priority, q: Priority)
    ensures Label(p) == Label(q) ==> p == q
  {
  }

  /**
   * The badge colour class chosen by the conditional chain in the list view.
   * It tests the numeric value of the item's priority and falls back to the
   * empty class for a value that is none of the three codes.
   */
  function BadgeClassOfCode(code: int): string {
    if code == Code(High) then "badge-danger"
    else if code == Code(Mid) then "badge-warning"
    else if code == Code(Low) then "badge-success"
    else ""
  }

  /** The badge colour class of a priority. */
  function BadgeClass(p: Priority): string {
    BadgeClassOfCode(Code(p))
  }

  /**
   * High is shown as danger, Mid as warning and Low as success; the fallback
   * class is produced exactly for the values the selector's validator
   * rejects, so no stored priority ever reaches it.
   */
  lemma BadgeColours(code: int)
    ensures BadgeClass(High) == "badge-danger"
    ensures BadgeClass(Mid) == "badge-warning"
    ensures BadgeClass(Low) == "badge-success"
    ensures BadgeClassOfCode(code) == "" <==> ParsePriority(code).None?
  {
  }

  /** The badge colour is one-to-one: distinct priorities get distinct classes. */
  lemma BadgeClassInjective(p: Priority, q: Priority)
    ensures BadgeClass(p) == BadgeClass(q) ==> p == q
  {
  }

  /**
   * The order in which the labels table is enumerated (its integer keys in
   * ascending order): the selector's options and the count summary use it.
   */
  const DisplayOrder: seq<Priority> := [High, Mid, Low]

  /** The display order lists every priority exactly once, by ascending code. */
  lemma DisplayOrderIsComplete(p: Priority)
    ensures multiset(DisplayOrder)[p] == 1
    ensures forall i, j :: 0 <= i < j < |DisplayOrder| ==> Code(DisplayOrder[i]) < Code(DisplayOrder[j])
  {
  }
}
