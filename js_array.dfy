/**
 * A JavaScript `Command[]`: a growable list held by reference.  Several
 * owners may hold the same array (the state store and the tree provider do),
 * so a push or an in-place sort through one owner is seen by the others.
 */
module JsArrays {
  import opened Commands
  import opened LabelOrder

  class CommandArray {
    var items: seq<Command>

    /** An array literal or a value returned by `map`/`filter`. */
    constructor(items: seq<Command>)
      ensures this.items == items
    {
      this.items := items;
    }

    /** `push`: appends at the end. */
    method Push(c: Command)
      modifies this
      ensures items == old(items) + [c]
    {
      items := items + [c];
    }

    /**
     * `sort((a, b) => (a.label > b.label ? -1 : 1))`: reorders the array in
     * place into a permutation whose labels never increase.  Which of two
     * entries with the same label comes first is left open.
     */
    method SortByLabelDescending()
      modifies this
      ensures multiset(items) == multiset(old(items))
      ensures SortedDescending(items)
    {
      SortByLabelCorrect(items);
      items := SortByLabel(items);
    }
  }
}
