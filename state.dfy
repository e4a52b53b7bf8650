/**
 * The command store (src/models/state.ts): the base commands from the last
 * listing and the user's custom commands, each a shared JavaScript array.
 */
module State {
  import opened Commands
  import opened JsArrays

  /**
   * True of every custom command carrying `id` (the source's
   * `command.id === id`).  Only clones carry an id; a base command matches
   * no id.
   */
  predicate HasId(c: Command, id: Id)
    ensures HasId(c, id) ==> IsCustomCommand(c)
    ensures IsCustomCommand(c) ==> (HasId(c, id) <==> c.kind.id == id)
  {
    c.kind.Custom? && c.kind.id == id
  }

  /**
   * `list.filter(command => command.id !== id)`: drops every entry carrying
   * `id`, keeps the others in their order.
   */
  function WithoutId(s: seq<Command>, id: Id): (r: seq<Command>)
    ensures |r| <= |s|
    ensures forall c :: c in r ==> c in s && !HasId(c, id)
  {
    if |s| == 0 then []
    else if HasId(s[0], id) then WithoutId(s[1..], id)
    else [s[0]] + WithoutId(s[1..], id)
  }

  /** Every entry without the id survives as often as it occurred. */
  lemma {:induction false} WithoutIdKeepsOthers(s: seq<Command>, id: Id, c: Command)
    requires !HasId(c, id)
    ensures multiset(WithoutId(s, id))[c] == multiset(s)[c]
  {
    if |s| > 0 {
      WithoutIdKeepsOthers(s[1..], id, c);
      assert s == [s[0]] + s[1..];
    }
  }

  /** Filtering a concatenation filters each part: the survivors keep their relative order. */
  lemma {:induction false} WithoutIdAppend(a: seq<Command>, b: seq<Command>, id: Id)
    ensures WithoutId(a + b, id) == WithoutId(a, id) + WithoutId(b, id)
  {
    if |a| == 0 {
      assert a + b == b;
    } else {
      assert (a + b)[0] == a[0];
      assert (a + b)[1..] == a[1..] + b;
      WithoutIdAppend(a[1..], b, id);
    }
  }

  /** A list in which no entry carries the id is left as it is. */
  lemma {:induction false} WithoutIdAbsent(s: seq<Command>, id: Id)
    requires forall i :: 0 <= i < |s| ==> !HasId(s[i], id)
    ensures WithoutId(s, id) == s
  {
    if |s| > 0 {
      WithoutIdAbsent(s[1..], id);
    }
  }

  class LetsState {
    var commands: CommandArray
    var customCommands: CommandArray

    /** The two lists are different arrays. */
    ghost predicate Valid()
      reads this
    {
      commands != customCommands
    }

    /** Both lists start empty. */
    constructor()
      ensures Valid()
      ensures commands.items == [] && customCommands.items == []
      ensures fresh(commands) && fresh(customCommands)
    {
      commands := new CommandArray([]);
      customCommands := new CommandArray([]);
    }

    /**
     * Appends `c` to the custom commands, with no duplicate check; the base
     * commands are not touched.
     */
    method AddCustomCommand(c: Command)
      requires Valid()
      modifies customCommands
      ensures Valid()
      ensures customCommands.items == old(customCommands.items) + [c]
      ensures commands.items == old(commands.items)
    {
      customCommands.Push(c);
    }

    /**
     * Removes every custom command carrying `c`'s id, by installing a new
     * filtered array.  src/models/state.ts does not define this method; its
     * one caller (src/lets.ts:205) is modelled with the same filter by id the
     * caller applies to the stored list.  A base command removes nothing.
     */
    method RemoveCustomCommand(c: Command)
      requires Valid()
      modifies this
      ensures Valid() && commands == old(commands) && fresh(customCommands)
      ensures customCommands.items ==
        if c.kind.Custom? then WithoutId(old(customCommands.items), c.kind.id) else old(customCommands.items)
    {
      var remaining := if c.kind.Custom? then WithoutId(customCommands.items, c.kind.id) else customCommands.items;
      customCommands := new CommandArray(remaining);
    }
  }
}
