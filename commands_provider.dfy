/**
 * The data behind the commands tree (src/providers/commandsProvider.ts): the
 * two command lists it was last given, and the pull-based projection of
 * them into roots and children.
 */
module Providers {
  import opened Commands
  import opened LabelOrder
  import opened JsArrays
  import opened TreeItems

  const CommandsNamespace := "Commands"
  const CustomCommandsNamespace := "Custom commands"

  class CommandsProvider {
    var commands: CommandArray
    var customCommands: CommandArray
    var nestingEnabled: bool
    /** How many times `onDidChangeTreeData` has fired (always with `undefined`). */
    var changeEvents: nat

    /** Both lists start empty; nesting is off unless asked for. */
    constructor(nestingEnabled: bool := false)
      ensures commands.items == [] && customCommands.items == []
      ensures fresh(commands) && fresh(customCommands)
      ensures this.nestingEnabled == nestingEnabled && changeEvents == 0
    {
      commands := new CommandArray([]);
      customCommands := new CommandArray([]);
      this.nestingEnabled := nestingEnabled;
      changeEvents := 0;
    }

    /** Records the flag and nothing else; the lists the tree is projected from stay as they were. */
    method SetTreeNesting(enabled: bool)
      modifies this`nestingEnabled
      ensures nestingEnabled == enabled
      ensures commands == old(commands) && customCommands == old(customCommands)
    {
      nestingEnabled := enabled;
    }

    /**
     * One command node per command, in list order, labelled by the command and
     * not expandable; description, menu tag and icon are those the command
     * node constructor derives from the command.
     */
    static function GetCommandsTreeItems(list: seq<Command>): (items: seq<TreeItem>)
      ensures |items| == |list|
      ensures forall i :: 0 <= i < |items| ==>
        items[i].CommandTreeItem? && items[i].letsCommand == list[i] &&
        items[i].labelText == list[i].labelText && items[i].collapsibleState == CollapseNone
    ensures forall i :: 0 <= i < |items| ==> items[i] == NewCommandTreeItem(list[i].labelText, list[i], CollapseNone)
    {
      seq(|list|, i requires 0 <= i < |list| => NewCommandTreeItem(list[i].labelText, list[i], CollapseNone))
    }

    /** The two namespace roots over the current lists. */
    function GetNamespaces(): (items: seq<TreeItem>)
      reads this, commands, customCommands
      ensures |items| == 2
      ensures items[0].NamespaceTreeItem? && items[0].labelText == CommandsNamespace &&
        items[0].letsCommands == commands.items
      ensures items[1].NamespaceTreeItem? && items[1].labelText == CustomCommandsNamespace &&
        items[1].letsCommands == customCommands.items
      ensures forall i :: 0 <= i < 2 ==>
        items[i].collapsibleState == Expanded && items[i].workspace == "" &&
        items[i].description == Text("") && items[i].contextValue == NamespaceContext
    {
      [NewNamespaceTreeItem(CommandsNamespace, "", commands.items, Expanded),
       NewNamespaceTreeItem(CustomCommandsNamespace, "", customCommands.items, Expanded)]
    }

    /**
     * The roots (no parent): the two namespaces when there are custom
     * commands, the base command nodes otherwise.  A namespace's children are
     * its own commands; any other parent gets the base command nodes.  The
     * nesting flag plays no part.
     */
    function GetChildren(parent: Option<TreeItem>): (items: seq<TreeItem>)
      reads this, commands, customCommands
      ensures parent.None? && |customCommands.items| > 0 ==> items == GetNamespaces()
      ensures parent.Some? && parent.value.NamespaceTreeItem? ==>
        items == GetCommandsTreeItems(parent.value.letsCommands)
      ensures (parent.None? && |customCommands.items| == 0) || (parent.Some? && parent.value.CommandTreeItem?) ==>
        items == GetCommandsTreeItems(commands.items)
    {
      if parent.None? && |customCommands.items| > 0 then GetNamespaces()
      else if parent.Some? && parent.value.NamespaceTreeItem? then GetCommandsTreeItems(parent.value.letsCommands)
      else GetCommandsTreeItems(commands.items)
    }

    /**
     * Takes over each list that is given (`null` stands for an omitted one)
     * and sorts it in place, descending by label; the caller's array is the
     * one reordered.  An omitted list stays as it was.  Exactly one change
     * event fires, also when both are omitted.
     */
    method Refresh(newCommands: CommandArray?, newCustomCommands: CommandArray?)
      modifies this, newCommands, newCustomCommands
      ensures commands == (if newCommands != null then newCommands else old(commands))
      ensures customCommands == (if newCustomCommands != null then newCustomCommands else old(customCommands))
      ensures newCommands != null ==>
        multiset(newCommands.items) == multiset(old(newCommands.items)) && SortedDescending(newCommands.items)
      ensures newCustomCommands != null ==>
        multiset(newCustomCommands.items) == multiset(old(newCustomCommands.items)) &&
        SortedDescending(newCustomCommands.items)
      ensures nestingEnabled == old(nestingEnabled)
      ensures changeEvents == old(changeEvents) + 1
    {
      if newCommands != null {
        commands := newCommands;
        commands.SortByLabelDescending();
      }
      if newCustomCommands != null {
        customCommands := newCustomCommands;
        customCommands.SortByLabelDescending();
      }
      changeEvents := changeEvents + 1;
    }
  }

  /**
   * The custom commands are reachable from the roots, under the second
   * namespace, exactly when there is at least one of them.
   */
  lemma CustomCommandsShownOnlyNested(p: CommandsProvider)
    ensures var roots := p.GetChildren(None);
      |p.customCommands.items| > 0 <==>
        (|roots| == 2 && roots[1].NamespaceTreeItem? &&
         p.GetChildren(Some(roots[1])) == CommandsProvider.GetCommandsTreeItems(p.customCommands.items))
  {
    var roots := p.GetChildren(None);
    if |p.customCommands.items| == 0 && |roots| == 2 {
      assert roots[1].CommandTreeItem?;
    }
  }

  /**
   * The tree depends on the two lists only: providers holding the same lists
   * answer alike whatever their nesting flags.
   */
  lemma ChildrenIgnoreNesting(p: CommandsProvider, q: CommandsProvider, parent: Option<TreeItem>)
    requires p.commands.items == q.commands.items && p.customCommands.items == q.customCommands.items
    ensures p.GetChildren(parent) == q.GetChildren(parent)
  {
  }
}
