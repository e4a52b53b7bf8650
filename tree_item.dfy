/**
 * The two kinds of node of the commands tree (src/components/treeItem.ts):
 * a namespace grouping a list of commands, and a node for one command whose
 * description, menu tag and icon are derived from the command.
 */
module TreeItems {
  import opened Commands

  /** `vscode.TreeItemCollapsibleState`. */
  datatype CollapsibleState = CollapseNone | Collapsed | Expanded

  /** A tree item's `description`: a text, or `false` for none at all. */
  datatype ItemDescription = Text(text: string) | Hidden

  /** `new vscode.ThemeIcon(id, new vscode.ThemeColor(color))`. */
  datatype ThemeIcon = ThemeIcon(id: string, color: string)

  const NamespaceContext := "workspaceTreeItem"
  const CommandContext := "commandTreeItem"
  const CustomCommandContext := "customCommandTreeItem"
  const CommandIcon := "debug-breakpoint"
  const CustomCommandIcon := "debug-breakpoint-log"
  const IconColor := "letsls.upToDateIcon"
  /** Descriptions starting with this text are not shown. */
  const NoDescriptionPrefix := "No description"

  datatype TreeItem =
    | NamespaceTreeItem(
        labelText: string,
        workspace: string,
        letsCommands: seq<Command>,
        collapsibleState: CollapsibleState,
        description: ItemDescription,
        contextValue: string)
    | CommandTreeItem(
        labelText: string,
        letsCommand: Command,
        collapsibleState: CollapsibleState,
        description: ItemDescription,
        iconPath: ThemeIcon,
        contextValue: string)

  /**
   * A namespace node: it keeps what it was given, shows its workspace as its
   * description and carries the namespace menu tag.
   */
  function NewNamespaceTreeItem(labelText: string, workspace: string, letsCommands: seq<Command>, state: CollapsibleState): (item: TreeItem)
    ensures item.NamespaceTreeItem?
    ensures item.labelText == labelText && item.workspace == workspace
    ensures item.letsCommands == letsCommands && item.collapsibleState == state
    ensures item.description == Text(workspace) && item.contextValue == NamespaceContext
  {
    NamespaceTreeItem(labelText, workspace, letsCommands, state, Text(workspace), NamespaceContext)
  }

  /**
   * A command node.  Its description is the command's, or the empty text
   * when the command has none or an empty one, and is hidden when it starts
   * with "No description".  Custom commands get their own menu tag and icon.
   */
  function NewCommandTreeItem(labelText: string, letsCommand: Command, state: CollapsibleState): (item: TreeItem)
    ensures item.CommandTreeItem?
    ensures item.labelText == labelText && item.letsCommand == letsCommand && item.collapsibleState == state
    ensures item.description == Hidden <==>
      letsCommand.description.Some? && NoDescriptionPrefix <= letsCommand.description.value
    ensures item.description.Text? ==>
      item.description.text == (if letsCommand.description.Some? then letsCommand.description.value else "")
    ensures item.contextValue == CustomCommandContext <==> IsCustomCommand(letsCommand)
    ensures item.contextValue == CommandContext <==> !IsCustomCommand(letsCommand)
    ensures item.iconPath.id == (if IsCustomCommand(letsCommand) then CustomCommandIcon else CommandIcon)
    ensures item.iconPath.color == IconColor
  {
    // `description || ""`: only a missing description needs the fallback,
    // an empty one already is the empty text.
    var text := if letsCommand.description.Some? then letsCommand.description.value else "";
    var description := if NoDescriptionPrefix <= text then Hidden else Text(text);
    var isCustom := IsCustomCommand(letsCommand);
    var icon := if isCustom then CustomCommandIcon else CommandIcon;
    CommandTreeItem(labelText, letsCommand, state, description, ThemeIcon(icon, IconColor),
      if isCustom then CustomCommandContext else CommandContext)
  }

  /** A command node's menu tag and icon always tell the same story. */
  lemma ContextMatchesIcon(labelText: string, letsCommand: Command, state: CollapsibleState)
    ensures var item := NewCommandTreeItem(labelText, letsCommand, state);
      item.contextValue == CustomCommandContext <==> item.iconPath.id == CustomCommandIcon
  {
  }
}
