# vscode-lets command core, modelled in Dafny

This project models the command-handling core of the VS Code extension for
the `lets` task runner:

- the **command lister and runner** (`LetsService`) builds invocation lines,
  parses the `lets completion --list --verbose` output into commands, and
  sends commands to one shared terminal;
- the **tree data provider** (`CommandsProvider`) stores the base and the
  custom command lists, sorts them in place by label, and projects them into
  tree nodes;
- the **command store** (`LetsState`) and the **command value type**
  (`Command`);
- the **tree items** (`CommandTreeItem`, `NamespaceTreeItem`), whose
  description, menu tag and icon are derived from a command;
- the **orchestrator handlers** (`LetsExtension`): loading stored custom
  commands, refresh, running, cloning and removing commands.

One module per source file: `Commands` (`command.dfy`), `State`
(`state.dfy`), `TreeItems` (`tree_item.dfy`), `Services`
(`lets_service.dfy`), `Providers` (`commands_provider.dfy`) and `Lets`
(`lets.dfy`). Three helper modules hold the JavaScript semantics the code
relies on. `Text` (`text.dfy`) has `trim` and `split`. `LabelOrder`
(`label_order.dfy`) has string `<` and the sort contract. `JsArrays`
(`js_array.dfy`) has a growable array held by reference.

The pieces of the environment are made explicit:

- A JavaScript array is a `CommandArray` object. The store and the provider
  hold the same arrays, so the provider's in-place sort also reorders the
  store's lists, as it does in the extension.
- The static `LetsService.terminal` field is a `TerminalSlot` object that is
  passed to `RunCommand`. A terminal is an object with an exit status, the
  texts sent to it, and `shown`/`disposed` flags.
- Workspace storage is a map from key to stored list.
- The answers to input boxes are `Option<string>` parameters. `None` means
  the box was dismissed.
- What the user is shown (input boxes and information messages) is logged in
  `LetsExtension.ui`.
- The tree-change event is a counter.
- Each refresh is given the outcome (`ExecutionResult`) of its listing run.

Some behaviour of the code is easy to misread; the model keeps it as the code
has it:

- `trim()` strips whitespace at both ends of the listing output, not only
  at the end.
- A listing line keeps only the text between its first and second colon as
  the description, not everything after the first colon.
- A line without a colon gets no description (`undefined`), not an empty one.
- `getChildren` never reads `nestingEnabled`. The root shows the two
  namespaces whenever there are custom commands, whatever the flag says.

## Model

| member | source | states |
|---|---|---|
| `Commands.NewCommand` | src/models/command.ts:8-12 | name, description and args are stored as given; args defaults to null |
| `Commands.NewCommandDefaultArgs` | src/models/command.ts:8-11 | omitting args equals passing null, field for field |
| `Commands.IsCustomCommand` | src/lets.ts:202 | a command counts as custom exactly when it is not a base command; `isCustomCommand` lives in src/models/index.ts, which is not part of this model, so this is the model's reading of it |
| `Commands.ConstructorsDecideCustom` | src/components/treeItem.ts:32 | clones are custom and commands built from a listing are not, so menu tag, icon and the remove handler tell the two apart by how a command was made |
| `Commands.NewCustomCommand` | src/lets.ts:190 | a clone keeps the base name and description, holds the args verbatim, shows the custom name and carries the id |
| `Services.CompletedRun` | src/services/letsService.ts:26 | a run has failed exactly when an error object is present or stderr is non-empty |
| `Services.FormatCommand` | src/services/letsService.ts:31-37 | the line is `executable command` for null args and `executable command args` otherwise, with no escaping; it always starts with `executable command` |
| `Services.FormatCommandDeterminesArgs` | src/services/letsService.ts:31-37 | null, the empty string and every other args give different lines, so an empty args leaves a trailing space |
| `Services.ListingRequest` | src/services/letsService.ts:61 | the listing is requested with `executable completion --list --verbose` |
| `Services.ParseLine` | src/services/letsService.ts:70-71 | the name is the text before the first colon; the description is the text between the first and second colon; anything after a second colon is dropped; a line without a colon has no description |
| `Services.ReadCommands` | src/services/letsService.ts:62-72 | a failed run gives no commands; otherwise there is one command per newline-separated piece of the trimmed output, in order, and the pieces joined by newlines give back the trimmed output |
| `Services.ReadCommandsBlankOutput` | src/services/letsService.ts:67-72 | blank output gives exactly one command, with an empty name and no description |
| `Services.LetsService.constructor` | src/services/letsService.ts:19-21 | the service keeps the executable it is given |
| `Services.LetsService.RunCommand` | src/services/letsService.ts:39-57 | an exited terminal is disposed and replaced by a fresh one; a live one is reused; a missing one is created; afterwards exactly one live, shown terminal is held and it has been sent the command's formatted line; a reused terminal gets exactly that one line appended; a disposed terminal is otherwise left as it was (no text sent, not shown) |
| `Text.Trim` | src/services/letsService.ts:67 | the result neither starts nor ends with whitespace; it is an infix of the input and only whitespace is cut on either side |
| `Text.LeadingWhitespace` | src/services/letsService.ts:67 | the count is the length of the maximal whitespace run the input starts with: all of it whitespace, and the character after it is not |
| `Text.TrailingWhitespace` | src/services/letsService.ts:67 | the count is the length of the maximal whitespace run the input ends with: all of it whitespace, and the character before it is not |
| `Text.SplitFirstTwo` | src/services/letsService.ts:70-71 | a string without the separator is its own single piece; otherwise it starts with the first piece, the separator and the second piece, and anything after them starts with the separator |
| `Text.Split` | src/services/letsService.ts:67 | a split always has at least one piece |
| `Text.SplitShape` | src/services/letsService.ts:67 | there is one more piece than separators, and no piece contains the separator |
| `Text.JoinSplit` | src/services/letsService.ts:67 | joining the pieces with the separator gives back the input |
| `Text.SplitJoin` | src/services/letsService.ts:70 | splitting the join of separator-free pieces gives back the pieces, so the split is unique |
| `LabelOrder.LexLess` | src/providers/commandsProvider.ts:65 | the string `<` behind the comparator's `>`: a proper prefix is below the longer string, and nothing is below one of its own prefixes |
| `LabelOrder.LexLessFirstDifference` | src/providers/commandsProvider.ts:65 | the comparison agrees with the textbook definition: a proper prefix, or a smaller character at the first position where the strings differ |
| `LabelOrder.LexLessTotal` | src/providers/commandsProvider.ts:65 | the label comparison orders any two different labels one way or the other |
| `LabelOrder.LexLessTransitive` | src/providers/commandsProvider.ts:65 | the label comparison is transitive |
| `LabelOrder.SortByLabelCorrect` | src/providers/commandsProvider.ts:65 | a correct descending sort exists: the reference sort returns a permutation whose labels never increase |
| `LabelOrder.SortedDistinctIsStrict` | src/providers/commandsProvider.ts:65 | with pairwise distinct labels, the sorted order is strictly descending |
| `LabelOrder.SortedPermutationUnique` | src/providers/commandsProvider.ts:65 | with pairwise distinct labels, every descending permutation is the same list, so refreshing with the same list gives the same tree |
| `LabelOrder.SortExample` | src/providers/commandsProvider.ts:65 | labels b, a, c are sorted to c, b, a |
| `JsArrays.CommandArray.Push` | src/models/state.ts:12 | push appends at the end |
| `JsArrays.CommandArray.SortByLabelDescending` | src/providers/commandsProvider.ts:65 | the in-place sort leaves a permutation whose labels never increase |
| `TreeItems.NewNamespaceTreeItem` | src/components/treeItem.ts:6-17 | a namespace keeps its label, commands and collapsible state; its description is its workspace; its menu tag is `workspaceTreeItem` |
| `TreeItems.NewCommandTreeItem` | src/components/treeItem.ts:20-36 | the description is the command's, or empty when it has none, and is hidden (`false`) when it starts with "No description"; the menu tag and the icon are the custom ones exactly for custom commands; label, command and collapsible state are kept |
| `TreeItems.ContextMatchesIcon` | src/components/treeItem.ts:32-35 | the menu tag is the custom one exactly when the icon is the custom one |
| `Providers.CommandsProvider.constructor` | src/providers/commandsProvider.ts:9-14 | both lists start empty; nesting is off unless asked for |
| `Providers.CommandsProvider.SetTreeNesting` | src/providers/commandsProvider.ts:16-18 | only the flag changes |
| `Providers.CommandsProvider.GetCommandsTreeItems` | src/providers/commandsProvider.ts:34-43 | there is one command node per command, in list order, labelled by the command and not collapsible, each built by the command-node constructor, so its description, menu tag and icon follow the command (custom commands get the custom tag and icon) |
| `Providers.CommandsProvider.GetNamespaces` | src/providers/commandsProvider.ts:45-60 | the roots are "Commands" over the base list, then "Custom commands" over the custom list, both expanded, with an empty workspace shown as their (empty) description, and both tagged `workspaceTreeItem` |
| `Providers.CommandsProvider.GetChildren` | src/providers/commandsProvider.ts:24-32 | the roots are the namespaces when there are custom commands and the base command nodes otherwise; a namespace's children are its own command nodes; any other parent gets the base command nodes |
| `Providers.CustomCommandsShownOnlyNested` | src/providers/commandsProvider.ts:24-31 | the custom commands can be reached from the roots exactly when there is at least one |
| `Providers.ChildrenIgnoreNesting` | src/providers/commandsProvider.ts:16-32 | the tree depends on the two lists only, never on the nesting flag |
| `Providers.CommandsProvider.Refresh` | src/providers/commandsProvider.ts:62-72 | each given list (an empty one too) replaces the stored one and is sorted in place, so the caller's array is reordered into a descending permutation; an omitted list is kept; exactly one change event fires |
| `State.LetsState.constructor` | src/models/state.ts:4-5 | both lists start empty |
| `State.LetsState.AddCustomCommand` | src/models/state.ts:11-13 | the command is appended with no duplicate check; earlier entries and the base list are unchanged |
| `State.LetsState.RemoveCustomCommand` | src/lets.ts:205 | the custom list becomes a new array without the entries carrying the command's id |
| `State.HasId` | src/lets.ts:208 | the `command.id === id` test of the filter: only custom commands carry an id (the `id` field is defined in src/models/index.ts, which is not part of this model), and a custom command matches exactly its own id |
| `State.WithoutId` | src/lets.ts:208 | no entry carrying the id survives, and every survivor comes from the input |
| `State.WithoutIdKeepsOthers` | src/lets.ts:208 | every entry without the id survives as often as it occurred |
| `State.WithoutIdAppend` | src/lets.ts:208 | filtering distributes over concatenation, so the survivors keep their order |
| `State.WithoutIdAbsent` | src/lets.ts:208 | a list where no entry has the id is left unchanged |
| `Lets.StoredOrEmpty` | src/lets.ts:103 | a missing storage key reads as the empty list |
| `Lets.ItemCommand` | src/lets.ts:153 | only command nodes carry a command |
| `Lets.CloneDescription` | src/lets.ts:190 | the custom description is used if it is non-empty, otherwise the base description |
| `Lets.ClonePrompts` | src/lets.ts:164-188 | a clone asks first for args (with the `<arg1> <arg2> ...` placeholder), then for the custom name (starting from the base name), then for an optional description, with the source's prompt texts |
| `Lets.LetsExtension.constructor` | src/lets.ts:31-36 | a new extension has an empty store and an empty tree |
| `Lets.LetsExtension.LoadCustomCommands` | src/lets.ts:102-107 | the stored custom commands are appended in storage order; a missing key changes nothing |
| `Lets.LetsExtension.Refresh` | src/lets.ts:118-121 | the base list becomes the listing result; both of the store's lists go to the view, which then holds them sorted |
| `Lets.LetsExtension.SetTreeNesting` | src/lets.ts:113-116 | the flag goes to the provider, the view is notified once, and the context flag is set |
| `Lets.LetsExtension.RunCommandHandler` | src/lets.ts:151-156 | for a command node the shared terminal is handled as `RunCommand` does: a live one is reused and gets exactly the command's line appended; an exited one is disposed, left otherwise unchanged, and replaced by a fresh terminal that has been sent only that line; a missing one is created the same way; the held terminal is live and shown; any other item leaves the terminal slot and the terminal it holds untouched |
| `Lets.LetsExtension.CloneCommand` | src/lets.ts:159-199 | a dismissed args box, a dismissed name box or a name equal to the base name each abort with their message, before the next box, with store, storage and provider (lists, flag, event count) untouched; otherwise the clone joins the store's own custom array and the stored list, and the view is refreshed, leaving both of the store's lists sorted (the base list a permutation of the listing result); the nesting flag and the context flag never change |
| `Lets.LetsExtension.AddAndStore` | src/lets.ts:190-197 | the clone is appended to the store and to the stored list (a missing key counts as empty), the list is written back, and the view is refreshed, leaving both of the store's lists sorted; the store keeps its custom array and the nesting flag is kept |
| `Lets.LetsExtension.RemoveCustomCommand` | src/lets.ts:201-212 | base commands and other items leave store, storage and provider untouched; for a custom command the stored list is written back without every entry carrying the id and the view is refreshed, leaving both of the store's lists sorted; with no stored list the handler fails after changing the store, leaving storage and provider as they were; the nesting and context flags and the ui log never change |

## Left out

- The language-client lifecycle (`activate`, `isRunning`, `deactivate`, and
  the restart handler, src/lets.ts:38-100, 109-111, 124-137) is not modelled.
  It wraps the vscode-languageclient library and a subprocess, and it is
  asynchronous.
- `checkUpdates` (src/lets.ts:215-266) is not modelled. It does network and
  process I/O and is never called.
- `execute` (src/services/letsService.ts:23-29) is not modelled, since it
  spawns a process, and neither is the workspace-folder lookup. `ReadCommands`
  parses a given run outcome.
- Logging (`log.info`) and the tree-view wiring are not modelled. This covers
  `createTreeView`, `ActivityBar` (the model uses its provider directly),
  src/extension.ts and src/config.ts.
- src/models/index.ts is not part of this model. That file holds
  `createCommand`, `createCustomCommand`, `isCustomCommand`, the
  `label`/`id` fields and the fingerprint hash. The model assumes a base
  command's label is its name and a clone's label is its custom name. The
  fingerprint is a function parameter applied to the base name and the args.
- `State.LetsState.RemoveCustomCommand` is called at src/lets.ts:205, but
  src/models/state.ts does not define it. The model removes the entries
  carrying the id into a new array.
- `JsArrays.CommandArray.SortByLabelDescending`: does not fix the order of
  entries with equal labels. With the comparator `a > b ? -1 : 1` that
  order is up to the engine.
- `Providers.CommandsProvider.Refresh`: also leaves the order of equal
  labels open, for the same reason.
- `LabelOrder.LexLessTotal`: characters are compared as Unicode scalar
  values, while JavaScript compares UTF-16 code units. The two orders differ
  only between characters above U+FFFF and those in U+E000 to U+FFFF.
- `TreeItems.NewNamespaceTreeItem`: a namespace holds a copy of its command
  list, not the array reference. A push made after the roots were computed
  is therefore not seen through an older namespace node.
- The tree items' optional click `command` is not modelled, since the
  provider always passes `undefined`. VS Code's other `TreeItem` properties
  are not modelled either.
- Workspace storage holds values. An array returned by `get` and then
  pushed to is not shared with storage until it is written back.
- Interleavings of concurrent asynchronous handlers are not modelled. Each
  handler runs to completion with its prompt answers and listing outcome
  given up front.
