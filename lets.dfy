/**
 * The orchestrator (src/lets.ts): it owns the command store, the tree
 * provider and the lister/runner, and implements the user-facing handlers
 * that load, refresh, run, clone and remove commands.
 *
 * The environment is made explicit: the workspace storage is a map from key
 * to stored list, the answers to the input boxes are `Option<string>`
 * parameters (`None` when the box is dismissed), what the user is shown is
 * recorded in `ui`, and each refresh is given the outcome of its listing run.
 */
module Lets {
  import opened Commands
  import opened LabelOrder
  import opened JsArrays
  import opened State
  import opened Services
  import opened TreeItems
  import opened Providers

  /** The workspace storage key of the custom commands. */
  const CustomCommandsKey := "lets:customCommands"

  const ArgsPrompt := "Enter Command Line Arguments:"
  const ArgsPlaceHolder := "<arg1> <arg2> ..."
  const NamePrompt := "Enter Custom Command Name:"
  const DescriptionPrompt := "Enter Custom Description (optional):"
  const NoArgsMessage := "No args supplied"
  const NoNameMessage := "No custom name supplied"
  const SameNameMessage := "Custom name cannot be the same as the original name"

  /** What the user is shown: an input box (with its placeholder and initial value) or an information message. */
  datatype UiEvent =
    | InputBox(prompt: string, placeHolder: Option<string>, value: Option<string>)
    | Info(message: string)

  type Storage = map<string, seq<Command>>

  /** `workspaceState.get(key, [])`. */
  function StoredOrEmpty(storage: Storage): (stored: seq<Command>)
    ensures CustomCommandsKey in storage ==> stored == storage[CustomCommandsKey]
    ensures CustomCommandsKey !in storage ==> stored == []
  {
    if CustomCommandsKey in storage then storage[CustomCommandsKey] else []
  }

  /** The command a tree item carries, if it is a command node (`treeItem?.letsCommand`). */
  function ItemCommand(item: Option<TreeItem>): (c: Option<Command>)
    ensures c.Some? <==> item.Some? && item.value.CommandTreeItem?
    ensures c.Some? ==> c.value == item.value.letsCommand
  {
    if item.Some? && item.value.CommandTreeItem? then Some(item.value.letsCommand) else None
  }

  /** The description a clone gets: the user's if non-empty, the base command's otherwise. */
  function CloneDescription(base: Command, answer: Option<string>): (d: Option<string>)
    ensures answer.Some? && answer.value != "" ==> d == answer
    ensures answer.None? || answer == Some("") ==> d == base.description
  {
    if answer.Some? && answer.value != "" then answer else base.description
  }

  /** The input boxes a clone of `base` opens, in order: args, custom name (starting from the base name), description. */
  function ClonePrompts(base: Command): (events: seq<UiEvent>)
    ensures |events| == 3
    ensures events[0] == InputBox(ArgsPrompt, Some(ArgsPlaceHolder), None)
    ensures events[1] == InputBox(NamePrompt, None, Some(base.name))
    ensures events[2] == InputBox(DescriptionPrompt, None, None)
  {
    [InputBox(ArgsPrompt, Some(ArgsPlaceHolder), None),
     InputBox(NamePrompt, None, Some(base.name)),
     InputBox(DescriptionPrompt, None, None)]
  }

  class LetsExtension {
    const service: LetsService
    const state: LetsState
    /** The provider behind the activity bar's tree view. */
    const provider: CommandsProvider
    /** The terminal slot every service shares. */
    const terminals: TerminalSlot
    var workspaceState: Storage
    var ui: seq<UiEvent>
    /** The `vscode-lets:treeNesting` context flag, once set. */
    var treeNestingContext: Option<bool>

    ghost predicate Valid()
      reads this, state, terminals, terminals.terminal
    {
      state.Valid() && terminals.Valid()
    }

    /** The provider shows the store's own arrays. */
    ghost predicate Synced()
      reads this, state, provider
    {
      provider.commands == state.commands && provider.customCommands == state.customCommands
    }

    /**
     * What a refresh with `listing` leaves behind: the base list holds the
     * listing's commands, both of the store's lists are sorted, and the
     * provider shows the store's own arrays.
     */
    ghost predicate RefreshedFrom(listing: ExecutionResult)
      reads this, state, state.commands, state.customCommands, provider
    {
      Synced() &&
      multiset(state.commands.items) == multiset(ReadCommands(listing)) &&
      SortedDescending(state.commands.items) && SortedDescending(state.customCommands.items)
    }

    constructor(executable: string, workspaceState: Storage, terminals: TerminalSlot)
      requires terminals.Valid()
      ensures Valid()
      ensures service.executable == executable && this.terminals == terminals
      ensures this.workspaceState == workspaceState && ui == [] && treeNestingContext.None?
      ensures state.commands.items == [] && state.customCommands.items == []
      ensures provider.commands.items == [] && provider.customCommands.items == []
      ensures !provider.nestingEnabled && provider.changeEvents == 0
      ensures fresh(state) && fresh(state.commands) && fresh(state.customCommands)
      ensures fresh(provider) && fresh(provider.commands) && fresh(provider.customCommands)
    {
      service := new LetsService(executable);
      state := new LetsState();
      provider := new CommandsProvider();
      this.terminals := terminals;
      this.workspaceState := workspaceState;
      ui := [];
      treeNestingContext := None;
    }

    /** Appends the stored custom commands to the store, in storage order; nothing is stored means no change. */
    method LoadCustomCommands()
      requires Valid()
      modifies state.customCommands
      ensures Valid()
      ensures state.customCommands.items == old(state.customCommands.items) + StoredOrEmpty(workspaceState)
      ensures state.commands.items == old(state.commands.items)
    {
      var stored := StoredOrEmpty(workspaceState);
      for i := 0 to |stored|
        invariant state.customCommands.items == old(state.customCommands.items) + stored[..i]
        invariant state.commands.items == old(state.commands.items)
      {
        state.AddCustomCommand(stored[i]);
      }
    }

    /**
     * Replaces the base commands with the listing's, then hands both of the
     * store's arrays to the provider, which sorts them in place and notifies
     * once.  Afterwards the provider shows the store's arrays.
     */
    method Refresh(listing: ExecutionResult)
      requires Valid()
      modifies state, state.customCommands, provider
      ensures Valid() && RefreshedFrom(listing)
      ensures fresh(state.commands) && state.customCommands == old(state.customCommands)
      ensures multiset(state.customCommands.items) == multiset(old(state.customCommands.items))
      ensures provider.changeEvents == old(provider.changeEvents) + 1
      ensures provider.nestingEnabled == old(provider.nestingEnabled)
    {
      state.commands := new CommandArray(ReadCommands(listing));
      provider.Refresh(state.commands, state.customCommands);
    }

    /** Switches the tree's nesting flag, refreshes the view without new lists and sets the context flag. */
    method SetTreeNesting(enabled: bool)
      modifies provider, this`treeNestingContext
      ensures provider.nestingEnabled == enabled && treeNestingContext == Some(enabled)
      ensures provider.commands == old(provider.commands) && provider.customCommands == old(provider.customCommands)
      ensures provider.changeEvents == old(provider.changeEvents) + 1
    {
      provider.SetTreeNesting(enabled);
      provider.Refresh(null, null);
      treeNestingContext := Some(enabled);
    }

    /** Runs the command of a command node in the shared terminal; any other item does nothing. */
    method RunCommandHandler(item: Option<TreeItem>)
      requires Valid()
      modifies terminals, terminals.terminal
      ensures Valid()
      ensures ItemCommand(item).None? ==>
        unchanged(terminals) && (old(terminals.terminal) != null ==> unchanged(old(terminals.terminal)))
      ensures ItemCommand(item).Some? ==>
        var line := FormatCommand(service.executable, ItemCommand(item).value.name, ItemCommand(item).value.args);
        terminals.terminal != null && terminals.terminal.exitStatus.None? && terminals.terminal.shown &&
        (old(terminals.terminal) != null && old(terminals.terminal.exitStatus).None? ==>
          terminals.terminal == old(terminals.terminal) &&
          terminals.terminal.sentText == old(terminals.terminal.sentText) + [line]) &&
        (old(terminals.terminal) == null || old(terminals.terminal.exitStatus).Some? ==>
          fresh(terminals.terminal) && terminals.terminal.name == TerminalName &&
          terminals.terminal.sentText == [line]) &&
        (old(terminals.terminal) != null && old(terminals.terminal.exitStatus).Some? ==>
          old(terminals.terminal).disposed &&
          old(terminals.terminal).sentText == old(terminals.terminal.sentText) &&
          old(terminals.terminal).shown == old(terminals.terminal.shown) &&
          old(terminals.terminal).exitStatus == old(terminals.terminal.exitStatus))
    {
      if item.Some? && item.value.CommandTreeItem? {
        service.RunCommand(terminals, item.value.letsCommand);
      }
    }

    /**
     * Clones the command of a command node as a custom command.  The args box
     * dismissed, the name box dismissed, or a name equal to the base name
     * each end the handler with an information message, before any later box
     * opens and with the store, storage and view untouched; an empty args
     * answer is accepted.  Otherwise the clone (base name, description,
     * args, custom name, fingerprint of base name and args) is appended to
     * the store and to the stored list, the stored list is written back,
     * and the view is refreshed.
     */
    method CloneCommand(item: Option<TreeItem>, argsAnswer: Option<string>, nameAnswer: Option<string>,
                        descriptionAnswer: Option<string>, fingerprint: (string, string) -> Id,
                        listing: ExecutionResult)
      requires Valid()
      modifies this`workspaceState, this`ui, state, state.customCommands, provider
      ensures Valid()
      ensures state.customCommands == old(state.customCommands)
      ensures provider.nestingEnabled == old(provider.nestingEnabled)
      ensures ItemCommand(item).None? ==>
        ui == old(ui) && workspaceState == old(workspaceState) &&
        unchanged(state, state.customCommands, provider)
      ensures ItemCommand(item).Some? && argsAnswer.None? ==>
        ui == old(ui) + [ClonePrompts(ItemCommand(item).value)[0], Info(NoArgsMessage)] &&
        workspaceState == old(workspaceState) && unchanged(state, state.customCommands, provider)
      ensures (ItemCommand(item).Some? && argsAnswer.Some? &&
               (nameAnswer.None? || nameAnswer.value == ItemCommand(item).value.name)) ==>
        var prompts := ClonePrompts(ItemCommand(item).value);
        ui == old(ui) + [prompts[0], prompts[1], Info(if nameAnswer.None? then NoNameMessage else SameNameMessage)] &&
        workspaceState == old(workspaceState) && unchanged(state, state.customCommands, provider)
      ensures (ItemCommand(item).Some? && argsAnswer.Some? &&
               nameAnswer.Some? && nameAnswer.value != ItemCommand(item).value.name) ==>
        var base := ItemCommand(item).value;
        var clone := NewCustomCommand(base.name, CloneDescription(base, descriptionAnswer), argsAnswer.value,
          nameAnswer.value, fingerprint(base.name, argsAnswer.value));
        ui == old(ui) + ClonePrompts(base) &&
        workspaceState == old(workspaceState)[CustomCommandsKey := StoredOrEmpty(old(workspaceState)) + [clone]] &&
        multiset(state.customCommands.items) == multiset(old(state.customCommands.items)) + multiset{clone} &&
        RefreshedFrom(listing) && provider.changeEvents == old(provider.changeEvents) + 1
    {
      if item.Some? && item.value.CommandTreeItem? {
        var base := item.value.letsCommand;
        var prompts := ClonePrompts(base);
        if argsAnswer.None? {
          ui := ui + [prompts[0], Info(NoArgsMessage)];
          return;
        }
        if nameAnswer.None? {
          ui := ui + [prompts[0], prompts[1], Info(NoNameMessage)];
          return;
        }
        if nameAnswer.value == base.name {
          ui := ui + [prompts[0], prompts[1], Info(SameNameMessage)];
          return;
        }
        ui := ui + prompts;
        var args := argsAnswer.value;
        var clone := NewCustomCommand(base.name, CloneDescription(base, descriptionAnswer), args,
          nameAnswer.value, fingerprint(base.name, args));
        AddAndStore(clone, listing);
      }
    }

    /** The success path of a clone: store, storage and view all gain `clone`. */
    method AddAndStore(clone: Command, listing: ExecutionResult)
      requires Valid()
      modifies this`workspaceState, state, state.customCommands, provider
      ensures Valid() && RefreshedFrom(listing)
      ensures state.customCommands == old(state.customCommands)
      ensures provider.nestingEnabled == old(provider.nestingEnabled)
      ensures workspaceState == old(workspaceState)[CustomCommandsKey := StoredOrEmpty(old(workspaceState)) + [clone]]
      ensures multiset(state.customCommands.items) == multiset(old(state.customCommands.items)) + multiset{clone}
      ensures provider.changeEvents == old(provider.changeEvents) + 1
    {
      state.AddCustomCommand(clone);
      var stored := StoredOrEmpty(workspaceState);
      workspaceState := workspaceState[CustomCommandsKey := stored + [clone]];
      Refresh(listing);
    }

    /**
     * Removes the custom command of a command node: the store drops it, then
     * the stored list is written back without every entry carrying its id
     * (the others keep their order) and the view is refreshed.  The stored
     * list is read without a default, so when nothing is stored the handler
     * fails (`rejected`) after the store has changed and before storage or
     * view do.  Base commands and other items are ignored.
     */
    method RemoveCustomCommand(item: Option<TreeItem>, listing: ExecutionResult) returns (rejected: bool)
      requires Valid()
      modifies this`workspaceState, state, state.customCommands, provider
      ensures Valid()
      ensures provider.nestingEnabled == old(provider.nestingEnabled)
      ensures rejected <==>
        ItemCommand(item).Some? && IsCustomCommand(ItemCommand(item).value) &&
        CustomCommandsKey !in old(workspaceState)
      ensures ItemCommand(item).None? || !IsCustomCommand(ItemCommand(item).value) ==>
        workspaceState == old(workspaceState) && unchanged(state, provider) &&
        state.customCommands.items == old(state.customCommands.items)
      ensures ItemCommand(item).Some? && IsCustomCommand(ItemCommand(item).value) ==>
        var id := ItemCommand(item).value.kind.id;
        if CustomCommandsKey in old(workspaceState) then
          workspaceState == old(workspaceState)[CustomCommandsKey := WithoutId(old(workspaceState)[CustomCommandsKey], id)] &&
          multiset(state.customCommands.items) == multiset(WithoutId(old(state.customCommands.items), id)) &&
          RefreshedFrom(listing) && provider.changeEvents == old(provider.changeEvents) + 1
        else
          workspaceState == old(workspaceState) && state.commands == old(state.commands) &&
          state.customCommands.items == WithoutId(old(state.customCommands.items), id) &&
          unchanged(provider)
      ensures ui == old(ui)
    {
      rejected := false;
      if item.Some? && item.value.CommandTreeItem? && IsCustomCommand(item.value.letsCommand) {
        var target := item.value.letsCommand;
        state.RemoveCustomCommand(target);
        if CustomCommandsKey !in workspaceState {
          rejected := true;
          return;
        }
        var stored := workspaceState[CustomCommandsKey];
        workspaceState := workspaceState[CustomCommandsKey := WithoutId(stored, target.kind.id)];
        Refresh(listing);
      }
    }
  }
}
