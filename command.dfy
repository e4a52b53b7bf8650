/**
 * The command value type of the extension (src/models/command.ts), together
 * with the two factories the rest of the code calls to build base and custom
 * commands and the test that tells them apart.
 */
module Commands {

  /** `undefined`/`null` versus a present value. */
  datatype Option<+T> = None | Some(value: T)

  /** The fingerprint that identifies a custom command for removal. */
  type Id = int

  /**
   * A base command (listed by the tool) or a custom command (a user-made
   * variant that carries an id).  The source tells them apart by probing for
   * an `id` field; here the tag is explicit.
   */
  datatype Kind = Base | Custom(id: Id)

  /**
   * One invocable command.  `description` is `None` when the listing line had
   * no colon (the source then stores `undefined`), `args` is `None` for
   * `null`, and `labelText` (the source's `label`) is the text shown in the tree and used for sorting.
   */
  datatype Command = Command(
    name: string,
    description: Option<string>,
    args: Option<string>,
    labelText: string,
    kind: Kind)

  /** Lookup table from a name to a command. */
  type CommandsMapping = map<string, Command>

  /**
   * `new Command(name, description, args = null)`: the arguments are stored as
   * given, `args` defaults to `null`; the command is a base command labelled
   * by its name.
   */
  function NewCommand(name: string, description: Option<string>, args: Option<string> := None): (c: Command)
    ensures c.name == name && c.description == description && c.args == args
    ensures c.labelText == name && c.kind == Base
  {
    Command(name, description, args, name, Base)
  }

  /**
   * A custom command cloned from the base command `name`: it keeps the base
   * name (so running it runs the base command), carries the user's `args`
   * verbatim, shows `customName`, and is identified by `id`.
   */
  function NewCustomCommand(name: string, description: Option<string>, args: string, customName: string, id: Id): (c: Command)
    ensures c.name == name && c.description == description && c.args == Some(args)
    ensures c.labelText == customName && c.kind == Custom(id)
  {
    Command(name, description, Some(args), customName, Custom(id))
  }

  /** True exactly for custom commands: those that are not base commands. */
  predicate IsCustomCommand(c: Command)
    ensures IsCustomCommand(c) <==> c.kind != Base
  {
    c.kind.Custom?
  }

  /** Clones are custom commands; commands built from a listing are not. */
  lemma ConstructorsDecideCustom(name: string, description: Option<string>, args: string, customName: string, id: Id)
    ensures IsCustomCommand(NewCustomCommand(name, description, args, customName, id))
    ensures !IsCustomCommand(NewCommand(name, description, Some(args)))
    ensures !IsCustomCommand(NewCommand(name, description))
  {
  }

  /** Omitting `args` is the same as passing `null`. */
  lemma NewCommandDefaultArgs(name: string, description: Option<string>)
    ensures NewCommand(name, description) == NewCommand(name, description, None)
    ensures NewCommand(name, description).args.None?
  {
  }
}
