/**
 * The command lister and runner (src/services/letsService.ts): building the
 * invocation line, turning the tool's listing output into commands, and
 * sending a command to the one shared terminal.
 *
 * Running the tool is outside the model: the listing is parsed from the
 * outcome of a finished run, given as an `ExecutionResult`.
 */
module Services {
  import opened Commands
  import opened Text

  /** The error object a failed process run reports. */
  datatype ExecException = ExecException(message: string)

  /** What one run of the tool produced. */
  datatype ExecutionResult = ExecutionResult(
    stdout: string,
    stderr: string,
    error: Option<ExecException>,
    hasError: bool)

  /**
   * The result a finished run resolves to: it failed exactly when there is
   * an error object or anything was written to stderr.
   */
  function CompletedRun(error: Option<ExecException>, stdout: string, stderr: string): (r: ExecutionResult)
    ensures r.stdout == stdout && r.stderr == stderr && r.error == error
    ensures r.hasError <==> (error.Some? || |stderr| > 0)
  {
    ExecutionResult(stdout, stderr, error, error.Some? || |stderr| > 0)
  }

  /**
   * The invocation line `<executable> <command>` or
   * `<executable> <command> <args>`: plain concatenation, no escaping; an
   * empty `args` still adds the separating space.
   */
  function FormatCommand(executable: string, command: string, args: Option<string>): (line: string)
    ensures executable + " " + command <= line
    ensures args.None? ==> line == executable + " " + command
    ensures args.Some? ==> line == executable + " " + command + " " + args.value
  {
    match args
    case None => executable + " " + command
    case Some(a) => executable + " " + command + " " + a
  }

  /**
   * For a fixed executable and command the line determines the arguments:
   * `null`, `""` and every other string all give different lines.
   */
  lemma FormatCommandDeterminesArgs(executable: string, command: string, a1: Option<string>, a2: Option<string>)
    requires FormatCommand(executable, command, a1) == FormatCommand(executable, command, a2)
    ensures a1 == a2
  {
    var head := executable + " " + command + " ";
    if a1.Some? && a2.Some? {
      assert a1.value == FormatCommand(executable, command, a1)[|head|..];
      assert a2.value == FormatCommand(executable, command, a2)[|head|..];
    }
  }

  /** The sub-command and arguments that ask the tool for its command list. */
  const ListingCommand := "completion"
  const ListingArgs := "--list --verbose"

  /** The line the listing is requested with. */
  function ListingRequest(executable: string): (line: string)
    ensures line == executable + " completion --list --verbose"
  {
    FormatCommand(executable, ListingCommand, Some(ListingArgs))
  }

  /**
   * One listing line `name:description[:ignored...]`: the name is the text
   * before the first colon, the description the text between the first and
   * the second colon, and a line without a colon has no description.
   */
  function ParseLine(line: string): (c: Command)
    ensures c.kind == Base && c.labelText == c.name && c.args.None?
    ensures ':' !in c.name
    ensures c.description.None? <==> ':' !in line
    ensures c.description.None? ==> c.name == line
    ensures c.description.Some? ==>
      var prefix := c.name + ":" + c.description.value;
      ':' !in c.description.value && prefix <= line &&
      (|line| == |prefix| || line[|prefix|] == ':')
  {
    var pieces := Split(line, ':');
    SplitFirstTwo(line, ':');
    NewCommand(pieces[0], if |pieces| > 1 then Some(pieces[1]) else None)
  }

  /**
   * The commands of a finished listing run: none when the run failed,
   * otherwise one command per newline-separated piece of the trimmed
   * output, in output order.
   */
  function ReadCommands(result: ExecutionResult): (cmds: seq<Command>)
    ensures result.hasError ==> cmds == []
    ensures !result.hasError ==>
      var lines := Split(Trim(result.stdout), '\n');
      |cmds| == |lines| == Count(Trim(result.stdout), '\n') + 1 &&
      Join(lines, '\n') == Trim(result.stdout) &&
      forall i :: 0 <= i < |lines| ==> '\n' !in lines[i] && cmds[i] == ParseLine(lines[i])
  {
    if result.hasError then []
    else
      var lines := Split(Trim(result.stdout), '\n');
      SplitShape(Trim(result.stdout), '\n');
      JoinSplit(Trim(result.stdout), '\n');
      seq(|lines|, i requires 0 <= i < |lines| => ParseLine(lines[i]))
  }

  /** Output that is blank after trimming gives exactly one command, with an empty name. */
  lemma ReadCommandsBlankOutput(result: ExecutionResult)
    requires !result.hasError && AllWhitespace(result.stdout)
    ensures ReadCommands(result) == [NewCommand("", None)]
  {
    TrimAllWhitespace(result.stdout);
    assert Split("", '\n') == [""];
    assert ParseLine("") == NewCommand("", None);
  }

  /** A VS Code terminal: whether it has exited, what was sent to it. */
  class Terminal {
    const name: string
    var exitStatus: Option<int>
    var sentText: seq<string>
    var shown: bool
    var disposed: bool

    /** `vscode.window.createTerminal(name)`. */
    constructor(name: string)
      ensures this.name == name && exitStatus.None? && sentText == [] && !shown && !disposed
    {
      this.name := name;
      exitStatus := None;
      sentText := [];
      shown := false;
      disposed := false;
    }
  }

  /** The process-wide `LetsService.terminal` field, shared by every service. */
  class TerminalSlot {
    var terminal: Terminal?

    /** A held terminal has never been disposed. */
    ghost predicate Valid()
      reads this, terminal
    {
      terminal != null ==> !terminal.disposed
    }

    constructor()
      ensures terminal == null && Valid()
    {
      terminal := null;
    }
  }

  /** The name of the terminal commands are run in. */
  const TerminalName := "Lets"

  class LetsService {
    const executable: string

    constructor(executable: string)
      ensures this.executable == executable
    {
      this.executable := executable;
    }

    /**
     * Runs `c` in the shared terminal: a terminal that has exited is disposed
     * and replaced by a new one, a live one is reused, and no terminal at all
     * gets one created.  Either way exactly one live terminal is held
     * afterwards, it is shown, and it has been sent the command's line.
     */
    method RunCommand(slot: TerminalSlot, c: Command)
      requires slot.Valid()
      modifies slot, slot.terminal
      ensures slot.Valid() && slot.terminal != null
      ensures slot.terminal.exitStatus.None? && slot.terminal.shown
      ensures old(slot.terminal) != null && old(slot.terminal.exitStatus).None? ==>
        slot.terminal == old(slot.terminal) &&
        slot.terminal.sentText == old(slot.terminal.sentText) + [FormatCommand(executable, c.name, c.args)]
      ensures old(slot.terminal) == null || old(slot.terminal.exitStatus).Some? ==>
        fresh(slot.terminal) && slot.terminal.name == TerminalName &&
        slot.terminal.sentText == [FormatCommand(executable, c.name, c.args)]
      ensures old(slot.terminal) != null && old(slot.terminal.exitStatus).Some? ==>
        old(slot.terminal).disposed &&
        old(slot.terminal).sentText == old(slot.terminal.sentText) &&
        old(slot.terminal).shown == old(slot.terminal.shown) &&
        old(slot.terminal).exitStatus == old(slot.terminal.exitStatus)
    {
      if slot.terminal != null && slot.terminal.exitStatus.Some? {
        slot.terminal.disposed := true;
        slot.terminal := null;
      }
      if slot.terminal == null {
        slot.terminal := new Terminal(TerminalName);
      }
      var term := slot.terminal;
      term.shown := true;
      term.sentText := term.sentText + [FormatCommand(executable, c.name, c.args)];
    }
  }
}
