/** struct command and the built-in table: parse_command, initialize_built_in_commands,
    command_equals, is_built_in and execute_built_in_command. */
module Commands {

  import opened Wrappers
  import opened CStrings
  import opened Tokenizer

  /** A char*: None is NULL. */
  type Word = Option<seq<char>>

  /** struct command: the name and the argument vector (None is a NULL vector). */
  datatype Command = Command(command: Word, arguments: Option<seq<Word>>)

  /** The entries of a vector before its first NULL: the argument list execvp reads. */
  function Argv(v: seq<Word>): seq<seq<char>>
  {
    if v == [] || v[0].None? then [] else [v[0].value] + Argv(v[1..])
  }

  /** A NULL-terminated vector of ws reads back as ws. */
  lemma {:induction false} ArgvOfNullTerminated(v: seq<Word>, ws: seq<seq<char>>)
    requires NullTerminated(v, ws)
    ensures Argv(v) == ws
  {
    if ws != [] {
      ArgvOfNullTerminated(v[1..], ws[1..]);
    }
  }

  /** parse_command: the name is the first word and the arguments are the whole
      word vector, the name included. */
  function ParseCommand(words: seq<Word>): Command
    requires |words| > 0
  {
    Command(words[0], Some(words))
  }

  /** Built from the vector of a line's tokens, the command has no name exactly when
      the line has no token; otherwise its name is the first token, its arguments
      read back as all the tokens, and argument 0 is the name. */
  lemma ParseCommandOfTokens(words: seq<Word>, ws: seq<seq<char>>)
    requires NullTerminated(words, ws)
    ensures ParseCommand(words).command == (if ws == [] then None else Some(ws[0]))
    ensures ParseCommand(words).arguments.Some?
    ensures Argv(ParseCommand(words).arguments.value) == ws
  {
    ArgvOfNullTerminated(words, ws);
  }

  /** NUM_COMMANDS: the size of the built-in table. */
  const NUM_COMMANDS: nat := 1

  /** The one built-in: the name "exit", written with an explicit NUL, and a NULL
      argument vector. */
  const EXIT_COMMAND: Command := Command(Some("exit\0"), None)

  /** The table once initialize_built_in_commands has run. */
  function BuiltInTable(): seq<Command> {
    [EXIT_COMMAND]
  }

  /** initialize_built_in_commands: fills the global table. */
  method InitializeBuiltInCommands(table: array<Command>)
    requires table.Length == NUM_COMMANDS
    modifies table
    ensures table[..] == BuiltInTable()
  {
    table[0] := EXIT_COMMAND;
  }

  /** command_equals: strcmp of the two names is zero, that is, the two names are
      the same C string. Both names must be non-NULL, as strcmp requires. */
  function CommandEquals(command1: Command, command2: Command): (equal: bool)
    requires command1.command.Some? && command2.command.Some?
    ensures equal <==> CString(command1.command.value) == CString(command2.command.value)
  {
    Strcmp(command1.command.value, command2.command.value) == 0
  }

  /** The name of the built-in, as strcmp reads it. */
  lemma ExitName()
    ensures CString(EXIT_COMMAND.command.value) == "exit"
  {
    var name := EXIT_COMMAND.command.value;
    assert name == ['e', 'x', 'i', 't', NUL];
    assert CString(name[4..]) == [];
    assert CString(name[3..]) == ['t'] + CString(name[4..]);
    assert CString(name[2..]) == ['i'] + CString(name[3..]);
    assert CString(name[1..]) == ['x'] + CString(name[2..]);
  }

  /** is_built_in: scans the table for an entry whose name equals the command's. */
  method IsBuiltIn(cmd: Command, table: array<Command>) returns (builtIn: bool)
    requires cmd.command.Some?
    requires table.Length == NUM_COMMANDS
    requires forall i :: 0 <= i < table.Length ==> table[i].command.Some?
    ensures builtIn <==> exists i :: 0 <= i < table.Length && CommandEquals(cmd, table[i])
  {
    for i := 0 to NUM_COMMANDS
      invariant forall k :: 0 <= k < i ==> !CommandEquals(cmd, table[k])
    {
      if CommandEquals(cmd, table[i]) {
        return true;
      }
    }
    return false;
  }

  /** With the initialized table, a command is built in exactly when its name reads
      as "exit": an exact, case-sensitive match, neither a prefix nor an extension. */
  lemma BuiltInIsExit(cmd: Command)
    requires cmd.command.Some?
    ensures (exists i :: 0 <= i < |BuiltInTable()| && CommandEquals(cmd, BuiltInTable()[i]))
        <==> CString(cmd.command.value) == "exit"
  {
    ExitName();
    assert BuiltInTable()[0] == EXIT_COMMAND;
  }

  /** execute_built_in_command: compares the command with the first table entry;
      with the initialized table it asks the loop to stop exactly for "exit". */
  function ExecuteBuiltInCommand(table: array<Command>, cmd: Command): (exit: bool)
    reads table
    requires table[..] == BuiltInTable() && cmd.command.Some?
    ensures exit <==> CString(cmd.command.value) == "exit"
  {
    ExitName();
    CommandEquals(table[0], cmd)
  }
}
