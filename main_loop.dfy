/** The loop of main: read a line, tokenize it, build the command, then run nothing
    (blank line), run the built-in in the shell itself, or hand the command to a
    child process, and release the iteration's three heap blocks. fork, execvp and
    waitpid are abstracted into the External outcome. */
module MainLoop {

  import opened Wrappers
  import opened CStrings
  import opened LineReader
  import opened Tokenizer
  import opened Commands

  /** What one pass of the loop does with the command it built. */
  datatype Outcome =
    | Blank                                             // no token: nothing runs
    | BuiltIn(breaksLoop: bool)                         // run by the shell itself
    | External(name: seq<char>, argv: seq<seq<char>>)   // fork, execvp(name, argv), waitpid

  /** The dispatch decision, stated on the tokens of the line. */
  function Decide(ws: seq<seq<char>>): Outcome {
    if ws == [] then Blank
    else if ws[0] == "exit" then BuiltIn(true)
    else External(ws[0], ws)
  }

  /** The tokens of the next line of input, as strtok sees the line: up to its first
      NUL byte, if it has one. */
  function NextTokens(input: seq<int>): seq<seq<char>>
    requires IsStream(input)
  {
    Tokens(CString(LineOf(input)))
  }

  /** One of the next n lines of input is an exit command. */
  predicate ExitWithin(input: seq<int>, n: nat)
    requires IsStream(input)
    decreases n
  {
    n > 0 && (Decide(NextTokens(input)) == BuiltIn(true) || ExitWithin(Remaining(input), n - 1))
  }

  /** Blocks the loop as written loses over the next n passes when `held` blocks
      are held before the first: each pass overwrites what the pointers hold, a
      blank line leaves its three blocks held, and every other pass frees them. */
  function LostAsWritten(input: seq<int>, n: nat, held: nat): nat
    requires IsStream(input)
    decreases n
  {
    if n == 0 then 0
    else
      var outcome := Decide(NextTokens(input));
      held + if outcome == BuiltIn(true) then 0
             else LostAsWritten(Remaining(input), n - 1, if outcome == Blank then 3 else 0)
  }

  /** As written, a blank line followed by any further pass loses three blocks. */
  lemma {:induction false} BlankLineLostAsWritten(input: seq<int>, n: nat, held: nat)
    requires IsStream(input) && n >= 2
    requires Decide(NextTokens(input)) == Blank
    ensures LostAsWritten(input, n, held) >= held + 3
  {
    assert LostAsWritten(input, n, held) == held + LostAsWritten(Remaining(input), n - 1, 3);
    assert LostAsWritten(Remaining(input), n - 1, 3) >= 3;
  }

  /** A blank line, empty or all spaces before its first NUL, runs nothing: no
      built-in and no child process. */
  lemma BlankLineRunsNothing(input: seq<int>)
    requires IsStream(input)
    ensures Decide(NextTokens(input)) == Blank
        <==> forall i :: 0 <= i < |CString(LineOf(input))| ==> CString(LineOf(input))[i] == DELIMITER
  {
    var line := CString(LineOf(input));
    BlankLine(line);
    assert NextTokens(input) == Tokens(line);
  }

  /** Once input is exhausted every read yields an empty line, so the loop never
      stops by itself: end of input is not a way out. */
  lemma {:induction false} EndOfInputNeverExits(n: nat)
    ensures !ExitWithin([], n)
  {
    if n > 0 {
      assert LineOf([]) == [] && Remaining([]) == [];
      assert NextTokens([]) == [];
      EndOfInputNeverExits(n - 1);
    }
  }

  /** The shell's state across iterations. */
  class Shell {
    /** built_in_commands: the global table. */
    const builtInCommands: array<Command>
    /** Standard input not read yet. */
    var stdin: seq<int>
    /** cmd_line, cmd_words and cmd: true while the pointer holds a heap block. */
    var lineHeld: bool
    var wordsHeld: bool
    var cmdHeld: bool
    /** Heap blocks whose last pointer was overwritten without a free. */
    var leaked: nat
    /** Calls of free. */
    ghost var frees: nat
    /** The loop has been left by break. */
    var exited: bool

    ghost predicate Valid()
      reads this, builtInCommands
    {
      IsStream(stdin) && builtInCommands[..] == BuiltInTable()
    }

    /** The number of blocks the three pointers hold. */
    function Held(): nat
      reads this
    {
      (if lineHeld then 1 else 0) + (if wordsHeld then 1 else 0) + (if cmdHeld then 1 else 0)
    }

    /** Start of main: the pointers hold nothing and initialize_built_in_commands
        fills the table. */
    constructor (input: seq<int>)
      requires IsStream(input)
      ensures Valid() && stdin == input
      ensures Held() == 0 && leaked == 0 && frees == 0 && !exited
    {
      builtInCommands := new Command[NUM_COMMANDS];
      stdin := input;
      lineHeld, wordsHeld, cmdHeld := false, false, false;
      leaked, frees, exited := 0, 0, false;
      new;
      InitializeBuiltInCommands(builtInCommands);
    }

    /** The three guarded frees: each pointer that holds a block is freed and set to
        NULL; a NULL pointer is left alone. */
    method FreeHeld()
      modifies this`lineHeld, this`wordsHeld, this`cmdHeld, this`frees
      ensures Held() == 0
      ensures frees == old(frees) + old(Held())
    {
      if lineHeld {
        frees, lineHeld := frees + 1, false;
      }
      if wordsHeld {
        frees, wordsHeld := frees + 1, false;
      }
      if cmdHeld {
        frees, cmdHeld := frees + 1, false;
      }
    }

    /** Reads a line, tokenizes it and builds the command; the three new blocks
        overwrite the pointers, so blocks they still held are lost. */
    method ReadAndBuild() returns (cmd: Command)
      requires Valid()
      modifies this`stdin, this`lineHeld, this`wordsHeld, this`cmdHeld, this`leaked
      ensures Valid()
      ensures stdin == Remaining(old(stdin))
      ensures lineHeld && wordsHeld && cmdHeld
      ensures leaked == old(leaked) + old(Held())
      ensures cmd.command == (if NextTokens(old(stdin)) == [] then None else Some(NextTokens(old(stdin))[0]))
      ensures cmd.arguments.Some? && Argv(cmd.arguments.value) == NextTokens(old(stdin))
    {
      leaked := leaked + Held();
      var buffer, position, rest := ReadCommandLine(stdin);
      var words := ParseCommandLine(CString(buffer[..position]));
      stdin := rest;
      cmd := ParseCommand(words[..]);
      ParseCommandOfTokens(words[..], NextTokens(old(stdin)));
      lineHeld, wordsHeld, cmdHeld := true, true, true;
    }

    /** One pass of the loop as written: a blank line skips the whole dispatch,
        frees included, so its three blocks stay held until the next pass
        overwrites the pointers. */
    method IterationAsWritten() returns (outcome: Outcome)
      requires Valid() && !exited
      modifies this`stdin, this`lineHeld, this`wordsHeld, this`cmdHeld, this`leaked, this`frees, this`exited
      ensures Valid()
      ensures stdin == Remaining(old(stdin))
      ensures outcome == Decide(NextTokens(old(stdin)))
      ensures exited <==> outcome == BuiltIn(true)
      ensures leaked == old(leaked) + old(Held())
      ensures outcome == Blank ==> Held() == 3 && frees == old(frees)
      ensures outcome != Blank ==> Held() == 0 && frees == old(frees) + 3
    {
      var cmd := ReadAndBuild();
      if cmd.command.Some? {
        TokensAvoid(CString(LineOf(old(stdin))), NUL);
        outcome := Dispatch(cmd, NextTokens(old(stdin)));
        if exited {
          return;
        }
        FreeHeld();
      } else {
        outcome := Blank;
      }
    }

    /** One pass of the loop with the blank-line path releasing its blocks too:
        whatever the line, the pass ends with nothing held and nothing lost. */
    method Iteration() returns (outcome: Outcome)
      requires Valid() && !exited
      modifies this`stdin, this`lineHeld, this`wordsHeld, this`cmdHeld, this`leaked, this`frees, this`exited
      ensures Valid()
      ensures stdin == Remaining(old(stdin))
      ensures outcome == Decide(NextTokens(old(stdin)))
      ensures exited <==> outcome == BuiltIn(true)
      ensures leaked == old(leaked) + old(Held())
      ensures Held() == 0 && frees == old(frees) + 3
    {
      var cmd := ReadAndBuild();
      if cmd.command.Some? {
        TokensAvoid(CString(LineOf(old(stdin))), NUL);
        outcome := Dispatch(cmd, NextTokens(old(stdin)));
        if exited {
          return;
        }
        FreeHeld();
      } else {
        outcome := Blank;
        FreeHeld();
      }
    }

    /** The loop of main with the releasing pass, for at most fuel passes (the
        source loop has no bound: it runs until a break). It leaves the loop exactly
        when one of the lines it reads is an exit command, and every pass releases
        its blocks, so nothing is lost. */
    method Run(fuel: nat)
      requires Valid() && !exited && Held() == 0
      modifies this`stdin, this`lineHeld, this`wordsHeld, this`cmdHeld, this`leaked, this`frees, this`exited
      ensures Valid()
      ensures exited <==> ExitWithin(old(stdin), fuel)
      ensures Held() == 0 && leaked == old(leaked)
    {
      var passes := 0;
      while passes < fuel
        invariant Valid() && !exited && passes <= fuel
        invariant Held() == 0 && leaked == old(leaked)
        invariant ExitWithin(old(stdin), fuel) <==> ExitWithin(stdin, fuel - passes)
      {
        var outcome := Iteration();
        passes := passes + 1;
        if exited {
          break;
        }
      }
    }

    /** The loop of main as written, for at most fuel passes: it leaves the loop
        exactly when one of the lines it reads is an exit command, and loses the
        three blocks of every blank line that another pass follows. */
    method RunAsWritten(fuel: nat)
      requires Valid() && !exited
      modifies this`stdin, this`lineHeld, this`wordsHeld, this`cmdHeld, this`leaked, this`frees, this`exited
      ensures Valid()
      ensures exited <==> ExitWithin(old(stdin), fuel)
      ensures leaked == old(leaked) + LostAsWritten(old(stdin), fuel, old(Held()))
    {
      var passes := 0;
      while passes < fuel
        invariant Valid() && !exited && passes <= fuel
        invariant ExitWithin(old(stdin), fuel) <==> ExitWithin(stdin, fuel - passes)
        invariant leaked + LostAsWritten(stdin, fuel - passes, Held())
               == old(leaked) + LostAsWritten(old(stdin), fuel, old(Held()))
      {
        var outcome := IterationAsWritten();
        passes := passes + 1;
        if exited {
          break;
        }
      }
    }

    /** The dispatch of a named command: an external command is handed to a child
        and the three blocks freed; a built-in is executed in the shell, the blocks
        freed, and the loop left when it asks so. The frees that follow both
        branches in the loop find NULL pointers unless the loop was left. */
    method Dispatch(cmd: Command, ghost ws: seq<seq<char>>) returns (outcome: Outcome)
      requires Valid() && !exited
      requires ws != [] && cmd.command == Some(ws[0])
      requires cmd.arguments.Some? && Argv(cmd.arguments.value) == ws
      requires NUL !in ws[0]
      requires lineHeld && wordsHeld && cmdHeld
      modifies this`lineHeld, this`wordsHeld, this`cmdHeld, this`frees, this`exited
      ensures Valid()
      ensures outcome == Decide(ws)
      ensures exited <==> outcome == BuiltIn(true)
      ensures Held() == 0 && frees == old(frees) + 3
    {
      var builtIn := IsBuiltIn(cmd, builtInCommands);
      BuiltInIsExit(cmd);
      if !builtIn {
        outcome := External(cmd.command.value, Argv(cmd.arguments.value));
        FreeHeld();
      } else {
        var returnVal := ExecuteBuiltInCommand(builtInCommands, cmd);
        FreeHeld();
        outcome := BuiltIn(returnVal);
        if returnVal {
          exited := true;
        }
      }
    }
  }

  /** The leak as written: input "\n\n" gives two blank lines, and the second pass
      overwrites the three pointers the first left holding their blocks. */
  method BlankLinesLeakAsWritten() returns (leaked: nat)
    ensures leaked == 3
  {
    var input := [NEWLINE, NEWLINE];
    assert LineOf(input) == [] && Remaining(input) == [NEWLINE];
    assert LineOf([NEWLINE]) == [];
    var shell := new Shell(input);
    var outcome := shell.IterationAsWritten();
    outcome := shell.IterationAsWritten();
    leaked := shell.leaked;
  }

  /** The same input through the corrected pass loses nothing. */
  method BlankLinesReleased() returns (leaked: nat)
    ensures leaked == 0
  {
    var input := [NEWLINE, NEWLINE];
    assert LineOf(input) == [] && Remaining(input) == [NEWLINE];
    var shell := new Shell(input);
    var outcome := shell.Iteration();
    outcome := shell.Iteration();
    leaked := shell.leaked;
  }
}
