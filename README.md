# mysh: a verified model of the shell's read, tokenize and dispatch loop

`mysh` is a minimal shell written in C (`mysh.c`). Each pass of its main loop
prints a prompt and reads a line from standard input. It splits the line into
words with `strtok` on spaces and builds a `struct command` whose name is the
first word and whose arguments are all the words. The name is matched against
a one-entry built-in table holding `exit`. A built-in runs in the shell itself
and `exit` leaves the loop. Any other command is forked, run with `execvp` and
waited for. A blank line runs nothing.

This project models that core in Dafny and proves what it does:

- `memory.dfy` (module `Memory`): `MAX_BUFFER` (4096) and `realloc` to a larger block.
- `cstrings.dfy` (module `CStrings`): what a `char*` denotes (the characters before
  the first NUL) and `strcmp`.
- `line_reader.dfy` (module `LineReader`): `read_command_line`. Standard input is a
  sequence of `getchar` results (`EOF` is -1). Reading past its end yields `EOF`.
  The heap buffer is an `array<char>` that is replaced when it grows.
- `tokenizer.dfy` (module `Tokenizer`): `strtok` as a pure function with an explicit
  resume index, a reference split `Tokens`, and `parse_command_line` as a loop that
  fills a growable `array` of optional strings (`None` is NULL).
- `commands.dfy` (module `Commands`): `struct command`, `parse_command`, the built-in
  table, `command_equals`, `is_built_in` and `execute_built_in_command`.
- `main_loop.dfy` (module `MainLoop`): the loop of `main` as a class `Shell`. It holds
  the global table, the unread input, and one flag for each of `cmd_line`,
  `cmd_words` and `cmd` that says whether the pointer holds a heap block. It also
  counts blocks lost when a pointer is overwritten.

Where the code departs from the requirements in its own header comment
(mysh.c:1-23), the model follows the code:

- End of input does not end the shell. mysh.c:22 says to do what Linux does,
  and a Linux shell exits at end of input. Here `read_command_line` returns an
  empty string on `EOF`, and the loop reads again forever.
  `EndOfInputNeverExits` proves this.
- Only the space character separates words, although mysh.c:16 asks to ignore
  all white space. A tab is part of a word, so `"a   b\tc"` gives
  `["a", "b\tc"]`. `TabIsNoDelimiter` proves that two words joined by a tab
  are one token.
- mysh.c:21 asks to check for memory leaks. The code leaks the line, the words
  and the command on a blank line (second finding below).
- A NUL byte typed on a line ends the line as `strtok` sees it. The tokenizer is
  applied to `CString` of the buffer.

## Model

| member | source | states |
|---|---|---|
| `Memory.Realloc` | mysh.c:223 | the grown block is fresh, has the requested size and keeps every earlier element |
| `Memory.GrowthKeepsBufferSize` | mysh.c:221-222 | growing by MAX_BUFFER keeps the size a positive multiple of MAX_BUFFER |
| `CStrings.CString` | mysh.c:289 | the string a char array denotes is its prefix before the first NUL, holds no NUL, and is followed by a NUL when shorter than the array |
| `CStrings.Strcmp` | mysh.c:297 | strcmp returns 0 exactly when the two C strings are equal |
| `LineReader.LineOf` | mysh.c:207-217 | the line is the characters before the first newline or EOF: each stored character is the one read, none is a terminator, and a terminator (or the end of input) follows |
| `LineReader.Remaining` | mysh.c:209-214 | the unread input is a suffix of the input, strictly shorter whenever the input was not empty |
| `LineReader.ReadCommandLine` | mysh.c:196-229 | the buffer holds exactly the line followed by a NUL at index `position`; every store is in bounds; the final size is the least positive multiple of 4096 above `position`; the rest of the input is what follows the terminator |
| `LineReader.LineRead` | mysh.c:207-217 | characters read up to a terminator or the end of input are the line, and the input after that terminator remains |
| `LineReader.ReadTypedLine` | mysh.c:211-214 | reading a typed line ended by a newline or an EOF gives back exactly its characters and leaves the input after the terminator; an empty line and an EOF read the same |
| `LineReader.ReadLastLine` | mysh.c:211-214 | a last line without a newline is read whole and leaves nothing |
| `Tokenizer.RunLength` | mysh.c:248 | the length of the leading run of non-spaces: every character in it is not a space, and a space (or the end) follows |
| `Tokenizer.TokensAreTokens` | mysh.c:248-263 | no token is empty and none contains a space |
| `Tokenizer.Gaps` | mysh.c:248-263 | a line has one delimiter count per token plus one after the last |
| `Tokenizer.TokensOfLayout` | mysh.c:240-263 | tokens separated by any positive number of spaces, with any leading and trailing spaces, split back into exactly those tokens in order |
| `Tokenizer.LayoutOfTokens` | mysh.c:240-263 | every line is its tokens laid out with its space counts, and those counts separate the tokens; with TokensOfLayout, the tokens are exactly the maximal runs of non-spaces |
| `Tokenizer.BlankLine` | mysh.c:248-266 | a line gives no tokens exactly when it is empty or all spaces |
| `Tokenizer.TokensAvoid` | mysh.c:248-263 | a character absent from the line is absent from every token |
| `Tokenizer.TabIsNoDelimiter` | mysh.c:240 | for any two words, the words joined by a tab are one token: a tab does not split a word |
| `Tokenizer.SkipDelimiters` | mysh.c:248 | strtok skips exactly the spaces before the next token |
| `Tokenizer.Strtok` | mysh.c:248-262 | each strtok call that returns a token moves its resume position strictly forward, within the line |
| `Tokenizer.StrtokEnumerates` | mysh.c:248-263 | from any resume position, the token strtok returns and the tokens after it are the reference split of the rest of the line; NULL means no token remains |
| `Tokenizer.ParseCommandLine` | mysh.c:236-270 | the vector holds the tokens of the line in order, each non-NULL, then a NULL at the index equal to their count; every store is in bounds; the capacity is the least positive multiple of 4096 above the count |
| `Tokenizer.AsWrittenOverflows` | mysh.c:253-260 | with the growth as written, every store into the token vector fits exactly when the line has fewer than 4096 tokens |
| `Tokenizer.AsWrittenOverflowExample` | mysh.c:254-256 | the line "a a ... a " with 4096 tokens overruns the vector as written |
| `Commands.ArgvOfNullTerminated` | mysh.c:266 | a NULL-terminated vector of tokens reads back, up to its NULL, as those tokens |
| `Commands.ParseCommandOfTokens` | mysh.c:275-283 | the command has a NULL name exactly when the line had no token; otherwise its name is the first token and its arguments read back as all the tokens, the name first |
| `Commands.InitializeBuiltInCommands` | mysh.c:288-291 | the table holds one entry, named "exit" with an explicit NUL, with a NULL argument vector |
| `Commands.ExitName` | mysh.c:289 | the built-in's name reads as the C string "exit" |
| `Commands.CommandEquals` | mysh.c:296-303 | two commands are equal exactly when their names are the same C string |
| `Commands.IsBuiltIn` | mysh.c:173-180 | true exactly when some table entry's name equals the command's name |
| `Commands.BuiltInIsExit` | mysh.c:173-180 | with the initialized table, a command is built in exactly when its name is exactly "exit" |
| `Commands.ExecuteBuiltInCommand` | mysh.c:162-168 | with the initialized table, asks the loop to stop exactly when the name is "exit" |
| `MainLoop.BlankLineRunsNothing` | mysh.c:88 | the pass runs nothing, neither a built-in nor a child, exactly when the line is empty or all spaces |
| `MainLoop.EndOfInputNeverExits` | mysh.c:211-214 | once input is exhausted, no number of passes leaves the loop |
| `MainLoop.Shell.constructor` | mysh.c:67-76 | at start no pointer holds a block and the table is initialized |
| `MainLoop.Shell.FreeHeld` | mysh.c:101-114 | each pointer that holds a block is freed and set to NULL; a NULL pointer is not freed again |
| `MainLoop.Shell.ReadAndBuild` | mysh.c:80-85 | reads one line, consumes it from the input, and builds its command; three new blocks are held, and blocks the pointers still held are lost |
| `MainLoop.Shell.Dispatch` | mysh.c:88-137 | a named command is "exit" (run in the shell, the loop is left) or external (handed to a child with its full argument list); on both paths the three blocks are freed once before the loop continues or breaks |
| `MainLoop.Shell.IterationAsWritten` | mysh.c:78-153 | one pass as written: the outcome is the dispatch decision on the line's tokens; after a blank line the three blocks stay held and nothing is freed |
| `MainLoop.Shell.Iteration` | mysh.c:78-153 | one pass with every path releasing: the outcome is the dispatch decision on the line's tokens, the loop is left exactly on "exit", and each pass frees its three blocks exactly once |
| `MainLoop.LostAsWritten` | mysh.c:81-153 | the blocks the loop as written loses: each pass loses what the pointers still hold, a blank line leaves three held, and the exit pass ends the count |
| `MainLoop.BlankLineLostAsWritten` | mysh.c:81-153 | as written, a blank line followed by another pass loses three blocks |
| `MainLoop.Shell.RunAsWritten` | mysh.c:78-154 | the loop as written is left exactly when one of the lines read is an exit command, and loses exactly the blocks `LostAsWritten` counts |
| `MainLoop.Shell.Run` | mysh.c:78-154 | the loop with the releasing pass is left exactly when one of the lines read is an exit command, and no block is held or lost between passes |
| `MainLoop.BlankLinesLeakAsWritten` | mysh.c:88-153 | two blank lines through the pass as written lose three blocks |
| `MainLoop.BlankLinesReleased` | mysh.c:88-153 | the same two blank lines through the releasing pass lose nothing |

## Left out

- `fork`, `execvp` and `waitpid` are not modelled. The External outcome carries the name and argument list handed to the child. The code does not exit the child after `execvp` fails: `execute_command` returns, and the child runs the loop too. That is not modelled.
- Prompts and messages (`printf`) are not modelled. The "command not found" report is not modelled either.
- The failure paths of `malloc`, `realloc` and `fork` (`error_message` and `exit(EXIT_FAILURE)`) are not modelled: `Memory.Realloc` always succeeds.
- `strtok` keeps hidden static state and writes NUL over delimiters. It is modelled as a pure function with an explicit resume index. Tokens are copies of characters, not pointers into the line buffer.
- Vector entries after the NULL sentinel are uninitialized in C. In the model they hold Dafny's default value.
- `MainLoop.Shell.Run`: runs at most `fuel` passes, because the source loop has no bound and does not end at end of input.
- `CStrings.Strcmp`: states only when the result is zero, the only use `command_equals` makes of it. The sign of a nonzero result is computed but not proved.
- `MainLoop.Shell.ReadAndBuild`: calls the corrected `Tokenizer.ParseCommandLine`. So `IterationAsWritten` and `RunAsWritten` are the source's behaviour only for lines of fewer than 4096 words; on longer lines the source overruns its token vector (first finding).
- `LineReader.ReadCommandLine` and `Tokenizer.ParseCommandLine`: their counters are unbounded integers. In C, `position` and `bufsize` are `int` (mysh.c:197-198, 237-238), and `bufsize += MAX_BUFFER` overflows, which is undefined behaviour, on a line of 2^31 - 4096 characters or more. The model's bounds hold only below that length.
- `Tokenizer.AsWrittenOverflows`: assumes `sizeof(char *)` is 8 (a 64-bit target). It models only which stores fall outside the block, not the pointers lost when `realloc` shrinks it.

## Findings

| source | as written | input that shows it | evidently intended | confidence | as-written member | corrected member |
|---|---|---|---|---|---|---|
| mysh.c:256 | `realloc(tokens, bufsize)` passes a count of pointers as a count of bytes, shrinking the vector to 1024 pointers at the first growth | a line of 4096 space-separated words, e.g. "a a ... a " | `realloc(tokens, sizeof(char*) * bufsize)` | high; not executed | `Tokenizer.AsWrittenOverflows` | `Tokenizer.ParseCommandLine` |
| mysh.c:88-153 | a blank line skips every `free`; the next pass overwrites `cmd_line`, `cmd_words` and `cmd`, losing three blocks per blank line | input "\n\n" | release the three blocks on the blank-line path too | high; not executed | `MainLoop.Shell.RunAsWritten` | `MainLoop.Shell.Run` |
