/** read_command_line: reads standard input one character at a time into a heap
    buffer until a newline or end of input, then NUL-terminates the buffer. */
module LineReader {

  import opened Memory

  /** What getchar returns at end of input. */
  const EOF: int := -1

  /** '\n' */
  const NEWLINE: int := 10

  /** A sequence of getchar results: each one EOF or an unsigned char value. Once
      the sequence is exhausted every further getchar returns EOF. */
  predicate IsStream(input: seq<int>) {
    forall i :: 0 <= i < |input| ==> input[i] == EOF || 0 <= input[i] < 256
  }

  /** A character that ends the line: EOF and newline are treated alike. */
  predicate IsTerminator(c: int) {
    c == EOF || c == NEWLINE
  }

  /** The line read from input: the characters before its first terminator (all of
      input when it has none). */
  function LineOf(input: seq<int>): (line: seq<char>)
    requires IsStream(input)
    ensures |line| <= |input|
    ensures forall i :: 0 <= i < |line| ==> !IsTerminator(input[i]) && line[i] == input[i] as char
    ensures |line| < |input| ==> IsTerminator(input[|line|])
  {
    if input == [] || IsTerminator(input[0]) then [] else [input[0] as char] + LineOf(input[1..])
  }

  /** What is left of input once its first line is read: everything after the
      terminator, or nothing when input ran out first. */
  function Remaining(input: seq<int>): (rest: seq<int>)
    requires IsStream(input)
    ensures IsStream(rest)
    ensures input != [] ==> |rest| < |input|
    ensures |rest| <= |input| && rest == input[|input| - |rest|..]
  {
    var n := |LineOf(input)|;
    if n < |input| then input[n + 1..] else []
  }

  /** Reads one line. The buffer starts with MAX_BUFFER characters; each time the
      count of stored characters reaches its size it grows by MAX_BUFFER, so there
      is always room for the next character or the NUL. The result holds exactly
      the characters before the first newline or EOF, followed by a NUL, and the
      buffer size is the least multiple of MAX_BUFFER above the line's length. */
  method ReadCommandLine(input: seq<int>) returns (buffer: array<char>, position: nat, rest: seq<int>)
    requires IsStream(input)
    ensures fresh(buffer)
    ensures IsBufferSize(buffer.Length) && buffer.Length - MAX_BUFFER <= position < buffer.Length
    ensures buffer[..position] == LineOf(input) && buffer[position] == '\0'
    ensures rest == Remaining(input)
  {
    var bufsize := MAX_BUFFER;
    position := 0;
    buffer := new char[bufsize];
    while true
      invariant buffer.Length == bufsize && fresh(buffer)
      invariant IsBufferSize(bufsize) && bufsize - MAX_BUFFER <= position < bufsize
      invariant position <= |input|
      invariant forall i :: 0 <= i < position ==> !IsTerminator(input[i]) && buffer[i] == input[i] as char
      decreases |input| - position
    {
      var c := if position < |input| then input[position] else EOF;
      if c == EOF || c == NEWLINE {
        buffer[position] := '\0';
        LineRead(input, buffer[..position]);
        rest := if position < |input| then input[position + 1..] else [];
        return;
      }
      buffer[position] := c as char;
      position := position + 1;
      if position >= bufsize {
        GrowthKeepsBufferSize(bufsize);
        bufsize := bufsize + MAX_BUFFER;
        buffer := Realloc(buffer, bufsize);
      }
    }
  }

  /** Characters read up to a terminator, or up to the end of input, are the line,
      and what follows that terminator is the rest of input. */
  lemma {:induction false} LineRead(input: seq<int>, chars: seq<char>)
    requires IsStream(input) && |chars| <= |input|
    requires forall i :: 0 <= i < |chars| ==> !IsTerminator(input[i]) && chars[i] == input[i] as char
    requires |chars| == |input| || IsTerminator(input[|chars|])
    ensures LineOf(input) == chars
    ensures Remaining(input) == if |chars| < |input| then input[|chars| + 1..] else []
  {
    if chars != [] {
      LineRead(input[1..], chars[1..]);
    }
  }

  /** A line the user can type: characters that are single bytes, without newline. */
  predicate IsTypable(s: seq<char>) {
    forall i :: 0 <= i < |s| ==> s[i] as int < 256 && s[i] as int != NEWLINE
  }

  /** The getchar results for typing s. */
  function Typed(s: seq<char>): (codes: seq<int>)
    requires IsTypable(s)
    ensures |codes| == |s| && IsStream(codes)
    ensures forall i :: 0 <= i < |s| ==> codes[i] == s[i] as int
  {
    if s == [] then [] else [s[0] as int] + Typed(s[1..])
  }

  /** Reading what was typed gives it back: a line ended by a newline or by an EOF
      yields exactly its characters and leaves the input after the terminator. With
      s empty this says an EOF and an empty line read the same. */
  lemma {:induction false} ReadTypedLine(s: seq<char>, t: int, rest: seq<int>)
    requires IsTypable(s) && IsTerminator(t) && IsStream(rest)
    ensures IsStream(Typed(s) + [t] + rest)
    ensures LineOf(Typed(s) + [t] + rest) == s
    ensures Remaining(Typed(s) + [t] + rest) == rest
  {
    var input := Typed(s) + [t] + rest;
    assert input[|s|] == t && input[|s| + 1..] == rest;
    LineRead(input, s);
  }

  /** At the end of input a line needs no terminator: it is read whole, and nothing
      remains. */
  lemma {:induction false} ReadLastLine(s: seq<char>)
    requires IsTypable(s)
    ensures LineOf(Typed(s)) == s && Remaining(Typed(s)) == []
  {
    LineRead(Typed(s), s);
  }
}
