/** parse_command_line: splits a line with strtok on the delimiter set " " (space
    only) and stores the tokens, in order, in a growable NULL-terminated vector. */
module Tokenizer {

  import opened Wrappers
  import opened Memory

  /** The only delimiter: tabs and other white space are token characters. */
  const DELIMITER: char := ' '

  /** A token: a non-empty run of characters other than the delimiter. */
  predicate IsToken(w: seq<char>) {
    w != [] && DELIMITER !in w
  }

  /** The length of the run of non-delimiters that s starts with. */
  function RunLength(s: seq<char>): (n: nat)
    ensures n <= |s|
    ensures forall i :: 0 <= i < n ==> s[i] != DELIMITER
    ensures n < |s| ==> s[n] == DELIMITER
  {
    if s == [] || s[0] == DELIMITER then 0 else 1 + RunLength(s[1..])
  }

  /** The maximal runs of non-delimiters of s, in order: the reference split. */
  function Tokens(s: seq<char>): (ws: seq<seq<char>>)
    decreases |s|
  {
    if s == [] then []
    else if s[0] == DELIMITER then Tokens(s[1..])
    else
      var n := RunLength(s);
      [s[..n]] + Tokens(s[n..])
  }

  /** No token is empty and none holds a delimiter. */
  lemma {:induction false} TokensAreTokens(s: seq<char>)
    ensures forall i :: 0 <= i < |Tokens(s)| ==> IsToken(Tokens(s)[i])
    decreases |s|
  {
    if s == [] {
    } else if s[0] == DELIMITER {
      TokensAreTokens(s[1..]);
    } else {
      var n := RunLength(s);
      TokensAreTokens(s[n..]);
      assert DELIMITER !in s[..n];
    }
  }

  /** k delimiters. */
  function Spaces(k: nat): seq<char> {
    seq(k, _ => DELIMITER)
  }

  /** The line made of the tokens ws with gaps[i] delimiters before ws[i] and
      gaps[|ws|] after the last one. */
  function Layout(gaps: seq<nat>, ws: seq<seq<char>>): seq<char>
    requires |gaps| == |ws| + 1
    decreases |ws|
  {
    if ws == [] then Spaces(gaps[0])
    else Spaces(gaps[0]) + ws[0] + Layout(gaps[1..], ws[1..])
  }

  /** gaps can lay out ws: one gap per token plus one, and at least one delimiter
      between two tokens (the leading and trailing gaps may be empty). */
  predicate SeparatedBy(gaps: seq<nat>, ws: seq<seq<char>>) {
    |gaps| == |ws| + 1 && forall i :: 0 < i < |ws| ==> gaps[i] > 0
  }

  /** The delimiter counts of s: before each of its tokens and after the last. */
  function Gaps(s: seq<char>): (gaps: seq<nat>)
    ensures |gaps| == |Tokens(s)| + 1
    decreases |s|
  {
    if s == [] then [0]
    else if s[0] == DELIMITER then
      var g := Gaps(s[1..]);
      [g[0] + 1] + g[1..]
    else [0] + Gaps(s[RunLength(s)..])
  }

  lemma {:induction false} TokensAfterSpaces(k: nat, s: seq<char>)
    ensures Tokens(Spaces(k) + s) == Tokens(s)
  {
    if k > 0 {
      var line := Spaces(k) + s;
      assert line != [] && line[0] == DELIMITER;
      assert line[1..] == Spaces(k - 1) + s;
      assert Tokens(line) == Tokens(line[1..]);
      TokensAfterSpaces(k - 1, s);
    } else {
      assert Spaces(k) + s == s;
    }
  }

  lemma {:induction false} RunLengthOfToken(w: seq<char>, s: seq<char>)
    requires DELIMITER !in w
    requires s == [] || s[0] == DELIMITER
    ensures RunLength(w + s) == |w|
  {
    if w != [] {
      assert (w + s)[1..] == w[1..] + s;
      RunLengthOfToken(w[1..], s);
    }
  }

  lemma TokensAfterToken(w: seq<char>, s: seq<char>)
    requires IsToken(w)
    requires s == [] || s[0] == DELIMITER
    ensures Tokens(w + s) == [w] + Tokens(s)
  {
    RunLengthOfToken(w, s);
    assert (w + s)[..|w|] == w && (w + s)[|w|..] == s;
  }

  /** A layout starts with a delimiter unless it is empty or its first gap is. */
  lemma LayoutStart(gaps: seq<nat>, ws: seq<seq<char>>)
    requires |gaps| == |ws| + 1
    requires ws == [] || gaps[0] > 0
    ensures Layout(gaps, ws) == [] || Layout(gaps, ws)[0] == DELIMITER
  {
    if gaps[0] > 0 {
      var rest := if ws == [] then [] else ws[0] + Layout(gaps[1..], ws[1..]);
      assert Layout(gaps, ws) == Spaces(gaps[0]) + rest;
    }
  }

  /** Splitting a laid-out line gives back its tokens, whatever the gaps: leading,
      trailing and repeated delimiters produce no tokens. */
  lemma {:induction false} TokensOfLayout(gaps: seq<nat>, ws: seq<seq<char>>)
    requires SeparatedBy(gaps, ws)
    requires forall i :: 0 <= i < |ws| ==> IsToken(ws[i])
    ensures Tokens(Layout(gaps, ws)) == ws
  {
    if ws == [] {
      TokensAfterSpaces(gaps[0], []);
      assert Spaces(gaps[0]) + [] == Spaces(gaps[0]);
    } else {
      var tail := Layout(gaps[1..], ws[1..]);
      TokensOfLayout(gaps[1..], ws[1..]);
      LayoutStart(gaps[1..], ws[1..]);
      calc {
        Tokens(Layout(gaps, ws));
        { assert Layout(gaps, ws) == Spaces(gaps[0]) + (ws[0] + tail); }
        Tokens(Spaces(gaps[0]) + (ws[0] + tail));
        { TokensAfterSpaces(gaps[0], ws[0] + tail); }
        Tokens(ws[0] + tail);
        { TokensAfterToken(ws[0], tail); }
        [ws[0]] + ws[1..];
      }
    }
  }

  lemma SpacesSucc(k: nat)
    ensures Spaces(k + 1) == [DELIMITER] + Spaces(k)
  {
  }

  /** One more leading delimiter in the layout. */
  lemma LayoutOneMoreSpace(g: seq<nat>, ws: seq<seq<char>>)
    requires |g| == |ws| + 1
    ensures Layout([g[0] + 1] + g[1..], ws) == [DELIMITER] + Layout(g, ws)
  {
    var g' := [g[0] + 1] + g[1..];
    SpacesSucc(g[0]);
    if ws == [] {
      calc {
        Layout(g', ws);
        Spaces(g[0] + 1);
        [DELIMITER] + Spaces(g[0]);
      }
    } else {
      assert g'[1..] == g[1..];
      var tail := Layout(g[1..], ws[1..]);
      calc {
        Layout(g', ws);
        Spaces(g[0] + 1) + ws[0] + tail;
        [DELIMITER] + Spaces(g[0]) + ws[0] + tail;
        [DELIMITER] + (Spaces(g[0]) + ws[0] + tail);
      }
    }
  }

  /** A token then the layout of the rest of the line. */
  lemma LayoutAfterToken(w: seq<char>, g: seq<nat>, ws: seq<seq<char>>)
    requires |g| == |ws| + 1
    ensures Layout([0] + g, [w] + ws) == w + Layout(g, ws)
  {
    assert ([0] + g)[1..] == g && ([w] + ws)[1..] == ws;
    assert Spaces(0) + w == w;
  }

  /** Every line is the layout of its tokens with its gaps, and those gaps separate
      the tokens. With TokensOfLayout: Tokens(s) == ws exactly when s lays out ws. */
  lemma {:induction false} LayoutOfTokens(s: seq<char>)
    ensures SeparatedBy(Gaps(s), Tokens(s))
    ensures Layout(Gaps(s), Tokens(s)) == s
    decreases |s|
  {
    if s == [] {
    } else if s[0] == DELIMITER {
      LayoutOfTokens(s[1..]);
      LayoutOneMoreSpace(Gaps(s[1..]), Tokens(s[1..]));
      assert s == [DELIMITER] + s[1..];
    } else {
      var n := RunLength(s);
      LayoutOfTokens(s[n..]);
      var g := Gaps(s[n..]);
      var ws := Tokens(s[n..]);
      LayoutAfterToken(s[..n], g, ws);
      assert s[..n] + s[n..] == s;
      if ws != [] {
        assert s[n..] != [] && s[n..][0] == DELIMITER;
        assert g[0] > 0;
      }
    }
  }

  /** A line yields no token exactly when it is empty or all delimiters. */
  lemma BlankLine(s: seq<char>)
    ensures Tokens(s) == [] <==> forall i :: 0 <= i < |s| ==> s[i] == DELIMITER
  {
    if forall i :: 0 <= i < |s| ==> s[i] == DELIMITER {
      assert s == Spaces(|s|) + [];
      TokensAfterSpaces(|s|, []);
    }
    if Tokens(s) == [] {
      LayoutOfTokens(s);
    }
  }

  /** Tokens taken from a line without c do not contain c. */
  lemma {:induction false} TokensAvoid(s: seq<char>, c: char)
    requires c !in s
    ensures forall i :: 0 <= i < |Tokens(s)| ==> c !in Tokens(s)[i]
    decreases |s|
  {
    if s == [] {
    } else if s[0] == DELIMITER {
      TokensAvoid(s[1..], c);
    } else {
      var n := RunLength(s);
      assert c !in s[n..] && c !in s[..n];
      TokensAvoid(s[n..], c);
    }
  }

  /** A tab does not separate tokens: two words joined by a tab are one token. */
  lemma TabIsNoDelimiter(u: seq<char>, v: seq<char>)
    requires IsToken(u) && IsToken(v)
    ensures Tokens(u + ['\t'] + v) == [u + ['\t'] + v]
  {
    var w := u + ['\t'] + v;
    assert DELIMITER !in w by {
      assert forall i :: 0 <= i < |w| ==> w[i] == (if i < |u| then u[i] else if i == |u| then '\t' else v[i - |u| - 1]);
    }
    TokensAfterToken(w, []);
    assert w + [] == w;
  }

  /** A token strtok hands out, with the index where its next call resumes. */
  datatype Scan = Scan(token: seq<char>, next: nat)

  /** The first index at or after from that holds no delimiter, or |s|. */
  function SkipDelimiters(s: seq<char>, from: nat): (i: nat)
    requires from <= |s|
    ensures from <= i <= |s|
    ensures forall k :: from <= k < i ==> s[k] == DELIMITER
    ensures i < |s| ==> s[i] != DELIMITER
    decreases |s| - from
  {
    if from == |s| || s[from] != DELIMITER then from else SkipDelimiters(s, from + 1)
  }

  /** strtok(line, " ") when from is 0, strtok(NULL, " ") with the saved position
      from afterwards: skips delimiters; NULL when none but delimiters remain;
      otherwise the run that follows, whose ending delimiter is overwritten with a
      NUL, so that the next call starts after it. */
  function Strtok(s: seq<char>, from: nat): (r: Option<Scan>)
    requires from <= |s|
    ensures r.Some? ==> from < r.value.next <= |s|
  {
    var i := SkipDelimiters(s, from);
    if i == |s| then None
    else
      var j := i + RunLength(s[i..]);
      Some(Scan(s[i..j], if j < |s| then j + 1 else j))
  }

  /** The tokens strtok has still to hand out, the one in hand r included. */
  function Pending(s: seq<char>, r: Option<Scan>): seq<seq<char>>
    requires r.Some? ==> r.value.next <= |s|
  {
    match r
    case None => []
    case Some(scan) => [scan.token] + Tokens(s[scan.next..])
  }

  /** The delimiters strtok skips do not change the tokens. */
  lemma TokensAfterSkip(s: seq<char>, from: nat)
    requires from <= |s|
    ensures Tokens(s[from..]) == Tokens(s[SkipDelimiters(s, from)..])
  {
    var i := SkipDelimiters(s, from);
    assert s[from..i] == Spaces(i - from);
    assert s[from..] == s[from..i] + s[i..];
    TokensAfterSpaces(i - from, s[i..]);
  }

  /** A token that starts at i, and the delimiter strtok overwrites after it. */
  lemma TokensFromRun(s: seq<char>, i: nat)
    requires i < |s| && s[i] != DELIMITER
    ensures var j := i + RunLength(s[i..]);
      Tokens(s[i..]) == [s[i..j]] + Tokens(s[if j < |s| then j + 1 else j..])
  {
    var j := i + RunLength(s[i..]);
    assert s[i..] == s[i..j] + s[j..];
    TokensAfterToken(s[i..j], s[j..]);
    if j < |s| {
      assert s[j..] == Spaces(1) + s[j + 1..];
      TokensAfterSpaces(1, s[j + 1..]);
    }
  }

  /** strtok enumerates the reference split: from any position, its result and the
      tokens after it are the tokens of the rest of the line. */
  lemma StrtokEnumerates(s: seq<char>, from: nat)
    requires from <= |s|
    ensures Pending(s, Strtok(s, from)) == Tokens(s[from..])
  {
    var i := SkipDelimiters(s, from);
    TokensAfterSkip(s, from);
    if i < |s| {
      var j := i + RunLength(s[i..]);
      var next := if j < |s| then j + 1 else j;
      assert Strtok(s, from) == Some(Scan(s[i..j], next));
      TokensFromRun(s, i);
      assert Pending(s, Some(Scan(s[i..j], next))) == [s[i..j]] + Tokens(s[next..]);
    } else {
      assert Strtok(s, from) == None;
      assert s[i..] == [];
    }
  }

  /** The vector v holds ws followed by a NULL: what execvp expects of argv. */
  predicate NullTerminated(v: seq<Option<seq<char>>>, ws: seq<seq<char>>) {
    |v| > |ws| && v[|ws|] == None && forall i :: 0 <= i < |ws| ==> v[i] == Some(ws[i])
  }

  /** Collects the tokens strtok hands out into a vector of MAX_BUFFER entries that
      grows by MAX_BUFFER entries whenever it is full, then stores the NULL
      sentinel. The vector holds the reference split of line, in order, followed by
      NULL, and its size is the least multiple of MAX_BUFFER above the token count.
      The growth asks for bufsize entries, where the source asks for bufsize bytes:
      see AsWrittenStoresFit. */
  method ParseCommandLine(line: seq<char>) returns (tokens: array<Option<seq<char>>>)
    ensures fresh(tokens)
    ensures NullTerminated(tokens[..], Tokens(line))
    ensures IsBufferSize(tokens.Length) && tokens.Length - MAX_BUFFER <= |Tokens(line)|
  {
    var bufsize := MAX_BUFFER;
    var position := 0;
    tokens := new Option<seq<char>>[bufsize];
    var current := Strtok(line, 0);
    ghost var all := Tokens(line);
    ghost var pending := Pending(line, current);
    StrtokEnumerates(line, 0);
    assert line[0..] == line;
    while current.Some?
      invariant tokens.Length == bufsize && fresh(tokens)
      invariant IsBufferSize(bufsize) && bufsize - MAX_BUFFER <= position < bufsize
      invariant current.Some? ==> current.value.next <= |line|
      invariant pending == Pending(line, current)
      invariant position <= |all| && pending == all[position..]
      invariant forall i :: 0 <= i < position ==> tokens[i] == Some(all[i])
      decreases if current.Some? then |line| + 1 - current.value.next else 0
    {
      var scan := current.value;
      StrtokStep(line, scan);
      tokens[position] := Some(scan.token);
      assert all[position + 1..] == pending[1..];
      pending := pending[1..];
      position := position + 1;
      if position >= bufsize {
        GrowthKeepsBufferSize(bufsize);
        bufsize := bufsize + MAX_BUFFER;
        tokens := Realloc(tokens, bufsize);
      }
      current := Strtok(line, scan.next);
    }
    tokens[position] := None;
  }

  /** One call of strtok moves one token from the pending ones to the stored ones. */
  lemma StrtokStep(line: seq<char>, scan: Scan)
    requires scan.next <= |line|
    ensures Pending(line, Some(scan)) != []
    ensures Pending(line, Some(scan))[0] == scan.token
    ensures Pending(line, Some(scan))[1..] == Pending(line, Strtok(line, scan.next))
  {
    StrtokEnumerates(line, scan.next);
  }

  /** sizeof(char *) on the 64-bit targets the shell is built for. */
  const POINTER_SIZE: nat := 8

  /** Replays the allocation bookkeeping of parse_command_line as written, for a
      line of n tokens, from the state after `position` stores: bufsize is the
      count the code keeps, capacity the number of pointers its block really holds.
      The first block holds MAX_BUFFER pointers; each growth reallocates to
      bufsize BYTES, which is bufsize / POINTER_SIZE pointers. True when every store
      (the n tokens, then the NULL sentinel) lands inside the block. */
  function AsWrittenStoresFit(n: nat, position: nat, bufsize: nat, capacity: nat): bool
    requires position <= n
    decreases n - position
  {
    if position == n then position < capacity
    else
      position < capacity &&
      var p := position + 1;
      if p >= bufsize then AsWrittenStoresFit(n, p, bufsize + MAX_BUFFER, (bufsize + MAX_BUFFER) / POINTER_SIZE)
      else AsWrittenStoresFit(n, p, bufsize, capacity)
  }

  lemma {:induction false} AsWrittenBeforeGrowth(n: nat, position: nat)
    requires position <= n && position < MAX_BUFFER
    ensures AsWrittenStoresFit(n, position, MAX_BUFFER, MAX_BUFFER) <==> n < MAX_BUFFER
    decreases n - position
  {
    if position < n && position + 1 < MAX_BUFFER {
      AsWrittenBeforeGrowth(n, position + 1);
    }
  }

  /** As written, the token vector is overrun exactly when the line has at least
      MAX_BUFFER tokens: the first growth shrinks it to MAX_BUFFER + MAX_BUFFER
      bytes, room for fewer pointers than are already stored. */
  lemma AsWrittenOverflows(n: nat)
    ensures AsWrittenStoresFit(n, 0, MAX_BUFFER, MAX_BUFFER) <==> n < MAX_BUFFER
  {
    AsWrittenBeforeGrowth(n, 0);
  }

  /** A concrete line that overruns the vector as written: "a a a ... a " with
      MAX_BUFFER tokens. */
  lemma AsWrittenOverflowExample()
    ensures var line := Layout([0] + seq(MAX_BUFFER, _ => 1), seq(MAX_BUFFER, _ => "a"));
      |Tokens(line)| == MAX_BUFFER && !AsWrittenStoresFit(|Tokens(line)|, 0, MAX_BUFFER, MAX_BUFFER)
  {
    var gaps: seq<nat> := [0] + seq(MAX_BUFFER, _ => 1);
    var ws := seq(MAX_BUFFER, _ => "a");
    assert SeparatedBy(gaps, ws);
    TokensOfLayout(gaps, ws);
    AsWrittenOverflows(MAX_BUFFER);
  }
}
