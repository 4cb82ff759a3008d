/** C strings: a char* denotes the characters before the first NUL, and strcmp
    compares two of them. */
module CStrings {

  const NUL: char := '\0'

  /** The string a char array denotes: its characters before the first NUL, or all
      of them when it holds none. */
  function CString(s: seq<char>): (c: seq<char>)
    ensures c <= s
    ensures NUL !in c
    ensures |c| < |s| ==> s[|c|] == NUL
  {
    if s == [] || s[0] == NUL then [] else [s[0]] + CString(s[1..])
  }

  /** strcmp: walks both strings while their characters agree, stopping at a NUL;
      zero exactly when the two C strings are equal. The end of a sequence reads as
      its NUL terminator. */
  function Strcmp(a: seq<char>, b: seq<char>): (r: int)
    ensures r == 0 <==> CString(a) == CString(b)
    decreases |a|
  {
    var x := if a == [] then NUL else a[0];
    var y := if b == [] then NUL else b[0];
    if x != y then (if x < y then -1 else 1)
    else if x == NUL then 0
    else Strcmp(a[1..], b[1..])
  }
}
