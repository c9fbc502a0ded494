/** Searching and trimming, as the strings package does it. */
module Strings {
  /** Index of the first `c`, or the length. */
  function IndexOf(s: string, c: char): (i: nat)
    ensures i <= |s| && c !in s[..i] && (i < |s| ==> s[i] == c)
  {
    if s == "" || s[0] == c then 0
    else
      var i := IndexOf(s[1..], c);
      assert s[..i + 1] == [s[0]] + s[1..][..i];
      i + 1
  }

  function TrimSuffix(s: string, c: char): string {
    if s != "" && s[|s| - 1] == c then s[..|s| - 1] else s
  }

  lemma {:induction false} IndexAt(line: string, c: char, rest: string)
    requires c !in line
    ensures IndexOf(line + [c] + rest, c) == |line|
  {
    if line == "" {
    } else {
      assert (line + [c] + rest)[1..] == line[1..] + [c] + rest;
      IndexAt(line[1..], c, rest);
    }
  }
}
