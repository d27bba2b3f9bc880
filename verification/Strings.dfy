/** ASCII case folding and trimming, shared by the modules that compare and cut names. */
module Strings {
  function Lower(c: char): char {
    if 'A' <= c <= 'Z' then (c as int + 32) as char else c
  }

  function LowerAll(s: string): (r: string)
    ensures |r| == |s|
    ensures forall i :: 0 <= i < |s| ==> r[i] == Lower(s[i])
  {
    if s == [] then [] else [Lower(s[0])] + LowerAll(s[1..])
  }

  function TrimLeft(s: string, cut: set<char>): (r: string)
    ensures |r| <= |s| && r == s[|s| - |r|..]
    ensures |r| > 0 ==> r[0] !in cut
    ensures |s| > 0 && s[0] !in cut ==> r == s
  {
    if |s| > 0 && s[0] in cut then TrimLeft(s[1..], cut) else s
  }

  function TrimRight(s: string, cut: set<char>): (r: string)
    ensures r <= s
    ensures |r| > 0 ==> r[|r| - 1] !in cut
    ensures |s| > 0 && s[|s| - 1] !in cut ==> r == s
    ensures |s| > 0 && s[0] !in cut ==> |r| > 0
  {
    if |s| > 0 && s[|s| - 1] in cut then TrimRight(s[..|s| - 1], cut) else s
  }

  /** The text without the cut characters at both ends. */
  function Trim(s: string, cut: set<char>): (r: string)
    ensures |r| <= |s|
    ensures |r| > 0 ==> r[0] !in cut && r[|r| - 1] !in cut
    ensures |s| > 0 && s[0] !in cut ==> |r| > 0 && r <= s
    ensures |s| > 0 && s[0] !in cut && s[|s| - 1] !in cut ==> r == s
  {
    TrimRight(TrimLeft(s, cut), cut)
  }

  /** Trimming adds no character. */
  lemma {:induction false} TrimChars(s: string, cut: set<char>)
    ensures forall i :: 0 <= i < |Trim(s, cut)| ==> Trim(s, cut)[i] in s
  {
    var l, r := TrimLeft(s, cut), Trim(s, cut);
    forall i | 0 <= i < |r|
      ensures r[i] in s
    {
      assert r[i] == l[i] && l[i] == s[|s| - |l| + i];
    }
  }
}
