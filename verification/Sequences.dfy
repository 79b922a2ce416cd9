/** Facts about sequences of anything, and sequences that end at a zero. */
module Sequences {

  lemma Assoc<T>(a: seq<T>, b: seq<T>, c: seq<T>)
    ensures a + b + c == a + (b + c)
  {
  }

  /** A C string ends at its first zero. */
  function CString<T(==)>(s: seq<T>, nul: T): (r: seq<T>)
    ensures r <= s && nul !in r && (|r| < |s| ==> s[|r|] == nul)
  {
    if s == [] || s[0] == nul then [] else [s[0]] + CString(s[1..], nul)
  }

  lemma {:induction false} CStringWhole<T>(s: seq<T>, nul: T)
    requires nul !in s
    ensures CString(s, nul) == s
  {
    if s != [] { CStringWhole(s[1..], nul); }
  }
}
