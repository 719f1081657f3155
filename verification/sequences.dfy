/** Splitting and searching sequences. */
module Sequences {

  /** Where an element first occurs. */
  function FirstIndex<T(==)>(s: seq<T>, w: T): (j: nat)
    ensures j <= |s| && (j < |s| ==> s[j] == w) && w !in s[..j]
    ensures j < |s| <==> w in s
  {
    if s == [] || s[0] == w then 0 else
      assert s == [s[0]] + s[1..];
      1 + FirstIndex(s[1..], w)
  }

  lemma FirstAt<T>(s: seq<T>, w: T, i: nat)
    requires i < |s| && s[i] == w && w !in s[..i]
    ensures FirstIndex(s, w) == i
  {
  }

  /** The tokens between separators. */
  function Split(s: string, separator: char): (tokens: seq<string>)
    ensures |tokens| > 0
  {
    if s == [] then [[]]
    else
      var rest := Split(s[1..], separator);
      if s[0] == separator then [[]] + rest else [[s[0]] + rest[0]] + rest[1..]
  }
}
