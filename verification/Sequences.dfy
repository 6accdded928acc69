/** The first and the last so many elements of a sequence. */
module Sequences {

  function First<T>(s: seq<T>, n: nat): seq<T> {
    if |s| <= n then s else s[..n]
  }

  function Last<T>(s: seq<T>, n: nat): seq<T> {
    if |s| <= n then s else s[|s| - n..]
  }

  /** Taking the first n of a grown sequence is filling up what was taken before. */
  lemma FirstFillsUp<T>(a: seq<T>, b: seq<T>, n: nat)
    ensures |First(a, n)| <= n
    ensures First(a + b, n) == First(a, n) + First(b, n - |First(a, n)|)
  {
  }

  lemma LastOfLast<T>(a: seq<T>, b: seq<T>, n: nat)
    ensures Last(Last(a, n) + b, n) == Last(a + b, n)
  {
  }
}
