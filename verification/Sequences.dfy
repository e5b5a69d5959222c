/** Regrouping of sequences. */
module Sequences {
  lemma Associative<T>(a: seq<T>, b: seq<T>, c: seq<T>)
    ensures (a + b) + c == a + (b + c)
  {
  }

  lemma FirstAndRest<T>(s: seq<T>)
    requires s != []
    ensures s == [s[0]] + s[1..] && (|s| == 1 ==> s == [s[0]])
  {
  }
}
