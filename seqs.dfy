/**
 * Two facts about sequence concatenation, kept apart from the string
 * predicates so that reasoning about them does not unfold character
 * classes.
 */
module Seqs {

  lemma Associative<T>(x: seq<T>, y: seq<T>, z: seq<T>)
    ensures x + y + z == x + (y + z)
  {
  }

  lemma Uncons<T>(a: seq<T>, t: seq<T>)
    requires a != []
    ensures a == [a[0]] + a[1..] && a + t == [a[0]] + (a[1..] + t)
  {
  }
}
