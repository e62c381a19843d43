/** Regrouping of concatenations, stated once so that loops can ask for just the instance they need. */
module Sequences {

  lemma MoveAcross<T>(a: seq<T>, x: T, b: seq<T>)
    ensures a + ([x] + b) == a + [x] + b
  {
  }

  lemma Regroup<T>(a: seq<T>, b: seq<T>, c: seq<T>)
    ensures a + b + c == a + (b + c)
  {
  }
}
