/** What several models share. */
module Shared {

  datatype Option<+T> = None | Some(value: T)

  /** A box by two corners. */
  datatype Box = Box(x1: real, y1: real, x2: real, y2: real)
  {
    function Area(): real { (x2 - x1) * (y2 - y1) }
  }

  lemma Regroup<T>(t: seq<T>, a: seq<T>, b: seq<T>, c: seq<T>, d: seq<T>)
    ensures t + (a + b + c + d) == t + a + b + c + d
  {
  }
}
