/** Small value types shared by the models. */
module Common {
  datatype Option<+T> = None | Some(value: T)

  /** Universally unique identifiers: opaque values compared only for equality. */
  type Uuid = nat

  ghost predicate Distinct<T>(xs: seq<T>) {
    forall i, j :: 0 <= i < j < |xs| ==> xs[i] != xs[j]
  }

  ghost predicate IsPrefix<T>(xs: seq<T>, ys: seq<T>) {
    |xs| <= |ys| && xs == ys[..|xs|]
  }
}
