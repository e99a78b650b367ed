/** Values shared by every part of the model. */
module Common {

  datatype Option<+T> = None | Some(value: T)

  /** The sum of a sequence of amounts. */
  function Sum(xs: seq<int>): int {
    if xs == [] then 0 else Sum(xs[..|xs| - 1]) + xs[|xs| - 1]
  }
}
