/** Types used throughout. */
module Common {
  datatype Option<+T> = None | Some(value: T)

  datatype Result<+T, +E> = Ok(value: T) | Err(error: E)

  // Whether a call returns, or Go ends the program: a nil dereference, or unlocking a free mutex.
  datatype Fate<+T> = Returned(value: T) | Aborted

  newtype byte = x: int | 0 <= x < 256

  lemma ConcatAssociative<T>(xs: seq<T>, ys: seq<T>, zs: seq<T>)
    ensures (xs + ys) + zs == xs + (ys + zs)
  {}
}
