/** Datatypes and sequence facts shared by every component of the model. */
module Common {

  datatype Option<+T> = None | Some(value: T)

  /** A value, or the error the program throws instead of returning one. */
  datatype Result<+T, +E> = Ok(value: T) | Err(error: E)

  function Min(a: int, b: int): (m: int)
  {
    if a <= b then a else b
  }

  function Max(a: int, b: int): (m: int)
  {
    if a >= b then a else b
  }

  /** Math.ceil(a / b) for the non-negative integers the program divides. */
  function CeilDiv(a: int, b: int): (q: int)
    requires 0 <= a && 0 < b
    ensures 0 <= q
    ensures q * b >= a && (q - 1) * b < a
  {
    assert a + b - 1 == b * ((a + b - 1) / b) + (a + b - 1) % b;
    (a + b - 1) / b
  }

  /** Two concatenations with equally long heads agree exactly when heads and tails agree. */
  lemma ConcatSplits<T>(a: seq<T>, b: seq<T>, c: seq<T>, d: seq<T>)
    requires |a| == |c|
    requires a + b == c + d
    ensures a == c && b == d
  {
    assert a == (a + b)[..|a|] && c == (c + d)[..|c|];
    assert b == (a + b)[|a|..] && d == (c + d)[|c|..];
  }
}
