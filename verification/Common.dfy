/** Small datatypes shared by every component of the model. */
module Common {

  /** A nullable column or an optional field. */
  datatype Option<+T> = None | Some(value: T)

  /** A call that answers or throws. */
  datatype Result<+T, +E> = Success(value: T) | Failure(error: E)

  /** Milliseconds since the epoch. */
  type Time = int

  /** A UUID: only equality and, where the source sorts by it, order matter. */
  type Id = nat

  function Min(a: int, b: int): int {
    if a <= b then a else b
  }

  function Max(a: int, b: int): int {
    if a >= b then a else b
  }

  /** `n` times `unit`, counted one by one. */
  function Multiple(n: nat, unit: nat): nat {
    if n == 0 then 0 else Multiple(n - 1, unit) + unit
  }

  lemma {:induction false} MultipleMonotone(m: nat, n: nat, unit: nat)
    requires m <= n
    ensures Multiple(m, unit) <= Multiple(n, unit)
  {
    if m < n {
      MultipleMonotone(m, n - 1, unit);
    }
  }

  lemma {:induction false} MultipleIsProduct(n: nat, unit: nat)
    ensures Multiple(n, unit) == n * unit
  {
    if n > 0 {
      MultipleIsProduct(n - 1, unit);
      assert n * unit == (n - 1) * unit + unit;
    }
  }
}
