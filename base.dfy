/** Values shared by every part of the model: Go's `error`, the
    Option/Result wrappers used for the source's `(value, error)` returns,
    and the time unit and powers of two both retry loops are built from. */
module Base {

  /** A Go `error` value, reduced to the text its `Error()` method returns. */
  datatype Error = Error(text: string)

  datatype Option<+T> = None | Some(value: T)

  /** A Go `(value, error)` pair where exactly one half matters. */
  datatype Result<+T> = Ok(value: T) | Err(error: Error)

  /** `time.Second`, in nanoseconds, as Go's `time.Duration` counts it. */
  const Second: nat := 1_000_000_000

  /** 2^k, the growth of both exponential backoffs before their caps. */
  function Pow2(k: nat): nat
  {
    if k == 0 then 1 else 2 * Pow2(k - 1)
  }

  lemma {:induction false} Pow2Grows(k: nat)
    ensures 1 <= Pow2(k) <= Pow2(k + 1)
  {
    if k > 0 {
      Pow2Grows(k - 1);
    }
  }

  lemma {:induction false} Pow2AtLeast(j: nat, k: nat)
    requires j <= k
    ensures Pow2(j) <= Pow2(k)
    decreases k
  {
    if j < k {
      Pow2AtLeast(j, k - 1);
      Pow2Grows(k - 1);
    }
  }
}
