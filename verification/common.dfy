/** Small vocabulary shared by every module of the model. */
module Common {

  /** A value that may be absent (Python `None`, Go's zero handle, JavaScript `null`). */
  datatype Option<T> = None | Some(value: T)

  /** An outcome that either carries a value or an error message. */
  datatype Result<T> = Ok(value: T) | Err(msg: string)

  /** An 8-bit unsigned value. */
  newtype byte = b: int | 0 <= b < 0x100

  function Max(a: int, b: int): int { if a >= b then a else b }

  function Min(a: int, b: int): int { if a <= b then a else b }

  /** Python's `max(lo, min(hi, x))`. */
  function Clamp(lo: int, hi: int, x: int): (r: int)
    requires lo <= hi
    ensures lo <= r <= hi
    ensures lo <= x <= hi ==> r == x
    ensures x < lo ==> r == lo
    ensures x > hi ==> r == hi
  {
    Max(lo, Min(hi, x))
  }

  /** The index of the last value read for frame `k` lies inside a sequence of `len` values with `width` per frame. */
  lemma FrameFits(len: nat, width: nat, k: nat)
    requires width > 0 && k < len / width
    ensures k * width + width <= len
  {
    var q := len / width;
    assert q * width <= len;
    assert k + 1 <= q;
    assert (k + 1) * width <= q * width;
  }
}
