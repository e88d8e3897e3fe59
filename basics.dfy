/** Fixed-width unsigned integers of the Rust source and an Option type. */
module Basics {

  /** Rust `u8`. */
  type u8 = x: int | 0 <= x < 0x100

  /** Rust `u16` (the redirector's `Port`). */
  type u16 = x: int | 0 <= x < 0x1_0000

  /** Rust `u32`. */
  type u32 = x: int | 0 <= x < 0x1_0000_0000

  datatype Option<T> = None | Some(value: T)

  /** Euclidean division is determined by quotient and remainder. */
  lemma DivModUnique(x: int, k: int, q: int, r: int)
    requires k > 0 && x == q * k + r && 0 <= r < k
    ensures x / k == q && x % k == r
  {
    var q', r' := x / k, x % k;
    assert q' * k + r' == x;
    assert (q - q') * k == r' - r;
    if q > q' {
      MulAtLeast(q - q', k);
    } else if q < q' {
      assert (q' - q) * k == r - r';
      MulAtLeast(q' - q, k);
    }
  }

  lemma MulAtLeast(m: int, k: int)
    requires m >= 1 && k > 0
    ensures m * k >= k
  {
    assert m * k == k + (m - 1) * k;
  }
}
