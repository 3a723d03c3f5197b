/**
 * Numeric helpers shared by the web UI and the C++ audio code: the clamps,
 * truncations and roundings both sides write inline.
 */
module Common {
  datatype Option<T> = None | Some(value: T)

  /** `Math.min` / `std::min` on two numbers. */
  function Min(a: real, b: real): (r: real)
    ensures r <= a && r <= b
    ensures r == a || r == b
  {
    if a <= b then a else b
  }

  /** `Math.max` / `std::max` on two numbers. */
  function Max(a: real, b: real): (r: real)
    ensures r >= a && r >= b
    ensures r == a || r == b
  {
    if a >= b then a else b
  }

  /**
   * `Math.max(lo, Math.min(hi, x))`, the clamp every UI control applies.
   * When `lo > hi` the outer `max` wins and the result is `lo`.
   */
  function Clamp(x: real, lo: real, hi: real): (r: real)
    ensures lo <= hi ==> lo <= r <= hi
    ensures lo <= x <= hi ==> r == x
    ensures lo <= hi && x <= lo ==> r == lo
    ensures lo <= hi && x >= hi ==> r == hi
    ensures hi < lo ==> r == lo
  {
    Max(lo, Min(hi, x))
  }

  /** Clamping never reverses the order of two inputs. */
  lemma ClampMonotone(x: real, y: real, lo: real, hi: real)
    requires x <= y
    ensures Clamp(x, lo, hi) <= Clamp(y, lo, hi)
  {
  }

  /** `std::abs` on a float. */
  function Abs(x: real): (r: real)
    ensures r >= 0.0
    ensures r == x || r == -x
  {
    if x < 0.0 then -x else x
  }

  /** `static_cast<int>(x)` / `int(x)` in C++: truncation toward zero. */
  function Trunc(x: real): (r: int)
    ensures 0.0 <= x ==> 0 <= r && r as real <= x < r as real + 1.0
    ensures x < 0.0 ==> r <= 0 && r as real - 1.0 < x <= r as real
  {
    if x >= 0.0 then x.Floor else -((-x).Floor)
  }

  /** Truncation keeps the order of its arguments. */
  lemma TruncMonotone(x: real, y: real)
    requires x <= y
    ensures Trunc(x) <= Trunc(y)
  {
  }

  /** JavaScript `Math.round`: the nearest integer, halves rounded up. */
  function JsRound(x: real): (r: int)
    ensures r as real - 0.5 <= x < r as real + 0.5
  {
    (x + 0.5).Floor
  }

  /** `k` copies of `x`: what `k` listeners each doing the same thing append to a log. */
  function Repeat<T>(x: T, k: nat): (r: seq<T>)
    ensures |r| == k
    ensures forall i :: 0 <= i < k ==> r[i] == x
  {
    seq(k, _ => x)
  }

  /** A multiple of `m` other than zero is at least `m` away from zero. */
  lemma MultipleBound(x: int, m: int)
    requires m >= 1
    ensures x >= 1 ==> x * m >= m
    ensures x <= -1 ==> x * m <= -m
  {
  }

  /** Euclidean `%` is determined by any quotient/remainder pair. */
  lemma ModUnique(a: int, m: int, q: int, r: int)
    requires m >= 1 && 0 <= r < m && a == q * m + r
    ensures a % m == r
  {
    var q', r' := a / m, a % m;
    assert a == q' * m + r';
    assert (q - q') * m == r' - r;
    MultipleBound(q - q', m);
  }

  /** Going once round a ring of `m` slots comes back to the same slot. */
  lemma ModPeriod(a: int, m: int)
    requires m >= 1
    ensures (a + m) % m == a % m
  {
    ModUnique(a + m, m, a / m + 1, a % m);
  }

  /** Fewer than `m` steps round a ring of `m` slots never land on the start slot. */
  lemma ModDistinct(a: int, d: int, m: int)
    requires m >= 1 && 0 < d < m
    ensures (a + d) % m != a % m
  {
    var r := a % m;
    if r + d < m {
      ModUnique(a + d, m, a / m, r + d);
    } else {
      ModUnique(a + d, m, a / m + 1, r + d - m);
    }
  }

  /** One step of `(pos + 1) % size` from a slot reached by `a` steps. */
  lemma ModSucc(a: int, m: int)
    requires m >= 1
    ensures (a % m + 1) % m == (a + 1) % m
    ensures (a + 1) % m == if a % m + 1 == m then 0 else a % m + 1
  {
    var r := a % m;
    if r + 1 < m {
      ModUnique(a + 1, m, a / m, r + 1);
    } else {
      ModUnique(a + 1, m, a / m + 1, 0);
    }
  }

  /** A part over a positive whole is a fraction in `[0, 1]`. */
  lemma RatioInUnit(a: real, b: real)
    requires 0.0 <= a <= b && 0.0 < b
    ensures 0.0 <= a / b <= 1.0
  {
    var q := a / b;
    assert q * b == a;
    assert q < 0.0 ==> q * b < 0.0;
    assert q > 1.0 ==> q * b > 1.0 * b;
  }

  /** A part outside `[0, b]` over a positive whole `b` falls outside `[0, 1]` on the same side. */
  lemma RatioOutsideUnit(a: real, b: real)
    requires 0.0 < b
    ensures a <= 0.0 ==> a / b <= 0.0
    ensures a >= b ==> a / b >= 1.0
  {
    var q := a / b;
    assert q * b == a;
    assert q > 0.0 ==> q * b > 0.0;
    assert q < 1.0 ==> q * b < 1.0 * b;
  }

  /** Division by a positive number keeps order. */
  lemma DivMonotone(a: real, c: real, b: real)
    requires a <= c && 0.0 < b
    ensures a / b <= c / b
  {
    var p, q := a / b, c / b;
    assert p * b == a && q * b == c;
    assert p > q ==> p * b > q * b;
  }

  /** Scaling by a non-negative factor keeps order. */
  lemma MulMonotone(a: real, c: real, k: real)
    requires a <= c && 0.0 <= k
    ensures a * k <= c * k
  {
    assert c * k - a * k == (c - a) * k;
  }
}
