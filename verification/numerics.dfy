/** Numeric vocabulary shared by the whole pipeline.

    The renderer computes with JavaScript numbers; the model uses `real`.
    The host's `Math.sqrt`, `Math.sin`, `Math.cos` and `Math.tan` are not
    part of the model: they arrive as a `Libm` value, and `Lawful` lists the
    only facts about them that the proofs use.  The integer-valued helpers
    (`Math.floor`, `Math.ceil`, `Math.round`, `%`) and the byte store of a
    `Uint8ClampedArray` are defined exactly. */
module Numerics {

  datatype Option<+T> = None | Some(value: T)

  /** A computation that may throw: `Failure` carries the thrown message. */
  datatype Result<+T> = Success(value: T) | Failure(message: string)

  /** The host math library, as opaque function values. */
  datatype Libm = Libm(sqrt: real -> real, sin: real -> real, cos: real -> real, tan: real -> real)

  /** The facts about the host math library that the lemmas rely on. */
  ghost predicate Lawful(m: Libm) {
    && (forall x :: x > 0.0 ==> m.sqrt(x) > 0.0 && m.sqrt(x) * m.sqrt(x) == x)
    && (forall a :: m.sin(a) * m.sin(a) + m.cos(a) * m.cos(a) == 1.0)
    && m.cos(0.0) == 1.0
    && m.sin(0.0) == 0.0
  }

  /** `Math.PI` */
  const PI: real := 3.141592653589793

  function Abs(x: real): real { if x < 0.0 then -x else x }

  function Max(a: real, b: real): real { if a < b then b else a }

  function Min(a: real, b: real): real { if a < b then a else b }

  /** `Math.floor` */
  function Floor(x: real): (r: int)
    ensures r as real <= x < r as real + 1.0
  {
    x.Floor
  }

  /** `Math.ceil` */
  function Ceil(x: real): (r: int)
    ensures x <= r as real < x + 1.0
  {
    -((-x).Floor)
  }

  /** `Math.round`: the nearest integer, halves rounded towards +infinity. */
  function Round(x: real): (r: int)
    ensures r as real - 0.5 <= x < r as real + 0.5
  {
    (x + 0.5).Floor
  }

  /** Truncation towards zero, as JavaScript's `%` uses it. */
  function Trunc(x: real): (r: int)
    ensures 0.0 <= x ==> 0 <= r && r as real <= x
    ensures x <= 0.0 ==> r <= 0 && x <= r as real
    ensures Abs(x - r as real) < 1.0
  {
    if x >= 0.0 then x.Floor else -((-x).Floor)
  }

  /** JavaScript's `a % b`: the remainder of the division truncated towards zero. */
  function Rem(a: real, b: real): real
    requires b != 0.0
  {
    a - b * (Trunc(a / b) as real)
  }

  lemma RemOneIsFraction(x: real)
    requires x >= 0.0
    ensures Rem(x, 1.0) == x - x.Floor as real
    ensures 0.0 <= Rem(x, 1.0) < 1.0
  {
  }

  /** Dividing by a non-zero k and multiplying back restores the dividend. */
  lemma DivMul(p: real, k: real)
    requires k != 0.0
    ensures (p / k) * k == p
  {
  }

  /** A non-zero factor cancels from both sides of an equation. */
  lemma CancelFactor(k: real, d: real, e: real)
    requires k != 0.0 && k * d == k * e
    ensures d == e
  {
    assert k * (d - e) == 0.0;
  }

  /** Dividing numerator and denominator by the same k keeps the quotient. */
  lemma RatioOfQuotients(a: real, b: real, k: real)
    requires k != 0.0 && b != 0.0
    ensures b / k != 0.0
    ensures (a / k) / (b / k) == a / b
  {
  }

  /** The value of a variable that starts at `start` after `n` executions
      of `+= step`. */
  function Accumulate(start: real, step: real, n: nat): real {
    if n == 0 then start else Accumulate(start, step, n - 1) + step
  }

  /** Over the reals, repeated addition is multiplication. */
  lemma {:induction false} AccumulateIsLinear(start: real, step: real, n: nat)
    ensures Accumulate(start, step, n) == start + n as real * step
  {
    if n > 0 {
      AccumulateIsLinear(start, step, n - 1);
      assert (n - 1) as real * step + step == n as real * step;
    }
  }

  /** An element of a `Uint8ClampedArray`. */
  newtype Byte = b: int | 0 <= b < 256

  /** ECMAScript ToUint8Clamp: what a `Uint8ClampedArray` stores when a number is
      assigned to one of its elements (clamp to [0,255], round half to even).
      Within the range the contract fixes the byte: the nearest integer, and
      the even one of the two at a tie. */
  function ToUint8Clamp(x: real): (r: Byte)
    ensures x <= 0.0 ==> r == 0
    ensures x >= 255.0 ==> r == 255
    ensures 0.0 <= x <= 255.0 ==> Abs(r as real - x) <= 0.5
    ensures 0.0 <= x <= 255.0 && x - Floor(x) as real != 0.5 ==> Abs(r as real - x) < 0.5
    ensures 0.0 <= x <= 255.0 && x - Floor(x) as real == 0.5 ==> (r as int) % 2 == 0
  {
    if x <= 0.0 then 0
    else if x >= 255.0 then 255
    else
      var f := x.Floor;
      if f as real + 0.5 < x then (f + 1) as Byte
      else if x < f as real + 0.5 then f as Byte
      else if f % 2 == 0 then f as Byte
      else (f + 1) as Byte
  }
}
