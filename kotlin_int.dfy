/**
 * Kotlin's 32-bit `Int`: the type of `MediaPlayer.currentPosition`,
 * `MediaPlayer.duration` and every `SeekBar` progress value. Arithmetic on it
 * wraps around in two's complement, and `/` rounds toward zero (unlike
 * Dafny's Euclidean division), with `IntMin / -1` wrapping back to `IntMin`.
 */
module KotlinInt {

  const IntMin: int := -0x8000_0000
  const IntMax: int := 0x7fff_ffff
  const Modulus: int := 0x1_0000_0000

  type Int32 = x: int | IntMin <= x <= IntMax

  function Abs(x: int): nat
  {
    if x < 0 then -x else x
  }

  /** The Kotlin `Int` that the mathematical result `x` of `+` or `*` wraps to. */
  function Wrap(x: int): (r: Int32)
    ensures IntMin <= x <= IntMax ==> r == x
    ensures (x - r) % Modulus == 0
  {
    var m := (x - IntMin) % Modulus;
    assert x - (m + IntMin) == Modulus * ((x - IntMin) / Modulus);
    m + IntMin
  }

  lemma MulMonotone(x: nat, y: nat, z: nat)
    requires y <= z
    ensures x * y <= x * z
  {
    assert x * z == x * y + x * (z - y);
  }

  lemma DivAtMostDividend(x: nat, y: nat)
    requires y >= 1
    ensures x / y <= x
  {
    var q := x / y;
    assert x == y * q + x % y;
    MulMonotone(q, 1, y);
    assert q * y == y * q;
  }

  /** The quotient of two magnitudes of Kotlin `Int`s; it reaches 2^31 only for `2^31 / 1`. */
  function Quotient(x: nat, y: nat): (q: nat)
    requires y >= 1 && x <= Modulus / 2
    ensures q <= x
    ensures q == Modulus / 2 ==> x == Modulus / 2 && y == 1
  {
    DivAtMostDividend(x, y);
    assert x == y * (x / y) + x % y;
    x / y
  }

  /** Kotlin `a / b` on `Int`: the quotient truncated toward zero. */
  function Div(a: Int32, b: Int32): (r: Int32)
    requires b != 0
    ensures a >= 0 && b > 0 ==> r == a / b
    ensures !(a == IntMin && b == -1) ==> Abs(r) == Abs(a) / Abs(b)
    ensures !(a == IntMin && b == -1) && (a < 0) == (b < 0) ==> r >= 0
    ensures (a < 0) != (b < 0) ==> r <= 0
    ensures a == IntMin && b == -1 ==> r == IntMin
  {
    var q: int := Quotient(Abs(a), Abs(b));
    if a == IntMin && b == -1 then IntMin  // 2^31 wraps around
    else if (a < 0) == (b < 0) then q
    else -q
  }
}
