/**
 Pointer normalization in crates/rd-engine/src/input.rs: a point of the virtual desktop
 as a pair of absolute coordinates between 0 and 65535. Inputs are 32-bit integers, the
 arithmetic is 64-bit.
 */
module Input {

  type i32 = x: int | -0x8000_0000 <= x < 0x8000_0000

  const ABSOLUTE_MAX: int := 65_535

  predicate Fits64(x: int) {
    -0x8000_0000_0000_0000 <= x < 0x8000_0000_0000_0000
  }

  function Max(a: int, b: int): int {
    if a < b then b else a
  }

  function Clamp(x: int, low: int, high: int): int {
    if x < low then low else if x > high then high else x
  }

  function Span(size: i32): (s: int)
    ensures s >= 1
  {
    Max(size - 1, 1)
  }

  // One axis. The dividend is never negative, so truncation is Euclidean division.
  function Normalize(x: i32, origin: i32, size: i32): int {
    Clamp(x - origin, 0, Span(size)) * ABSOLUTE_MAX / Span(size)
  }

  function NormalizeAbsolute(x: i32, y: i32, originX: i32, originY: i32, width: i32, height: i32): (r: (i32, i32))
    ensures 0 <= r.0 <= ABSOLUTE_MAX && 0 <= r.1 <= ABSOLUTE_MAX
    ensures (x <= originX ==> r.0 == 0) && (y <= originY ==> r.1 == 0)
    ensures (x - originX >= Max(width - 1, 1) ==> r.0 == ABSOLUTE_MAX) && (y - originY >= Max(height - 1, 1) ==> r.1 == ABSOLUTE_MAX)
  {
    InRange(x, originX, width);
    InRange(y, originY, height);
    Clamped(x, originX, width);
    Clamped(y, originY, height);
    (Normalize(x, originX, width), Normalize(y, originY, height))
  }

  lemma Product(d: int, a: int, b: int)
    requires d > 0 && a > b
    ensures d * a >= d * b + d
  {
    assert d * (a - b - 1) == d * a - d * b - d;
  }

  // Bounds on a quotient from bounds on its dividend.
  lemma Quotient(a: int, d: int, low: int, high: int)
    requires d > 0 && low * d <= a < (high + 1) * d
    ensures low <= a / d <= high
  {
    var q := a / d;
    assert a == d * q + a % d;
    if q < low {
      Product(d, low, q);
    } else if q > high {
      Product(d, q, high);
    }
  }

  lemma Ordered(a: int, b: int, d: int)
    requires d > 0 && a <= b
    ensures a / d <= b / d
  {
    var q, r := a / d, b / d;
    assert a == d * q + a % d && b == d * r + b % d;
    if q > r {
      Product(d, q, r);
    }
  }

  lemma InRange(x: i32, origin: i32, size: i32)
    ensures 0 <= Normalize(x, origin, size) <= ABSOLUTE_MAX
  {
    var r, s := Clamp(x - origin, 0, Span(size)), Span(size);
    assert r * ABSOLUTE_MAX <= s * ABSOLUTE_MAX;
    Quotient(r * ABSOLUTE_MAX, s, 0, ABSOLUTE_MAX);
  }

  /** No intermediate value of either axis leaves 64 bits, and none is negative where it is divided. */
  lemma NoOverflow(x: i32, origin: i32, size: i32)
    ensures Fits64(size - 1) && Fits64(Span(size)) && Fits64(x - origin)
    ensures Fits64(Clamp(x - origin, 0, Span(size)) * ABSOLUTE_MAX) && 0 <= Clamp(x - origin, 0, Span(size)) * ABSOLUTE_MAX
  {
  }

  /** Moving the point right or down never moves the result left or up. */
  lemma Monotone(x: i32, y: i32, origin: i32, size: i32)
    requires x <= y
    ensures Normalize(x, origin, size) <= Normalize(y, origin, size)
  {
    Ordered(Clamp(x - origin, 0, Span(size)) * ABSOLUTE_MAX, Clamp(y - origin, 0, Span(size)) * ABSOLUTE_MAX, Span(size));
  }

  /** Outside the desktop the result stays on the near edge; a desktop of two pixels or more has both its ends on the two edges. */
  lemma Clamped(x: i32, origin: i32, size: i32)
    ensures x <= origin ==> Normalize(x, origin, size) == 0
    ensures x - origin >= Span(size) ==> Normalize(x, origin, size) == ABSOLUTE_MAX
    ensures size >= 2 && x == origin + size - 1 ==> Normalize(x, origin, size) == ABSOLUTE_MAX
  {
    Quotient(0, Span(size), 0, 0);
    Quotient(Span(size) * ABSOLUTE_MAX, Span(size), ABSOLUTE_MAX, ABSOLUTE_MAX);
  }

  function CeilDiv(a: int, d: int): int
    requires d > 0
  {
    (a + d - 1) / d
  }

  lemma Recovers(x: i32, origin: i32, size: i32)
    requires 0 <= x - origin <= Span(size) <= ABSOLUTE_MAX
    ensures CeilDiv(Normalize(x, origin, size) * Span(size), ABSOLUTE_MAX) == x - origin
  {
    var r, s := x - origin, Span(size);
    var n := Normalize(x, origin, size);
    assert n * s <= r * ABSOLUTE_MAX < n * s + s;
    Quotient(n * s + ABSOLUTE_MAX - 1, ABSOLUTE_MAX, r, r);
  }

  /**
   Exactly the desktops of at most 65536 pixels keep every pixel apart, and there ceiling
   division gives the pixel back; a desktop that starts at the largest coordinate has
   only one pixel a point can reach.
   */
  lemma PixelsRecovered(origin: i32, size: i32)
    ensures (forall x: i32 :: 0 <= x - origin <= Span(size)
               ==> CeilDiv(Normalize(x, origin, size) * Span(size), ABSOLUTE_MAX) == x - origin)
       <==> Span(size) <= ABSOLUTE_MAX || origin == 0x7FFF_FFFF
    ensures (forall x: i32, y: i32 :: 0 <= x - origin < y - origin <= Span(size)
               ==> Normalize(x, origin, size) < Normalize(y, origin, size))
       <==> Span(size) <= ABSOLUTE_MAX || origin == 0x7FFF_FFFF
  {
    var s := Span(size);
    if s <= ABSOLUTE_MAX {
      forall x: i32 | 0 <= x - origin <= s
        ensures CeilDiv(Normalize(x, origin, size) * s, ABSOLUTE_MAX) == x - origin
      {
        Recovers(x, origin, size);
      }
      forall x: i32, y: i32 | 0 <= x - origin < y - origin <= s
        ensures Normalize(x, origin, size) < Normalize(y, origin, size)
      {
        Recovers(x, origin, size);
        Recovers(y, origin, size);
        Monotone(x, y, origin, size);
      }
    } else if origin == 0x7FFF_FFFF {
      Clamped(origin, origin, size);
      Quotient(ABSOLUTE_MAX - 1, ABSOLUTE_MAX, 0, 0);
    } else {
      var x: i32, y: i32 := origin, origin + 1;
      Quotient(ABSOLUTE_MAX, s, 0, 0);
      Clamped(x, origin, size);
      assert Normalize(x, origin, size) == Normalize(y, origin, size) == 0;
      Quotient(ABSOLUTE_MAX - 1, ABSOLUTE_MAX, 0, 0);
    }
  }
}
