/**
 The finite field of FIPS 197, section 4: bytes are polynomials over GF(2), and
 multiplication is the polynomial product modulo x^8 + x^4 + x^3 + x + 1.
 */
module Galois {

  function Bit(a: bv8, i: nat): bool
    requires i < 8
  {
    a & Mask(i) != 0
  }

  function Mask(i: nat): bv8 {
    if i == 0 then 0x01 else if i == 1 then 0x02 else if i == 2 then 0x04 else if i == 3 then 0x08
    else if i == 4 then 0x10 else if i == 5 then 0x20 else if i == 6 then 0x40 else 0x80
  }

  function Select(c: bool, x: bv8): bv8 {
    if c then x else 0
  }

  // Section 4.1: addition of polynomials.
  function Add(x: bv8, y: bv8): bv8 {
    x ^ y
  }

  function Plus(p: bv16, q: bv16): bv16 {
    p ^ q
  }

  // Multiplication by x, without reduction.
  function Twice(p: bv16): bv16 {
    p << 1
  }

  function And(p: bv16, q: bv16): bv16 {
    p & q
  }

  // ----- Section 4.2: product and remainder -----

  // The product of the polynomials a and b, from the term of degree i of a on.
  function Product(a: bv8, b: bv8, i: nat): bv16
    requires i <= 8
    decreases 8 - i
  {
    if i == 8 then 0 else Plus(if Bit(a, i) then Shifted(b, i) else 0, Product(a, b, i + 1))
  }

  // b times x^i.
  function Shifted(b: bv8, i: nat): bv16 {
    if i == 0 then b as bv16 else Twice(Shifted(b, i - 1))
  }

  // x^d, for 7 <= d < 15.
  function Unit(d: nat): bv16 {
    if d == 7 then 0x80 else if d == 8 then 0x100 else if d == 9 then 0x200 else if d == 10 then 0x400
    else if d == 11 then 0x800 else if d == 12 then 0x1000 else if d == 13 then 0x2000 else 0x4000
  }

  // The modulus times x^(d-8), of degree d, for 8 <= d < 15.
  function Modulus(d: nat): bv16 {
    if d == 8 then 0x11b else if d == 9 then 0x236 else if d == 10 then 0x46c
    else if d == 11 then 0x8d8 else if d == 12 then 0x11b0 else if d == 13 then 0x2360 else 0x46c0
  }

  // Adds m if the term `unit` is present.
  function Clear(p: bv16, unit: bv16, m: bv16): bv16 {
    if And(p, unit) == 0 then p else Plus(p, m)
  }

  // The remainder of a polynomial of degree at most d.
  function Reduce(p: bv16, d: nat): bv8
    requires 7 <= d < 15
  {
    if d == 7 then (p & 0xff) as bv8 else Reduce(Clear(p, Unit(d), Modulus(d)), d - 1)
  }

  function Times(a: bv8, b: bv8): bv8 {
    Reduce(Product(a, b, 0), 14)
  }

  // ----- Section 4.2.1: multiplication by x -----

  function XTime(b: bv8): bv8 {
    if b & 0x80 == 0 then b << 1 else (b << 1) ^ 0x1b
  }

  function Power(b: bv8, i: nat): bv8 {
    if i == 0 then b else XTime(Power(b, i - 1))
  }

  // The sum of b times the powers of x in a, from degree i on.
  function Sum(a: bv8, b: bv8, i: nat): bv8
    requires i <= 8
    decreases 8 - i
  {
    if i == 8 then 0 else Add(Select(Bit(a, i), Power(b, i)), Sum(a, b, i + 1))
  }

  // ----- Taking remainders -----

  // The terms of degree above d.
  function Above(d: nat): bv16 {
    if d == 7 then 0xff00 else if d == 8 then 0xfe00 else if d == 9 then 0xfc00 else if d == 10 then 0xf800
    else if d == 11 then 0xf000 else if d == 12 then 0xe000 else if d == 13 then 0xc000 else 0x8000
  }

  lemma Tables(d: nat)
    requires 8 <= d < 15
    ensures Unit(d) == Twice(Unit(d - 1)) && Above(d - 1) == Above(d) | Unit(d)
    ensures And(Modulus(d), Above(d)) == 0 && And(Modulus(d), Unit(d)) == Unit(d)
    ensures d < 14 ==> Modulus(d + 1) == Twice(Modulus(d)) && And(Unit(d), 0x8000) == 0
  {
  }

  lemma OneTerm(p: bv16, d: nat)
    requires 7 <= d < 15
    ensures And(p, Unit(d)) in {0, Unit(d)}
  {
  }

  lemma AndPlus(p: bv16, q: bv16, m: bv16)
    ensures And(Plus(p, q), m) == Plus(And(p, m), And(q, m))
  {
  }

  lemma PlusLaws(p: bv16, q: bv16, m: bv16)
    ensures Plus(p, p) == 0 && Plus(p, 0) == p && Plus(0, p) == p && Plus(p, q) == Plus(q, p)
    ensures Plus(Plus(p, q), m) == Plus(p, Plus(q, m))
  {
  }

  lemma PlusCancels(p: bv16, q: bv16, m: bv16)
    ensures Plus(Plus(p, m), Plus(q, m)) == Plus(p, q)
    ensures Plus(Plus(p, m), q) == Plus(Plus(p, q), m) && Plus(p, Plus(q, m)) == Plus(Plus(p, q), m)
  {
    hide Plus;
    PlusLaws(p, q, m);
    PlusLaws(p, m, q);
    PlusLaws(p, m, Plus(q, m));
    PlusLaws(m, q, m);
    PlusLaws(q, m, m);
    PlusLaws(m, m, q);
    PlusLaws(q, m, 0);
  }

  lemma ClearLinear(p: bv16, q: bv16, unit: bv16, m: bv16)
    requires And(p, unit) in {0, unit} && And(q, unit) in {0, unit}
    ensures Clear(Plus(p, q), unit, m) == Plus(Clear(p, unit, m), Clear(q, unit, m))
  {
    hide And, Plus;
    AndPlus(p, q, unit);
    PlusCancels(p, q, m);
    PlusLaws(unit, 0, m);
    PlusLaws(0, 0, 0);
  }

  lemma {:induction false} ReduceLinear(p: bv16, q: bv16, d: nat)
    requires 7 <= d < 15
    ensures Reduce(Plus(p, q), d) == Add(Reduce(p, d), Reduce(q, d))
  {
    if d == 7 {
      LowPlus(p, q);
    } else {
      hide Clear, Unit, Modulus, And, Plus, Add;
      OneTerm(p, d);
      OneTerm(q, d);
      ClearLinear(p, q, Unit(d), Modulus(d));
      ReduceLinear(Clear(p, Unit(d), Modulus(d)), Clear(q, Unit(d), Modulus(d)), d - 1);
    }
  }

  lemma LowPlus(p: bv16, q: bv16)
    ensures (Plus(p, q) & 0xff) as bv8 == Add((p & 0xff) as bv8, (q & 0xff) as bv8)
  {
  }

  lemma TwiceLaws(p: bv16, q: bv16)
    ensures Twice(Plus(p, q)) == Plus(Twice(p), Twice(q))
    ensures And(Twice(p), Twice(q)) == Twice(And(p, q))
  {
  }

  lemma TwiceZero(p: bv16)
    requires And(p, 0x8000) == 0
    ensures Twice(p) == 0 <==> p == 0
  {
  }

  lemma ClearTwice(p: bv16, unit: bv16, m: bv16)
    requires And(unit, 0x8000) == 0 && And(p, unit) in {0, unit}
    ensures Clear(Twice(p), Twice(unit), Twice(m)) == Twice(Clear(p, unit, m))
  {
    hide And, Plus, Twice;
    TwiceLaws(p, unit);
    TwiceLaws(p, m);
    TwiceZero(unit);
    AndZero(0x8000);
    TwiceZero(0);
  }

  lemma AndZero(m: bv16)
    ensures And(0, m) == 0
  {
  }

  lemma AndOr(p: bv16, a: bv16, b: bv16)
    requires And(p, a) == 0 && And(p, b) == 0
    ensures And(p, a | b) == 0
  {
    assert p & (a | b) == (p & a) | (p & b);
  }

  lemma ClearDegree(p: bv16, unit: bv16, m: bv16, above: bv16)
    requires And(p, above) == 0 && And(m, above) == 0 && And(m, unit) == unit && And(p, unit) in {0, unit}
    ensures And(Clear(p, unit, m), above | unit) == 0
  {
    hide And, Plus;
    AndPlus(p, m, above);
    AndPlus(p, m, unit);
    PlusLaws(0, 0, 0);
    PlusLaws(unit, 0, 0);
    AndOr(Clear(p, unit, m), above, unit);
  }

  lemma ReduceByte(p: bv16)
    requires And(p, 0xff00) == 0
    ensures (Clear(Twice(p), 0x100, 0x11b) & 0xff) as bv8 == XTime((p & 0xff) as bv8)
  {
    var b := (p & 0xff) as bv8;
    assert p == b as bv16;
    assert (p << 1) & 0x100 == 0 <==> b & 0x80 == 0;
    assert ((p << 1) & 0xff) as bv8 == b << 1;
    assert (((p << 1) ^ 0x11b) & 0xff) as bv8 == (((p << 1) & 0xff) as bv8) ^ 0x1b;
  }

  // Multiplying by x before or after taking the remainder.
  lemma {:induction false} ReduceTwice(p: bv16, d: nat)
    requires 7 <= d < 14 && And(p, Above(d)) == 0
    ensures Reduce(Twice(p), d + 1) == XTime(Reduce(p, d))
    decreases d
  {
    hide Clear, Modulus, XTime, Twice, And;
    if d == 7 {
      assert Modulus(8) == 0x11b by { FirstModulus(); }
      ReduceByte(p);
      assert Reduce(Twice(p), 8) == Reduce(Clear(Twice(p), 0x100, 0x11b), 7);
    } else {
      Tables(d);
      Tables(d + 1);
      OneTerm(p, d);
      ClearTwice(p, Unit(d), Modulus(d));
      ClearDegree(p, Unit(d), Modulus(d), Above(d));
      ReduceTwice(Clear(p, Unit(d), Modulus(d)), d - 1);
    }
  }

  lemma FirstModulus()
    ensures Modulus(8) == 0x11b
  {
  }

  lemma DegreeGrows(p: bv16, d: nat)
    requires 7 <= d < 14 && And(p, Above(d)) == 0
    ensures And(p, Above(d + 1)) == 0 && And(Twice(p), Above(d + 1)) == 0
    ensures Clear(p, Unit(d + 1), Modulus(d + 1)) == p
  {
  }

  lemma {:induction false} ReduceHigh(p: bv16, d: nat)
    requires 7 <= d < 15 && And(p, Above(d)) == 0
    ensures Reduce(p, 14) == Reduce(p, d)
    decreases 14 - d
  {
    if d < 14 {
      hide Clear, Unit, Modulus, Above, And;
      DegreeGrows(p, d);
      ReduceHigh(p, d + 1);
    }
  }

  lemma {:induction false} ReduceShifted(b: bv8, i: nat)
    requires i < 8
    ensures And(Shifted(b, i), Above(7 + i)) == 0
    ensures Reduce(Shifted(b, i), 7 + i) == Power(b, i)
  {
    if i == 0 {
      ByteDegree(b);
    } else {
      hide XTime, Above, Reduce, And, Twice;
      ReduceShifted(b, i - 1);
      DegreeGrows(Shifted(b, i - 1), 6 + i);
      ReduceTwice(Shifted(b, i - 1), 6 + i);
    }
  }

  lemma ByteDegree(b: bv8)
    ensures And(b as bv16, 0xff00) == 0 && (b as bv16 & 0xff) as bv8 == b
  {
  }

  lemma {:induction false} ReduceZero(d: nat)
    requires 7 <= d < 15
    ensures Reduce(0, d) == 0
  {
    if d > 7 {
      hide Unit, Modulus, And;
      AndZero(Unit(d));
      ReduceZero(d - 1);
    }
  }

  lemma {:induction false} ReduceProduct(a: bv8, b: bv8, i: nat)
    requires i <= 8
    ensures Reduce(Product(a, b, i), 14) == Sum(a, b, i)
    decreases 8 - i
  {
    hide Reduce, Power, Shifted, Bit, Above, And, Plus, Add;
    ReduceZero(14);
    if i < 8 {
      ReduceProduct(a, b, i + 1);
      ReduceShifted(b, i);
      ReduceHigh(Shifted(b, i), 7 + i);
      ReduceLinear(if Bit(a, i) then Shifted(b, i) else 0, Product(a, b, i + 1), 14);
    }
  }

  /** Multiplication in the field is the sum of the multiples by powers of x (section 4.2.1). */
  lemma TimesIsSum(a: bv8, b: bv8)
    ensures Times(a, b) == Sum(a, b, 0)
  {
    hide Reduce, Product, Sum;
    ReduceProduct(a, b, 0);
  }

  // ----- Linearity -----

  lemma AddLaws(x: bv8, y: bv8, z: bv8)
    ensures Add(x, 0) == x && Add(0, x) == x && Add(x, x) == 0 && Add(x, y) == Add(y, x)
    ensures Add(Add(x, y), z) == Add(x, Add(y, z))
  {
  }

  lemma AddSwap(x: bv8, y: bv8, z: bv8, w: bv8)
    ensures Add(Add(x, y), Add(z, w)) == Add(Add(x, z), Add(y, w))
  {
    hide Add;
    AddLaws(x, y, Add(z, w));
    AddLaws(y, z, w);
    AddLaws(z, y, w);
    AddLaws(x, z, Add(y, w));
  }

  lemma XTimeLinear(x: bv8, y: bv8)
    ensures XTime(Add(x, y)) == Add(XTime(x), XTime(y))
  {
    assert (x ^ y) & 0x80 == (x & 0x80) ^ (y & 0x80);
    assert (x ^ y) << 1 == (x << 1) ^ (y << 1);
    TopTerm(x);
    TopTerm(y);
    Cancelling(x << 1, y << 1, 0x1b);
  }

  lemma TopTerm(x: bv8)
    ensures x & 0x80 == 0 || x & 0x80 == 0x80
  {
  }

  lemma Cancelling(x: bv8, y: bv8, m: bv8)
    ensures (x ^ m) ^ (y ^ m) == x ^ y && (x ^ m) ^ y == (x ^ y) ^ m && x ^ (y ^ m) == (x ^ y) ^ m
  {
  }

  lemma {:induction false} PowerLinear(x: bv8, y: bv8, i: nat)
    ensures Power(Add(x, y), i) == Add(Power(x, i), Power(y, i))
  {
    hide XTime, Add;
    if i > 0 {
      PowerLinear(x, y, i - 1);
      XTimeLinear(Power(x, i - 1), Power(y, i - 1));
    }
  }

  lemma {:induction false} SumLinear(a: bv8, x: bv8, y: bv8, i: nat)
    requires i <= 8
    ensures Sum(a, Add(x, y), i) == Add(Sum(a, x, i), Sum(a, y, i))
    decreases 8 - i
  {
    hide Power, Bit, Add;
    AddLaws(0, 0, 0);
    if i < 8 {
      PowerLinear(x, y, i);
      SumLinear(a, x, y, i + 1);
      var c := Bit(a, i);
      AddSwap(Select(c, Power(x, i)), Select(c, Power(y, i)), Sum(a, x, i + 1), Sum(a, y, i + 1));
    }
  }

  /** Multiplication distributes over addition. */
  lemma TimesDistributes(a: bv8, x: bv8, y: bv8)
    ensures Times(a, Add(x, y)) == Add(Times(a, x), Times(a, y))
  {
    hide Times, Sum, Add;
    TimesIsSum(a, Add(x, y));
    TimesIsSum(a, x);
    TimesIsSum(a, y);
    SumLinear(a, x, y, 0);
  }

  // ----- gf_mul -----

  lemma {:induction false} PowerShift(b: bv8, i: nat)
    ensures Power(XTime(b), i) == Power(b, i + 1)
  {
    if i > 0 {
      PowerShift(b, i - 1);
    }
  }

  lemma BitShift(a: bv8, i: nat)
    requires i < 8
    ensures Bit(a >> 1, i) == if i == 7 then false else Bit(a, i + 1)
  {
    if i == 0 { } else if i == 1 { } else if i == 2 { } else if i == 3 { }
    else if i == 4 { } else if i == 5 { } else if i == 6 { } else { }
  }

  lemma {:induction false} SumShift(a: bv8, b: bv8, i: nat)
    requires i <= 7
    ensures Sum(a >> 1, XTime(b), i) == Sum(a, b, i + 1)
    decreases 7 - i
  {
    hide XTime, Bit, Power, Add;
    BitShift(a, i);
    AddLaws(0, 0, 0);
    if i < 7 {
      SumShift(a, b, i + 1);
      PowerShift(b, i);
    }
  }

  lemma PowerZero(b: bv8)
    ensures Power(b, 0) == b
  {
  }

  lemma TimesStep(a: bv8, b: bv8)
    ensures Times(a, b) == Add(Select(a & 1 != 0, b), Times(a >> 1, XTime(b)))
  {
    hide Times, XTime, Add, Power;
    TimesIsSum(a, b);
    TimesIsSum(a >> 1, XTime(b));
    SumShift(a, b, 0);
    assert Power(b, 0) == b by { PowerZero(b); }
  }

  lemma {:induction false} SumZero(b: bv8, i: nat)
    requires i <= 8
    ensures Sum(0, b, i) == 0
    decreases 8 - i
  {
    if i < 8 {
      hide Power, Bit;
      SumZero(b, i + 1);
      NoBit(i);
    }
  }

  lemma NoBit(i: nat)
    requires i < 8
    ensures !Bit(0, i)
  {
  }

  lemma TimesZero(b: bv8)
    ensures Times(0, b) == 0
  {
    hide Times;
    TimesIsSum(0, b);
    SumZero(b, 0);
  }

  lemma Shrinks(a: bv8)
    requires a != 0
    ensures a >> 1 < a
  {
  }

  method TimesX(b: bv8) returns (r: bv8)
    ensures r == XTime(b)
  {
    var highBit := b & 0x80;
    r := b << 1;
    if highBit != 0 {
      r := r ^ 0x1b;
    }
  }

  lemma AddIsXor(x: bv8, y: bv8)
    ensures Add(x, y) == x ^ y
  {
  }

  /** Shift-and-add multiplication computes the product in the field. */
  method GfMul(a0: bv8, b: bv8) returns (p: bv8)
    ensures p == Times(a0, b)
  {
    hide Times, Add, XTime;
    p := 0;
    var temp := b;
    var a := a0;
    AddLaws(Times(a0, b), 0, 0);
    while a != 0
      invariant Add(p, Times(a, temp)) == Times(a0, b)
      decreases a
    {
      TimesStep(a, temp);
      AddLaws(p, Select(a & 1 != 0, temp), Times(a >> 1, XTime(temp)));
      if a & 1 != 0 {
        AddIsXor(p, temp);
        p := p ^ temp;
      }
      temp := TimesX(temp);
      Shrinks(a);
      a := a >> 1;
    }
    TimesZero(temp);
    AddLaws(p, 0, 0);
  }
}
