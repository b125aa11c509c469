/**
 The block transformation of libs/hbb_common/src/fingerprint.rs against AES-128 as
 FIPS 197 defines it. A state is the sequence of its columns: the byte in row r and
 column c of the standard is element r + 4c.
 */
module Aes {
  import opened Galois

  type Block = s: seq<bv8> | |s| == 16 witness seq(16, _ => 0)

  // ----- Section 5.1.1: the S-box -----

  // TABLE. Written as a decision tree over the bits of its index: the solver decides facts about
  // every byte by its bits, and would not from an index into a sequence of 256 elements.
  function Table(b: bv8): bv8 {
    if b & 0x80 == 0 then
      if b & 0x40 == 0 then
        if b & 0x20 == 0 then
          if b & 0x10 == 0 then
            if b & 0x08 == 0 then
              if b & 0x04 == 0 then
                (if b & 0x02 == 0 then (if b & 0x01 == 0 then 0x63 else 0x7c) else (if b & 0x01 == 0 then 0x77 else 0x7b))
              else
                (if b & 0x02 == 0 then (if b & 0x01 == 0 then 0xf2 else 0x6b) else (if b & 0x01 == 0 then 0x6f else 0xc5))
            else
              if b & 0x04 == 0 then
                (if b & 0x02 == 0 then (if b & 0x01 == 0 then 0x30 else 0x01) else (if b & 0x01 == 0 then 0x67 else 0x2b))
              else
                (if b & 0x02 == 0 then (if b & 0x01 == 0 then 0xfe else 0xd7) else (if b & 0x01 == 0 then 0xab else 0x76))
          else
            if b & 0x08 == 0 then
              if b & 0x04 == 0 then
                (if b & 0x02 == 0 then (if b & 0x01 == 0 then 0xca else 0x82) else (if b & 0x01 == 0 then 0xc9 else 0x7d))
              else
                (if b & 0x02 == 0 then (if b & 0x01 == 0 then 0xfa else 0x59) else (if b & 0x01 == 0 then 0x47 else 0xf0))
            else
              if b & 0x04 == 0 then
                (if b & 0x02 == 0 then (if b & 0x01 == 0 then 0xad else 0xd4) else (if b & 0x01 == 0 then 0xa2 else 0xaf))
              else
                (if b & 0x02 == 0 then (if b & 0x01 == 0 then 0x9c else 0xa4) else (if b & 0x01 == 0 then 0x72 else 0xc0))
        else
          if b & 0x10 == 0 then
            if b & 0x08 == 0 then
              if b & 0x04 == 0 then
                (if b & 0x02 == 0 then (if b & 0x01 == 0 then 0xb7 else 0xfd) else (if b & 0x01 == 0 then 0x93 else 0x26))
              else
                (if b & 0x02 == 0 then (if b & 0x01 == 0 then 0x36 else 0x3f) else (if b & 0x01 == 0 then 0xf7 else 0xcc))
            else
              if b & 0x04 == 0 then
                (if b & 0x02 == 0 then (if b & 0x01 == 0 then 0x34 else 0xa5) else (if b & 0x01 == 0 then 0xe5 else 0xf1))
              else
                (if b & 0x02 == 0 then (if b & 0x01 == 0 then 0x71 else 0xd8) else (if b & 0x01 == 0 then 0x31 else 0x15))
          else
            if b & 0x08 == 0 then
              if b & 0x04 == 0 then
                (if b & 0x02 == 0 then (if b & 0x01 == 0 then 0x04 else 0xc7) else (if b & 0x01 == 0 then 0x23 else 0xc3))
              else
                (if b & 0x02 == 0 then (if b & 0x01 == 0 then 0x18 else 0x96) else (if b & 0x01 == 0 then 0x05 else 0x9a))
            else
              if b & 0x04 == 0 then
                (if b & 0x02 == 0 then (if b & 0x01 == 0 then 0x07 else 0x12) else (if b & 0x01 == 0 then 0x80 else 0xe2))
              else
                (if b & 0x02 == 0 then (if b & 0x01 == 0 then 0xeb else 0x27) else (if b & 0x01 == 0 then 0xb2 else 0x75))
      else
        if b & 0x20 == 0 then
          if b & 0x10 == 0 then
            if b & 0x08 == 0 then
              if b & 0x04 == 0 then
                (if b & 0x02 == 0 then (if b & 0x01 == 0 then 0x09 else 0x83) else (if b & 0x01 == 0 then 0x2c else 0x1a))
              else
                (if b & 0x02 == 0 then (if b & 0x01 == 0 then 0x1b else 0x6e) else (if b & 0x01 == 0 then 0x5a else 0xa0))
            else
              if b & 0x04 == 0 then
                (if b & 0x02 == 0 then (if b & 0x01 == 0 then 0x52 else 0x3b) else (if b & 0x01 == 0 then 0xd6 else 0xb3))
              else
                (if b & 0x02 == 0 then (if b & 0x01 == 0 then 0x29 else 0xe3) else (if b & 0x01 == 0 then 0x2f else 0x84))
          else
            if b & 0x08 == 0 then
              if b & 0x04 == 0 then
                (if b & 0x02 == 0 then (if b & 0x01 == 0 then 0x53 else 0xd1) else (if b & 0x01 == 0 then 0x00 else 0xed))
              else
                (if b & 0x02 == 0 then (if b & 0x01 == 0 then 0x20 else 0xfc) else (if b & 0x01 == 0 then 0xb1 else 0x5b))
            else
              if b & 0x04 == 0 then
                (if b & 0x02 == 0 then (if b & 0x01 == 0 then 0x6a else 0xcb) else (if b & 0x01 == 0 then 0xbe else 0x39))
              else
                (if b & 0x02 == 0 then (if b & 0x01 == 0 then 0x4a else 0x4c) else (if b & 0x01 == 0 then 0x58 else 0xcf))
        else
          if b & 0x10 == 0 then
            if b & 0x08 == 0 then
              if b & 0x04 == 0 then
                (if b & 0x02 == 0 then (if b & 0x01 == 0 then 0xd0 else 0xef) else (if b & 0x01 == 0 then 0xaa else 0xfb))
              else
                (if b & 0x02 == 0 then (if b & 0x01 == 0 then 0x43 else 0x4d) else (if b & 0x01 == 0 then 0x33 else 0x85))
            else
              if b & 0x04 == 0 then
                (if b & 0x02 == 0 then (if b & 0x01 == 0 then 0x45 else 0xf9) else (if b & 0x01 == 0 then 0x02 else 0x7f))
              else
                (if b & 0x02 == 0 then (if b & 0x01 == 0 then 0x50 else 0x3c) else (if b & 0x01 == 0 then 0x9f else 0xa8))
          else
            if b & 0x08 == 0 then
              if b & 0x04 == 0 then
                (if b & 0x02 == 0 then (if b & 0x01 == 0 then 0x51 else 0xa3) else (if b & 0x01 == 0 then 0x40 else 0x8f))
              else
                (if b & 0x02 == 0 then (if b & 0x01 == 0 then 0x92 else 0x9d) else (if b & 0x01 == 0 then 0x38 else 0xf5))
            else
              if b & 0x04 == 0 then
                (if b & 0x02 == 0 then (if b & 0x01 == 0 then 0xbc else 0xb6) else (if b & 0x01 == 0 then 0xda else 0x21))
              else
                (if b & 0x02 == 0 then (if b & 0x01 == 0 then 0x10 else 0xff) else (if b & 0x01 == 0 then 0xf3 else 0xd2))
    else
      if b & 0x40 == 0 then
        if b & 0x20 == 0 then
          if b & 0x10 == 0 then
            if b & 0x08 == 0 then
              if b & 0x04 == 0 then
                (if b & 0x02 == 0 then (if b & 0x01 == 0 then 0xcd else 0x0c) else (if b & 0x01 == 0 then 0x13 else 0xec))
              else
                (if b & 0x02 == 0 then (if b & 0x01 == 0 then 0x5f else 0x97) else (if b & 0x01 == 0 then 0x44 else 0x17))
            else
              if b & 0x04 == 0 then
                (if b & 0x02 == 0 then (if b & 0x01 == 0 then 0xc4 else 0xa7) else (if b & 0x01 == 0 then 0x7e else 0x3d))
              else
                (if b & 0x02 == 0 then (if b & 0x01 == 0 then 0x64 else 0x5d) else (if b & 0x01 == 0 then 0x19 else 0x73))
          else
            if b & 0x08 == 0 then
              if b & 0x04 == 0 then
                (if b & 0x02 == 0 then (if b & 0x01 == 0 then 0x60 else 0x81) else (if b & 0x01 == 0 then 0x4f else 0xdc))
              else
                (if b & 0x02 == 0 then (if b & 0x01 == 0 then 0x22 else 0x2a) else (if b & 0x01 == 0 then 0x90 else 0x88))
            else
              if b & 0x04 == 0 then
                (if b & 0x02 == 0 then (if b & 0x01 == 0 then 0x46 else 0xee) else (if b & 0x01 == 0 then 0xb8 else 0x14))
              else
                (if b & 0x02 == 0 then (if b & 0x01 == 0 then 0xde else 0x5e) else (if b & 0x01 == 0 then 0x0b else 0xdb))
        else
          if b & 0x10 == 0 then
            if b & 0x08 == 0 then
              if b & 0x04 == 0 then
                (if b & 0x02 == 0 then (if b & 0x01 == 0 then 0xe0 else 0x32) else (if b & 0x01 == 0 then 0x3a else 0x0a))
              else
                (if b & 0x02 == 0 then (if b & 0x01 == 0 then 0x49 else 0x06) else (if b & 0x01 == 0 then 0x24 else 0x5c))
            else
              if b & 0x04 == 0 then
                (if b & 0x02 == 0 then (if b & 0x01 == 0 then 0xc2 else 0xd3) else (if b & 0x01 == 0 then 0xac else 0x62))
              else
                (if b & 0x02 == 0 then (if b & 0x01 == 0 then 0x91 else 0x95) else (if b & 0x01 == 0 then 0xe4 else 0x79))
          else
            if b & 0x08 == 0 then
              if b & 0x04 == 0 then
                (if b & 0x02 == 0 then (if b & 0x01 == 0 then 0xe7 else 0xc8) else (if b & 0x01 == 0 then 0x37 else 0x6d))
              else
                (if b & 0x02 == 0 then (if b & 0x01 == 0 then 0x8d else 0xd5) else (if b & 0x01 == 0 then 0x4e else 0xa9))
            else
              if b & 0x04 == 0 then
                (if b & 0x02 == 0 then (if b & 0x01 == 0 then 0x6c else 0x56) else (if b & 0x01 == 0 then 0xf4 else 0xea))
              else
                (if b & 0x02 == 0 then (if b & 0x01 == 0 then 0x65 else 0x7a) else (if b & 0x01 == 0 then 0xae else 0x08))
      else
        if b & 0x20 == 0 then
          if b & 0x10 == 0 then
            if b & 0x08 == 0 then
              if b & 0x04 == 0 then
                (if b & 0x02 == 0 then (if b & 0x01 == 0 then 0xba else 0x78) else (if b & 0x01 == 0 then 0x25 else 0x2e))
              else
                (if b & 0x02 == 0 then (if b & 0x01 == 0 then 0x1c else 0xa6) else (if b & 0x01 == 0 then 0xb4 else 0xc6))
            else
              if b & 0x04 == 0 then
                (if b & 0x02 == 0 then (if b & 0x01 == 0 then 0xe8 else 0xdd) else (if b & 0x01 == 0 then 0x74 else 0x1f))
              else
                (if b & 0x02 == 0 then (if b & 0x01 == 0 then 0x4b else 0xbd) else (if b & 0x01 == 0 then 0x8b else 0x8a))
          else
            if b & 0x08 == 0 then
              if b & 0x04 == 0 then
                (if b & 0x02 == 0 then (if b & 0x01 == 0 then 0x70 else 0x3e) else (if b & 0x01 == 0 then 0xb5 else 0x66))
              else
                (if b & 0x02 == 0 then (if b & 0x01 == 0 then 0x48 else 0x03) else (if b & 0x01 == 0 then 0xf6 else 0x0e))
            else
              if b & 0x04 == 0 then
                (if b & 0x02 == 0 then (if b & 0x01 == 0 then 0x61 else 0x35) else (if b & 0x01 == 0 then 0x57 else 0xb9))
              else
                (if b & 0x02 == 0 then (if b & 0x01 == 0 then 0x86 else 0xc1) else (if b & 0x01 == 0 then 0x1d else 0x9e))
        else
          if b & 0x10 == 0 then
            if b & 0x08 == 0 then
              if b & 0x04 == 0 then
                (if b & 0x02 == 0 then (if b & 0x01 == 0 then 0xe1 else 0xf8) else (if b & 0x01 == 0 then 0x98 else 0x11))
              else
                (if b & 0x02 == 0 then (if b & 0x01 == 0 then 0x69 else 0xd9) else (if b & 0x01 == 0 then 0x8e else 0x94))
            else
              if b & 0x04 == 0 then
                (if b & 0x02 == 0 then (if b & 0x01 == 0 then 0x9b else 0x1e) else (if b & 0x01 == 0 then 0x87 else 0xe9))
              else
                (if b & 0x02 == 0 then (if b & 0x01 == 0 then 0xce else 0x55) else (if b & 0x01 == 0 then 0x28 else 0xdf))
          else
            if b & 0x08 == 0 then
              if b & 0x04 == 0 then
                (if b & 0x02 == 0 then (if b & 0x01 == 0 then 0x8c else 0xa1) else (if b & 0x01 == 0 then 0x89 else 0x0d))
              else
                (if b & 0x02 == 0 then (if b & 0x01 == 0 then 0xbf else 0xe6) else (if b & 0x01 == 0 then 0x42 else 0x68))
            else
              if b & 0x04 == 0 then
                (if b & 0x02 == 0 then (if b & 0x01 == 0 then 0x41 else 0x99) else (if b & 0x01 == 0 then 0x2d else 0x0f))
              else
                (if b & 0x02 == 0 then (if b & 0x01 == 0 then 0xb0 else 0x54) else (if b & 0x01 == 0 then 0xbb else 0x16))
  }

  function Affine(b: bv8): bv8 {
    b ^ ((b << 1) | (b >> 7)) ^ ((b << 2) | (b >> 6)) ^ ((b << 3) | (b >> 5)) ^ ((b << 4) | (b >> 4)) ^ 0x63
  }

  function AffineInverse(b: bv8): bv8 {
    ((b << 1) | (b >> 7)) ^ ((b << 3) | (b >> 5)) ^ ((b << 6) | (b >> 2)) ^ 0x05
  }

  // The multiplicative inverse, read off the table.
  function Inverse(b: bv8): bv8 {
    AffineInverse(Table(b))
  }

  // Section 5.3.2: the inverse affine map, then the multiplicative inverse.
  function InverseTable(b: bv8): bv8 {
    Inverse(AffineInverse(b))
  }

  // Times(a, b) with the recursion over the bits of a unrolled.
  function SumOfPowers(a: bv8, b: bv8): bv8 {
    var b1 := XTime(b);
    var b2 := XTime(b1);
    var b3 := XTime(b2);
    var b4 := XTime(b3);
    var b5 := XTime(b4);
    var b6 := XTime(b5);
    var b7 := XTime(b6);
    Add(Select(Bit(a, 0), b), Add(Select(Bit(a, 1), b1), Add(Select(Bit(a, 2), b2), Add(Select(Bit(a, 3), b3),
      Add(Select(Bit(a, 4), b4), Add(Select(Bit(a, 5), b5), Add(Select(Bit(a, 6), b6), Add(Select(Bit(a, 7), b7), 0))))))))
  }

  lemma TimesUnrolled(a: bv8, b: bv8)
    ensures Times(a, b) == SumOfPowers(a, b)
  {
    hide Times, Bit, Select, Add, XTime;
    TimesIsSum(a, b);
    assert Power(b, 2) == XTime(XTime(b));
    assert Power(b, 4) == XTime(XTime(Power(b, 2)));
    assert Power(b, 6) == XTime(XTime(Power(b, 4)));
    assert Power(b, 7) == XTime(Power(b, 6));
    assert Sum(a, b, 7) == Add(Select(Bit(a, 7), Power(b, 7)), 0);
    assert Sum(a, b, 5) == Add(Select(Bit(a, 5), Power(b, 5)), Add(Select(Bit(a, 6), Power(b, 6)), Sum(a, b, 7)));
    assert Sum(a, b, 3) == Add(Select(Bit(a, 3), Power(b, 3)), Add(Select(Bit(a, 4), Power(b, 4)), Sum(a, b, 5)));
    assert Sum(a, b, 1) == Add(Select(Bit(a, 1), Power(b, 1)), Add(Select(Bit(a, 2), Power(b, 2)), Sum(a, b, 3)));
  }

  lemma InverseProduct(b: bv8)
    requires b != 0
    ensures SumOfPowers(b, Inverse(b)) == 1
  {
    hide *;
    if b & 0x80 == 0 {
      if b & 0x40 == 0 {
        InverseProduct0(b);
      } else {
        InverseProduct1(b);
      }
    } else if b & 0x40 == 0 {
      InverseProduct2(b);
    } else {
      InverseProduct3(b);
    }
  }

  // A quarter of the bytes each, by their top two bits.
  lemma InverseProduct0(b: bv8)
    requires b != 0 && b & 0x80 == 0 && b & 0x40 == 0
    ensures SumOfPowers(b, Inverse(b)) == 1
  {
  }

  lemma InverseProduct1(b: bv8)
    requires b & 0x80 == 0 && b & 0x40 != 0
    ensures SumOfPowers(b, Inverse(b)) == 1
  {
  }

  lemma InverseProduct2(b: bv8)
    requires b & 0x80 != 0 && b & 0x40 == 0
    ensures SumOfPowers(b, Inverse(b)) == 1
  {
  }

  lemma InverseProduct3(b: bv8)
    requires b & 0x80 != 0 && b & 0x40 != 0
    ensures SumOfPowers(b, Inverse(b)) == 1
  {
  }

  lemma TableIsAffine(b: bv8)
    ensures Affine(Inverse(b)) == Table(b) && Inverse(0) == 0
  {
  }

  /** The table is the affine map of the multiplicative inverse, with zero mapped to itself. */
  lemma SubstitutionBox(b: bv8)
    ensures Table(b) == Affine(Inverse(b))
    ensures if b == 0 then Inverse(b) == 0 else Times(b, Inverse(b)) == 1
  {
    hide Times, SumOfPowers, Table, Affine, AffineInverse;
    TableIsAffine(b);
    TimesUnrolled(b, Inverse(b));
    if b != 0 {
      InverseProduct(b);
    }
  }

  lemma InverseInvolution(b: bv8)
    ensures Inverse(Inverse(b)) == b
  {
  }

  lemma AffineRoundTrip(b: bv8)
    ensures AffineInverse(Affine(b)) == b && Affine(AffineInverse(b)) == b
  {
  }

  lemma TableRoundTrip(b: bv8)
    ensures InverseTable(Table(b)) == b && Table(InverseTable(b)) == b
  {
    hide Table, Affine, AffineInverse, Inverse;
    TableIsAffine(b);
    AffineRoundTrip(Inverse(b));
    InverseInvolution(b);
    InverseInvolution(AffineInverse(b));
    TableIsAffine(Inverse(AffineInverse(b)));
    AffineRoundTrip(b);
  }

  // ----- Sections 5.1 and 5.3: transformations of the state -----

  function SubBytes(s: Block): Block {
    seq(16, i requires 0 <= i < 16 => Table(s[i]))
  }

  function InvSubBytes(s: Block): Block {
    seq(16, i requires 0 <= i < 16 => InverseTable(s[i]))
  }

  // The position k columns to the right, cyclically, in the row of byte i.
  function LeftOf(i: nat, k: nat): (j: nat)
    requires i < 16
    ensures j < 16
  {
    i % 4 + 4 * ((i / 4 + k) % 4)
  }

  // Row r moves r columns to the left.
  function ShiftRows(s: Block): Block {
    seq(16, i requires 0 <= i < 16 => s[LeftOf(i, i % 4)])
  }

  function InvShiftRows(s: Block): Block {
    seq(16, i requires 0 <= i < 16 => s[LeftOf(i, 4 - i % 4)])
  }

  function Sum4(w: bv8, x: bv8, y: bv8, z: bv8): bv8 {
    Add(Add(w, x), Add(y, z))
  }

  // One byte of a column times the polynomial with coefficients c.
  function Row(c0: bv8, c1: bv8, c2: bv8, c3: bv8, w: bv8, x: bv8, y: bv8, z: bv8): bv8 {
    Sum4(Times(c0, w), Times(c1, x), Times(c2, y), Times(c3, z))
  }

  // The byte k rows below byte i of a state, in the same column.
  function Below(s: Block, i: nat, k: nat): bv8
    requires i < 16
  {
    s[4 * (i / 4) + (i % 4 + k) % 4]
  }

  function MixColumns(s: Block): Block {
    seq(16, i requires 0 <= i < 16 => Row(0x02, 0x03, 0x01, 0x01, s[i], Below(s, i, 1), Below(s, i, 2), Below(s, i, 3)))
  }

  function InvMixColumns(s: Block): Block {
    seq(16, i requires 0 <= i < 16 => Row(0x0e, 0x0b, 0x0d, 0x09, s[i], Below(s, i, 1), Below(s, i, 2), Below(s, i, 3)))
  }

  function AddRoundKey(s: Block, k: Block): Block {
    seq(16, i requires 0 <= i < 16 => Add(s[i], k[i]))
  }

  // ----- Section 5.2: key expansion -----

  type Word = w: seq<bv8> | |w| == 4 witness [0, 0, 0, 0]

  function AddWord(a: Word, b: Word): Word {
    [Add(a[0], b[0]), Add(a[1], b[1]), Add(a[2], b[2]), Add(a[3], b[3])]
  }

  function SubRotWord(w: Word): Word {
    [Table(w[1]), Table(w[2]), Table(w[3]), Table(w[0])]
  }

  function Rcon(j: nat): Word
    requires j > 0
  {
    [Power(0x01, j - 1), 0, 0, 0]
  }

  function ExpandedWord(key: Block, i: nat): Word {
    if i < 4 then key[4 * i..4 * i + 4] else
    var temp := ExpandedWord(key, i - 1);
    AddWord(ExpandedWord(key, i - 4), if i % 4 == 0 then AddWord(SubRotWord(temp), Rcon(i / 4)) else temp)
  }

  function RoundKey(key: Block, r: nat): Block {
    ExpandedWord(key, 4 * r) + ExpandedWord(key, 4 * r + 1) + ExpandedWord(key, 4 * r + 2) + ExpandedWord(key, 4 * r + 3)
  }

  // ----- The ciphers -----

  function Rounds(s: Block, key: Block, r: nat): Block {
    if r == 0 then AddRoundKey(s, RoundKey(key, 0))
    else AddRoundKey(MixColumns(ShiftRows(SubBytes(Rounds(s, key, r - 1)))), RoundKey(key, r))
  }

  function Cipher(input: Block, key: Block): Block {
    AddRoundKey(ShiftRows(SubBytes(Rounds(input, key, 9))), RoundKey(key, 10))
  }

  // Section 5.3: rounds r down to 0 of the inverse cipher.
  function InvRounds(s: Block, key: Block, r: nat): Block
    decreases r
  {
    var t := AddRoundKey(InvSubBytes(InvShiftRows(s)), RoundKey(key, r));
    if r == 0 then t else InvRounds(InvMixColumns(t), key, r - 1)
  }

  function InvCipher(input: Block, key: Block): Block {
    InvRounds(AddRoundKey(input, RoundKey(key, 10)), key, 9)
  }

  lemma SubBytesRoundTrip(s: Block)
    ensures InvSubBytes(SubBytes(s)) == s && SubBytes(InvSubBytes(s)) == s
  {
    forall i | 0 <= i < 16
      ensures InvSubBytes(SubBytes(s))[i] == s[i] && SubBytes(InvSubBytes(s))[i] == s[i]
    {
      hide Table, InverseTable;
      TableRoundTrip(s[i]);
    }
  }

  lemma ShiftRowsRoundTrip(s: Block)
    ensures InvShiftRows(ShiftRows(s)) == s && ShiftRows(InvShiftRows(s)) == s
  {
    hide LeftOf;
    forall i | 0 <= i < 16
      ensures InvShiftRows(ShiftRows(s))[i] == s[i] && ShiftRows(InvShiftRows(s))[i] == s[i]
    {
      ColumnShift(i);
    }
  }

  lemma ColumnShift(i: nat)
    requires i < 16
    ensures var j := LeftOf(i, 4 - i % 4); j % 4 == i % 4 && LeftOf(j, j % 4) == i
    ensures var j := LeftOf(i, i % 4); j % 4 == i % 4 && LeftOf(j, 4 - j % 4) == i
  {
    var r, c := i % 4, i / 4;
    assert i == r + 4 * c && c < 4;
    assert ((c + 4 - r) % 4 + r) % 4 == c;
    assert ((c + r) % 4 + 4 - r) % 4 == c;
  }

  lemma AddRoundKeyRoundTrip(s: Block, k: Block)
    ensures AddRoundKey(AddRoundKey(s, k), k) == s
  {
    forall i | 0 <= i < 16
      ensures AddRoundKey(AddRoundKey(s, k), k)[i] == s[i]
    {
      hide Add;
      AddLaws(s[i], k[i], k[i]);
      AddLaws(k[i], s[i], 0);
    }
  }

  // ----- MixColumns and its inverse -----

  lemma Sum4Laws(a: bv8, b: bv8, c: bv8, d: bv8, w: bv8, x: bv8, y: bv8, z: bv8)
    ensures Add(Sum4(a, b, c, d), Sum4(w, x, y, z)) == Sum4(Add(a, w), Add(b, x), Add(c, y), Add(d, z))
    ensures Sum4(a, b, c, d) == Sum4(b, c, d, a)
  {
    hide Add;
    AddSwap(Add(a, b), Add(c, d), Add(w, x), Add(y, z));
    AddSwap(a, b, w, x);
    AddSwap(c, d, y, z);
    AddLaws(a, b, Add(c, d));
    AddLaws(b, Add(c, d), a);
    AddLaws(b, c, Add(d, a));
    AddLaws(c, d, a);
    AddLaws(Add(b, Add(c, d)), a, 0);
  }

  lemma Transpose(a0: bv8, a1: bv8, a2: bv8, a3: bv8, b0: bv8, b1: bv8, b2: bv8, b3: bv8,
                  c0: bv8, c1: bv8, c2: bv8, c3: bv8, d0: bv8, d1: bv8, d2: bv8, d3: bv8)
    ensures Sum4(Sum4(a0, a1, a2, a3), Sum4(b0, b1, b2, b3), Sum4(c0, c1, c2, c3), Sum4(d0, d1, d2, d3))
         == Sum4(Sum4(a0, b0, c0, d0), Sum4(a1, b1, c1, d1), Sum4(a2, b2, c2, d2), Sum4(a3, b3, c3, d3))
  {
    hide Add;
    Sum4Laws(a0, a1, a2, a3, b0, b1, b2, b3);
    Sum4Laws(c0, c1, c2, c3, d0, d1, d2, d3);
    Sum4Laws(Add(a0, b0), Add(a1, b1), Add(a2, b2), Add(a3, b3), Add(c0, d0), Add(c1, d1), Add(c2, d2), Add(c3, d3));
  }

  lemma TimesRow(c: bv8, d0: bv8, d1: bv8, d2: bv8, d3: bv8, w: bv8, x: bv8, y: bv8, z: bv8)
    ensures Times(c, Row(d0, d1, d2, d3, w, x, y, z))
         == Sum4(Times(c, Times(d0, w)), Times(c, Times(d1, x)), Times(c, Times(d2, y)), Times(c, Times(d3, z)))
  {
    hide Times, Add;
    var p, q, r, s := Times(d0, w), Times(d1, x), Times(d2, y), Times(d3, z);
    TimesDistributes(c, Add(p, q), Add(r, s));
    TimesDistributes(c, p, q);
    TimesDistributes(c, r, s);
  }

  // Coefficient k of the product of two column polynomials, applied to a byte.
  function Convolve(c0: bv8, c1: bv8, c2: bv8, c3: bv8, d0: bv8, d1: bv8, d2: bv8, d3: bv8, x: bv8): bv8 {
    Sum4(Times(c0, Times(d0, x)), Times(c1, Times(d3, x)), Times(c2, Times(d2, x)), Times(c3, Times(d1, x)))
  }

  // Multiplying a column twice is multiplying by the product polynomial modulo x^4 + 1.
  lemma RowOfRows(c0: bv8, c1: bv8, c2: bv8, c3: bv8, d0: bv8, d1: bv8, d2: bv8, d3: bv8, w: bv8, x: bv8, y: bv8, z: bv8)
    ensures Row(c0, c1, c2, c3, Row(d0, d1, d2, d3, w, x, y, z), Row(d0, d1, d2, d3, x, y, z, w),
                Row(d0, d1, d2, d3, y, z, w, x), Row(d0, d1, d2, d3, z, w, x, y))
         == Sum4(Convolve(c0, c1, c2, c3, d0, d1, d2, d3, w), Convolve(c0, c1, c2, c3, d1, d2, d3, d0, x),
                 Convolve(c0, c1, c2, c3, d2, d3, d0, d1, y), Convolve(c0, c1, c2, c3, d3, d0, d1, d2, z))
  {
    hide Times, Add, Sum4;
    TimesRow(c0, d0, d1, d2, d3, w, x, y, z);
    TimesRow(c1, d0, d1, d2, d3, x, y, z, w);
    TimesRow(c2, d0, d1, d2, d3, y, z, w, x);
    TimesRow(c3, d0, d1, d2, d3, z, w, x, y);
    Rotate3(Times(c1, Times(d0, x)), Times(c1, Times(d1, y)), Times(c1, Times(d2, z)), Times(c1, Times(d3, w)));
    Rotate2(Times(c2, Times(d0, y)), Times(c2, Times(d1, z)), Times(c2, Times(d2, w)), Times(c2, Times(d3, x)));
    Rotate1(Times(c3, Times(d0, z)), Times(c3, Times(d1, w)), Times(c3, Times(d2, x)), Times(c3, Times(d3, y)));
    Transpose(Times(c0, Times(d0, w)), Times(c0, Times(d1, x)), Times(c0, Times(d2, y)), Times(c0, Times(d3, z)),
              Times(c1, Times(d3, w)), Times(c1, Times(d0, x)), Times(c1, Times(d1, y)), Times(c1, Times(d2, z)),
              Times(c2, Times(d2, w)), Times(c2, Times(d3, x)), Times(c2, Times(d0, y)), Times(c2, Times(d1, z)),
              Times(c3, Times(d1, w)), Times(c3, Times(d2, x)), Times(c3, Times(d3, y)), Times(c3, Times(d0, z)));
  }

  lemma Rotate1(a: bv8, b: bv8, c: bv8, d: bv8)
    ensures Sum4(a, b, c, d) == Sum4(b, c, d, a)
  {
    Sum4Laws(a, b, c, d, 0, 0, 0, 0);
  }

  lemma Rotate2(a: bv8, b: bv8, c: bv8, d: bv8)
    ensures Sum4(a, b, c, d) == Sum4(c, d, a, b)
  {
    hide Sum4;
    Rotate1(a, b, c, d);
    Rotate1(b, c, d, a);
  }

  lemma Rotate3(a: bv8, b: bv8, c: bv8, d: bv8)
    ensures Sum4(a, b, c, d) == Sum4(d, a, b, c)
  {
    hide Sum4;
    Rotate1(d, a, b, c);
  }

  // Products with the coefficients of the two column polynomials.
  lemma SmallTimes(x: bv8)
    ensures Times(0x01, x) == x && Times(0x02, x) == XTime(x) && Times(0x03, x) == Add(XTime(x), x)
  {
    hide Times;
    TimesUnrolled(0x01, x);
    TimesUnrolled(0x02, x);
    TimesUnrolled(0x03, x);
  }

  lemma LargeTimes(x: bv8)
    ensures Times(0x09, x) == Add(XTime(XTime(XTime(x))), x)
    ensures Times(0x0b, x) == Add(Add(XTime(XTime(XTime(x))), XTime(x)), x)
    ensures Times(0x0d, x) == Add(Add(XTime(XTime(XTime(x))), XTime(XTime(x))), x)
    ensures Times(0x0e, x) == Add(Add(XTime(XTime(XTime(x))), XTime(XTime(x))), XTime(x))
  {
    hide *;
    TimesNine(x);
    TimesEleven(x);
    TimesThirteen(x);
    TimesFourteen(x);
  }

  lemma TimesNine(x: bv8)
    ensures Times(0x09, x) == Add(XTime(XTime(XTime(x))), x)
  {
    hide Times;
    TimesUnrolled(0x09, x);
  }

  lemma TimesEleven(x: bv8)
    ensures Times(0x0b, x) == Add(Add(XTime(XTime(XTime(x))), XTime(x)), x)
  {
    hide Times;
    TimesUnrolled(0x0b, x);
  }

  lemma TimesThirteen(x: bv8)
    ensures Times(0x0d, x) == Add(Add(XTime(XTime(XTime(x))), XTime(XTime(x))), x)
  {
    hide Times;
    TimesUnrolled(0x0d, x);
  }

  lemma TimesFourteen(x: bv8)
    ensures Times(0x0e, x) == Add(Add(XTime(XTime(XTime(x))), XTime(XTime(x))), XTime(x))
  {
    hide Times;
    TimesUnrolled(0x0e, x);
  }

  // The four products of a byte, by repeated multiplication by x.
  function Nine(x: bv8): bv8 { Add(XTime(XTime(XTime(x))), x) }
  function Eleven(x: bv8): bv8 { Add(Add(XTime(XTime(XTime(x))), XTime(x)), x) }
  function Thirteen(x: bv8): bv8 { Add(Add(XTime(XTime(XTime(x))), XTime(XTime(x))), x) }
  function Fourteen(x: bv8): bv8 { Add(Add(XTime(XTime(XTime(x))), XTime(XTime(x))), XTime(x)) }
  function Three(x: bv8): bv8 { Add(XTime(x), x) }

  // The product of the two column polynomials is 1.
  lemma UndoMix(x: bv8)
    ensures Sum4(Fourteen(XTime(x)), Eleven(x), Thirteen(x), Nine(Three(x))) == x
    ensures Sum4(Fourteen(Three(x)), Eleven(XTime(x)), Thirteen(x), Nine(x)) == 0
    ensures Sum4(Fourteen(x), Eleven(Three(x)), Thirteen(XTime(x)), Nine(x)) == 0
    ensures Sum4(Fourteen(x), Eleven(x), Thirteen(Three(x)), Nine(XTime(x))) == 0
  {
  }

  lemma RedoMix(x: bv8)
    ensures Sum4(XTime(Fourteen(x)), Three(Nine(x)), Thirteen(x), Eleven(x)) == x
    ensures Sum4(XTime(Eleven(x)), Three(Fourteen(x)), Nine(x), Thirteen(x)) == 0
    ensures Sum4(XTime(Thirteen(x)), Three(Eleven(x)), Fourteen(x), Nine(x)) == 0
    ensures Sum4(XTime(Nine(x)), Three(Thirteen(x)), Eleven(x), Fourteen(x)) == 0
  {
  }

  lemma UndoCoefficients(x: bv8)
    ensures Convolve(0x0e, 0x0b, 0x0d, 0x09, 0x02, 0x03, 0x01, 0x01, x) == x
    ensures Convolve(0x0e, 0x0b, 0x0d, 0x09, 0x03, 0x01, 0x01, 0x02, x) == 0
    ensures Convolve(0x0e, 0x0b, 0x0d, 0x09, 0x01, 0x01, 0x02, 0x03, x) == 0
    ensures Convolve(0x0e, 0x0b, 0x0d, 0x09, 0x01, 0x02, 0x03, 0x01, x) == 0
  {
    hide Times, Add, XTime;
    SmallTimes(x);
    LargeTimes(x);
    LargeTimes(XTime(x));
    LargeTimes(Three(x));
    UndoMix(x);
  }

  lemma RedoCoefficients(x: bv8)
    ensures Convolve(0x02, 0x03, 0x01, 0x01, 0x0e, 0x0b, 0x0d, 0x09, x) == x
    ensures Convolve(0x02, 0x03, 0x01, 0x01, 0x0b, 0x0d, 0x09, 0x0e, x) == 0
    ensures Convolve(0x02, 0x03, 0x01, 0x01, 0x0d, 0x09, 0x0e, 0x0b, x) == 0
    ensures Convolve(0x02, 0x03, 0x01, 0x01, 0x09, 0x0e, 0x0b, 0x0d, x) == 0
  {
    hide Times, Add, XTime;
    LargeTimes(x);
    SmallTimes(Nine(x));
    SmallTimes(Eleven(x));
    SmallTimes(Thirteen(x));
    SmallTimes(Fourteen(x));
    RedoMix(x);
  }

  lemma MixRows(w: bv8, x: bv8, y: bv8, z: bv8)
    ensures Row(0x0e, 0x0b, 0x0d, 0x09, Row(0x02, 0x03, 0x01, 0x01, w, x, y, z), Row(0x02, 0x03, 0x01, 0x01, x, y, z, w),
                Row(0x02, 0x03, 0x01, 0x01, y, z, w, x), Row(0x02, 0x03, 0x01, 0x01, z, w, x, y)) == w
    ensures Row(0x02, 0x03, 0x01, 0x01, Row(0x0e, 0x0b, 0x0d, 0x09, w, x, y, z), Row(0x0e, 0x0b, 0x0d, 0x09, x, y, z, w),
                Row(0x0e, 0x0b, 0x0d, 0x09, y, z, w, x), Row(0x0e, 0x0b, 0x0d, 0x09, z, w, x, y)) == w
  {
    hide Row, Convolve;
    RowOfRows(0x0e, 0x0b, 0x0d, 0x09, 0x02, 0x03, 0x01, 0x01, w, x, y, z);
    RowOfRows(0x02, 0x03, 0x01, 0x01, 0x0e, 0x0b, 0x0d, 0x09, w, x, y, z);
    UndoCoefficients(w);
    UndoCoefficients(x);
    UndoCoefficients(y);
    UndoCoefficients(z);
    RedoCoefficients(w);
    RedoCoefficients(x);
    RedoCoefficients(y);
    RedoCoefficients(z);
    OnlyFirst(w);
  }

  lemma OnlyFirst(w: bv8)
    ensures Sum4(w, 0, 0, 0) == w
  {
    AddLaws(w, 0, 0);
  }

  // The bytes below a byte, seen from the bytes below it.
  lemma BelowBelow(s: Block, i: nat, j: nat, k: nat)
    requires i < 16 && j < 4
    ensures var b := 4 * (i / 4) + (i % 4 + j) % 4; b < 16 && Below(s, b, k) == Below(s, i, j + k)
  {
    var c, r := i / 4, i % 4;
    var b := 4 * c + (r + j) % 4;
    assert b / 4 == c && b % 4 == (r + j) % 4;
    assert ((r + j) % 4 + k) % 4 == (r + j + k) % 4;
  }

  lemma BelowPeriod(s: Block, i: nat, k: nat)
    requires i < 16
    ensures Below(s, i, k + 4) == Below(s, i, k) && Below(s, i, 0) == s[i]
  {
  }

  // Byte i of a column product, and the three bytes below it.
  lemma ColumnOf(m: Block, s: Block, i: nat, c0: bv8, c1: bv8, c2: bv8, c3: bv8)
    requires i < 16
    requires forall j :: 0 <= j < 16 ==> m[j] == Row(c0, c1, c2, c3, s[j], Below(s, j, 1), Below(s, j, 2), Below(s, j, 3))
    ensures var w, x, y, z := s[i], Below(s, i, 1), Below(s, i, 2), Below(s, i, 3);
      && m[i] == Row(c0, c1, c2, c3, w, x, y, z) && Below(m, i, 1) == Row(c0, c1, c2, c3, x, y, z, w)
      && Below(m, i, 2) == Row(c0, c1, c2, c3, y, z, w, x) && Below(m, i, 3) == Row(c0, c1, c2, c3, z, w, x, y)
  {
    hide Row, Below;
    forall j | 1 <= j < 4
      ensures Below(m, i, j) == Row(c0, c1, c2, c3, Below(s, i, j), Below(s, i, j + 1), Below(s, i, j + 2), Below(s, i, j + 3))
    {
      BelowAt(m, s, i, j);
      var b := 4 * (i / 4) + (i % 4 + j) % 4;
      BelowBelow(s, i, j, 1);
      BelowBelow(s, i, j, 2);
      BelowBelow(s, i, j, 3);
    }
    BelowPeriod(s, i, 0);
    BelowPeriod(s, i, 1);
    BelowPeriod(s, i, 2);
  }

  lemma BelowAt(m: Block, s: Block, i: nat, j: nat)
    requires i < 16
    ensures var b := 4 * (i / 4) + (i % 4 + j) % 4; Below(m, i, j) == m[b] && Below(s, i, j) == s[b]
  {
  }

  lemma MixColumnsRoundTrip(s: Block)
    ensures InvMixColumns(MixColumns(s)) == s && MixColumns(InvMixColumns(s)) == s
  {
    forall i | 0 <= i < 16
      ensures InvMixColumns(MixColumns(s))[i] == s[i] && MixColumns(InvMixColumns(s))[i] == s[i]
    {
      hide Row, Below;
      ColumnOf(MixColumns(s), s, i, 0x02, 0x03, 0x01, 0x01);
      ColumnOf(InvMixColumns(s), s, i, 0x0e, 0x0b, 0x0d, 0x09);
      MixRows(s[i], Below(s, i, 1), Below(s, i, 2), Below(s, i, 3));
    }
  }

  // ----- The ciphers undo each other -----

  lemma {:induction false} DecipherRounds(s: Block, key: Block, r: nat)
    ensures InvRounds(ShiftRows(SubBytes(Rounds(s, key, r))), key, r) == s
  {
    hide ShiftRows, SubBytes, InvShiftRows, InvSubBytes, AddRoundKey, MixColumns, InvMixColumns, RoundKey;
    var a := Rounds(s, key, r);
    SubBytesRoundTrip(a);
    ShiftRowsRoundTrip(SubBytes(a));
    if r == 0 {
      AddRoundKeyRoundTrip(s, RoundKey(key, 0));
    } else {
      var b := ShiftRows(SubBytes(Rounds(s, key, r - 1)));
      AddRoundKeyRoundTrip(MixColumns(b), RoundKey(key, r));
      MixColumnsRoundTrip(b);
      DecipherRounds(s, key, r - 1);
    }
  }

  lemma {:induction false} EncipherRounds(s: Block, key: Block, r: nat)
    ensures ShiftRows(SubBytes(Rounds(InvRounds(s, key, r), key, r))) == s
    decreases r
  {
    hide ShiftRows, SubBytes, InvShiftRows, InvSubBytes, AddRoundKey, MixColumns, InvMixColumns, RoundKey;
    var a := InvSubBytes(InvShiftRows(s));
    SubBytesRoundTrip(InvShiftRows(s));
    ShiftRowsRoundTrip(s);
    AddRoundKeyRoundTrip(a, RoundKey(key, r));
    if r > 0 {
      var t := AddRoundKey(a, RoundKey(key, r));
      MixColumnsRoundTrip(t);
      EncipherRounds(InvMixColumns(t), key, r - 1);
    }
  }

  /** For every key the cipher and the inverse cipher undo each other, so the cipher is a bijection on blocks. */
  lemma CipherBijective(block: Block, key: Block)
    ensures InvCipher(Cipher(block, key), key) == block
    ensures Cipher(InvCipher(block, key), key) == block
  {
    hide ShiftRows, SubBytes, AddRoundKey, RoundKey, Rounds, InvRounds;
    AddRoundKeyRoundTrip(ShiftRows(SubBytes(Rounds(block, key, 9))), RoundKey(key, 10));
    DecipherRounds(block, key, 9);
    EncipherRounds(AddRoundKey(block, RoundKey(key, 10)), key, 9);
    AddRoundKeyRoundTrip(block, RoundKey(key, 10));
  }
}
