/**
 The worked example of FIPS 197, appendices A.1 and B: every word of the key schedule and
 every state of the cipher. It fixes what the definitions of module Aes mean beyond the laws
 they satisfy: the direction of the rotations, the order of bytes and the order of rounds.
 */
module AesExample {
  import opened Galois
  import opened Aes
  import opened Fingerprint

  const Key: Block := [0x2b, 0x7e, 0x15, 0x16, 0x28, 0xae, 0xd2, 0xa6, 0xab, 0xf7, 0x15, 0x88, 0x09, 0xcf, 0x4f, 0x3c]
  const Input: Block := [0x32, 0x43, 0xf6, 0xa8, 0x88, 0x5a, 0x30, 0x8d, 0x31, 0x31, 0x98, 0xa2, 0xe0, 0x37, 0x07, 0x34]
  const Output: Block := [0x39, 0x25, 0x84, 0x1d, 0x02, 0xdc, 0x09, 0xfb, 0xdc, 0x11, 0x85, 0x97, 0x19, 0x6a, 0x0b, 0x32]

  // ----- The key schedule -----

  lemma FirstWords()
    ensures ExpandedWord(Key, 0) == [0x2b, 0x7e, 0x15, 0x16] && ExpandedWord(Key, 1) == [0x28, 0xae, 0xd2, 0xa6]
    ensures ExpandedWord(Key, 2) == [0xab, 0xf7, 0x15, 0x88] && ExpandedWord(Key, 3) == [0x09, 0xcf, 0x4f, 0x3c]
  {
  }

  // One round of the schedule from the four words before it.
  lemma ScheduleRound(r: nat, w0: Word, w1: Word, w2: Word, w3: Word, constant: bv8)
    requires 1 <= r <= 10 && Power(0x01, r - 1) == constant
    requires ExpandedWord(Key, 4 * r - 4) == w0 && ExpandedWord(Key, 4 * r - 3) == w1
    requires ExpandedWord(Key, 4 * r - 2) == w2 && ExpandedWord(Key, 4 * r - 1) == w3
    ensures var v0 := AddWord(w0, AddWord(SubRotWord(w3), [constant, 0, 0, 0]));
      var v1 := AddWord(w1, v0);
      var v2 := AddWord(w2, v1);
      && ExpandedWord(Key, 4 * r) == v0 && ExpandedWord(Key, 4 * r + 1) == v1
      && ExpandedWord(Key, 4 * r + 2) == v2 && ExpandedWord(Key, 4 * r + 3) == AddWord(w3, v2)
  {
    hide AddWord, SubRotWord, Power, Key;
    assert (4 * r) % 4 == 0 && (4 * r) / 4 == r && (4 * r + 1) % 4 == 1 && (4 * r + 2) % 4 == 2 && (4 * r + 3) % 4 == 3;
  }

  lemma Words1()
    ensures ExpandedWord(Key, 4) == [0xa0, 0xfa, 0xfe, 0x17] && ExpandedWord(Key, 5) == [0x88, 0x54, 0x2c, 0xb1]
    ensures ExpandedWord(Key, 6) == [0x23, 0xa3, 0x39, 0x39] && ExpandedWord(Key, 7) == [0x2a, 0x6c, 0x76, 0x05]
  {
    hide ExpandedWord, Power, Key;
    PowersOfTwo();
    FirstWords();
    ScheduleRound(1, [0x2b, 0x7e, 0x15, 0x16], [0x28, 0xae, 0xd2, 0xa6], [0xab, 0xf7, 0x15, 0x88], [0x09, 0xcf, 0x4f, 0x3c], 0x01);
  }

  lemma Words2()
    ensures ExpandedWord(Key, 8) == [0xf2, 0xc2, 0x95, 0xf2] && ExpandedWord(Key, 9) == [0x7a, 0x96, 0xb9, 0x43]
    ensures ExpandedWord(Key, 10) == [0x59, 0x35, 0x80, 0x7a] && ExpandedWord(Key, 11) == [0x73, 0x59, 0xf6, 0x7f]
  {
    hide ExpandedWord, Power, Key;
    PowersOfTwo();
    Words1();
    ScheduleRound(2, [0xa0, 0xfa, 0xfe, 0x17], [0x88, 0x54, 0x2c, 0xb1], [0x23, 0xa3, 0x39, 0x39], [0x2a, 0x6c, 0x76, 0x05], 0x02);
  }

  lemma Words3()
    ensures ExpandedWord(Key, 12) == [0x3d, 0x80, 0x47, 0x7d] && ExpandedWord(Key, 13) == [0x47, 0x16, 0xfe, 0x3e]
    ensures ExpandedWord(Key, 14) == [0x1e, 0x23, 0x7e, 0x44] && ExpandedWord(Key, 15) == [0x6d, 0x7a, 0x88, 0x3b]
  {
    hide ExpandedWord, Power, Key;
    PowersOfTwo();
    Words2();
    ScheduleRound(3, [0xf2, 0xc2, 0x95, 0xf2], [0x7a, 0x96, 0xb9, 0x43], [0x59, 0x35, 0x80, 0x7a], [0x73, 0x59, 0xf6, 0x7f], 0x04);
  }

  lemma Words4()
    ensures ExpandedWord(Key, 16) == [0xef, 0x44, 0xa5, 0x41] && ExpandedWord(Key, 17) == [0xa8, 0x52, 0x5b, 0x7f]
    ensures ExpandedWord(Key, 18) == [0xb6, 0x71, 0x25, 0x3b] && ExpandedWord(Key, 19) == [0xdb, 0x0b, 0xad, 0x00]
  {
    hide ExpandedWord, Power, Key;
    PowersOfTwo();
    Words3();
    ScheduleRound(4, [0x3d, 0x80, 0x47, 0x7d], [0x47, 0x16, 0xfe, 0x3e], [0x1e, 0x23, 0x7e, 0x44], [0x6d, 0x7a, 0x88, 0x3b], 0x08);
  }

  lemma Words5()
    ensures ExpandedWord(Key, 20) == [0xd4, 0xd1, 0xc6, 0xf8] && ExpandedWord(Key, 21) == [0x7c, 0x83, 0x9d, 0x87]
    ensures ExpandedWord(Key, 22) == [0xca, 0xf2, 0xb8, 0xbc] && ExpandedWord(Key, 23) == [0x11, 0xf9, 0x15, 0xbc]
  {
    hide ExpandedWord, Power, Key;
    PowersOfTwo();
    Words4();
    ScheduleRound(5, [0xef, 0x44, 0xa5, 0x41], [0xa8, 0x52, 0x5b, 0x7f], [0xb6, 0x71, 0x25, 0x3b], [0xdb, 0x0b, 0xad, 0x00], 0x10);
  }

  lemma Words6()
    ensures ExpandedWord(Key, 24) == [0x6d, 0x88, 0xa3, 0x7a] && ExpandedWord(Key, 25) == [0x11, 0x0b, 0x3e, 0xfd]
    ensures ExpandedWord(Key, 26) == [0xdb, 0xf9, 0x86, 0x41] && ExpandedWord(Key, 27) == [0xca, 0x00, 0x93, 0xfd]
  {
    hide ExpandedWord, Power, Key;
    PowersOfTwo();
    Words5();
    ScheduleRound(6, [0xd4, 0xd1, 0xc6, 0xf8], [0x7c, 0x83, 0x9d, 0x87], [0xca, 0xf2, 0xb8, 0xbc], [0x11, 0xf9, 0x15, 0xbc], 0x20);
  }

  lemma Words7()
    ensures ExpandedWord(Key, 28) == [0x4e, 0x54, 0xf7, 0x0e] && ExpandedWord(Key, 29) == [0x5f, 0x5f, 0xc9, 0xf3]
    ensures ExpandedWord(Key, 30) == [0x84, 0xa6, 0x4f, 0xb2] && ExpandedWord(Key, 31) == [0x4e, 0xa6, 0xdc, 0x4f]
  {
    hide ExpandedWord, Power, Key;
    PowersOfTwo();
    Words6();
    ScheduleRound(7, [0x6d, 0x88, 0xa3, 0x7a], [0x11, 0x0b, 0x3e, 0xfd], [0xdb, 0xf9, 0x86, 0x41], [0xca, 0x00, 0x93, 0xfd], 0x40);
  }

  lemma Words8()
    ensures ExpandedWord(Key, 32) == [0xea, 0xd2, 0x73, 0x21] && ExpandedWord(Key, 33) == [0xb5, 0x8d, 0xba, 0xd2]
    ensures ExpandedWord(Key, 34) == [0x31, 0x2b, 0xf5, 0x60] && ExpandedWord(Key, 35) == [0x7f, 0x8d, 0x29, 0x2f]
  {
    hide ExpandedWord, Power, Key;
    PowersOfTwo();
    Words7();
    ScheduleRound(8, [0x4e, 0x54, 0xf7, 0x0e], [0x5f, 0x5f, 0xc9, 0xf3], [0x84, 0xa6, 0x4f, 0xb2], [0x4e, 0xa6, 0xdc, 0x4f], 0x80);
  }

  lemma Words9()
    ensures ExpandedWord(Key, 36) == [0xac, 0x77, 0x66, 0xf3] && ExpandedWord(Key, 37) == [0x19, 0xfa, 0xdc, 0x21]
    ensures ExpandedWord(Key, 38) == [0x28, 0xd1, 0x29, 0x41] && ExpandedWord(Key, 39) == [0x57, 0x5c, 0x00, 0x6e]
  {
    hide ExpandedWord, Power, Key;
    PowersOfTwo();
    Words8();
    ScheduleRound(9, [0xea, 0xd2, 0x73, 0x21], [0xb5, 0x8d, 0xba, 0xd2], [0x31, 0x2b, 0xf5, 0x60], [0x7f, 0x8d, 0x29, 0x2f], 0x1b);
  }

  lemma Words10()
    ensures ExpandedWord(Key, 40) == [0xd0, 0x14, 0xf9, 0xa8] && ExpandedWord(Key, 41) == [0xc9, 0xee, 0x25, 0x89]
    ensures ExpandedWord(Key, 42) == [0xe1, 0x3f, 0x0c, 0xc8] && ExpandedWord(Key, 43) == [0xb6, 0x63, 0x0c, 0xa6]
  {
    hide ExpandedWord, Power, Key;
    PowersOfTwo();
    Words9();
    ScheduleRound(10, [0xac, 0x77, 0x66, 0xf3], [0x19, 0xfa, 0xdc, 0x21], [0x28, 0xd1, 0x29, 0x41], [0x57, 0x5c, 0x00, 0x6e], 0x36);
  }

  // ----- The rounds -----

  // A mixed byte from the doubles of the first two.
  function Mix(w2: bv8, x2: bv8, x: bv8, y: bv8, z: bv8): bv8 {
    Add(Add(w2, Add(x2, x)), Add(y, z))
  }

  lemma MixIsMixed(w: bv8, x: bv8, y: bv8, z: bv8)
    ensures Mixed(w, x, y, z) == Mix(XTime(w), XTime(x), x, y, z)
  {
    hide Times, Add, XTime;
    SmallTimes(w);
    SmallTimes(x);
  }

  lemma MixedCell(s: Block, c: nat)
    requires c < 4
    ensures var w, x, y, z := s[4 * c], s[4 * c + 1], s[4 * c + 2], s[4 * c + 3]; var m := MixColumns(s);
      && m[4 * c] == Mix(XTime(w), XTime(x), x, y, z) && m[4 * c + 1] == Mix(XTime(x), XTime(y), y, z, w)
      && m[4 * c + 2] == Mix(XTime(y), XTime(z), z, w, x) && m[4 * c + 3] == Mix(XTime(z), XTime(w), w, x, y)
  {
    hide Mix, Mixed, MixColumns, XTime;
    var w, x, y, z := s[4 * c], s[4 * c + 1], s[4 * c + 2], s[4 * c + 3];
    MixedColumn(s, c);
    MixIsMixed(w, x, y, z);
    MixIsMixed(x, y, z, w);
    MixIsMixed(y, z, w, x);
    MixIsMixed(z, w, x, y);
  }

  // The mixed column of four bytes.
  predicate Mixes(w: bv8, x: bv8, y: bv8, z: bv8, a: bv8, b: bv8, c: bv8, d: bv8) {
    && a == Mix(XTime(w), XTime(x), x, y, z) && b == Mix(XTime(x), XTime(y), y, z, w)
    && c == Mix(XTime(y), XTime(z), z, w, x) && d == Mix(XTime(z), XTime(w), w, x, y)
  }

  // A state after substitution and row shift.
  lemma Shifted(s0: bv8, s1: bv8, s2: bv8, s3: bv8, s4: bv8, s5: bv8, s6: bv8, s7: bv8, s8: bv8, s9: bv8, s10: bv8, s11: bv8, s12: bv8, s13: bv8, s14: bv8, s15: bv8,
                t0: bv8, t1: bv8, t2: bv8, t3: bv8, t4: bv8, t5: bv8, t6: bv8, t7: bv8, t8: bv8, t9: bv8, t10: bv8, t11: bv8, t12: bv8, t13: bv8, t14: bv8, t15: bv8)
    requires t0 == Table(s0) && t1 == Table(s5) && t2 == Table(s10) && t3 == Table(s15)
    requires t4 == Table(s4) && t5 == Table(s9) && t6 == Table(s14) && t7 == Table(s3)
    requires t8 == Table(s8) && t9 == Table(s13) && t10 == Table(s2) && t11 == Table(s7)
    requires t12 == Table(s12) && t13 == Table(s1) && t14 == Table(s6) && t15 == Table(s11)
    ensures ShiftRows(SubBytes([s0, s1, s2, s3, s4, s5, s6, s7, s8, s9, s10, s11, s12, s13, s14, s15])) == [t0, t1, t2, t3, t4, t5, t6, t7, t8, t9, t10, t11, t12, t13, t14, t15]
  {
    hide Table, ShiftRows, SubBytes;
    Substituted(s0, s1, s2, s3, s4, s5, s6, s7, s8, s9, s10, s11, s12, s13, s14, s15);
    Rotated(Table(s0), Table(s1), Table(s2), Table(s3), Table(s4), Table(s5), Table(s6), Table(s7), Table(s8), Table(s9), Table(s10), Table(s11), Table(s12), Table(s13), Table(s14), Table(s15));
  }

  lemma Substituted(s0: bv8, s1: bv8, s2: bv8, s3: bv8, s4: bv8, s5: bv8, s6: bv8, s7: bv8, s8: bv8, s9: bv8, s10: bv8, s11: bv8, s12: bv8, s13: bv8, s14: bv8, s15: bv8)
    ensures SubBytes([s0, s1, s2, s3, s4, s5, s6, s7, s8, s9, s10, s11, s12, s13, s14, s15])
         == [Table(s0), Table(s1), Table(s2), Table(s3), Table(s4), Table(s5), Table(s6), Table(s7), Table(s8), Table(s9), Table(s10), Table(s11), Table(s12), Table(s13), Table(s14), Table(s15)]
  {
    hide Table;
  }

  lemma Rotated(s0: bv8, s1: bv8, s2: bv8, s3: bv8, s4: bv8, s5: bv8, s6: bv8, s7: bv8, s8: bv8, s9: bv8, s10: bv8, s11: bv8, s12: bv8, s13: bv8, s14: bv8, s15: bv8)
    ensures ShiftRows([s0, s1, s2, s3, s4, s5, s6, s7, s8, s9, s10, s11, s12, s13, s14, s15])
         == [s0, s5, s10, s15, s4, s9, s14, s3, s8, s13, s2, s7, s12, s1, s6, s11]
  {
    hide ShiftRows;
    ShiftedBytes([s0, s1, s2, s3, s4, s5, s6, s7, s8, s9, s10, s11, s12, s13, s14, s15], [s0, s5, s10, s15, s4, s9, s14, s3, s8, s13, s2, s7, s12, s1, s6, s11]);
  }

  lemma MixedState(s0: bv8, s1: bv8, s2: bv8, s3: bv8, s4: bv8, s5: bv8, s6: bv8, s7: bv8, s8: bv8, s9: bv8, s10: bv8, s11: bv8, s12: bv8, s13: bv8, s14: bv8, s15: bv8,
                   t0: bv8, t1: bv8, t2: bv8, t3: bv8, t4: bv8, t5: bv8, t6: bv8, t7: bv8, t8: bv8, t9: bv8, t10: bv8, t11: bv8, t12: bv8, t13: bv8, t14: bv8, t15: bv8)
    requires Mixes(s0, s1, s2, s3, t0, t1, t2, t3)
    requires Mixes(s4, s5, s6, s7, t4, t5, t6, t7)
    requires Mixes(s8, s9, s10, s11, t8, t9, t10, t11)
    requires Mixes(s12, s13, s14, s15, t12, t13, t14, t15)
    ensures MixColumns([s0, s1, s2, s3, s4, s5, s6, s7, s8, s9, s10, s11, s12, s13, s14, s15]) == [t0, t1, t2, t3, t4, t5, t6, t7, t8, t9, t10, t11, t12, t13, t14, t15]
  {
    hide Mix, MixColumns, XTime;
    var s: Block := [s0, s1, s2, s3, s4, s5, s6, s7, s8, s9, s10, s11, s12, s13, s14, s15];
    MixedCell(s, 0);
    MixedCell(s, 1);
    MixedCell(s, 2);
    MixedCell(s, 3);
  }

  lemma KeyOf0()
    ensures RoundKey(Key, 0) == [0x2b, 0x7e, 0x15, 0x16, 0x28, 0xae, 0xd2, 0xa6, 0xab, 0xf7, 0x15, 0x88, 0x09, 0xcf, 0x4f, 0x3c]
  {
    hide ExpandedWord, Key;
    FirstWords();
  }

  lemma KeyOf1()
    ensures RoundKey(Key, 1) == [0xa0, 0xfa, 0xfe, 0x17, 0x88, 0x54, 0x2c, 0xb1, 0x23, 0xa3, 0x39, 0x39, 0x2a, 0x6c, 0x76, 0x05]
  {
    hide ExpandedWord, Key;
    Words1();
  }

  lemma KeyOf2()
    ensures RoundKey(Key, 2) == [0xf2, 0xc2, 0x95, 0xf2, 0x7a, 0x96, 0xb9, 0x43, 0x59, 0x35, 0x80, 0x7a, 0x73, 0x59, 0xf6, 0x7f]
  {
    hide ExpandedWord, Key;
    Words2();
  }

  lemma KeyOf3()
    ensures RoundKey(Key, 3) == [0x3d, 0x80, 0x47, 0x7d, 0x47, 0x16, 0xfe, 0x3e, 0x1e, 0x23, 0x7e, 0x44, 0x6d, 0x7a, 0x88, 0x3b]
  {
    hide ExpandedWord, Key;
    Words3();
  }

  lemma KeyOf4()
    ensures RoundKey(Key, 4) == [0xef, 0x44, 0xa5, 0x41, 0xa8, 0x52, 0x5b, 0x7f, 0xb6, 0x71, 0x25, 0x3b, 0xdb, 0x0b, 0xad, 0x00]
  {
    hide ExpandedWord, Key;
    Words4();
  }

  lemma KeyOf5()
    ensures RoundKey(Key, 5) == [0xd4, 0xd1, 0xc6, 0xf8, 0x7c, 0x83, 0x9d, 0x87, 0xca, 0xf2, 0xb8, 0xbc, 0x11, 0xf9, 0x15, 0xbc]
  {
    hide ExpandedWord, Key;
    Words5();
  }

  lemma KeyOf6()
    ensures RoundKey(Key, 6) == [0x6d, 0x88, 0xa3, 0x7a, 0x11, 0x0b, 0x3e, 0xfd, 0xdb, 0xf9, 0x86, 0x41, 0xca, 0x00, 0x93, 0xfd]
  {
    hide ExpandedWord, Key;
    Words6();
  }

  lemma KeyOf7()
    ensures RoundKey(Key, 7) == [0x4e, 0x54, 0xf7, 0x0e, 0x5f, 0x5f, 0xc9, 0xf3, 0x84, 0xa6, 0x4f, 0xb2, 0x4e, 0xa6, 0xdc, 0x4f]
  {
    hide ExpandedWord, Key;
    Words7();
  }

  lemma KeyOf8()
    ensures RoundKey(Key, 8) == [0xea, 0xd2, 0x73, 0x21, 0xb5, 0x8d, 0xba, 0xd2, 0x31, 0x2b, 0xf5, 0x60, 0x7f, 0x8d, 0x29, 0x2f]
  {
    hide ExpandedWord, Key;
    Words8();
  }

  lemma KeyOf9()
    ensures RoundKey(Key, 9) == [0xac, 0x77, 0x66, 0xf3, 0x19, 0xfa, 0xdc, 0x21, 0x28, 0xd1, 0x29, 0x41, 0x57, 0x5c, 0x00, 0x6e]
  {
    hide ExpandedWord, Key;
    Words9();
  }

  lemma KeyOf10()
    ensures RoundKey(Key, 10) == [0xd0, 0x14, 0xf9, 0xa8, 0xc9, 0xee, 0x25, 0x89, 0xe1, 0x3f, 0x0c, 0xc8, 0xb6, 0x63, 0x0c, 0xa6]
  {
    hide ExpandedWord, Key;
    Words10();
  }

  lemma Added(s0: bv8, s1: bv8, s2: bv8, s3: bv8, s4: bv8, s5: bv8, s6: bv8, s7: bv8, s8: bv8, s9: bv8, s10: bv8, s11: bv8, s12: bv8, s13: bv8, s14: bv8, s15: bv8,
              k0: bv8, k1: bv8, k2: bv8, k3: bv8, k4: bv8, k5: bv8, k6: bv8, k7: bv8, k8: bv8, k9: bv8, k10: bv8, k11: bv8, k12: bv8, k13: bv8, k14: bv8, k15: bv8,
              t0: bv8, t1: bv8, t2: bv8, t3: bv8, t4: bv8, t5: bv8, t6: bv8, t7: bv8, t8: bv8, t9: bv8, t10: bv8, t11: bv8, t12: bv8, t13: bv8, t14: bv8, t15: bv8)
    requires t0 == Add(s0, k0) && t1 == Add(s1, k1) && t2 == Add(s2, k2) && t3 == Add(s3, k3)
    requires t4 == Add(s4, k4) && t5 == Add(s5, k5) && t6 == Add(s6, k6) && t7 == Add(s7, k7)
    requires t8 == Add(s8, k8) && t9 == Add(s9, k9) && t10 == Add(s10, k10) && t11 == Add(s11, k11)
    requires t12 == Add(s12, k12) && t13 == Add(s13, k13) && t14 == Add(s14, k14) && t15 == Add(s15, k15)
    ensures AddRoundKey([s0, s1, s2, s3, s4, s5, s6, s7, s8, s9, s10, s11, s12, s13, s14, s15], [k0, k1, k2, k3, k4, k5, k6, k7, k8, k9, k10, k11, k12, k13, k14, k15]) == [t0, t1, t2, t3, t4, t5, t6, t7, t8, t9, t10, t11, t12, t13, t14, t15]
  {
    hide Add;
  }

  lemma RoundFrom(r: nat, s: Block, b: Block, m: Block, k: Block, t: Block)
    requires r > 0 && Rounds(Input, Key, r - 1) == s && ShiftRows(SubBytes(s)) == b && MixColumns(b) == m
    requires RoundKey(Key, r) == k && AddRoundKey(m, k) == t
    ensures Rounds(Input, Key, r) == t
  {
    hide SubBytes, ShiftRows, MixColumns, AddRoundKey, RoundKey, Input, Key;
  }

  lemma State0()
    ensures Rounds(Input, Key, 0) == [0x19, 0x3d, 0xe3, 0xbe, 0xa0, 0xf4, 0xe2, 0x2b, 0x9a, 0xc6, 0x8d, 0x2a, 0xe9, 0xf8, 0x48, 0x08]
  {
    hide RoundKey;
    KeyOf0();
    assert Input == [0x32, 0x43, 0xf6, 0xa8, 0x88, 0x5a, 0x30, 0x8d, 0x31, 0x31, 0x98, 0xa2, 0xe0, 0x37, 0x07, 0x34];
    hide Input, Key, AddRoundKey;
    Added(0x32, 0x43, 0xf6, 0xa8, 0x88, 0x5a, 0x30, 0x8d, 0x31, 0x31, 0x98, 0xa2, 0xe0, 0x37, 0x07, 0x34, 0x2b, 0x7e, 0x15, 0x16, 0x28, 0xae, 0xd2, 0xa6, 0xab, 0xf7, 0x15, 0x88, 0x09, 0xcf, 0x4f, 0x3c, 0x19, 0x3d, 0xe3, 0xbe, 0xa0, 0xf4, 0xe2, 0x2b, 0x9a, 0xc6, 0x8d, 0x2a, 0xe9, 0xf8, 0x48, 0x08);
  }

  lemma Shift1()
    ensures ShiftRows(SubBytes([0x19, 0x3d, 0xe3, 0xbe, 0xa0, 0xf4, 0xe2, 0x2b, 0x9a, 0xc6, 0x8d, 0x2a, 0xe9, 0xf8, 0x48, 0x08])) == [0xd4, 0xbf, 0x5d, 0x30, 0xe0, 0xb4, 0x52, 0xae, 0xb8, 0x41, 0x11, 0xf1, 0x1e, 0x27, 0x98, 0xe5]
  {
    hide SubBytes, ShiftRows;
    Shifted(0x19, 0x3d, 0xe3, 0xbe, 0xa0, 0xf4, 0xe2, 0x2b, 0x9a, 0xc6, 0x8d, 0x2a, 0xe9, 0xf8, 0x48, 0x08, 0xd4, 0xbf, 0x5d, 0x30, 0xe0, 0xb4, 0x52, 0xae, 0xb8, 0x41, 0x11, 0xf1, 0x1e, 0x27, 0x98, 0xe5);
  }

  lemma Columns1()
    ensures Mixes(0xd4, 0xbf, 0x5d, 0x30, 0x04, 0x66, 0x81, 0xe5)
    ensures Mixes(0xe0, 0xb4, 0x52, 0xae, 0xe0, 0xcb, 0x19, 0x9a)
    ensures Mixes(0xb8, 0x41, 0x11, 0xf1, 0x48, 0xf8, 0xd3, 0x7a)
    ensures Mixes(0x1e, 0x27, 0x98, 0xe5, 0x28, 0x06, 0x26, 0x4c)
  {
  }

  lemma Mix1()
    ensures MixColumns([0xd4, 0xbf, 0x5d, 0x30, 0xe0, 0xb4, 0x52, 0xae, 0xb8, 0x41, 0x11, 0xf1, 0x1e, 0x27, 0x98, 0xe5]) == [0x04, 0x66, 0x81, 0xe5, 0xe0, 0xcb, 0x19, 0x9a, 0x48, 0xf8, 0xd3, 0x7a, 0x28, 0x06, 0x26, 0x4c]
  {
    hide MixColumns, Mixes;
    Columns1();
    MixedState(0xd4, 0xbf, 0x5d, 0x30, 0xe0, 0xb4, 0x52, 0xae, 0xb8, 0x41, 0x11, 0xf1, 0x1e, 0x27, 0x98, 0xe5, 0x04, 0x66, 0x81, 0xe5, 0xe0, 0xcb, 0x19, 0x9a, 0x48, 0xf8, 0xd3, 0x7a, 0x28, 0x06, 0x26, 0x4c);
  }

  lemma State1()
    ensures Rounds(Input, Key, 1) == [0xa4, 0x9c, 0x7f, 0xf2, 0x68, 0x9f, 0x35, 0x2b, 0x6b, 0x5b, 0xea, 0x43, 0x02, 0x6a, 0x50, 0x49]
  {
    hide AddRoundKey, Rounds, RoundKey, ShiftRows, SubBytes, MixColumns;
    State0();
    Shift1();
    Mix1();
    KeyOf1();
    Added(0x04, 0x66, 0x81, 0xe5, 0xe0, 0xcb, 0x19, 0x9a, 0x48, 0xf8, 0xd3, 0x7a, 0x28, 0x06, 0x26, 0x4c, 0xa0, 0xfa, 0xfe, 0x17, 0x88, 0x54, 0x2c, 0xb1, 0x23, 0xa3, 0x39, 0x39, 0x2a, 0x6c, 0x76, 0x05, 0xa4, 0x9c, 0x7f, 0xf2, 0x68, 0x9f, 0x35, 0x2b, 0x6b, 0x5b, 0xea, 0x43, 0x02, 0x6a, 0x50, 0x49);
    RoundFrom(1, [0x19, 0x3d, 0xe3, 0xbe, 0xa0, 0xf4, 0xe2, 0x2b, 0x9a, 0xc6, 0x8d, 0x2a, 0xe9, 0xf8, 0x48, 0x08], [0xd4, 0xbf, 0x5d, 0x30, 0xe0, 0xb4, 0x52, 0xae, 0xb8, 0x41, 0x11, 0xf1, 0x1e, 0x27, 0x98, 0xe5], [0x04, 0x66, 0x81, 0xe5, 0xe0, 0xcb, 0x19, 0x9a, 0x48, 0xf8, 0xd3, 0x7a, 0x28, 0x06, 0x26, 0x4c], [0xa0, 0xfa, 0xfe, 0x17, 0x88, 0x54, 0x2c, 0xb1, 0x23, 0xa3, 0x39, 0x39, 0x2a, 0x6c, 0x76, 0x05], [0xa4, 0x9c, 0x7f, 0xf2, 0x68, 0x9f, 0x35, 0x2b, 0x6b, 0x5b, 0xea, 0x43, 0x02, 0x6a, 0x50, 0x49]);
  }

  lemma Shift2()
    ensures ShiftRows(SubBytes([0xa4, 0x9c, 0x7f, 0xf2, 0x68, 0x9f, 0x35, 0x2b, 0x6b, 0x5b, 0xea, 0x43, 0x02, 0x6a, 0x50, 0x49])) == [0x49, 0xdb, 0x87, 0x3b, 0x45, 0x39, 0x53, 0x89, 0x7f, 0x02, 0xd2, 0xf1, 0x77, 0xde, 0x96, 0x1a]
  {
    hide SubBytes, ShiftRows;
    Shifted(0xa4, 0x9c, 0x7f, 0xf2, 0x68, 0x9f, 0x35, 0x2b, 0x6b, 0x5b, 0xea, 0x43, 0x02, 0x6a, 0x50, 0x49, 0x49, 0xdb, 0x87, 0x3b, 0x45, 0x39, 0x53, 0x89, 0x7f, 0x02, 0xd2, 0xf1, 0x77, 0xde, 0x96, 0x1a);
  }

  lemma Columns2()
    ensures Mixes(0x49, 0xdb, 0x87, 0x3b, 0x58, 0x4d, 0xca, 0xf1)
    ensures Mixes(0x45, 0x39, 0x53, 0x89, 0x1b, 0x4b, 0x5a, 0xac)
    ensures Mixes(0x7f, 0x02, 0xd2, 0xf1, 0xdb, 0xe7, 0xca, 0xa8)
    ensures Mixes(0x77, 0xde, 0x96, 0x1a, 0x1b, 0x6b, 0xb0, 0xe5)
  {
  }

  lemma Mix2()
    ensures MixColumns([0x49, 0xdb, 0x87, 0x3b, 0x45, 0x39, 0x53, 0x89, 0x7f, 0x02, 0xd2, 0xf1, 0x77, 0xde, 0x96, 0x1a]) == [0x58, 0x4d, 0xca, 0xf1, 0x1b, 0x4b, 0x5a, 0xac, 0xdb, 0xe7, 0xca, 0xa8, 0x1b, 0x6b, 0xb0, 0xe5]
  {
    hide MixColumns, Mixes;
    Columns2();
    MixedState(0x49, 0xdb, 0x87, 0x3b, 0x45, 0x39, 0x53, 0x89, 0x7f, 0x02, 0xd2, 0xf1, 0x77, 0xde, 0x96, 0x1a, 0x58, 0x4d, 0xca, 0xf1, 0x1b, 0x4b, 0x5a, 0xac, 0xdb, 0xe7, 0xca, 0xa8, 0x1b, 0x6b, 0xb0, 0xe5);
  }

  lemma State2()
    ensures Rounds(Input, Key, 2) == [0xaa, 0x8f, 0x5f, 0x03, 0x61, 0xdd, 0xe3, 0xef, 0x82, 0xd2, 0x4a, 0xd2, 0x68, 0x32, 0x46, 0x9a]
  {
    hide AddRoundKey, Rounds, RoundKey, ShiftRows, SubBytes, MixColumns;
    State1();
    Shift2();
    Mix2();
    KeyOf2();
    Added(0x58, 0x4d, 0xca, 0xf1, 0x1b, 0x4b, 0x5a, 0xac, 0xdb, 0xe7, 0xca, 0xa8, 0x1b, 0x6b, 0xb0, 0xe5, 0xf2, 0xc2, 0x95, 0xf2, 0x7a, 0x96, 0xb9, 0x43, 0x59, 0x35, 0x80, 0x7a, 0x73, 0x59, 0xf6, 0x7f, 0xaa, 0x8f, 0x5f, 0x03, 0x61, 0xdd, 0xe3, 0xef, 0x82, 0xd2, 0x4a, 0xd2, 0x68, 0x32, 0x46, 0x9a);
    RoundFrom(2, [0xa4, 0x9c, 0x7f, 0xf2, 0x68, 0x9f, 0x35, 0x2b, 0x6b, 0x5b, 0xea, 0x43, 0x02, 0x6a, 0x50, 0x49], [0x49, 0xdb, 0x87, 0x3b, 0x45, 0x39, 0x53, 0x89, 0x7f, 0x02, 0xd2, 0xf1, 0x77, 0xde, 0x96, 0x1a], [0x58, 0x4d, 0xca, 0xf1, 0x1b, 0x4b, 0x5a, 0xac, 0xdb, 0xe7, 0xca, 0xa8, 0x1b, 0x6b, 0xb0, 0xe5], [0xf2, 0xc2, 0x95, 0xf2, 0x7a, 0x96, 0xb9, 0x43, 0x59, 0x35, 0x80, 0x7a, 0x73, 0x59, 0xf6, 0x7f], [0xaa, 0x8f, 0x5f, 0x03, 0x61, 0xdd, 0xe3, 0xef, 0x82, 0xd2, 0x4a, 0xd2, 0x68, 0x32, 0x46, 0x9a]);
  }

  lemma Shift3()
    ensures ShiftRows(SubBytes([0xaa, 0x8f, 0x5f, 0x03, 0x61, 0xdd, 0xe3, 0xef, 0x82, 0xd2, 0x4a, 0xd2, 0x68, 0x32, 0x46, 0x9a])) == [0xac, 0xc1, 0xd6, 0xb8, 0xef, 0xb5, 0x5a, 0x7b, 0x13, 0x23, 0xcf, 0xdf, 0x45, 0x73, 0x11, 0xb5]
  {
    hide SubBytes, ShiftRows;
    Shifted(0xaa, 0x8f, 0x5f, 0x03, 0x61, 0xdd, 0xe3, 0xef, 0x82, 0xd2, 0x4a, 0xd2, 0x68, 0x32, 0x46, 0x9a, 0xac, 0xc1, 0xd6, 0xb8, 0xef, 0xb5, 0x5a, 0x7b, 0x13, 0x23, 0xcf, 0xdf, 0x45, 0x73, 0x11, 0xb5);
  }

  lemma Columns3()
    ensures Mixes(0xac, 0xc1, 0xd6, 0xb8, 0x75, 0xec, 0x09, 0x93)
    ensures Mixes(0xef, 0xb5, 0x5a, 0x7b, 0x20, 0x0b, 0x63, 0x33)
    ensures Mixes(0x13, 0x23, 0xcf, 0xdf, 0x53, 0xc0, 0xcf, 0x7c)
    ensures Mixes(0x45, 0x73, 0x11, 0xb5, 0xbb, 0x25, 0xd0, 0xdc)
  {
  }

  lemma Mix3()
    ensures MixColumns([0xac, 0xc1, 0xd6, 0xb8, 0xef, 0xb5, 0x5a, 0x7b, 0x13, 0x23, 0xcf, 0xdf, 0x45, 0x73, 0x11, 0xb5]) == [0x75, 0xec, 0x09, 0x93, 0x20, 0x0b, 0x63, 0x33, 0x53, 0xc0, 0xcf, 0x7c, 0xbb, 0x25, 0xd0, 0xdc]
  {
    hide MixColumns, Mixes;
    Columns3();
    MixedState(0xac, 0xc1, 0xd6, 0xb8, 0xef, 0xb5, 0x5a, 0x7b, 0x13, 0x23, 0xcf, 0xdf, 0x45, 0x73, 0x11, 0xb5, 0x75, 0xec, 0x09, 0x93, 0x20, 0x0b, 0x63, 0x33, 0x53, 0xc0, 0xcf, 0x7c, 0xbb, 0x25, 0xd0, 0xdc);
  }

  lemma State3()
    ensures Rounds(Input, Key, 3) == [0x48, 0x6c, 0x4e, 0xee, 0x67, 0x1d, 0x9d, 0x0d, 0x4d, 0xe3, 0xb1, 0x38, 0xd6, 0x5f, 0x58, 0xe7]
  {
    hide AddRoundKey, Rounds, RoundKey, ShiftRows, SubBytes, MixColumns;
    State2();
    Shift3();
    Mix3();
    KeyOf3();
    Added(0x75, 0xec, 0x09, 0x93, 0x20, 0x0b, 0x63, 0x33, 0x53, 0xc0, 0xcf, 0x7c, 0xbb, 0x25, 0xd0, 0xdc, 0x3d, 0x80, 0x47, 0x7d, 0x47, 0x16, 0xfe, 0x3e, 0x1e, 0x23, 0x7e, 0x44, 0x6d, 0x7a, 0x88, 0x3b, 0x48, 0x6c, 0x4e, 0xee, 0x67, 0x1d, 0x9d, 0x0d, 0x4d, 0xe3, 0xb1, 0x38, 0xd6, 0x5f, 0x58, 0xe7);
    RoundFrom(3, [0xaa, 0x8f, 0x5f, 0x03, 0x61, 0xdd, 0xe3, 0xef, 0x82, 0xd2, 0x4a, 0xd2, 0x68, 0x32, 0x46, 0x9a], [0xac, 0xc1, 0xd6, 0xb8, 0xef, 0xb5, 0x5a, 0x7b, 0x13, 0x23, 0xcf, 0xdf, 0x45, 0x73, 0x11, 0xb5], [0x75, 0xec, 0x09, 0x93, 0x20, 0x0b, 0x63, 0x33, 0x53, 0xc0, 0xcf, 0x7c, 0xbb, 0x25, 0xd0, 0xdc], [0x3d, 0x80, 0x47, 0x7d, 0x47, 0x16, 0xfe, 0x3e, 0x1e, 0x23, 0x7e, 0x44, 0x6d, 0x7a, 0x88, 0x3b], [0x48, 0x6c, 0x4e, 0xee, 0x67, 0x1d, 0x9d, 0x0d, 0x4d, 0xe3, 0xb1, 0x38, 0xd6, 0x5f, 0x58, 0xe7]);
  }

  lemma Shift4()
    ensures ShiftRows(SubBytes([0x48, 0x6c, 0x4e, 0xee, 0x67, 0x1d, 0x9d, 0x0d, 0x4d, 0xe3, 0xb1, 0x38, 0xd6, 0x5f, 0x58, 0xe7])) == [0x52, 0xa4, 0xc8, 0x94, 0x85, 0x11, 0x6a, 0x28, 0xe3, 0xcf, 0x2f, 0xd7, 0xf6, 0x50, 0x5e, 0x07]
  {
    hide SubBytes, ShiftRows;
    Shifted(0x48, 0x6c, 0x4e, 0xee, 0x67, 0x1d, 0x9d, 0x0d, 0x4d, 0xe3, 0xb1, 0x38, 0xd6, 0x5f, 0x58, 0xe7, 0x52, 0xa4, 0xc8, 0x94, 0x85, 0x11, 0x6a, 0x28, 0xe3, 0xcf, 0x2f, 0xd7, 0xf6, 0x50, 0x5e, 0x07);
  }

  lemma Columns4()
    ensures Mixes(0x52, 0xa4, 0xc8, 0x94, 0x0f, 0xd6, 0xda, 0xa9)
    ensures Mixes(0x85, 0x11, 0x6a, 0x28, 0x60, 0x31, 0x38, 0xbf)
    ensures Mixes(0xe3, 0xcf, 0x2f, 0xd7, 0x6f, 0xc0, 0x10, 0x6b)
    ensures Mixes(0xf6, 0x50, 0x5e, 0x07, 0x5e, 0xb3, 0x13, 0x01)
  {
  }

  lemma Mix4()
    ensures MixColumns([0x52, 0xa4, 0xc8, 0x94, 0x85, 0x11, 0x6a, 0x28, 0xe3, 0xcf, 0x2f, 0xd7, 0xf6, 0x50, 0x5e, 0x07]) == [0x0f, 0xd6, 0xda, 0xa9, 0x60, 0x31, 0x38, 0xbf, 0x6f, 0xc0, 0x10, 0x6b, 0x5e, 0xb3, 0x13, 0x01]
  {
    hide MixColumns, Mixes;
    Columns4();
    MixedState(0x52, 0xa4, 0xc8, 0x94, 0x85, 0x11, 0x6a, 0x28, 0xe3, 0xcf, 0x2f, 0xd7, 0xf6, 0x50, 0x5e, 0x07, 0x0f, 0xd6, 0xda, 0xa9, 0x60, 0x31, 0x38, 0xbf, 0x6f, 0xc0, 0x10, 0x6b, 0x5e, 0xb3, 0x13, 0x01);
  }

  lemma State4()
    ensures Rounds(Input, Key, 4) == [0xe0, 0x92, 0x7f, 0xe8, 0xc8, 0x63, 0x63, 0xc0, 0xd9, 0xb1, 0x35, 0x50, 0x85, 0xb8, 0xbe, 0x01]
  {
    hide AddRoundKey, Rounds, RoundKey, ShiftRows, SubBytes, MixColumns;
    State3();
    Shift4();
    Mix4();
    KeyOf4();
    Added(0x0f, 0xd6, 0xda, 0xa9, 0x60, 0x31, 0x38, 0xbf, 0x6f, 0xc0, 0x10, 0x6b, 0x5e, 0xb3, 0x13, 0x01, 0xef, 0x44, 0xa5, 0x41, 0xa8, 0x52, 0x5b, 0x7f, 0xb6, 0x71, 0x25, 0x3b, 0xdb, 0x0b, 0xad, 0x00, 0xe0, 0x92, 0x7f, 0xe8, 0xc8, 0x63, 0x63, 0xc0, 0xd9, 0xb1, 0x35, 0x50, 0x85, 0xb8, 0xbe, 0x01);
    RoundFrom(4, [0x48, 0x6c, 0x4e, 0xee, 0x67, 0x1d, 0x9d, 0x0d, 0x4d, 0xe3, 0xb1, 0x38, 0xd6, 0x5f, 0x58, 0xe7], [0x52, 0xa4, 0xc8, 0x94, 0x85, 0x11, 0x6a, 0x28, 0xe3, 0xcf, 0x2f, 0xd7, 0xf6, 0x50, 0x5e, 0x07], [0x0f, 0xd6, 0xda, 0xa9, 0x60, 0x31, 0x38, 0xbf, 0x6f, 0xc0, 0x10, 0x6b, 0x5e, 0xb3, 0x13, 0x01], [0xef, 0x44, 0xa5, 0x41, 0xa8, 0x52, 0x5b, 0x7f, 0xb6, 0x71, 0x25, 0x3b, 0xdb, 0x0b, 0xad, 0x00], [0xe0, 0x92, 0x7f, 0xe8, 0xc8, 0x63, 0x63, 0xc0, 0xd9, 0xb1, 0x35, 0x50, 0x85, 0xb8, 0xbe, 0x01]);
  }

  lemma Shift5()
    ensures ShiftRows(SubBytes([0xe0, 0x92, 0x7f, 0xe8, 0xc8, 0x63, 0x63, 0xc0, 0xd9, 0xb1, 0x35, 0x50, 0x85, 0xb8, 0xbe, 0x01])) == [0xe1, 0xfb, 0x96, 0x7c, 0xe8, 0xc8, 0xae, 0x9b, 0x35, 0x6c, 0xd2, 0xba, 0x97, 0x4f, 0xfb, 0x53]
  {
    hide SubBytes, ShiftRows;
    Shifted(0xe0, 0x92, 0x7f, 0xe8, 0xc8, 0x63, 0x63, 0xc0, 0xd9, 0xb1, 0x35, 0x50, 0x85, 0xb8, 0xbe, 0x01, 0xe1, 0xfb, 0x96, 0x7c, 0xe8, 0xc8, 0xae, 0x9b, 0x35, 0x6c, 0xd2, 0xba, 0x97, 0x4f, 0xfb, 0x53);
  }

  lemma Columns5()
    ensures Mixes(0xe1, 0xfb, 0x96, 0x7c, 0x25, 0xd1, 0xa9, 0xad)
    ensures Mixes(0xe8, 0xc8, 0xae, 0x9b, 0xbd, 0x11, 0xd1, 0x68)
    ensures Mixes(0x35, 0x6c, 0xd2, 0xba, 0xb6, 0x3a, 0x33, 0x8e)
    ensures Mixes(0x97, 0x4f, 0xfb, 0x53, 0x4c, 0x4c, 0xc0, 0xb0)
  {
  }

  lemma Mix5()
    ensures MixColumns([0xe1, 0xfb, 0x96, 0x7c, 0xe8, 0xc8, 0xae, 0x9b, 0x35, 0x6c, 0xd2, 0xba, 0x97, 0x4f, 0xfb, 0x53]) == [0x25, 0xd1, 0xa9, 0xad, 0xbd, 0x11, 0xd1, 0x68, 0xb6, 0x3a, 0x33, 0x8e, 0x4c, 0x4c, 0xc0, 0xb0]
  {
    hide MixColumns, Mixes;
    Columns5();
    MixedState(0xe1, 0xfb, 0x96, 0x7c, 0xe8, 0xc8, 0xae, 0x9b, 0x35, 0x6c, 0xd2, 0xba, 0x97, 0x4f, 0xfb, 0x53, 0x25, 0xd1, 0xa9, 0xad, 0xbd, 0x11, 0xd1, 0x68, 0xb6, 0x3a, 0x33, 0x8e, 0x4c, 0x4c, 0xc0, 0xb0);
  }

  lemma State5()
    ensures Rounds(Input, Key, 5) == [0xf1, 0x00, 0x6f, 0x55, 0xc1, 0x92, 0x4c, 0xef, 0x7c, 0xc8, 0x8b, 0x32, 0x5d, 0xb5, 0xd5, 0x0c]
  {
    hide AddRoundKey, Rounds, RoundKey, ShiftRows, SubBytes, MixColumns;
    State4();
    Shift5();
    Mix5();
    KeyOf5();
    Added(0x25, 0xd1, 0xa9, 0xad, 0xbd, 0x11, 0xd1, 0x68, 0xb6, 0x3a, 0x33, 0x8e, 0x4c, 0x4c, 0xc0, 0xb0, 0xd4, 0xd1, 0xc6, 0xf8, 0x7c, 0x83, 0x9d, 0x87, 0xca, 0xf2, 0xb8, 0xbc, 0x11, 0xf9, 0x15, 0xbc, 0xf1, 0x00, 0x6f, 0x55, 0xc1, 0x92, 0x4c, 0xef, 0x7c, 0xc8, 0x8b, 0x32, 0x5d, 0xb5, 0xd5, 0x0c);
    RoundFrom(5, [0xe0, 0x92, 0x7f, 0xe8, 0xc8, 0x63, 0x63, 0xc0, 0xd9, 0xb1, 0x35, 0x50, 0x85, 0xb8, 0xbe, 0x01], [0xe1, 0xfb, 0x96, 0x7c, 0xe8, 0xc8, 0xae, 0x9b, 0x35, 0x6c, 0xd2, 0xba, 0x97, 0x4f, 0xfb, 0x53], [0x25, 0xd1, 0xa9, 0xad, 0xbd, 0x11, 0xd1, 0x68, 0xb6, 0x3a, 0x33, 0x8e, 0x4c, 0x4c, 0xc0, 0xb0], [0xd4, 0xd1, 0xc6, 0xf8, 0x7c, 0x83, 0x9d, 0x87, 0xca, 0xf2, 0xb8, 0xbc, 0x11, 0xf9, 0x15, 0xbc], [0xf1, 0x00, 0x6f, 0x55, 0xc1, 0x92, 0x4c, 0xef, 0x7c, 0xc8, 0x8b, 0x32, 0x5d, 0xb5, 0xd5, 0x0c]);
  }

  lemma Shift6()
    ensures ShiftRows(SubBytes([0xf1, 0x00, 0x6f, 0x55, 0xc1, 0x92, 0x4c, 0xef, 0x7c, 0xc8, 0x8b, 0x32, 0x5d, 0xb5, 0xd5, 0x0c])) == [0xa1, 0x4f, 0x3d, 0xfe, 0x78, 0xe8, 0x03, 0xfc, 0x10, 0xd5, 0xa8, 0xdf, 0x4c, 0x63, 0x29, 0x23]
  {
    hide SubBytes, ShiftRows;
    Shifted(0xf1, 0x00, 0x6f, 0x55, 0xc1, 0x92, 0x4c, 0xef, 0x7c, 0xc8, 0x8b, 0x32, 0x5d, 0xb5, 0xd5, 0x0c, 0xa1, 0x4f, 0x3d, 0xfe, 0x78, 0xe8, 0x03, 0xfc, 0x10, 0xd5, 0xa8, 0xdf, 0x4c, 0x63, 0x29, 0x23);
  }

  lemma Columns6()
    ensures Mixes(0xa1, 0x4f, 0x3d, 0xfe, 0x4b, 0x86, 0x8d, 0x6d)
    ensures Mixes(0x78, 0xe8, 0x03, 0xfc, 0x2c, 0x4a, 0x89, 0x80)
    ensures Mixes(0x10, 0xd5, 0xa8, 0xdf, 0x33, 0x9d, 0xf4, 0xe8)
    ensures Mixes(0x4c, 0x63, 0x29, 0x23, 0x37, 0xd2, 0x18, 0xd8)
  {
  }

  lemma Mix6()
    ensures MixColumns([0xa1, 0x4f, 0x3d, 0xfe, 0x78, 0xe8, 0x03, 0xfc, 0x10, 0xd5, 0xa8, 0xdf, 0x4c, 0x63, 0x29, 0x23]) == [0x4b, 0x86, 0x8d, 0x6d, 0x2c, 0x4a, 0x89, 0x80, 0x33, 0x9d, 0xf4, 0xe8, 0x37, 0xd2, 0x18, 0xd8]
  {
    hide MixColumns, Mixes;
    Columns6();
    MixedState(0xa1, 0x4f, 0x3d, 0xfe, 0x78, 0xe8, 0x03, 0xfc, 0x10, 0xd5, 0xa8, 0xdf, 0x4c, 0x63, 0x29, 0x23, 0x4b, 0x86, 0x8d, 0x6d, 0x2c, 0x4a, 0x89, 0x80, 0x33, 0x9d, 0xf4, 0xe8, 0x37, 0xd2, 0x18, 0xd8);
  }

  lemma State6()
    ensures Rounds(Input, Key, 6) == [0x26, 0x0e, 0x2e, 0x17, 0x3d, 0x41, 0xb7, 0x7d, 0xe8, 0x64, 0x72, 0xa9, 0xfd, 0xd2, 0x8b, 0x25]
  {
    hide AddRoundKey, Rounds, RoundKey, ShiftRows, SubBytes, MixColumns;
    State5();
    Shift6();
    Mix6();
    KeyOf6();
    Added(0x4b, 0x86, 0x8d, 0x6d, 0x2c, 0x4a, 0x89, 0x80, 0x33, 0x9d, 0xf4, 0xe8, 0x37, 0xd2, 0x18, 0xd8, 0x6d, 0x88, 0xa3, 0x7a, 0x11, 0x0b, 0x3e, 0xfd, 0xdb, 0xf9, 0x86, 0x41, 0xca, 0x00, 0x93, 0xfd, 0x26, 0x0e, 0x2e, 0x17, 0x3d, 0x41, 0xb7, 0x7d, 0xe8, 0x64, 0x72, 0xa9, 0xfd, 0xd2, 0x8b, 0x25);
    RoundFrom(6, [0xf1, 0x00, 0x6f, 0x55, 0xc1, 0x92, 0x4c, 0xef, 0x7c, 0xc8, 0x8b, 0x32, 0x5d, 0xb5, 0xd5, 0x0c], [0xa1, 0x4f, 0x3d, 0xfe, 0x78, 0xe8, 0x03, 0xfc, 0x10, 0xd5, 0xa8, 0xdf, 0x4c, 0x63, 0x29, 0x23], [0x4b, 0x86, 0x8d, 0x6d, 0x2c, 0x4a, 0x89, 0x80, 0x33, 0x9d, 0xf4, 0xe8, 0x37, 0xd2, 0x18, 0xd8], [0x6d, 0x88, 0xa3, 0x7a, 0x11, 0x0b, 0x3e, 0xfd, 0xdb, 0xf9, 0x86, 0x41, 0xca, 0x00, 0x93, 0xfd], [0x26, 0x0e, 0x2e, 0x17, 0x3d, 0x41, 0xb7, 0x7d, 0xe8, 0x64, 0x72, 0xa9, 0xfd, 0xd2, 0x8b, 0x25]);
  }

  lemma Shift7()
    ensures ShiftRows(SubBytes([0x26, 0x0e, 0x2e, 0x17, 0x3d, 0x41, 0xb7, 0x7d, 0xe8, 0x64, 0x72, 0xa9, 0xfd, 0xd2, 0x8b, 0x25])) == [0xf7, 0x83, 0x40, 0x3f, 0x27, 0x43, 0x3d, 0xf0, 0x9b, 0xb5, 0x31, 0xff, 0x54, 0xab, 0xa9, 0xd3]
  {
    hide SubBytes, ShiftRows;
    Shifted(0x26, 0x0e, 0x2e, 0x17, 0x3d, 0x41, 0xb7, 0x7d, 0xe8, 0x64, 0x72, 0xa9, 0xfd, 0xd2, 0x8b, 0x25, 0xf7, 0x83, 0x40, 0x3f, 0x27, 0x43, 0x3d, 0xf0, 0x9b, 0xb5, 0x31, 0xff, 0x54, 0xab, 0xa9, 0xd3);
  }

  lemma Columns7()
    ensures Mixes(0xf7, 0x83, 0x40, 0x3f, 0x14, 0x15, 0xb5, 0xbf)
    ensures Mixes(0x27, 0x43, 0x3d, 0xf0, 0x46, 0x16, 0x15, 0xec)
    ensures Mixes(0x9b, 0xb5, 0x31, 0xff, 0x27, 0x46, 0x56, 0xd7)
    ensures Mixes(0x54, 0xab, 0xa9, 0xd3, 0x34, 0x2a, 0xd8, 0x43)
  {
  }

  lemma Mix7()
    ensures MixColumns([0xf7, 0x83, 0x40, 0x3f, 0x27, 0x43, 0x3d, 0xf0, 0x9b, 0xb5, 0x31, 0xff, 0x54, 0xab, 0xa9, 0xd3]) == [0x14, 0x15, 0xb5, 0xbf, 0x46, 0x16, 0x15, 0xec, 0x27, 0x46, 0x56, 0xd7, 0x34, 0x2a, 0xd8, 0x43]
  {
    hide MixColumns, Mixes;
    Columns7();
    MixedState(0xf7, 0x83, 0x40, 0x3f, 0x27, 0x43, 0x3d, 0xf0, 0x9b, 0xb5, 0x31, 0xff, 0x54, 0xab, 0xa9, 0xd3, 0x14, 0x15, 0xb5, 0xbf, 0x46, 0x16, 0x15, 0xec, 0x27, 0x46, 0x56, 0xd7, 0x34, 0x2a, 0xd8, 0x43);
  }

  lemma State7()
    ensures Rounds(Input, Key, 7) == [0x5a, 0x41, 0x42, 0xb1, 0x19, 0x49, 0xdc, 0x1f, 0xa3, 0xe0, 0x19, 0x65, 0x7a, 0x8c, 0x04, 0x0c]
  {
    hide AddRoundKey, Rounds, RoundKey, ShiftRows, SubBytes, MixColumns;
    State6();
    Shift7();
    Mix7();
    KeyOf7();
    Added(0x14, 0x15, 0xb5, 0xbf, 0x46, 0x16, 0x15, 0xec, 0x27, 0x46, 0x56, 0xd7, 0x34, 0x2a, 0xd8, 0x43, 0x4e, 0x54, 0xf7, 0x0e, 0x5f, 0x5f, 0xc9, 0xf3, 0x84, 0xa6, 0x4f, 0xb2, 0x4e, 0xa6, 0xdc, 0x4f, 0x5a, 0x41, 0x42, 0xb1, 0x19, 0x49, 0xdc, 0x1f, 0xa3, 0xe0, 0x19, 0x65, 0x7a, 0x8c, 0x04, 0x0c);
    RoundFrom(7, [0x26, 0x0e, 0x2e, 0x17, 0x3d, 0x41, 0xb7, 0x7d, 0xe8, 0x64, 0x72, 0xa9, 0xfd, 0xd2, 0x8b, 0x25], [0xf7, 0x83, 0x40, 0x3f, 0x27, 0x43, 0x3d, 0xf0, 0x9b, 0xb5, 0x31, 0xff, 0x54, 0xab, 0xa9, 0xd3], [0x14, 0x15, 0xb5, 0xbf, 0x46, 0x16, 0x15, 0xec, 0x27, 0x46, 0x56, 0xd7, 0x34, 0x2a, 0xd8, 0x43], [0x4e, 0x54, 0xf7, 0x0e, 0x5f, 0x5f, 0xc9, 0xf3, 0x84, 0xa6, 0x4f, 0xb2, 0x4e, 0xa6, 0xdc, 0x4f], [0x5a, 0x41, 0x42, 0xb1, 0x19, 0x49, 0xdc, 0x1f, 0xa3, 0xe0, 0x19, 0x65, 0x7a, 0x8c, 0x04, 0x0c]);
  }

  lemma Shift8()
    ensures ShiftRows(SubBytes([0x5a, 0x41, 0x42, 0xb1, 0x19, 0x49, 0xdc, 0x1f, 0xa3, 0xe0, 0x19, 0x65, 0x7a, 0x8c, 0x04, 0x0c])) == [0xbe, 0x3b, 0xd4, 0xfe, 0xd4, 0xe1, 0xf2, 0xc8, 0x0a, 0x64, 0x2c, 0xc0, 0xda, 0x83, 0x86, 0x4d]
  {
    hide SubBytes, ShiftRows;
    Shifted(0x5a, 0x41, 0x42, 0xb1, 0x19, 0x49, 0xdc, 0x1f, 0xa3, 0xe0, 0x19, 0x65, 0x7a, 0x8c, 0x04, 0x0c, 0xbe, 0x3b, 0xd4, 0xfe, 0xd4, 0xe1, 0xf2, 0xc8, 0x0a, 0x64, 0x2c, 0xc0, 0xda, 0x83, 0x86, 0x4d);
  }

  lemma Columns8()
    ensures Mixes(0xbe, 0x3b, 0xd4, 0xfe, 0x00, 0x51, 0x2f, 0xd1)
    ensures Mixes(0xd4, 0xe1, 0xf2, 0xc8, 0xb1, 0xc8, 0x89, 0xff)
    ensures Mixes(0x0a, 0x64, 0x2c, 0xc0, 0x54, 0x76, 0x6d, 0xcd)
    ensures Mixes(0xda, 0x83, 0x86, 0x4d, 0xfa, 0x1b, 0x99, 0xea)
  {
  }

  lemma Mix8()
    ensures MixColumns([0xbe, 0x3b, 0xd4, 0xfe, 0xd4, 0xe1, 0xf2, 0xc8, 0x0a, 0x64, 0x2c, 0xc0, 0xda, 0x83, 0x86, 0x4d]) == [0x00, 0x51, 0x2f, 0xd1, 0xb1, 0xc8, 0x89, 0xff, 0x54, 0x76, 0x6d, 0xcd, 0xfa, 0x1b, 0x99, 0xea]
  {
    hide MixColumns, Mixes;
    Columns8();
    MixedState(0xbe, 0x3b, 0xd4, 0xfe, 0xd4, 0xe1, 0xf2, 0xc8, 0x0a, 0x64, 0x2c, 0xc0, 0xda, 0x83, 0x86, 0x4d, 0x00, 0x51, 0x2f, 0xd1, 0xb1, 0xc8, 0x89, 0xff, 0x54, 0x76, 0x6d, 0xcd, 0xfa, 0x1b, 0x99, 0xea);
  }

  lemma State8()
    ensures Rounds(Input, Key, 8) == [0xea, 0x83, 0x5c, 0xf0, 0x04, 0x45, 0x33, 0x2d, 0x65, 0x5d, 0x98, 0xad, 0x85, 0x96, 0xb0, 0xc5]
  {
    hide AddRoundKey, Rounds, RoundKey, ShiftRows, SubBytes, MixColumns;
    State7();
    Shift8();
    Mix8();
    KeyOf8();
    Added(0x00, 0x51, 0x2f, 0xd1, 0xb1, 0xc8, 0x89, 0xff, 0x54, 0x76, 0x6d, 0xcd, 0xfa, 0x1b, 0x99, 0xea, 0xea, 0xd2, 0x73, 0x21, 0xb5, 0x8d, 0xba, 0xd2, 0x31, 0x2b, 0xf5, 0x60, 0x7f, 0x8d, 0x29, 0x2f, 0xea, 0x83, 0x5c, 0xf0, 0x04, 0x45, 0x33, 0x2d, 0x65, 0x5d, 0x98, 0xad, 0x85, 0x96, 0xb0, 0xc5);
    RoundFrom(8, [0x5a, 0x41, 0x42, 0xb1, 0x19, 0x49, 0xdc, 0x1f, 0xa3, 0xe0, 0x19, 0x65, 0x7a, 0x8c, 0x04, 0x0c], [0xbe, 0x3b, 0xd4, 0xfe, 0xd4, 0xe1, 0xf2, 0xc8, 0x0a, 0x64, 0x2c, 0xc0, 0xda, 0x83, 0x86, 0x4d], [0x00, 0x51, 0x2f, 0xd1, 0xb1, 0xc8, 0x89, 0xff, 0x54, 0x76, 0x6d, 0xcd, 0xfa, 0x1b, 0x99, 0xea], [0xea, 0xd2, 0x73, 0x21, 0xb5, 0x8d, 0xba, 0xd2, 0x31, 0x2b, 0xf5, 0x60, 0x7f, 0x8d, 0x29, 0x2f], [0xea, 0x83, 0x5c, 0xf0, 0x04, 0x45, 0x33, 0x2d, 0x65, 0x5d, 0x98, 0xad, 0x85, 0x96, 0xb0, 0xc5]);
  }

  lemma Shift9()
    ensures ShiftRows(SubBytes([0xea, 0x83, 0x5c, 0xf0, 0x04, 0x45, 0x33, 0x2d, 0x65, 0x5d, 0x98, 0xad, 0x85, 0x96, 0xb0, 0xc5])) == [0x87, 0x6e, 0x46, 0xa6, 0xf2, 0x4c, 0xe7, 0x8c, 0x4d, 0x90, 0x4a, 0xd8, 0x97, 0xec, 0xc3, 0x95]
  {
    hide SubBytes, ShiftRows;
    Shifted(0xea, 0x83, 0x5c, 0xf0, 0x04, 0x45, 0x33, 0x2d, 0x65, 0x5d, 0x98, 0xad, 0x85, 0x96, 0xb0, 0xc5, 0x87, 0x6e, 0x46, 0xa6, 0xf2, 0x4c, 0xe7, 0x8c, 0x4d, 0x90, 0x4a, 0xd8, 0x97, 0xec, 0xc3, 0x95);
  }

  lemma Columns9()
    ensures Mixes(0x87, 0x6e, 0x46, 0xa6, 0x47, 0x37, 0x94, 0xed)
    ensures Mixes(0xf2, 0x4c, 0xe7, 0x8c, 0x40, 0xd4, 0xe4, 0xa5)
    ensures Mixes(0x4d, 0x90, 0x4a, 0xd8, 0xa3, 0x70, 0x3a, 0xa6)
    ensures Mixes(0x97, 0xec, 0xc3, 0x95, 0x4c, 0x9f, 0x42, 0xbc)
  {
  }

  lemma Mix9()
    ensures MixColumns([0x87, 0x6e, 0x46, 0xa6, 0xf2, 0x4c, 0xe7, 0x8c, 0x4d, 0x90, 0x4a, 0xd8, 0x97, 0xec, 0xc3, 0x95]) == [0x47, 0x37, 0x94, 0xed, 0x40, 0xd4, 0xe4, 0xa5, 0xa3, 0x70, 0x3a, 0xa6, 0x4c, 0x9f, 0x42, 0xbc]
  {
    hide MixColumns, Mixes;
    Columns9();
    MixedState(0x87, 0x6e, 0x46, 0xa6, 0xf2, 0x4c, 0xe7, 0x8c, 0x4d, 0x90, 0x4a, 0xd8, 0x97, 0xec, 0xc3, 0x95, 0x47, 0x37, 0x94, 0xed, 0x40, 0xd4, 0xe4, 0xa5, 0xa3, 0x70, 0x3a, 0xa6, 0x4c, 0x9f, 0x42, 0xbc);
  }

  lemma State9()
    ensures Rounds(Input, Key, 9) == [0xeb, 0x40, 0xf2, 0x1e, 0x59, 0x2e, 0x38, 0x84, 0x8b, 0xa1, 0x13, 0xe7, 0x1b, 0xc3, 0x42, 0xd2]
  {
    hide AddRoundKey, Rounds, RoundKey, ShiftRows, SubBytes, MixColumns;
    State8();
    Shift9();
    Mix9();
    KeyOf9();
    Added(0x47, 0x37, 0x94, 0xed, 0x40, 0xd4, 0xe4, 0xa5, 0xa3, 0x70, 0x3a, 0xa6, 0x4c, 0x9f, 0x42, 0xbc, 0xac, 0x77, 0x66, 0xf3, 0x19, 0xfa, 0xdc, 0x21, 0x28, 0xd1, 0x29, 0x41, 0x57, 0x5c, 0x00, 0x6e, 0xeb, 0x40, 0xf2, 0x1e, 0x59, 0x2e, 0x38, 0x84, 0x8b, 0xa1, 0x13, 0xe7, 0x1b, 0xc3, 0x42, 0xd2);
    RoundFrom(9, [0xea, 0x83, 0x5c, 0xf0, 0x04, 0x45, 0x33, 0x2d, 0x65, 0x5d, 0x98, 0xad, 0x85, 0x96, 0xb0, 0xc5], [0x87, 0x6e, 0x46, 0xa6, 0xf2, 0x4c, 0xe7, 0x8c, 0x4d, 0x90, 0x4a, 0xd8, 0x97, 0xec, 0xc3, 0x95], [0x47, 0x37, 0x94, 0xed, 0x40, 0xd4, 0xe4, 0xa5, 0xa3, 0x70, 0x3a, 0xa6, 0x4c, 0x9f, 0x42, 0xbc], [0xac, 0x77, 0x66, 0xf3, 0x19, 0xfa, 0xdc, 0x21, 0x28, 0xd1, 0x29, 0x41, 0x57, 0x5c, 0x00, 0x6e], [0xeb, 0x40, 0xf2, 0x1e, 0x59, 0x2e, 0x38, 0x84, 0x8b, 0xa1, 0x13, 0xe7, 0x1b, 0xc3, 0x42, 0xd2]);
  }

  lemma Shift10()
    ensures ShiftRows(SubBytes([0xeb, 0x40, 0xf2, 0x1e, 0x59, 0x2e, 0x38, 0x84, 0x8b, 0xa1, 0x13, 0xe7, 0x1b, 0xc3, 0x42, 0xd2])) == [0xe9, 0x31, 0x7d, 0xb5, 0xcb, 0x32, 0x2c, 0x72, 0x3d, 0x2e, 0x89, 0x5f, 0xaf, 0x09, 0x07, 0x94]
  {
    hide SubBytes, ShiftRows;
    Shifted(0xeb, 0x40, 0xf2, 0x1e, 0x59, 0x2e, 0x38, 0x84, 0x8b, 0xa1, 0x13, 0xe7, 0x1b, 0xc3, 0x42, 0xd2, 0xe9, 0x31, 0x7d, 0xb5, 0xcb, 0x32, 0x2c, 0x72, 0x3d, 0x2e, 0x89, 0x5f, 0xaf, 0x09, 0x07, 0x94);
  }

  /** The output of the example. */
  lemma ExampleVector()
    ensures Cipher(Input, Key) == Output
  {
    hide RoundKey, SubBytes, ShiftRows, Key, Input, Rounds, AddRoundKey;
    State9();
    Shift10();
    KeyOf10();
    Added(0xe9, 0x31, 0x7d, 0xb5, 0xcb, 0x32, 0x2c, 0x72, 0x3d, 0x2e, 0x89, 0x5f, 0xaf, 0x09, 0x07, 0x94, 0xd0, 0x14, 0xf9, 0xa8, 0xc9, 0xee, 0x25, 0x89, 0xe1, 0x3f, 0x0c, 0xc8, 0xb6, 0x63, 0x0c, 0xa6, 0x39, 0x25, 0x84, 0x1d, 0x02, 0xdc, 0x09, 0xfb, 0xdc, 0x11, 0x85, 0x97, 0x19, 0x6a, 0x0b, 0x32);
  }
}
