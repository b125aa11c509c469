/**
 The AES steps of libs/hbb_common/src/fingerprint.rs, which overwrite a 16-byte state in
 place, against the functions of module Aes.
 */
module Fingerprint {
  import opened Galois
  import opened Aes

  // ----- The cipher, in place -----

  method SubBytesInPlace(state: array<bv8>)
    requires state.Length == 16
    modifies state
    ensures state[..] == SubBytes(old(state[..]))
  {
    hide Table;
    for i := 0 to 16
      invariant forall k :: 0 <= k < i ==> state[k] == Table(old(state[k]))
      invariant forall k :: i <= k < 16 ==> state[k] == old(state[k])
    {
      state[i] := Table(state[i]);
    }
  }

  // Row r and column c of a state after ShiftRows.
  lemma ShiftedByte(s: Block, r: nat, c: nat, d: nat)
    requires r < 4 && c < 4 && d < 4 && (d == c + r || d + 4 == c + r)
    ensures ShiftRows(s)[r + 4 * c] == s[r + 4 * d]
  {
    var i := r + 4 * c;
    assert i % 4 == r && i / 4 == c;
    assert (c + r) % 4 == d;
    assert LeftOf(i, r) == r + 4 * d;
    hide LeftOf;
  }

  // The standard's picture of ShiftRows, column by column.
  lemma ShiftedBytes(s: Block, t: seq<bv8>)
    requires |t| == 16
    requires t[0] == s[0] && t[4] == s[4] && t[8] == s[8] && t[12] == s[12]
    requires t[1] == s[5] && t[5] == s[9] && t[9] == s[13] && t[13] == s[1]
    requires t[2] == s[10] && t[6] == s[14] && t[10] == s[2] && t[14] == s[6]
    requires t[3] == s[15] && t[7] == s[3] && t[11] == s[7] && t[15] == s[11]
    ensures t == ShiftRows(s)
  {
    hide ShiftRows;
    ShiftedByte(s, 0, 0, 0);
    ShiftedByte(s, 0, 1, 1);
    ShiftedByte(s, 0, 2, 2);
    ShiftedByte(s, 0, 3, 3);
    ShiftedByte(s, 1, 0, 1);
    ShiftedByte(s, 1, 1, 2);
    ShiftedByte(s, 1, 2, 3);
    ShiftedByte(s, 1, 3, 0);
    ShiftedByte(s, 2, 0, 2);
    ShiftedByte(s, 2, 1, 3);
    ShiftedByte(s, 2, 2, 0);
    ShiftedByte(s, 2, 3, 1);
    ShiftedByte(s, 3, 0, 3);
    ShiftedByte(s, 3, 1, 0);
    ShiftedByte(s, 3, 2, 1);
    ShiftedByte(s, 3, 3, 2);
  }

  method ShiftRowsInPlace(state: array<bv8>)
    requires state.Length == 16
    modifies state
    ensures state[..] == ShiftRows(old(state[..]))
  {
    hide ShiftRows;
    var temp := new bv8[16](i requires 0 <= i < 16 reads state => state[i]);
    MoveRows(state, temp);
    ShiftedBytes(state[..], temp[..]);
    Overwrite(state, temp);
  }

  // Rows 1 to 3 of a copy are read from the columns to the right.
  method MoveRows(state: array<bv8>, temp: array<bv8>)
    requires state.Length == temp.Length == 16 && state != temp
    modifies temp
    ensures temp[0] == old(temp[0]) && temp[4] == old(temp[4]) && temp[8] == old(temp[8]) && temp[12] == old(temp[12])
    ensures temp[1] == state[5] && temp[5] == state[9] && temp[9] == state[13] && temp[13] == state[1]
    ensures temp[2] == state[10] && temp[6] == state[14] && temp[10] == state[2] && temp[14] == state[6]
    ensures temp[3] == state[15] && temp[7] == state[3] && temp[11] == state[7] && temp[15] == state[11]
  {
    MoveRow(temp, 1, state[5], state[9], state[13], state[1]);
    MoveRow(temp, 2, state[10], state[14], state[2], state[6]);
    MoveRow(temp, 3, state[15], state[3], state[7], state[11]);
  }

  method MoveRow(temp: array<bv8>, r: nat, w: bv8, x: bv8, y: bv8, z: bv8)
    requires temp.Length == 16 && r < 4
    modifies temp
    ensures temp[r] == w && temp[r + 4] == x && temp[r + 8] == y && temp[r + 12] == z
    ensures forall i :: 0 <= i < 16 && i !in {r, r + 4, r + 8, r + 12} ==> temp[i] == old(temp[i])
  {
    temp[r] := w;
    temp[r + 4] := x;
    temp[r + 8] := y;
    temp[r + 12] := z;
  }

  method Overwrite(state: array<bv8>, temp: array<bv8>)
    requires state.Length == temp.Length == 16 && state != temp
    modifies state
    ensures state[..] == temp[..]
  {
    forall i | 0 <= i < 16 {
      state[i] := temp[i];
    }
  }

  method AddRoundKeyInPlace(state: array<bv8>, roundKey: Block)
    requires state.Length == 16
    modifies state
    ensures state[..] == AddRoundKey(old(state[..]), roundKey)
  {
    hide Add;
    for i := 0 to 16
      invariant forall k :: 0 <= k < i ==> state[k] == Add(old(state[k]), roundKey[k])
      invariant forall k :: i <= k < 16 ==> state[k] == old(state[k])
    {
      state[i] := Add(state[i], roundKey[i]);
    }
  }

  // One mixed byte as the loop computes it: the products by 1 are left out.
  function Mixed(w: bv8, x: bv8, y: bv8, z: bv8): bv8 {
    Add(Add(Times(0x02, w), Times(0x03, x)), Add(y, z))
  }

  lemma MixedRow(w: bv8, x: bv8, y: bv8, z: bv8)
    ensures Row(0x02, 0x03, 0x01, 0x01, w, x, y, z) == Mixed(w, x, y, z)
  {
    hide Times, Add, XTime;
    SmallTimes(y);
    SmallTimes(z);
  }

  lemma MixedByte(s: Block, i: nat)
    requires i < 16
    ensures MixColumns(s)[i] == Mixed(s[i], Below(s, i, 1), Below(s, i, 2), Below(s, i, 3))
  {
    hide Row, Mixed, Below;
    MixedRow(s[i], Below(s, i, 1), Below(s, i, 2), Below(s, i, 3));
  }

  lemma BelowInColumn(s: Block, c: nat, r: nat, k: nat)
    requires c < 4 && r < 4
    ensures Below(s, 4 * c + r, k) == s[4 * c + (r + k) % 4]
  {
  }

  // Byte r of column c, and the bytes below it.
  lemma MixedAt(s: Block, c: nat, r: nat)
    requires c < 4 && r < 4
    ensures MixColumns(s)[4 * c + r]
         == Mixed(s[4 * c + r], s[4 * c + (r + 1) % 4], s[4 * c + (r + 2) % 4], s[4 * c + (r + 3) % 4])
  {
    hide MixColumns, Mixed;
    var i := 4 * c + r;
    BelowInColumn(s, c, r, 1);
    BelowInColumn(s, c, r, 2);
    BelowInColumn(s, c, r, 3);
    hide Below;
    MixedByte(s, i);
  }

  lemma MixedColumn(s: Block, c: nat)
    requires c < 4
    ensures var w, x, y, z := s[4 * c], s[4 * c + 1], s[4 * c + 2], s[4 * c + 3];
      && MixColumns(s)[4 * c] == Mixed(w, x, y, z) && MixColumns(s)[4 * c + 1] == Mixed(x, y, z, w)
      && MixColumns(s)[4 * c + 2] == Mixed(y, z, w, x) && MixColumns(s)[4 * c + 3] == Mixed(z, w, x, y)
  {
    hide MixColumns, Mixed;
    MixedAt(s, c, 0);
    MixedAt(s, c, 1);
    MixedAt(s, c, 2);
    MixedAt(s, c, 3);
  }

  method MixByte(w: bv8, x: bv8, y: bv8, z: bv8) returns (r: bv8)
    ensures r == Mixed(w, x, y, z)
  {
    hide Times;
    var p := GfMul(0x02, w);
    var q := GfMul(0x03, x);
    r := Add(Add(p, q), Add(y, z));
  }

  method MixColumnsInPlace(state: array<bv8>)
    requires state.Length == 16
    modifies state
    ensures state[..] == MixColumns(old(state[..]))
  {
    hide Mixed, MixColumns;
    ghost var was := state[..];
    for i := 0 to 4
      invariant forall k :: 0 <= k < 4 * i ==> state[k] == MixColumns(was)[k]
      invariant forall k :: 4 * i <= k < 16 ==> state[k] == was[k]
    {
      var s0, s1, s2, s3 := state[i * 4], state[i * 4 + 1], state[i * 4 + 2], state[i * 4 + 3];
      MixedColumn(was, i);
      state[i * 4] := MixByte(s0, s1, s2, s3);
      state[i * 4 + 1] := MixByte(s1, s2, s3, s0);
      state[i * 4 + 2] := MixByte(s2, s3, s0, s1);
      state[i * 4 + 3] := MixByte(s3, s0, s1, s2);
    }
  }

  // ----- Key expansion and the block cipher -----

  // The constants the loop matches on word index.
  function Constant(i: nat): bv8 {
    match i
    case 4 => 0x01
    case 8 => 0x02
    case 12 => 0x04
    case 16 => 0x08
    case 20 => 0x10
    case 24 => 0x20
    case 28 => 0x40
    case 32 => 0x80
    case 36 => 0x1b
    case 40 => 0x36
    case _ => 0
  }

  lemma PowersOfTwo()
    ensures Power(0x01, 0) == 0x01 && Power(0x01, 1) == 0x02 && Power(0x01, 2) == 0x04 && Power(0x01, 3) == 0x08
    ensures Power(0x01, 4) == 0x10 && Power(0x01, 5) == 0x20 && Power(0x01, 6) == 0x40 && Power(0x01, 7) == 0x80
    ensures Power(0x01, 8) == 0x1b && Power(0x01, 9) == 0x36
  {
  }

  // The constants are the powers of x that section 5.2 asks for.
  lemma ConstantIsRcon(j: nat)
    requires 1 <= j <= 10
    ensures Rcon(j) == [Constant(4 * j), 0, 0, 0]
  {
    hide Power;
    PowersOfTwo();
  }

  lemma NextWord(key: Block, i: nat, temp: Word)
    requires 4 <= i < 44
    requires temp == if i % 4 == 0 then AddWord(SubRotWord(ExpandedWord(key, i - 1)), [Constant(i), 0, 0, 0]) else ExpandedWord(key, i - 1)
    ensures ExpandedWord(key, i) == AddWord(ExpandedWord(key, i - 4), temp)
  {
    hide AddWord, SubRotWord, Constant, Rcon;
    if i % 4 == 0 {
      ConstantIsRcon(i / 4);
    }
  }

  method Temporary(last: Word, i: nat) returns (temp: Word)
    ensures temp == if i % 4 == 0 then AddWord(SubRotWord(last), [Constant(i), 0, 0, 0]) else last
  {
    hide Table, Add, Constant;
    temp := last;
    if i % 4 == 0 {
      temp := temp[1..] + [temp[0]];
      ghost var rotated := temp;
      for j := 0 to 4
        invariant |temp| == 4
        invariant forall k :: 0 <= k < j ==> temp[k] == Table(rotated[k])
        invariant forall k :: j <= k < 4 ==> temp[k] == rotated[k]
      {
        temp := temp[j := Table(temp[j])];
      }
      temp := temp[0 := Add(temp[0], Constant(i))];
      AddLaws(temp[1], 0, 0);
      AddLaws(temp[2], 0, 0);
      AddLaws(temp[3], 0, 0);
    }
  }

  ghost predicate Expanded(key: Block, bytes: seq<bv8>, n: nat)
    requires |bytes| >= 4 * n
  {
    forall k :: 0 <= k < n ==> bytes[4 * k..4 * k + 4] == ExpandedWord(key, k)
  }

  lemma ExpandedExtends(key: Block, bytes: seq<bv8>, n: nat, w: Word)
    requires |bytes| == 4 * n && Expanded(key, bytes, n) && w == ExpandedWord(key, n)
    ensures Expanded(key, bytes + w, n + 1)
  {
    hide ExpandedWord;
    forall k | 0 <= k < n + 1
      ensures (bytes + w)[4 * k..4 * k + 4] == ExpandedWord(key, k)
    {
      if k < n {
        assert (bytes + w)[4 * k..4 * k + 4] == bytes[4 * k..4 * k + 4];
      }
    }
  }

  lemma ChunkIsRoundKey(key: Block, bytes: seq<bv8>, r: nat)
    requires r < 11 && |bytes| == 176 && Expanded(key, bytes, 44)
    ensures bytes[16 * r..16 * r + 16] == RoundKey(key, r)
  {
    hide ExpandedWord;
    var k := 4 * r;
    assert bytes[16 * r..16 * r + 16] == bytes[4 * k..4 * k + 4] + bytes[4 * (k + 1)..4 * (k + 1) + 4]
                                       + bytes[4 * (k + 2)..4 * (k + 2) + 4] + bytes[4 * (k + 3)..4 * (k + 3) + 4];
  }

  method PushWord(bytes: seq<bv8>, i: nat, temp: Word) returns (r: seq<bv8>)
    requires 4 <= i && |bytes| == 4 * i
    ensures r == bytes + AddWord(bytes[4 * (i - 4)..4 * (i - 4) + 4], temp)
  {
    hide Add;
    r := bytes;
    for j := 0 to 4
      invariant r == bytes + AddWord(bytes[4 * (i - 4)..4 * (i - 4) + 4], temp)[..j]
    {
      var prev := r[(i - 4) * 4 + j];
      r := r + [Add(prev, temp[j])];
    }
  }

  method ExpandKey(key: Block) returns (roundKeys: seq<Block>)
    ensures |roundKeys| == 11
    ensures forall r :: 0 <= r < 11 ==> roundKeys[r] == RoundKey(key, r)
  {
    hide AddWord, SubRotWord, Constant, RoundKey;
    var expanded: seq<bv8> := key;
    assert forall k :: 0 <= k < 4 ==> ExpandedWord(key, k) == key[4 * k..4 * k + 4];
    for i := 4 to 44
      invariant |expanded| == 4 * i && Expanded(key, expanded, i)
    {
      hide ExpandedWord;
      assert expanded[4 * (i - 1)..4 * (i - 1) + 4] == ExpandedWord(key, i - 1);
      var temp := Temporary(expanded[4 * (i - 1)..4 * (i - 1) + 4], i);
      NextWord(key, i, temp);
      ExpandedExtends(key, expanded, i, ExpandedWord(key, i));
      expanded := PushWord(expanded, i, temp);
    }
    roundKeys := [];
    for r := 0 to 11
      invariant |roundKeys| == r && forall k :: 0 <= k < r ==> roundKeys[k] == RoundKey(key, k)
    {
      ChunkIsRoundKey(key, expanded, r);
      roundKeys := roundKeys + [expanded[16 * r..16 * r + 16]];
    }
  }

  method FinalizeBlock(input: Block, key: Block) returns (output: Block)
    ensures output == Cipher(input, key)
  {
    hide SubBytes, ShiftRows, MixColumns, AddRoundKey, RoundKey;
    var roundKeys := ExpandKey(key);
    var state := new bv8[16](i requires 0 <= i < 16 => input[i]);
    assert state[..] == input;
    AddRoundKeyInPlace(state, roundKeys[0]);
    for round := 1 to 10
      invariant state[..] == Rounds(input, key, round - 1)
    {
      SubBytesInPlace(state);
      ShiftRowsInPlace(state);
      MixColumnsInPlace(state);
      AddRoundKeyInPlace(state, roundKeys[round]);
    }
    SubBytesInPlace(state);
    ShiftRowsInPlace(state);
    AddRoundKeyInPlace(state, roundKeys[10]);
    output := state[..];
  }
}
