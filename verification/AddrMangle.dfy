/**
 Mangled socket addresses: AddrMangle of libs/hbb_common/src/lib.rs and the checked
 reader of crates/rd-engine/src/rendezvous.rs. Words are natural numbers with their
 width written out; the clock is a parameter.
 */
module AddrMangle {
  import opened Wrappers

  // Octets in network order, as the standard library stores them.
  datatype SocketAddr =
    | V4(octets: Bytes, port: nat)
    | V6(octets: Bytes, port: nat, flowinfo: nat, scope: nat)

  datatype Error = Underflow | InvalidMangledAddress | InvalidPeerRoute

  const U16: nat := 0x1_0000
  const U32: nat := 0x1_0000_0000

  predicate WellFormed(a: SocketAddr) {
    && a.port < U16
    && |a.octets| == (if a.V4? then 4 else 16)
    && (a.V6? ==> a.flowinfo < U32 && a.scope < U32)
  }

  // ----- Machine words -----

  function Pow2(k: nat): (p: nat)
    ensures p >= 1
  {
    if k == 0 then 1 else 2 * Pow2(k - 1)
  }

  function Or(a: nat, b: nat): nat {
    if a == 0 then b else 2 * Or(a / 2, b / 2) + if a % 2 == 1 || b % 2 == 1 then 1 else 0
  }

  function And(a: nat, b: nat): nat {
    if a == 0 then 0 else 2 * And(a / 2, b / 2) + if a % 2 == 1 && b % 2 == 1 then 1 else 0
  }

  function Shl(a: nat, k: nat): nat {
    a * Pow2(k)
  }

  function Shr(a: nat, k: nat): nat {
    if k == 0 then a else Shr(a / 2, k - 1)
  }

  function LeBytes(v: nat, n: nat): (b: Bytes)
    ensures |b| == n
  {
    if n == 0 then [] else [v % 256] + LeBytes(v / 256, n - 1)
  }

  function FromLe(b: Bytes): (v: nat)
    ensures v < Pow2(8 * |b|)
  {
    ByteShift(|b|);
    if b == [] then 0 else b[0] as nat + 256 * FromLe(b[1..])
  }

  lemma {:induction false} ByteShift(n: nat)
    ensures n > 0 ==> Pow2(8 * n) == 256 * Pow2(8 * (n - 1))
  {
    hide Pow2;
    if n > 0 {
      FourBits(8 * (n - 1));
      FourBits(8 * (n - 1) + 4);
    }
  }

  lemma {:induction false} FourBits(k: nat)
    ensures Pow2(k + 4) == 16 * Pow2(k)
  {
    assert Pow2(k + 2) == 4 * Pow2(k);
    assert Pow2(k + 4) == 4 * Pow2(k + 2);
  }

  function Zeros(n: nat): (z: Bytes)
    ensures |z| == n
  {
    seq(n, _ => 0)
  }

  // A short string as a 16-byte word.
  function Number(bytes: Bytes): nat
    requires |bytes| <= 16
  {
    FromLe(bytes + Zeros(16 - |bytes|))
  }

  // Without its trailing zero bytes.
  function Strip(b: Bytes): Bytes {
    if b != [] && b[|b| - 1] == 0 then Strip(b[..|b| - 1]) else b
  }

  // ----- The format -----

  predicate IsLoopback(a: SocketAddr)
    requires WellFormed(a)
  {
    if a.V4? then a.octets[0] == 127 else a.octets == Zeros(15) + [1]
  }

  // The IPv4 address inside a mapped or compatible IPv6 address.
  function ToIpv4(octets: Bytes): (r: Option<Bytes>)
    requires |octets| == 16
    ensures r.Some? ==> |r.value| == 4
  {
    if octets[..10] == Zeros(10) && (octets[10..12] == [0, 0] || octets[10..12] == [0xff, 0xff]) then Some(octets[12..]) else None
  }

  function TryIntoV4(a: SocketAddr): (r: SocketAddr)
    requires WellFormed(a)
    ensures WellFormed(r) && r.port == a.port
  {
    if a.V6? && !IsLoopback(a) && ToIpv4(a.octets).Some? then V4(ToIpv4(a.octets).value, a.port) else a
  }

  // The number an IPv4 address is mangled into.
  function Mangled(ip: nat, tm: nat, port: nat): nat {
    Or(Or(Shl(ip + tm, 49), Shl(tm, 17)), port + And(tm, 0xFFFF))
  }

  function Encode(addr: SocketAddr, micros: nat): Bytes
    requires WellFormed(addr)
  {
    var a := TryIntoV4(addr);
    if a.V4? then Strip(LeBytes(Mangled(FromLe(a.octets), micros % U32, a.port), 16)) else a.octets + LeBytes(a.port, 2)
  }

  const ANY_LISTEN := V6(Zeros(16), 0, 0, 0)

  // Both subtractions are unchecked in the source: an underflow is an error here.
  function Decode(bytes: Bytes): (r: Result<SocketAddr, Error>)
    ensures r.Ok? ==> WellFormed(r.value)
  {
    Powers();
    if |bytes| > 16 then
      if |bytes| != 18 then Ok(ANY_LISTEN)
      else Ok(V6(bytes[..16], FromLe(bytes[16..]), 0, 0))
    else
      var number := Number(bytes);
      var tm := And(Shr(number, 17), 0xFFFF_FFFF);
      var low := And(number, 0xFF_FFFF);
      if Shr(number, 49) < tm || low < And(tm, 0xFFFF) then Err(Underflow)
      else Ok(V4(LeBytes((Shr(number, 49) - tm) % U32, 4), (low - And(tm, 0xFFFF)) % U16))
  }

  predicate IsUnspecified(a: SocketAddr) {
    a.octets == Zeros(|a.octets|)
  }

  predicate IsMulticast(a: SocketAddr)
    requires WellFormed(a)
  {
    if a.V4? then 224 <= a.octets[0] <= 239 else a.octets[0] == 0xff
  }

  predicate ValidAddress(a: SocketAddr)
    requires WellFormed(a)
  {
    a.port != 0 && !IsUnspecified(a) && !IsMulticast(a)
  }

  // What the reader checks before it decodes: None when a subtraction would underflow.
  function CheckedIp(n: nat): Option<nat> {
    var tm := And(Shr(n, 17), 0xFFFF_FFFF);
    if Shr(n, 49) < tm then None else Some(Shr(n, 49) - tm)
  }

  function CheckedPort(n: nat): Option<nat> {
    var salt := And(And(Shr(n, 17), 0xFFFF_FFFF), 0xFFFF);
    if And(n, 0x1FFFF) < salt then None else Some(And(n, 0x1FFFF) - salt)
  }

  function PeerAddress(bytes: Bytes): Result<SocketAddr, Error> {
    if bytes == [] || (|bytes| > 16 && |bytes| != 18) then Err(InvalidMangledAddress)
    else
      var n := if |bytes| <= 16 then Number(bytes) else 0;
      var ip, port := CheckedIp(n), CheckedPort(n);
      if |bytes| <= 16 && (ip.None? || port.None? || ip.value >= U32 || port.value == 0 || port.value >= U16) then
        Err(InvalidMangledAddress)
      else
        var r := Decode(bytes);
        if r.Err? then r
        else if !ValidAddress(r.value) then Err(InvalidPeerRoute)
        else r
  }

  // ----- Encoding, step by step -----

  method EncodeCall(addr: SocketAddr, micros: nat) returns (r: Bytes)
    requires WellFormed(addr)
    ensures r == Encode(addr, micros)
  {
    hide Mangled, LeBytes;
    var a := TryIntoV4(addr);
    if a.V4? {
      var bytes := LeBytes(Mangled(FromLe(a.octets), micros % U32, a.port), 16);
      var padding := 0;
      assert bytes[..16] == bytes;
      while padding < 16 && bytes[15 - padding] == 0
        invariant padding <= 16
        invariant Strip(bytes) == Strip(bytes[..16 - padding])
      {
        assert bytes[..16 - padding][..15 - padding] == bytes[..15 - padding];
        padding := padding + 1;
      }
      r := bytes[..16 - padding];
    } else {
      var port := LeBytes(a.port, 2);
      r := a.octets;
      r := r + [port[0]];
      r := r + [port[1]];
      assert r == a.octets + port;
    }
  }

  // ----- Arithmetic of disjoint fields -----

  lemma {:induction false} OrDisjoint(a: nat, b: nat, k: nat)
    requires b < Pow2(k)
    ensures Or(a * Pow2(k), b) == a * Pow2(k) + b
  {
    if k > 0 {
      var p := Pow2(k - 1);
      assert a * Pow2(k) == 2 * (a * p);
      OrDisjoint(a, b / 2, k - 1);
      if a * Pow2(k) != 0 {
        assert (a * Pow2(k)) / 2 == a * p;
      }
    } else {
      OrZero(a);
    }
  }

  lemma {:induction false} OrZero(a: nat)
    ensures Or(a, 0) == a
  {
    if a > 0 {
      OrZero(a / 2);
    }
  }

  lemma {:induction false} AndMask(a: nat, k: nat)
    ensures And(a, Pow2(k) - 1) == a % Pow2(k)
    decreases k
  {
    if k == 0 {
      AndZero(a);
    } else {
      AndMask(a / 2, k - 1);
      MaskStep(a, Pow2(k - 1));
      assert Pow2(k) == 2 * Pow2(k - 1);
      hide *;
    }
  }

  lemma MaskStep(a: nat, p: nat)
    requires p >= 1 && And(a / 2, p - 1) == (a / 2) % p
    ensures And(a, 2 * p - 1) == a % (2 * p)
  {
    OddMask(a, p);
    hide And;
    HalfMod(a, p);
  }

  lemma OddMask(a: nat, p: nat)
    requires p >= 1
    ensures And(a, 2 * p - 1) == 2 * And(a / 2, p - 1) + a % 2
  {
    assert (2 * p - 1) / 2 == p - 1 && (2 * p - 1) % 2 == 1;
  }

  lemma {:induction false} AndZero(a: nat)
    ensures And(a, 0) == 0
  {
    if a > 0 {
      AndZero(a / 2);
    }
  }

  lemma HalfMod(a: nat, p: nat)
    requires p >= 1
    ensures a % (2 * p) == 2 * ((a / 2) % p) + a % 2 && a / (2 * p) == a / 2 / p
  {
    var q, r := (a / 2) / p, (a / 2) % p;
    assert a == 2 * (p * q + r) + a % 2;
    DivMod(a, 2 * p, q, 2 * r + a % 2);
  }

  lemma Product(d: nat, a: int, b: int)
    requires a > b
    ensures d * a >= d * b + d
  {
    hide *;
    var k: nat := a - b - 1;
    assert d * (b + 1 + k) == d * b + d + d * k;
  }

  lemma DivMod(a: nat, d: nat, q: nat, r: nat)
    requires d > 0 && a == d * q + r && r < d
    ensures a / d == q && a % d == r
  {
    hide *;
    var q', r' := a / d, a % d;
    assert a == d * q' + r';
    if q' > q {
      Product(d, q', q);
    } else if q' < q {
      Product(d, q, q');
    }
  }

  lemma {:induction false} ShrDivides(a: nat, k: nat)
    ensures Shr(a, k) == a / Pow2(k)
    decreases k
  {
    if k > 0 {
      ShrDivides(a / 2, k - 1);
      HalfMod(a, Pow2(k - 1));
    }
  }

  lemma {:induction false} Powers()
    ensures Pow2(16) == U16 && Pow2(17) == 0x2_0000 && Pow2(24) == 0x100_0000 && Pow2(32) == U32 && Pow2(49) == 0x2_0000_0000_0000
  {
    assert Pow2(8) == 256;
    assert Pow2(16) == U16;
    assert Pow2(24) == 0x100_0000;
    assert Pow2(32) == U32;
    assert Pow2(40) == 0x100_0000_0000;
  }

  // The masks as remainders, the shifts as quotients.
  lemma {:induction false} Masks(n: nat)
    ensures And(n, 0xFFFF) == n % U16 && And(n, 0x1FFFF) == n % 0x2_0000 && And(n, 0xFF_FFFF) == n % 0x100_0000
    ensures And(n, 0xFFFF_FFFF) == n % U32
    ensures Shr(n, 17) == n / 0x2_0000 && Shr(n, 49) == n / 0x2_0000_0000_0000
  {
    Powers();
    AndMask(n, 16);
    AndMask(n, 17);
    AndMask(n, 24);
    AndMask(n, 32);
    ShrDivides(n, 17);
    ShrDivides(n, 49);
  }

  // ----- Bytes of a number -----

  lemma {:induction false} LeRoundTrip(v: nat, n: nat)
    requires v < Pow2(8 * n)
    ensures FromLe(LeBytes(v, n)) == v
    decreases n
  {
    if n > 0 {
      ByteShift(n);
      LeRoundTrip(v / 256, n - 1);
      assert LeBytes(v, n)[1..] == LeBytes(v / 256, n - 1);
    }
  }

  lemma {:induction false} LowByte(x: byte, y: nat)
    ensures (x as nat + 256 * y) % 256 == x && (x as nat + 256 * y) / 256 == y
  {
    hide *;
  }

  lemma {:induction false} BytesRoundTrip(b: Bytes)
    ensures LeBytes(FromLe(b), |b|) == b
  {
    hide Pow2;
    if b != [] {
      BytesRoundTrip(b[1..]);
      LowByte(b[0], FromLe(b[1..]));
      assert b == [b[0]] + b[1..];
    }
  }

  lemma {:induction false} FromLeZeros(b: Bytes, k: nat)
    ensures FromLe(b + Zeros(k)) == FromLe(b)
    decreases |b| + k
  {
    if b == [] {
      if k > 0 {
        assert (b + Zeros(k))[1..] == b + Zeros(k - 1);
        FromLeZeros(b, k - 1);
      }
    } else {
      assert (b + Zeros(k))[1..] == b[1..] + Zeros(k);
      FromLeZeros(b[1..], k);
    }
  }

  lemma {:induction false} StripLength(b: Bytes)
    ensures |Strip(b)| <= |b| && Strip(b) + Zeros(|b| - |Strip(b)|) == b
  {
    if b != [] && b[|b| - 1] == 0 {
      var a := b[..|b| - 1];
      StripLength(a);
      assert Strip(b) + Zeros(|b| - |Strip(b)|) == (Strip(a) + Zeros(|a| - |Strip(a)|)) + [0];
    }
  }

  // ----- The mangled number and its fields -----

  lemma MangledSum(ip: nat, tm: nat, port: nat)
    requires ip < U32 && tm < U32 && port < U16
    ensures Mangled(ip, tm, port) == (ip + tm) * 0x2_0000_0000_0000 + tm * 0x2_0000 + (port + tm % U16)
  {
    hide Or, And;
    Powers();
    Masks(tm);
    var x := ip + tm;
    OrDisjoint(x, tm * Pow2(17), 49);
    assert x * 0x2_0000_0000_0000 + tm * 0x2_0000 == (x * U32 + tm) * 0x2_0000;
    OrDisjoint(x * U32 + tm, port + tm % U16, 17);
  }

  // Each field of such a number, read back through the masks; the 24-bit one also catches bits of the salt.
  lemma Fields(x: nat, tm: nat, c: nat, n: nat)
    requires tm < U32 && c < 0x2_0000 && n == x * 0x2_0000_0000_0000 + tm * 0x2_0000 + c
    ensures n / 0x2_0000_0000_0000 == x && n / 0x2_0000 % U32 == tm && n % 0x2_0000 == c
    ensures n % 0x100_0000 == tm % 128 * 0x2_0000 + c
  {
    assert n / 0x2_0000 == x * U32 + tm;
    assert n % 0x100_0000 == tm % 128 * 0x2_0000 + c by {
      var q := x * 0x200_0000 + tm / 128;
      assert n == q * 0x100_0000 + (tm % 128 * 0x2_0000 + c);
    }
  }

  // The reader's 17-bit field and the decoder's 24-bit field give the same port.
  lemma WiderPort(n: nat)
    requires n % 0x2_0000 >= n / 0x2_0000 % U32 % U16 && n % 0x2_0000 - n / 0x2_0000 % U32 % U16 < U16
    ensures var tm := n / 0x2_0000 % U32;
      n % 0x100_0000 >= tm % U16 && (n % 0x100_0000 - tm % U16) % U16 == n % 0x2_0000 - tm % U16
  {
    var tm := n / 0x2_0000 % U32;
    FieldsOf(n);
    var port := n % 0x2_0000 - tm % U16;
    assert tm % 128 * 0x2_0000 + port == U16 * (2 * (tm % 128)) + port;
  }

  lemma FieldsOf(n: nat)
    ensures n % 0x100_0000 == n / 0x2_0000 % U32 % 128 * 0x2_0000 + n % 0x2_0000
  {
    Fields(n / 0x2_0000_0000_0000, n / 0x2_0000 % U32, n % 0x2_0000, n);
  }

  lemma WiderMask(n: nat)
    requires CheckedIp(n).Some? && CheckedPort(n).Some? && CheckedIp(n).value < U32 && CheckedPort(n).value < U16
    ensures var tm := And(Shr(n, 17), 0xFFFF_FFFF); var low := And(n, 0xFF_FFFF);
      && Shr(n, 49) >= tm && low >= And(tm, 0xFFFF)
      && (Shr(n, 49) - tm) % U32 == CheckedIp(n).value
      && (low - And(tm, 0xFFFF)) % U16 == CheckedPort(n).value
  {
    hide And, Shr;
    Masks(n);
    Masks(n / 0x2_0000);
    Masks(n / 0x2_0000 % U32);
    WiderPort(n);
  }

  lemma MangledReads(ip: nat, tm: nat, port: nat)
    requires ip < U32 && tm < U32 && port < U16
    ensures var n := Mangled(ip, tm, port);
      n < 0x4_0000_0000_0000_0000_0000 && CheckedIp(n) == Some(ip) && CheckedPort(n) == Some(port)
  {
    hide And, Mangled;
    var n := Mangled(ip, tm, port);
    MangledSum(ip, tm, port);
    Fields(ip + tm, tm, port + tm % U16, n);
    Masks(n);
    Masks(n / 0x2_0000);
    Masks(tm);
  }

  // ----- Round trip -----

  lemma EncodedNumber(n: nat)
    requires n < 0x4_0000_0000_0000_0000_0000
    ensures var bytes := Strip(LeBytes(n, 16)); |bytes| <= 16 && Number(bytes) == n && (bytes == [] ==> n == 0)
  {
    hide LeBytes, Strip;
    Wide();
    LeRoundTrip(n, 16);
    StripLength(LeBytes(n, 16));
    var bytes := Strip(LeBytes(n, 16));
    FromLeZeros(bytes, 16 - |bytes|);
  }

  lemma EncodeV4(a: SocketAddr, tm: nat)
    requires WellFormed(a) && a.V4? && tm < U32
    ensures var bytes := Strip(LeBytes(Mangled(FromLe(a.octets), tm, a.port), 16));
      && |bytes| <= 16 && Number(bytes) == Mangled(FromLe(a.octets), tm, a.port)
      && (bytes == [] ==> Mangled(FromLe(a.octets), tm, a.port) == 0)
      && Decode(bytes) == Ok(a)
  {
    hide And, Or, Mangled, LeBytes, Number, Strip, FromLe, CheckedIp, CheckedPort, Shr;
    Powers();
    var n := Mangled(FromLe(a.octets), tm, a.port);
    MangledReads(FromLe(a.octets), tm, a.port);
    EncodedNumber(n);
    WiderMask(n);
    BytesRoundTrip(a.octets);
  }

  lemma {:induction false} PowAdd(a: nat, b: nat)
    ensures Pow2(a + b) == Pow2(a) * Pow2(b)
  {
    if b > 0 {
      PowAdd(a, b - 1);
    }
  }

  lemma {:induction false} Wide()
    ensures Pow2(8 * 16) > 0x4_0000_0000_0000_0000_0000
  {
    Powers();
    PowAdd(49, 49);
    PowAdd(98, 30);
    assert Pow2(98) * Pow2(30) >= Pow2(98);
  }

  lemma EncodeV6(a: SocketAddr)
    requires WellFormed(a) && a.V6?
    ensures Decode(a.octets + LeBytes(a.port, 2)) == Ok(V6(a.octets, a.port, 0, 0))
  {
    var bytes := a.octets + LeBytes(a.port, 2);
    assert bytes[..16] == a.octets && bytes[16..] == LeBytes(a.port, 2);
    Powers();
    LeRoundTrip(a.port, 2);
  }

  // ----- What the predicates of an address mean -----

  /** An IPv6 address other than ::1 is converted exactly if it is zeros up to two equal marks, both 0 or both 255. */
  lemma Converted(a: SocketAddr)
    requires WellFormed(a)
    ensures a.V4? ==> TryIntoV4(a) == a
    ensures a.V6? ==>
      var convertible := (forall i :: 0 <= i < 10 ==> a.octets[i] == 0) && a.octets[10] == a.octets[11] && a.octets[10] in {0, 0xff};
      var loopback := (forall i :: 0 <= i < 15 ==> a.octets[i] == 0) && a.octets[15] == 1;
      TryIntoV4(a) == if convertible && !loopback then V4([a.octets[12], a.octets[13], a.octets[14], a.octets[15]], a.port) else a
  {
    if a.V6? {
      var o := a.octets;
      assert o[..10] == Zeros(10) <==> forall i :: 0 <= i < 10 ==> o[i] == 0 by { ZerosAre(o[..10], 10); }
      assert o == Zeros(15) + [1] <==> (o[..15] == Zeros(15) && o[15] == 1) by { assert o == o[..15] + [o[15]]; }
      assert o[..15] == Zeros(15) <==> forall i :: 0 <= i < 15 ==> o[i] == 0 by { ZerosAre(o[..15], 15); }
      assert o[10..12] == [o[10], o[11]];
      assert o[12..] == [o[12], o[13], o[14], o[15]];
    }
  }

  lemma ZerosAre(b: Bytes, n: nat)
    requires |b| == n
    ensures b == Zeros(n) <==> forall i :: 0 <= i < n ==> b[i] == 0
  {
  }

  /** A route needs a port, an address that is not all zeros, and one that is not multicast. */
  lemma RouteExact(a: SocketAddr)
    requires WellFormed(a)
    ensures ValidAddress(a) <==>
      && a.port != 0 && (exists i :: 0 <= i < |a.octets| && a.octets[i] != 0)
      && !(a.V4? && 224 <= a.octets[0] <= 239) && !(a.V6? && a.octets[0] == 255)
  {
    ZerosAre(a.octets, |a.octets|);
  }

  /** Strings of other lengths: the decoder answers with the unspecified address, the reader with an error. */
  lemma OtherLengths(bytes: Bytes)
    ensures |bytes| == 17 || |bytes| > 18 ==>
      Decode(bytes) == Ok(V6(Zeros(16), 0, 0, 0)) && PeerAddress(bytes) == Err(InvalidMangledAddress)
    ensures bytes == [] ==> PeerAddress(bytes) == Err(InvalidMangledAddress)
    ensures |bytes| == 18 ==>
      var a := V6(bytes[..16], (bytes[16] as nat) + 256 * (bytes[17] as nat), 0, 0);
      Decode(bytes) == Ok(a) && PeerAddress(bytes) == if ValidAddress(a) then Ok(a) else Err(InvalidPeerRoute)
  {
    if |bytes| == 18 {
      assert bytes[16..][1..] == [bytes[17]] && [bytes[17]][1..] == [];
      assert FromLe(bytes[16..]) == (bytes[16] as nat) + 256 * (bytes[17] as nat);
    }
  }

  // The address that survives: IPv6 scope and flow information are not encoded.
  function Kept(a: SocketAddr): SocketAddr
    requires WellFormed(a)
  {
    var r := TryIntoV4(a);
    if r.V6? then r.(flowinfo := 0, scope := 0) else r
  }

  /** Decoding never underflows on an encoding, and gives the address back, except for an IPv6 scope and flow information. */
  lemma MangleRoundTrip(a: SocketAddr, micros: nat)
    requires WellFormed(a)
    ensures Decode(Encode(a, micros)) == Ok(Kept(a))
    ensures Decode(Encode(a, micros)) == Ok(TryIntoV4(a)) <==> TryIntoV4(a).V4? || (a.flowinfo == 0 && a.scope == 0)
  {
    hide Decode, Mangled, LeBytes, Strip;
    var r := TryIntoV4(a);
    if r.V4? {
      EncodeV4(r, micros % U32);
    } else {
      EncodeV6(r);
    }
  }

  lemma ShortStringsRead(bytes: Bytes)
    requires 0 < |bytes| <= 16
    ensures var n := Number(bytes);
      if CheckedIp(n).Some? && CheckedPort(n).Some? && CheckedIp(n).value < U32 && 0 < CheckedPort(n).value < U16 then
        var a := V4(LeBytes(CheckedIp(n).value, 4), CheckedPort(n).value);
        Decode(bytes) == Ok(a) && PeerAddress(bytes) == if ValidAddress(a) then Ok(a) else Err(InvalidPeerRoute)
      else PeerAddress(bytes) == Err(InvalidMangledAddress)
  {
    hide And, CheckedIp, CheckedPort, LeBytes, Number, Shr, IsUnspecified, IsMulticast;
    var n := Number(bytes);
    if CheckedIp(n).Some? && CheckedPort(n).Some? && CheckedIp(n).value < U32 && 0 < CheckedPort(n).value < U16 {
      WiderMask(n);
    }
  }

  lemma PeerAcceptsV4(a: SocketAddr, tm: nat)
    requires WellFormed(a) && a.V4? && tm < U32
    ensures var bytes := Strip(LeBytes(Mangled(FromLe(a.octets), tm, a.port), 16));
      PeerAddress(bytes) == if ValidAddress(a) then Ok(a)
                            else if bytes == [] || a.port == 0 then Err(InvalidMangledAddress)
                            else Err(InvalidPeerRoute)
  {
    hide LeBytes, Strip, And, Or, Mangled, Decode, CheckedIp, CheckedPort, Number, IsUnspecified, IsMulticast, FromLe;
    Powers();
    var bytes := Strip(LeBytes(Mangled(FromLe(a.octets), tm, a.port), 16));
    EncodeV4(a, tm);
    MangledReads(FromLe(a.octets), tm, a.port);
    MangledSum(FromLe(a.octets), tm, a.port);
    if bytes != [] {
      ShortStringsRead(bytes);
      BytesRoundTrip(a.octets);
    }
  }

  lemma PeerAcceptsV6(a: SocketAddr)
    requires WellFormed(a) && a.V6?
    ensures PeerAddress(a.octets + LeBytes(a.port, 2))
         == if ValidAddress(a) then Ok(V6(a.octets, a.port, 0, 0)) else Err(InvalidPeerRoute)
  {
    hide LeBytes, And, Decode, CheckedIp, CheckedPort;
    EncodeV6(a);
  }

  /** The checked reader accepts the encoding of an address exactly when that address is a valid route, and returns it. */
  lemma PeerAcceptsEncodings(a: SocketAddr, micros: nat)
    requires WellFormed(a)
    ensures PeerAddress(Encode(a, micros)) == Ok(Kept(a)) <==> ValidAddress(Kept(a))
    ensures PeerAddress(Encode(a, micros)).Ok? <==> ValidAddress(Kept(a))
  {
    hide PeerAddress, Mangled, LeBytes, Strip, FromLe;
    var r := TryIntoV4(a);
    if r.V4? {
      PeerAcceptsV4(r, micros % U32);
    } else {
      PeerAcceptsV6(r);
    }
  }

  /** Whatever short string it accepts, decoding does not underflow and returns the address and port that were checked. */
  lemma PeerChecksWhatDecodes(bytes: Bytes)
    requires |bytes| <= 16 && PeerAddress(bytes).Ok?
    ensures var n := Number(bytes);
      && CheckedIp(n).Some? && CheckedPort(n).Some?
      && PeerAddress(bytes) == Decode(bytes) == Ok(V4(LeBytes(CheckedIp(n).value, 4), CheckedPort(n).value))
      && FromLe(LeBytes(CheckedIp(n).value, 4)) == CheckedIp(n).value
  {
    assert bytes != [];
    hide PeerAddress, Decode, CheckedIp, CheckedPort, LeBytes, Number, FromLe, ValidAddress;
    ShortStringsRead(bytes);
    Powers();
    LeRoundTrip(CheckedIp(Number(bytes)).value, 4);
  }

  /** Without those checks a short string does underflow. */
  lemma UncheckedUnderflows()
    ensures Decode([0, 0, 2]) == Err(Underflow) && PeerAddress([0, 0, 2]) == Err(InvalidMangledAddress)
  {
    var bytes: Bytes := [0, 0, 2];
    hide And;
    assert Number(bytes) == 0x2_0000 by {
      FromLeZeros(bytes, 13);
      assert bytes[1..] == [0, 2] && bytes[1..][1..] == [2] && bytes[1..][1..][1..] == [];
    }
    Masks(0x2_0000);
    Masks(1);
  }
}
