/**
 libs/hbb_common/src/fingerprint.rs: the hasher that ends a digest with two enciphered
 blocks, and the cache of fingerprints by concatenated parameter names. Bytes of a
 parameter are its UTF-8 bytes; SHA-512 is a parameter.
 */
module FingerprintCache {
  import opened Wrappers
  import opened Aes
  import opened Fingerprint

  // ----- The hasher -----

  const BaseKey: Block :=
    [0x5d, 0x12, 0x3f, 0x4a, 0x7e, 0xc1, 0x89, 0xb3, 0x91, 0xa4, 0x2b, 0x7f, 0x3c, 0xe2, 0x6d, 0x15]

  function Zeros(n: nat): (z: seq<bv8>)
    ensures |z| == n
  {
    seq(n, _ => 0)
  }

  function Last(data: seq<bv8>, n: nat): (t: seq<bv8>)
    ensures |t| == if |data| <= n then |data| else n
  {
    if |data| <= n then data else data[|data| - n..]
  }

  // The bytes of a string that SHA-512 sees: all but the last 32.
  function Digested(data: seq<bv8>): seq<bv8> {
    data[..|data| - |Last(data, 32)|]
  }

  // The last 32 bytes as two blocks: the second is filled first when there are more than 16.
  function Blocks(tail: seq<bv8>): (Block, Block)
    requires |tail| <= 32
  {
    if |tail| <= 16 then (tail + Zeros(16 - |tail|), Zeros(16))
    else (tail[..|tail| - 16] + Zeros(32 - |tail|), tail[|tail| - 16..])
  }

  function Hash(sha: seq<bv8> -> seq<bv8>, data: seq<bv8>): seq<bv8> {
    var (first, second) := Blocks(Last(data, 32));
    sha(Digested(data)) + if data == [] then [] else Cipher(first, BaseKey) + Cipher(second, BaseKey)
  }

  class Sha512Hasher {
    const sha: seq<bv8> -> seq<bv8>
    const key: Block
    var digested: seq<bv8>
    var buffer: seq<bv8>

    constructor (sha: seq<bv8> -> seq<bv8>)
      ensures this.sha == sha && key == BaseKey && digested == [] && buffer == []
    {
      this.sha, key, digested, buffer := sha, BaseKey, [], [];
    }

    method Update(data: seq<bv8>)
      modifies this
      ensures |data| <= 32 ==> digested == old(digested) && buffer == old(buffer) + data
      ensures |data| > 32 ==> digested == old(digested) + Digested(data) && buffer == Last(data, 32)
    {
      if |data| <= 32 {
        buffer := buffer + data;
      } else {
        var splitPoint := |data| - 32;
        digested := digested + data[..splitPoint];
        buffer := [];
        buffer := buffer + data[splitPoint..];
      }
    }

    method Finalize() returns (result: seq<bv8>)
      ensures buffer == [] ==> result == sha(digested)
      ensures buffer != [] ==>
        var b := Blocks(Last(buffer, 32)); result == sha(digested) + Cipher(b.0, key) + Cipher(b.1, key)
    {
      hide Cipher;
      result := sha(digested);
      if buffer != [] {
        var firstBlock, secondBlock := Zeros(16), Zeros(16);
        if |buffer| >= 32 {
          var startFirst, startSecond := |buffer| - 32, |buffer| - 16;
          firstBlock, secondBlock := buffer[startFirst..startSecond], buffer[startSecond..];
        } else if |buffer| > 16 {
          var startSecond := |buffer| - 16;
          firstBlock := buffer[..startSecond] + firstBlock[startSecond..];
          secondBlock := buffer[startSecond..];
        } else {
          firstBlock := buffer + firstBlock[|buffer|..];
        }
        assert firstBlock == Blocks(Last(buffer, 32)).0;
        assert secondBlock == Blocks(Last(buffer, 32)).1;
        var encryptedFirst := FinalizeBlock(firstBlock, key);
        var encryptedSecond := FinalizeBlock(secondBlock, key);
        result := result + encryptedFirst;
        result := result + encryptedSecond;
      }
    }
  }

  lemma BlocksInjective(s: seq<bv8>, t: seq<bv8>)
    requires |s| == |t| <= 32 && Blocks(s) == Blocks(t)
    ensures s == t
  {
    var n := |s|;
    var (a, b) := Blocks(s);
    if n <= 16 {
      assert s == a[..n] && t == Blocks(t).0[..n];
    } else {
      assert s == a[..n - 16] + b;
      assert t == Blocks(t).0[..n - 16] + Blocks(t).1;
    }
  }

  lemma ConcatInjective(a: seq<bv8>, b: seq<bv8>, c: seq<bv8>, d: seq<bv8>)
    requires |a| == |c| && a + b == c + d
    ensures a == c && b == d
  {
    assert a == (a + b)[..|a|] && c == (c + d)[..|c|];
    assert b == (a + b)[|a|..] && d == (c + d)[|c|..];
  }

  /** Strings of one length share a fingerprint only through a SHA-512 collision: the enciphered tail loses nothing. */
  lemma OnlyDigestCollides(sha: seq<bv8> -> seq<bv8>, s: seq<bv8>, t: seq<bv8>)
    requires forall x :: |sha(x)| == 64
    requires |s| == |t|
    ensures Hash(sha, s) == Hash(sha, t) <==> Last(s, 32) == Last(t, 32) && sha(Digested(s)) == sha(Digested(t))
  {
    hide Cipher, Digested, Last, Blocks;
    if Hash(sha, s) == Hash(sha, t) && s != [] {
      var (a, b) := Blocks(Last(s, 32));
      var (c, d) := Blocks(Last(t, 32));
      ConcatInjective(sha(Digested(s)), Cipher(a, BaseKey) + Cipher(b, BaseKey), sha(Digested(t)), Cipher(c, BaseKey) + Cipher(d, BaseKey));
      SameCiphers(a, b, c, d);
      BlocksInjective(Last(s, 32), Last(t, 32));
    }
  }

  // ----- Parameters -----

  datatype FingerprintingInfo = FingerprintingInfo(
    eol: seq<bv8>, endianness: seq<bv8>, brand: seq<bv8>, speedMax: seq<bv8>, cores: seq<bv8>, physicalCores: seq<bv8>,
    memTotal: seq<bv8>, platform: seq<bv8>, arch: seq<bv8>, id: seq<bv8>, addr: seq<bv8>)

  function AllParameters(): seq<string> {
    ["eol", "endianness", "brand", "speed_max", "cores", "physical_cores", "mem_total", "platform", "arch", "id", "addr"]
  }

  function Field(info: FingerprintingInfo, name: string): Option<seq<bv8>> {
    if name == "eol" then Some(info.eol)
    else if name == "endianness" then Some(info.endianness)
    else if name == "brand" then Some(info.brand)
    else if name == "speed_max" then Some(info.speedMax)
    else if name == "cores" then Some(info.cores)
    else if name == "physical_cores" then Some(info.physicalCores)
    else if name == "mem_total" then Some(info.memTotal)
    else if name == "platform" then Some(info.platform)
    else if name == "arch" then Some(info.arch)
    else if name == "id" then Some(info.id)
    else if name == "addr" then Some(info.addr)
    else None
  }

  function Material(info: FingerprintingInfo, parameters: seq<string>): seq<bv8> {
    if parameters == [] then []
    else Material(info, parameters[..|parameters| - 1]) + match Field(info, parameters[|parameters| - 1]) case Some(v) => v case None => []
  }

  function Calculate(info: FingerprintingInfo, sha: seq<bv8> -> seq<bv8>, parameters: seq<string>): seq<bv8> {
    Hash(sha, Material(info, parameters))
  }

  method CalculateFingerprint(info: FingerprintingInfo, sha: seq<bv8> -> seq<bv8>, parameters: seq<string>) returns (r: seq<bv8>)
    ensures r == Calculate(info, sha, parameters)
  {
    hide Field, Cipher;
    var fingerprintString := [];
    for i := 0 to |parameters|
      invariant fingerprintString == Material(info, parameters[..i])
    {
      assert parameters[..i + 1][..i] == parameters[..i];
      var v := Field(info, parameters[i]);
      if v.Some? {
        fingerprintString := fingerprintString + v.value;
      }
    }
    assert parameters[..|parameters|] == parameters;
    var hasher := new Sha512Hasher(sha);
    hasher.Update(fingerprintString);
    assert hasher.digested == Digested(fingerprintString) && hasher.buffer == Last(fingerprintString, 32);
    assert Last(hasher.buffer, 32) == Last(fingerprintString, 32);
    r := hasher.Finalize();
  }

  /** Which field each name reads. */
  lemma FieldsByName(info: FingerprintingInfo)
    ensures Field(info, "eol") == Some(info.eol) && Field(info, "endianness") == Some(info.endianness)
    ensures Field(info, "brand") == Some(info.brand) && Field(info, "speed_max") == Some(info.speedMax)
    ensures Field(info, "cores") == Some(info.cores) && Field(info, "physical_cores") == Some(info.physicalCores)
    ensures Field(info, "mem_total") == Some(info.memTotal) && Field(info, "platform") == Some(info.platform)
    ensures Field(info, "arch") == Some(info.arch) && Field(info, "id") == Some(info.id) && Field(info, "addr") == Some(info.addr)
  {
  }

  /** The material of a list is that of its names, one after the other. */
  lemma {:induction false} MaterialConcat(info: FingerprintingInfo, a: seq<string>, b: seq<string>)
    ensures Material(info, a + b) == Material(info, a) + Material(info, b)
  {
    hide Field;
    if b == [] {
      assert a + b == a;
    } else {
      var n := |b| - 1;
      assert (a + b)[..|a + b| - 1] == a + b[..n] && (a + b)[|a + b| - 1] == b[n];
      MaterialConcat(info, a, b[..n]);
      Regroup(Material(info, a), Material(info, b[..n]), match Field(info, b[n]) case Some(v) => v case None => []);
    }
  }

  lemma Regroup(a: seq<bv8>, b: seq<bv8>, d: seq<bv8>)
    ensures (a + b) + d == a + (b + d)
  {
    hide *;
  }

  /** The material of one name is its field, or nothing. */
  lemma MaterialOne(info: FingerprintingInfo, name: string)
    ensures Material(info, [name]) == match Field(info, name) case Some(v) => v case None => []
  {
    hide Field;
    assert [name][..0] == [];
  }

  /** The bytes of a fingerprint: a digest of all but the last 32 bytes of the string, and these as two enciphered blocks. */
  lemma HashLayout(sha: seq<bv8> -> seq<bv8>, data: seq<bv8>)
    ensures var n := |data|;
      && (n == 0 ==> Hash(sha, data) == sha([]))
      && (0 < n <= 16 ==> Hash(sha, data) == sha([]) + Cipher(data + Zeros(16 - n), BaseKey) + Cipher(Zeros(16), BaseKey))
      && (16 < n < 32 ==> Hash(sha, data) == sha([]) + Cipher(data[..n - 16] + Zeros(32 - n), BaseKey) + Cipher(data[n - 16..], BaseKey))
      && (n >= 32 ==>
            Hash(sha, data) == sha(data[..n - 32]) + Cipher(data[n - 32..n - 16], BaseKey) + Cipher(data[n - 16..], BaseKey))
  {
    hide Cipher;
    var n := |data|;
    if 0 < n <= 32 {
      assert Digested(data) == [];
      var first := Blocks(data).0;
      assert n > 16 ==> first == data[..n - 16] + Zeros(32 - n);
      assert n == 32 ==> first == data[..16] == data[n - 32..n - 16] && data[..n - 32] == [];
    } else if n > 32 {
      var tail := data[n - 32..];
      assert Digested(data) == data[..n - 32] && Last(data, 32) == tail;
      assert Blocks(tail).0 == data[n - 32..n - 16] && Blocks(tail).1 == data[n - 16..];
    } else {
      assert Digested(data) == [];
    }
    if n > 0 {
      HashSum(sha, data);
      hide Hash, Blocks;
    }
  }

  lemma HashSum(sha: seq<bv8> -> seq<bv8>, data: seq<bv8>)
    requires data != []
    ensures var (first, second) := Blocks(Last(data, 32));
      Hash(sha, data) == sha(Digested(data)) + Cipher(first, BaseKey) + Cipher(second, BaseKey)
  {
    hide Cipher, Blocks, Last, Digested;
  }

  // ----- The names form a prefix-free code -----

  function Join(names: seq<string>): string {
    if names == [] then "" else names[0] + Join(names[1..])
  }

  predicate Known(names: seq<string>) {
    forall i :: 0 <= i < |names| ==> names[i] in AllParameters()
  }

  // The first two letters tell the parameter names apart.
  lemma FirstTwoLetters(i: nat, j: nat)
    requires i < 11 && j < 11
    ensures var a, b := AllParameters()[i], AllParameters()[j];
      |a| >= 2 && |b| >= 2 && (a[0] == b[0] && a[1] == b[1] ==> i == j)
  {
  }

  lemma ElevenNames()
    ensures |AllParameters()| == 11
  {
  }

  lemma PrefixFree(a: string, b: string, x: string, y: string)
    requires a in AllParameters() && b in AllParameters() && a + x == b + y
    ensures a == b && x == y
  {
    hide AllParameters;
    var i :| 0 <= i < |AllParameters()| && AllParameters()[i] == a;
    var j :| 0 <= j < |AllParameters()| && AllParameters()[j] == b;
    ElevenNames();
    FirstTwoLetters(i, j);
    assert (a + x)[0] == (b + y)[0] && (a + x)[1] == (b + y)[1];
    assert x == (a + x)[|a|..] && y == (b + y)[|b|..];
  }

  lemma {:induction false} JoinInjective(a: seq<string>, b: seq<string>)
    requires Known(a) && Known(b) && Join(a) == Join(b)
    ensures a == b
  {
    hide AllParameters;
    if a != [] && b != [] {
      PrefixFree(a[0], b[0], Join(a[1..]), Join(b[1..]));
      JoinInjective(a[1..], b[1..]);
    } else if a != [] {
      NotEmpty(a[0]);
    } else if b != [] {
      NotEmpty(b[0]);
    }
  }

  lemma NotEmpty(a: string)
    requires a in AllParameters()
    ensures a != ""
  {
    PrefixFree(a, a, "", "");
    hide AllParameters;
    var i :| 0 <= i < |AllParameters()| && AllParameters()[i] == a;
    ElevenNames();
    FirstTwoLetters(i, i);
  }

  // ----- The cache -----

  datatype Call = Call(only: Option<seq<string>>, except: Option<seq<string>>)

  function Without(names: seq<string>, except: seq<string>): (r: seq<string>)
    ensures forall n :: n in r <==> n in names && n !in except
  {
    if names == [] then [] else (if names[0] in except then [] else [names[0]]) + Without(names[1..], except)
  }

  // The parameters a call asks for: `only` wins over `except`.
  function Selected(c: Call): seq<string> {
    if c.only.Some? then c.only.value
    else if c.except.Some? then Without(AllParameters(), c.except.value)
    else AllParameters()
  }

  /** `only` wins whatever is excepted; without either all parameters are meant, in their order. */
  lemma OnlyWins(only: seq<string>, except: Option<seq<string>>)
    ensures Selected(Call(Some(only), except)) == only && Selected(Call(None, None)) == AllParameters()
    ensures except.Some? ==> Selected(Call(None, except)) == Without(AllParameters(), except.value)
  {
  }

  /** Excepting drops names one by one and keeps the order of the rest. */
  lemma {:induction false} WithoutConcat(a: seq<string>, b: seq<string>, except: seq<string>)
    ensures Without(a + b, except) == Without(a, except) + Without(b, except)
    ensures forall name :: Without([name], except) == if name in except then [] else [name]
    decreases |a|
  {
    if a == [] {
      assert a + b == b;
    } else {
      assert (a + b)[1..] == a[1..] + b;
      WithoutConcat(a[1..], b, except);
    }
  }

  // The cache does not exist before the first call and is created empty by it.
  type Store = Option<map<string, seq<bv8>>>

  function Serve(info: FingerprintingInfo, sha: seq<bv8> -> seq<bv8>, store: Store, parameters: seq<string>): (Store, seq<bv8>) {
    var key, made := Join(parameters), Calculate(info, sha, parameters);
    if store.None? then (Some(map[]), made)
    else if key in store.value then (store, store.value[key])
    else (Some(store.value[key := made]), made)
  }

  class Cache {
    const info: FingerprintingInfo
    const sha: seq<bv8> -> seq<bv8>
    var fingerprints: Store

    constructor (info: FingerprintingInfo, sha: seq<bv8> -> seq<bv8>)
      ensures this.info == info && this.sha == sha && fingerprints == None
    {
      this.info, this.sha, fingerprints := info, sha, None;
    }

    // Asking for the system information creates the cache if there is none.
    method GetFingerprintingInfo() returns (r: FingerprintingInfo)
      modifies this
      ensures r == info
      ensures fingerprints == if old(fingerprints).None? then Some(map[]) else old(fingerprints)
    {
      if fingerprints.None? {
        fingerprints := Some(map[]);
      }
      r := info;
    }

    method GetFingerprint(c: Call) returns (r: seq<bv8>)
      modifies this
      ensures (fingerprints, r) == Serve(info, sha, old(fingerprints), Selected(c))
    {
      hide Calculate, AllParameters;
      var allParameters := AllParameters();
      var parameters: seq<string>;
      if c.only.Some? {
        parameters := c.only.value;
      } else if c.except.Some? {
        parameters := Without(allParameters, c.except.value);
      } else {
        parameters := allParameters;
      }
      var cacheKey := Join(parameters);
      if fingerprints.Some? {
        if cacheKey in fingerprints.value {
          return fingerprints.value[cacheKey];
        }
        r := CalculateFingerprint(info, sha, parameters);
        fingerprints := Some(fingerprints.value[cacheKey := r]);
      } else {
        r := CalculateFingerprint(info, sha, parameters);
        fingerprints := Some(map[]);
      }
    }
  }

  // A process that has asked for its system information already has an empty cache.
  predicate NewProcess(start: Store) {
    start == None || start == Some(map[])
  }

  // The first call whose answer is stored.
  function FirstStored(start: Store): nat {
    if start.None? then 1 else 0
  }

  // The cache after the first n calls of a run, and the answer to call n.
  function After(info: FingerprintingInfo, sha: seq<bv8> -> seq<bv8>, start: Store, calls: seq<Call>, n: nat): Store
    requires n <= |calls|
  {
    if n == 0 then start else Serve(info, sha, After(info, sha, start, calls, n - 1), Selected(calls[n - 1])).0
  }

  function Answer(info: FingerprintingInfo, sha: seq<bv8> -> seq<bv8>, start: Store, calls: seq<Call>, n: nat): seq<bv8>
    requires n < |calls|
  {
    Serve(info, sha, After(info, sha, start, calls, n), Selected(calls[n])).1
  }

  ghost predicate Entries(info: FingerprintingInfo, sha: seq<bv8> -> seq<bv8>, start: Store, calls: seq<Call>, n: nat, m: map<string, seq<bv8>>)
    requires n <= |calls|
  {
    && (forall k :: FirstStored(start) <= k < n ==> Join(Selected(calls[k])) in m)
    && (forall key :: key in m ==> exists k :: EntryOf(info, sha, start, calls, n, m, key, k))
  }

  // The entry under a key is the fingerprint of call k, which has that key.
  ghost predicate EntryOf(info: FingerprintingInfo, sha: seq<bv8> -> seq<bv8>, start: Store, calls: seq<Call>, n: nat, m: map<string, seq<bv8>>,
                          key: string, k: nat)
    requires n <= |calls| && key in m
  {
    FirstStored(start) <= k < n && Join(Selected(calls[k])) == key && m[key] == Calculate(info, sha, Selected(calls[k]))
  }

  lemma {:induction false} AfterEntries(info: FingerprintingInfo, sha: seq<bv8> -> seq<bv8>, start: Store, calls: seq<Call>, n: nat)
    requires NewProcess(start) && FirstStored(start) <= n <= |calls|
    ensures After(info, sha, start, calls, n).Some? && Entries(info, sha, start, calls, n, After(info, sha, start, calls, n).value)
  {
    hide Calculate, Join, Selected;
    if n > FirstStored(start) {
      AfterEntries(info, sha, start, calls, n - 1);
      var m, m' := After(info, sha, start, calls, n - 1).value, After(info, sha, start, calls, n).value;
      forall key | key in m'
        ensures exists k :: EntryOf(info, sha, start, calls, n, m', key, k)
      {
        if key in m {
          var k :| EntryOf(info, sha, start, calls, n - 1, m, key, k);
          assert EntryOf(info, sha, start, calls, n, m', key, k);
        } else {
          assert EntryOf(info, sha, start, calls, n, m', key, n - 1);
        }
      }
    }
  }

  lemma ServeKeeps(info: FingerprintingInfo, sha: seq<bv8> -> seq<bv8>, m: map<string, seq<bv8>>, parameters: seq<string>)
    ensures var (store, r) := Serve(info, sha, Some(m), parameters);
      && store.Some? && Join(parameters) in store.value && store.value[Join(parameters)] == r
      && forall key :: key in m ==> key in store.value && store.value[key] == m[key]
  {
    hide Calculate, Join;
  }

  // An entry, once made, stays: every later call with its key gets it.
  lemma {:induction false} EntryStays(info: FingerprintingInfo, sha: seq<bv8> -> seq<bv8>, start: Store, calls: seq<Call>, i: nat, n: nat)
    requires NewProcess(start) && FirstStored(start) <= i < n <= |calls|
    ensures var s, key := After(info, sha, start, calls, n), Join(Selected(calls[i]));
      s.Some? && key in s.value && s.value[key] == Answer(info, sha, start, calls, i)
    decreases n
  {
    hide Calculate, Join, Selected, Serve;
    AfterEntries(info, sha, start, calls, n - 1);
    ServeKeeps(info, sha, After(info, sha, start, calls, n - 1).value, Selected(calls[n - 1]));
    if i < n - 1 {
      EntryStays(info, sha, start, calls, i, n - 1);
    }
  }

  // Every answer of the run is what a computation would give.
  ghost predicate AllRight(info: FingerprintingInfo, sha: seq<bv8> -> seq<bv8>, start: Store, calls: seq<Call>) {
    forall n :: 0 <= n < |calls| ==> Answer(info, sha, start, calls, n) == Calculate(info, sha, Selected(calls[n]))
  }

  // Calls i and j use one entry.
  predicate Shared(start: Store, calls: seq<Call>, i: nat, j: nat) {
    FirstStored(start) <= i < j < |calls| && Join(Selected(calls[i])) == Join(Selected(calls[j]))
  }

  lemma RightAgree(info: FingerprintingInfo, sha: seq<bv8> -> seq<bv8>, start: Store, calls: seq<Call>, i: nat, j: nat)
    requires NewProcess(start) && AllRight(info, sha, start, calls) && Shared(start, calls, i, j)
    ensures Calculate(info, sha, Selected(calls[i])) == Calculate(info, sha, Selected(calls[j]))
  {
    hide Calculate, Join, Selected;
    EntryStays(info, sha, start, calls, i, j);
    assert Answer(info, sha, start, calls, j) == Answer(info, sha, start, calls, i);
  }

  lemma AgreeRight(info: FingerprintingInfo, sha: seq<bv8> -> seq<bv8>, start: Store, calls: seq<Call>)
    requires NewProcess(start)
    requires forall i: nat, j: nat :: Shared(start, calls, i, j) ==> Calculate(info, sha, Selected(calls[i])) == Calculate(info, sha, Selected(calls[j]))
    ensures AllRight(info, sha, start, calls)
  {
    hide Calculate, Join, Selected;
    forall n | 0 <= n < |calls|
      ensures Answer(info, sha, start, calls, n) == Calculate(info, sha, Selected(calls[n]))
    {
      if n >= FirstStored(start) {
        AfterEntries(info, sha, start, calls, n);
        var m, key := After(info, sha, start, calls, n).value, Join(Selected(calls[n]));
        if key in m {
          var k :| EntryOf(info, sha, start, calls, n, m, key, k);
          assert Shared(start, calls, k, n);
        }
      }
    }
  }

  // ----- What the names alone decide -----

  // The known names of a list, in order.
  function Recognised(names: seq<string>): seq<string> {
    if names == [] then []
    else
      var last := names[|names| - 1];
      Recognised(names[..|names| - 1]) + if last in AllParameters() then [last] else []
  }

  lemma {:induction false} FieldKnown(info: FingerprintingInfo, name: string)
    ensures Field(info, name).Some? <==> name in AllParameters()
  {
  }

  // The material depends on the known names only.
  lemma {:induction false} MaterialRecognised(info: FingerprintingInfo, a: seq<string>, b: seq<string>)
    requires Recognised(a) == Recognised(b)
    ensures Material(info, a) == Material(info, b)
  {
    hide Field, AllParameters;
    MaterialOf(info, a);
    MaterialOf(info, b);
  }

  function Values(info: FingerprintingInfo, names: seq<string>): seq<bv8> {
    if names == [] then []
    else
      var v := Field(info, names[|names| - 1]);
      Values(info, names[..|names| - 1]) + if v.Some? then v.value else []
  }

  lemma {:induction false} MaterialOf(info: FingerprintingInfo, names: seq<string>)
    ensures Material(info, names) == Values(info, Recognised(names))
  {
    hide Field, AllParameters;
    if names != [] {
      var front, last := names[..|names| - 1], names[|names| - 1];
      MaterialOf(info, front);
      FieldKnown(info, last);
      if last in AllParameters() {
        assert (Recognised(front) + [last])[..|Recognised(front)|] == Recognised(front);
      } else {
        assert Recognised(front) + [] == Recognised(front);
      }
    }
  }

  // System information in which every parameter is one distinct, nonzero byte.
  function Marks(): FingerprintingInfo {
    FingerprintingInfo([1], [2], [3], [4], [5], [6], [7], [8], [9], [10], [11])
  }

  lemma {:induction false} MarksDistinct(a: string, b: string)
    requires a in AllParameters() && b in AllParameters()
    ensures Field(Marks(), a).Some? && |Field(Marks(), a).value| == 1 && Field(Marks(), a).value[0] != 0
    ensures Field(Marks(), a) == Field(Marks(), b) ==> a == b
  {
  }

  // Marks read back: one byte for each known name, none of them zero.
  lemma {:induction false} MarkedValues(names: seq<string>)
    requires Known(names)
    ensures |Values(Marks(), names)| == |names|
    ensures forall k :: 0 <= k < |names| ==>
      Field(Marks(), names[k]) == Some([Values(Marks(), names)[k]]) && Values(Marks(), names)[k] != 0
  {
    hide Field, AllParameters, Marks;
    if names != [] {
      var front, last := names[..|names| - 1], names[|names| - 1];
      assert Known(front);
      MarkedValues(front);
      MarksDistinct(last, last);
      var v := Field(Marks(), last).value;
      assert v == [v[0]];
    }
  }

  lemma {:induction false} RecognisedKnown(names: seq<string>)
    ensures Known(Recognised(names))
  {
    hide AllParameters;
    if names != [] {
      RecognisedKnown(names[..|names| - 1]);
    }
  }

  lemma MarksTell(a: seq<string>, b: seq<string>)
    requires Known(a) && Known(b) && Values(Marks(), a) == Values(Marks(), b)
    ensures a == b
  {
    hide Field, AllParameters, Marks, Values;
    MarkedValues(a);
    MarkedValues(b);
    forall k | 0 <= k < |a|
      ensures a[k] == b[k]
    {
      MarksDistinct(a[k], b[k]);
    }
  }

  // The padded blocks of a tail without zero bytes show its length.
  lemma BlocksShow(t: seq<bv8>)
    requires 0 < |t| <= 32 && 0 !in t
    ensures Blocks(t).1[0] == 0 <==> |t| <= 16
    ensures var n := if |t| <= 16 then |t| else |t| - 16; forall k :: 0 <= k < 16 ==> (Blocks(t).0[k] == 0 <==> k >= n)
  {
    var n := if |t| <= 16 then |t| else |t| - 16;
    forall k | 0 <= k < 16
      ensures Blocks(t).0[k] == 0 <==> k >= n
    {
      assert k < n ==> Blocks(t).0[k] == t[k] && t[k] in t;
    }
    assert |t| > 16 ==> Blocks(t).1[0] == t[|t| - 16] && t[|t| - 16] in t;
  }

  lemma TailTells(s: seq<bv8>, t: seq<bv8>)
    requires 0 < |s| <= 32 && 0 < |t| <= 32 && 0 !in s && 0 !in t && Blocks(s) == Blocks(t)
    ensures s == t
  {
    BlocksShow(s);
    BlocksShow(t);
    var m := if |s| <= 16 then |s| else |s| - 16;
    var n := if |t| <= 16 then |t| else |t| - 16;
    SameThreshold(Blocks(s).0, m, n);
    BlocksInjective(s, t);
  }

  lemma SameThreshold(b: Block, m: nat, n: nat)
    requires m <= 16 && n <= 16
    requires forall k :: 0 <= k < 16 ==> (b[k] == 0 <==> k >= m)
    requires forall k :: 0 <= k < 16 ==> (b[k] == 0 <==> k >= n)
    ensures m == n
  {
    assert m < 16 ==> b[m] == 0;
    assert n < 16 ==> b[n] == 0;
  }

  // With the digest left out, strings without zero bytes differ in their fingerprints.
  lemma PlainHashTells(s: seq<bv8>, t: seq<bv8>)
    requires 0 !in s && 0 !in t && Hash(x => x, s) == Hash(x => x, t)
    ensures s == t
  {
    hide Cipher, Blocks;
    if s != [] && t != [] {
      var (a, b) := Blocks(Last(s, 32));
      var (c, d) := Blocks(Last(t, 32));
      PlainHash(s);
      PlainHash(t);
      hide Hash, Digested, Last;
      ConcatInjective(Digested(s), Cipher(a, BaseKey) + Cipher(b, BaseKey), Digested(t), Cipher(c, BaseKey) + Cipher(d, BaseKey));
      SameCiphers(a, b, c, d);
      TailTells(Last(s, 32), Last(t, 32));
    }
  }

  lemma PlainHash(s: seq<bv8>)
    requires s != []
    ensures var (a, b) := Blocks(Last(s, 32));
      Hash(x => x, s) == Digested(s) + (Cipher(a, BaseKey) + Cipher(b, BaseKey)) && |Hash(x => x, s)| == |Digested(s)| + 32
    ensures s == Digested(s) + Last(s, 32) && 0 < |Last(s, 32)| <= 32
    ensures 0 !in s ==> 0 !in Last(s, 32)
  {
    hide Cipher, Blocks;
  }

  lemma SameCiphers(a: Block, b: Block, c: Block, d: Block)
    requires Cipher(a, BaseKey) + Cipher(b, BaseKey) == Cipher(c, BaseKey) + Cipher(d, BaseKey)
    ensures a == c && b == d
  {
    hide Cipher, InvCipher;
    ConcatInjective(Cipher(a, BaseKey), Cipher(b, BaseKey), Cipher(c, BaseKey), Cipher(d, BaseKey));
    CipherBijective(a, BaseKey);
    CipherBijective(b, BaseKey);
    CipherBijective(c, BaseKey);
    CipherBijective(d, BaseKey);
  }

  // Calls that share an entry ask for the same known parameters in the same order.
  ghost predicate NamesAgree(start: Store, calls: seq<Call>) {
    forall i: nat, j: nat :: Shared(start, calls, i, j) ==> Recognised(Selected(calls[i])) == Recognised(Selected(calls[j]))
  }

  lemma RightNames(start: Store, calls: seq<Call>, i: nat, j: nat)
    requires NewProcess(start) && Shared(start, calls, i, j) && AllRight(Marks(), x => x, start, calls)
    ensures Recognised(Selected(calls[i])) == Recognised(Selected(calls[j]))
  {
    hide Hash, Material, Selected, Marks, Join, AllRight, Recognised, Known, Values;
    var a, b := Selected(calls[i]), Selected(calls[j]);
    RightAgree(Marks(), x => x, start, calls, i, j);
    MaterialOf(Marks(), a);
    MaterialOf(Marks(), b);
    RecognisedKnown(a);
    RecognisedKnown(b);
    NoZero(Recognised(a));
    NoZero(Recognised(b));
    PlainHashTells(Material(Marks(), a), Material(Marks(), b));
    MarksTell(Recognised(a), Recognised(b));
  }

  lemma NoZero(names: seq<string>)
    requires Known(names)
    ensures 0 !in Values(Marks(), names)
  {
    MarkedValues(names);
    hide *;
  }

  /**
   Exactly the runs whose every answer is right, whatever the system and the digest: those
   in which calls that share a concatenated name, the first call of a process that has no
   cache yet left out, ask for the same known parameters in the same order.
   */
  lemma ServedCorrectly(start: Store, calls: seq<Call>)
    requires NewProcess(start)
    ensures (forall info, sha :: AllRight(info, sha, start, calls)) <==> NamesAgree(start, calls)
  {
    hide Hash, Material, Selected, Marks, Join, AllRight, Recognised, NewProcess;
    if NamesAgree(start, calls) {
      forall info, sha
        ensures AllRight(info, sha, start, calls)
      {
        forall i: nat, j: nat | Shared(start, calls, i, j)
          ensures Calculate(info, sha, Selected(calls[i])) == Calculate(info, sha, Selected(calls[j]))
        {
          MaterialRecognised(info, Selected(calls[i]), Selected(calls[j]));
        }
        AgreeRight(info, sha, start, calls);
      }
    }
    if forall info, sha :: AllRight(info, sha, start, calls) {
      forall i: nat, j: nat | Shared(start, calls, i, j)
        ensures Recognised(Selected(calls[i])) == Recognised(Selected(calls[j]))
      {
        assert AllRight(Marks(), x => x, start, calls);
        RightNames(start, calls, i, j);
      }
    }
  }

  predicate KnownOnly(c: Call) {
    c.only.Some? ==> Known(c.only.value)
  }

  lemma SelectedKnown(c: Call)
    requires KnownOnly(c)
    ensures Known(Selected(c))
  {
    hide AllParameters;
  }

  /** Whatever the calls, as long as they name known parameters, the cache answers what a computation would. */
  lemma CacheAgreement(info: FingerprintingInfo, sha: seq<bv8> -> seq<bv8>, start: Store, calls: seq<Call>)
    requires NewProcess(start)
    requires forall n :: 0 <= n < |calls| ==> KnownOnly(calls[n])
    ensures AllRight(info, sha, start, calls)
  {
    hide Calculate, Selected, AllParameters, Join, AllRight, Recognised;
    forall i: nat, j: nat | Shared(start, calls, i, j)
      ensures Recognised(Selected(calls[i])) == Recognised(Selected(calls[j]))
    {
      SelectedKnown(calls[i]);
      SelectedKnown(calls[j]);
      JoinInjective(Selected(calls[i]), Selected(calls[j]));
    }
    ServedCorrectly(start, calls);
  }

  /** Unknown names break it: "eo" and "l" leave an entry under the key of "eol". */
  lemma UnknownNamesCollide(info: FingerprintingInfo, sha: seq<bv8> -> seq<bv8>)
    requires info.eol != [] && |info.eol| <= 32
    ensures var calls := [Call(None, None), Call(Some(["eo", "l"]), None), Call(Some(["eol"]), None)];
      Answer(info, sha, None, calls, 2) != Calculate(info, sha, ["eol"])
  {
    var calls := [Call(None, None), Call(Some(["eo", "l"]), None), Call(Some(["eol"]), None)];
    assert Selected(calls[1]) == ["eo", "l"] && Selected(calls[2]) == ["eol"];
    JoinedNames();
    NamesDiffer(info, sha);
    hide Serve, After, Join, Calculate, Selected;
    AnswersFirst(info, sha, calls);
  }

  lemma JoinedNames()
    ensures Join(["eo", "l"]) == "eol" == Join(["eol"])
  {
    assert ["eo", "l"][1..] == ["l"] && ["l"][1..] == [] && ["eol"][1..] == [];
  }

  // The second call of a process computes and stores, a third with its key is served from that.
  lemma AnswersFirst(info: FingerprintingInfo, sha: seq<bv8> -> seq<bv8>, calls: seq<Call>)
    requires |calls| == 3 && Join(Selected(calls[1])) == Join(Selected(calls[2]))
    ensures Answer(info, sha, None, calls, 2) == Calculate(info, sha, Selected(calls[1]))
  {
    hide Calculate, Join, Selected;
    assert After(info, sha, None, calls, 1) == Some(map[]);
    ServeKeeps(info, sha, map[], Selected(calls[1]));
    assert After(info, sha, None, calls, 2) == Serve(info, sha, Some(map[]), Selected(calls[1])).0;
  }

  lemma NamesDiffer(info: FingerprintingInfo, sha: seq<bv8> -> seq<bv8>)
    requires info.eol != [] && |info.eol| <= 32
    ensures Calculate(info, sha, ["eo", "l"]) != Calculate(info, sha, ["eol"])
  {
    var a := ["eo", "l"];
    assert a[..1] == ["eo"] && a[..1][..0] == [];
    assert Field(info, "eo") == None && Field(info, "l") == None;
    assert Material(info, a[..1]) == [];
    assert Material(info, a) == [];
    assert Material(info, ["eol"]) == info.eol;
    hide Field, Material, Cipher, Blocks;
    assert Digested([]) == Digested(info.eol) == [];
  }
}
