/**
 The key handshake (crates/rd-engine/src/handshake.rs), with symbolic cryptography:
 a signature opens only with the public key of its signer, a box only for the key
 pair it was sealed to. A secret key is represented by its public key.
 */
module Handshake {
  import opened Wrappers

  const KEY_BYTES := 32

  datatype IdPk = IdPk(id: string, pk: Bytes)

  // A signed blob; its content need not be a serialized identity.
  datatype Blob = Signed(signer: Bytes, content: Option<IdPk>) | Unsigned

  // A box holding a session key, sealed by `sender` for `receiver`.
  datatype Box = Sealed(key: Bytes, sender: Bytes, receiver: Bytes) | Junk

  datatype Record =
    | Empty
    | SignedId(blob: Blob)
    | PublicKey(asymmetric: Bytes, symmetric: Box)
    | Hash(challenge: Bytes)
    | Other(tag: nat)
    | Malformed

  datatype ViewerIdentity =
    | LegacyUnverified
    | PinnedHost(expectedId: string, peerKey: Bytes)
    | Rendezvous(expectedId: string, signedIdPk: Blob, serverKey: Bytes)

  datatype HostIdentity = LegacyHost | SignedHost(id: string, signingKey: Bytes)

  datatype Security = Encrypted(peerId: Option<string>) | LegacyPlain(keyRefresh: bool)

  datatype Error =
    | AlreadyKeyed | Closed | InvalidMessage | WriteFailed | InvalidPinned | PinnedMismatch | PinnedUnverified
    | PinnedMissing | InvalidKeyExchange | UnexpectedMessage | SignatureMismatch
    | InvalidSignedIdentity | InvalidKeyLength | TimedOut

  datatype Established = Established(security: Security, prefetched: Option<Record>)

  // What one end leaves behind: its result, the records it sent, how many it
  // consumed, and the key installed on the wire.
  datatype End = End(result: Result<Established, Error>, sent: seq<Record>, consumed: nat, key: Option<Bytes>)

  // What the connection does to the one write and the one read of a run: the overall
  // deadline may pass while either is waited for.
  datatype Write = Completes | Fails | Late

  datatype Io = Io(write: Write, readInTime: bool)

  const IN_TIME := Io(Completes, true)

  function WriteError(write: Write): Error {
    if write.Late? then TimedOut else WriteFailed
  }

  // The random material of one run.
  datatype Random = Random(public: Bytes, key: Bytes)

  predicate Proper(f: Random) {
    |f.public| == KEY_BYTES && |f.key| == KEY_BYTES
  }

  function OpenIdPk(blob: Blob, key: Bytes): Result<IdPk, Error> {
    if blob.Unsigned? || blob.signer != key then Err(SignatureMismatch)
    else if blob.content.None? then Err(InvalidSignedIdentity)
    else if |blob.content.value.pk| != KEY_BYTES then Err(InvalidKeyLength)
    else Ok(blob.content.value)
  }

  // The stable identity and signing key the viewer trusts before it reads anything.
  function Evidence(identity: ViewerIdentity): Option<(string, Bytes)> {
    match identity
    case LegacyUnverified => None
    case PinnedHost(id, key) => Some((id, key))
    case Rendezvous(id, signed, serverKey) =>
      var v := OpenIdPk(signed, serverKey);
      if v.Ok? && v.value.id == id then Some((id, v.value.pk)) else None
  }

  function Refused(identity: ViewerIdentity): bool {
    identity.PinnedHost? && (identity.expectedId == "" || |identity.expectedId| > 512)
  }

  // The viewer's answer to the first record of the host.
  datatype Answer = Reject(error: Error) | Agree(id: string, pk: Bytes) | Fallback(reply: Record, keyRefresh: bool)

  function Judge(strict: bool, id: string, key: Bytes, first: Record): Answer {
    if first.SignedId? then
      var v := OpenIdPk(first.blob, key);
      if v.Ok? && v.value.id == id then Agree(id, v.value.pk)
      else if strict then Reject(if v.Ok? then PinnedMismatch else PinnedUnverified)
      else if v.Ok? then Fallback(Empty, false)
      else Fallback(PublicKey([], Junk), true)
    else if strict then Reject(PinnedMissing)
    else Fallback(Empty, false)
  }

  // `incoming` is the rest of the stream from the host.
  function Viewer(identity: ViewerIdentity, incoming: seq<Record>, rnd: Random, io: Io): End {
    if Refused(identity) then End(Err(InvalidPinned), [], 0, None) else
    var evidence := Evidence(identity);
    if evidence.None? then
      End(if io.write.Completes? then Ok(Established(LegacyPlain(false), None)) else Err(WriteError(io.write)), [Empty], 0, None)
    else if !io.readInTime then End(Err(TimedOut), [], 0, None)
    else if incoming == [] then End(Err(Closed), [], 0, None)
    else if incoming[0].Malformed? then End(Err(InvalidMessage), [], 1, None)
    else
      match Judge(identity.PinnedHost?, evidence.value.0, evidence.value.1, incoming[0])
      case Reject(error) => End(Err(error), [], 1, None)
      case Agree(id, pk) =>
        var reply := PublicKey(rnd.public, Sealed(rnd.key, rnd.public, pk));
        if io.write.Completes? then End(Ok(Established(Encrypted(Some(id)), None)), [reply], 1, Some(rnd.key))
        else End(Err(WriteError(io.write)), [reply], 1, None)
      case Fallback(reply, refresh) =>
        var prefetched := if incoming[0].SignedId? then None else Some(incoming[0]);
        End(if io.write.Completes? then Ok(Established(LegacyPlain(refresh), prefetched)) else Err(WriteError(io.write)), [reply], 1, None)
  }

  function OpenBox(asymmetric: Bytes, symmetric: Box, secret: Bytes): Option<Bytes> {
    if |asymmetric| == KEY_BYTES && symmetric.Sealed? && symmetric.sender == asymmetric && symmetric.receiver == secret
       && |symmetric.key| == KEY_BYTES
    then Some(symmetric.key) else None
  }

  function HostHello(id: string, signingKey: Bytes, boxPublic: Bytes): Record {
    SignedId(Signed(signingKey, Some(IdPk(id, boxPublic))))
  }

  function Host(identity: HostIdentity, incoming: seq<Record>, boxPublic: Bytes, io: Io): End {
    if identity.LegacyHost? then End(Ok(Established(LegacyPlain(false), None)), [], 0, None) else
    var hello := HostHello(identity.id, identity.signingKey, boxPublic);
    if !io.write.Completes? then End(Err(WriteError(io.write)), [hello], 0, None)
    else if !io.readInTime then End(Err(TimedOut), [hello], 0, None)
    else if incoming == [] then End(Err(Closed), [hello], 0, None)
    else match incoming[0]
      case Malformed => End(Err(InvalidMessage), [hello], 1, None)
      case PublicKey(asymmetric, symmetric) =>
        if asymmetric == [] then End(Ok(Established(LegacyPlain(true), None)), [hello], 1, None) else
        var key := OpenBox(asymmetric, symmetric, boxPublic);
        if key.None? then End(Err(InvalidKeyExchange), [hello], 1, None)
        else End(Ok(Established(Encrypted(None), None)), [hello], 1, key)
      case Empty => End(Ok(Established(LegacyPlain(false), None)), [hello], 1, None)
      case _ => End(Err(UnexpectedMessage), [hello], 1, None)
  }

  // ----- One end against an arbitrary peer -----

  function SealedReply(rnd: Random, pk: Bytes): seq<Record> {
    [PublicKey(rnd.public, Sealed(rnd.key, rnd.public, pk))]
  }

  /** A pinned viewer never ends plain, and only ends with the pinned key's own signature over the pinned id. */
  lemma PinnedNeverPlain(id: string, key: Bytes, incoming: seq<Record>, rnd: Random, io: Io)
    ensures var end := Viewer(PinnedHost(id, key), incoming, rnd, io);
      && (end.result.Ok? ==>
            && end.result.value == Established(Encrypted(Some(id)), None) && end.key == Some(rnd.key)
            && incoming != []
            && (exists pk :: incoming[0] == SignedId(Signed(key, Some(IdPk(id, pk)))) && end.sent == SealedReply(rnd, pk)))
      && (end.key.None? ==> forall r :: r in end.sent ==> r.PublicKey?)
  {
    var end := Viewer(PinnedHost(id, key), incoming, rnd, io);
    if end.result.Ok? {
      assert incoming[0] == SignedId(Signed(key, Some(IdPk(id, incoming[0].blob.content.value.pk))));
    }
  }

  /** A host installs a key only if the peer sealed exactly that key to this run's box key. */
  lemma HostKeyIsSealed(identity: HostIdentity, incoming: seq<Record>, boxPublic: Bytes, io: Io)
    ensures var end := Host(identity, incoming, boxPublic, io);
      && (end.key.Some? <==> end.result.Ok? && end.result.value.security.Encrypted?)
      && (end.key.Some? ==> identity.SignedHost? && incoming != [] && incoming[0].PublicKey?)
      && (end.key.Some? ==> incoming[0].symmetric == Sealed(end.key.value, incoming[0].asymmetric, boxPublic))
      && (end.result.Ok? ==> end.result.value.prefetched.None?)
  {
    var end := Host(identity, incoming, boxPublic, io);
    if identity.SignedHost? && io == IN_TIME && incoming != [] && incoming[0].PublicKey? {
      assert end.key.Some? ==> OpenBox(incoming[0].asymmetric, incoming[0].symmetric, boxPublic) == end.key;
    }
  }

  // A blob signed by `signer` for exactly this id and a key of the right length.
  predicate Certifies(blob: Blob, signer: Bytes, id: string, pk: Bytes) {
    blob == Signed(signer, Some(IdPk(id, pk))) && |pk| == KEY_BYTES
  }

  /** A pinned viewer succeeds exactly, in time, against the pinned key's own certificate of the pinned id. */
  lemma PinnedExact(id: string, key: Bytes, incoming: seq<Record>, rnd: Random, io: Io)
    ensures var end := Viewer(PinnedHost(id, key), incoming, rnd, io);
      end.result.Ok? <==>
        && id != "" && |id| <= 512 && io == IN_TIME && incoming != [] && incoming[0].SignedId?
        && exists boxPk :: Certifies(incoming[0].blob, key, id, boxPk)
  {
    var end := Viewer(PinnedHost(id, key), incoming, rnd, io);
    if end.result.Ok? {
      assert Certifies(incoming[0].blob, key, id, incoming[0].blob.content.value.pk);
    }
  }

  /**
   A rendezvous viewer ends encrypted exactly if the server certified a signing key for the id it
   expects, and that key certified a box key for the same id: then the session key is sealed to that.
   */
  lemma RendezvousEncrypted(id: string, signed: Blob, server: Bytes, incoming: seq<Record>, rnd: Random, io: Io)
    ensures var end := Viewer(Rendezvous(id, signed, server), incoming, rnd, io);
      && (end.key.Some? <==> end.result.Ok? && end.result.value.security.Encrypted?)
      && (end.key.Some? <==>
            && io == IN_TIME && incoming != [] && incoming[0].SignedId?
            && exists pk, boxPk :: Certifies(signed, server, id, pk) && Certifies(incoming[0].blob, pk, id, boxPk))
      && (end.key.Some? ==>
            && end.key == Some(rnd.key) && end.result.value == Established(Encrypted(Some(id)), None)
            && exists pk, boxPk :: Certifies(signed, server, id, pk) && Certifies(incoming[0].blob, pk, id, boxPk) && end.sent == SealedReply(rnd, boxPk))
  {
    var end := Viewer(Rendezvous(id, signed, server), incoming, rnd, io);
    if end.key.Some? {
      var pk, boxPk := signed.content.value.pk, incoming[0].blob.content.value.pk;
      assert Certifies(signed, server, id, pk) && Certifies(incoming[0].blob, pk, id, boxPk);
    }
  }

  /**
   The same viewer otherwise falls back to plain text: without a certificate of the expected id it
   reads nothing; an unreadable hello asks for a key refresh; a foreign one, or another record, does
   not, and the other record is handed on.
   */
  lemma RendezvousFallback(id: string, signed: Blob, server: Bytes, incoming: seq<Record>, rnd: Random)
    ensures var end := Viewer(Rendezvous(id, signed, server), incoming, rnd, IN_TIME);
      && ((forall pk :: !Certifies(signed, server, id, pk)) ==>
            end == End(Ok(Established(LegacyPlain(false), None)), [Empty], 0, None))
      && (forall pk :: Certifies(signed, server, id, pk) && incoming != [] ==>
            && (incoming[0].SignedId? && (forall other, boxPk :: !Certifies(incoming[0].blob, pk, other, boxPk)) ==>
                  end == End(Ok(Established(LegacyPlain(true), None)), [PublicKey([], Junk)], 1, None))
            && (forall other, boxPk :: incoming[0].SignedId? && Certifies(incoming[0].blob, pk, other, boxPk) && other != id ==>
                  end == End(Ok(Established(LegacyPlain(false), None)), [Empty], 1, None))
            && (!incoming[0].SignedId? && !incoming[0].Malformed? ==>
                  end == End(Ok(Established(LegacyPlain(false), Some(incoming[0]))), [Empty], 1, None)))
  {
    if forall pk :: !Certifies(signed, server, id, pk) {
      assert signed.Signed? && signed.content.Some? ==> !Certifies(signed, server, id, signed.content.value.pk);
    }
    forall pk | Certifies(signed, server, id, pk) && incoming != [] && incoming[0].SignedId?
      && forall other, boxPk :: !Certifies(incoming[0].blob, pk, other, boxPk)
      ensures OpenIdPk(incoming[0].blob, pk).Err?
    {
      var blob := incoming[0].blob;
      assert blob.Signed? && blob.content.Some? ==> !Certifies(blob, pk, blob.content.value.id, blob.content.value.pk);
    }
  }

  /** Why a pinned viewer fails; nothing but the sealed key is ever sent. */
  lemma PinnedErrors(id: string, key: Bytes, incoming: seq<Record>, rnd: Random, io: Io)
    ensures var end := Viewer(PinnedHost(id, key), incoming, rnd, io);
      if id == "" || |id| > 512 then end.result == Err(InvalidPinned)
      else if !io.readInTime then end.result == Err(TimedOut)
      else if incoming == [] then end.result == Err(Closed)
      else if incoming[0].Malformed? then end.result == Err(InvalidMessage)
      else if !incoming[0].SignedId? then end.result == Err(PinnedMissing)
      else
        && ((forall other, pk :: !Certifies(incoming[0].blob, key, other, pk)) ==> end.result == Err(PinnedUnverified))
        && (forall other, pk :: Certifies(incoming[0].blob, key, other, pk) && other != id ==> end.result == Err(PinnedMismatch))
        && (forall pk :: Certifies(incoming[0].blob, key, id, pk) ==>
              end.sent == SealedReply(rnd, pk) && (io.write.Fails? ==> end.result == Err(WriteFailed)) && (io.write.Late? ==> end.result == Err(TimedOut)))
  {
    if incoming != [] && incoming[0].SignedId? {
      var blob := incoming[0].blob;
      assert blob.Signed? && blob.content.Some? && |blob.content.value.pk| == KEY_BYTES && blob.signer == key ==>
        Certifies(blob, key, blob.content.value.id, blob.content.value.pk);
    }
  }

  /** Why a viewer that verifies its host through a server fails: never for what the host sent, short of garbage. */
  lemma RendezvousErrors(id: string, signed: Blob, server: Bytes, incoming: seq<Record>, rnd: Random, io: Io)
    ensures var end := Viewer(Rendezvous(id, signed, server), incoming, rnd, io);
      && (end.result.Err? ==> end.result.error in {TimedOut, Closed, InvalidMessage, WriteFailed})
      && (forall pk :: Certifies(signed, server, id, pk) ==>
            && (!io.readInTime ==> end.result == Err(TimedOut) && end.sent == [])
            && (io.readInTime && incoming == [] ==> end.result == Err(Closed) && end.sent == [])
            && (io.readInTime && incoming != [] && incoming[0].Malformed? ==> end.result == Err(InvalidMessage) && end.sent == [])
            && (io.readInTime && incoming != [] && !incoming[0].Malformed? ==>
                  |end.sent| == 1 && (io.write.Fails? ==> end.result == Err(WriteFailed)) && (io.write.Late? ==> end.result == Err(TimedOut))))
  {
  }

  /** Why a host that signs fails. */
  lemma HostErrors(id: string, signingKey: Bytes, incoming: seq<Record>, boxPublic: Bytes, io: Io)
    ensures var end := Host(SignedHost(id, signingKey), incoming, boxPublic, io);
      && (io.write.Fails? ==> end.result == Err(WriteFailed) && end.consumed == 0)
      && (io.write.Late? ==> end.result == Err(TimedOut) && end.consumed == 0)
      && (io.write.Completes? && !io.readInTime ==> end.result == Err(TimedOut))
      && (io == IN_TIME && incoming == [] ==> end.result == Err(Closed))
      && (io == IN_TIME && incoming != [] && incoming[0].Malformed? ==> end.result == Err(InvalidMessage))
      && (io == IN_TIME && incoming != [] && (incoming[0].SignedId? || incoming[0].Hash? || incoming[0].Other?) ==>
            end.result == Err(UnexpectedMessage))
      && (io == IN_TIME && incoming != [] && incoming[0].PublicKey? && incoming[0].asymmetric != [] && end.key.None? ==>
            end.result == Err(InvalidKeyExchange))
    ensures Host(LegacyHost, incoming, boxPublic, io) == End(Ok(Established(LegacyPlain(false), None)), [], 0, None)
  {
  }

  /** A viewer that does not verify its host reads nothing and ends plain, or not at all. */
  lemma UnverifiedPlain(incoming: seq<Record>, rnd: Random, io: Io)
    ensures var end := Viewer(LegacyUnverified, incoming, rnd, io);
      && end.sent == [Empty] && end.consumed == 0 && end.key.None?
      && (if io.write.Completes? then end.result == Ok(Established(LegacyPlain(false), None)) else end.result.Err?)
  {
  }

  /** What a host that signs makes of the one record it reads in time. */
  lemma HostAnswers(id: string, signingKey: Bytes, incoming: seq<Record>, boxPublic: Bytes)
    requires incoming != []
    ensures var end := Host(SignedHost(id, signingKey), incoming, boxPublic, IN_TIME);
      && end.sent == [SignedId(Signed(signingKey, Some(IdPk(id, boxPublic))))] && end.consumed == 1
      && (forall k :: end.key == Some(k) <==>
            (exists a :: incoming[0] == PublicKey(a, Sealed(k, a, boxPublic)) && |a| == KEY_BYTES && |k| == KEY_BYTES))
      && (end.result == Ok(Established(LegacyPlain(true), None)) <==> incoming[0].PublicKey? && incoming[0].asymmetric == [])
      && (end.result == Ok(Established(LegacyPlain(false), None)) <==> incoming[0] == Empty)
      && (end.result.Ok? <==> end.key.Some? || incoming[0] == Empty || (incoming[0].PublicKey? && incoming[0].asymmetric == []))
  {
    var end := Host(SignedHost(id, signingKey), incoming, boxPublic, IN_TIME);
    forall k | end.key == Some(k)
      ensures exists a :: incoming[0] == PublicKey(a, Sealed(k, a, boxPublic)) && |a| == KEY_BYTES && |k| == KEY_BYTES
    {
      assert incoming[0] == PublicKey(incoming[0].asymmetric, Sealed(k, incoming[0].asymmetric, boxPublic));
    }
  }

  // ----- Both ends on one connection -----

  datatype Meeting = Meeting(viewer: End, host: End, toViewer: seq<Record>)

  // The host's hello is on the wire before the viewer answers, and its challenge
  // follows as soon as its own handshake is over.
  function Meet(vi: ViewerIdentity, hi: HostIdentity, rnd: Random, boxPublic: Bytes, hash: Record, vio: Io, hio: Io): Meeting {
    var hello := if hi.SignedHost? then [HostHello(hi.id, hi.signingKey, boxPublic)] else [];
    var early := if hi.SignedHost? then hello else [hash];
    var viewer := Viewer(vi, early, rnd, vio);
    var host := Host(hi, viewer.sent, boxPublic, hio);
    Meeting(viewer, host, if hi.SignedHost? && host.result.Ok? then hello + [hash] else early)
  }

  // What the session layer of the viewer gets to read.
  function Delivered(m: Meeting): seq<Record>
    requires m.viewer.result.Ok? && m.viewer.consumed <= |m.toViewer|
  {
    (if m.viewer.result.value.prefetched.Some? then [m.viewer.result.value.prefetched.value] else []) +
    m.toViewer[m.viewer.consumed..]
  }

  /**
   If both ends succeed they agree on plain or encrypted, on the session key and on
   the key-refresh flag; they are encrypted exactly if the viewer's evidence names
   the host's id and signing key; and the viewer session reads the challenge exactly
   once, after at most the unread hello of a host it did not ask to prove itself.
   */
  lemma Agreement(vi: ViewerIdentity, hi: HostIdentity, rnd: Random, boxPublic: Bytes, hash: Record, vio: Io, hio: Io)
    requires Proper(rnd) && |boxPublic| == KEY_BYTES && hash.Hash?
    requires var m := Meet(vi, hi, rnd, boxPublic, hash, vio, hio); m.viewer.result.Ok? && m.host.result.Ok?
    ensures var m := Meet(vi, hi, rnd, boxPublic, hash, vio, hio);
      var v, h := m.viewer.result.value, m.host.result.value;
      && (v.security.Encrypted? <==> h.security.Encrypted?)
      && (v.security.LegacyPlain? ==> v.security == h.security)
      && m.viewer.key == m.host.key
      && (m.viewer.key.Some? <==> v.security.Encrypted?)
      && (v.security.Encrypted? <==> hi.SignedHost? && Evidence(vi) == Some((hi.id, hi.signingKey)))
      && (v.security.Encrypted? ==> v.security.peerId == Some(hi.id))
      && m.viewer.consumed <= |m.toViewer|
      && Delivered(m) == (if hi.SignedHost? && Evidence(vi).None? then [HostHello(hi.id, hi.signingKey, boxPublic)] else []) + [hash]
  {
    var m := Meet(vi, hi, rnd, boxPublic, hash, vio, hio);
    if hi.SignedHost? {
      var hello := HostHello(hi.id, hi.signingKey, boxPublic);
      assert ([hello] + [hash])[1..] == [hash];
      assert ([hello] + [hash])[0..] == [hello] + [hash];
    } else {
      assert [hash][1..] == [] && [hash][0..] == [hash];
    }
  }

  /** Without a failing write or a missed deadline, a pinned viewer and a host both succeed exactly if the host holds the pinned key and id. */
  lemma PinnedSucceeds(id: string, key: Bytes, hi: HostIdentity, rnd: Random, boxPublic: Bytes, hash: Record)
    requires Proper(rnd) && |boxPublic| == KEY_BYTES && hash.Hash?
    ensures var m := Meet(PinnedHost(id, key), hi, rnd, boxPublic, hash, IN_TIME, IN_TIME);
      m.viewer.result.Ok? && m.host.result.Ok? <==> id != "" && |id| <= 512 && hi == SignedHost(id, key)
  {
    var m := Meet(PinnedHost(id, key), hi, rnd, boxPublic, hash, IN_TIME, IN_TIME);
    if hi.SignedHost? && !Refused(PinnedHost(id, key)) {
      var hello := HostHello(hi.id, hi.signingKey, boxPublic);
      assert m.viewer == Viewer(PinnedHost(id, key), [hello], rnd, IN_TIME);
    }
  }

  // ----- The objects -----

  class FramedStream {
    var incoming: seq<Record>
    var consumed: nat
    var sent: seq<Record>
    var key: Option<Bytes>

    constructor (incoming: seq<Record>)
      ensures this.incoming == incoming && consumed == 0 && sent == [] && key == None
    {
      this.incoming, consumed, sent, key := incoming, 0, [], None;
    }

    method Send(r: Record, write: Write) returns (error: Option<Error>)
      modifies this`sent
      ensures sent == old(sent) + [r]
      ensures error == if write.Completes? then None else Some(WriteError(write))
    {
      sent := sent + [r];
      match write
      case Completes => error := None;
      case Fails => error := Some(WriteFailed);
      case Late => error := Some(TimedOut);
    }

    method Recv(inTime: bool) returns (r: Result<Record, Error>)
      requires consumed <= |incoming|
      modifies this`consumed
      ensures consumed == old(consumed) + if inTime && old(consumed) < |incoming| then 1 else 0
      ensures !inTime ==> r == Err(TimedOut)
      ensures inTime && old(consumed) == |incoming| ==> r == Err(Closed)
      ensures inTime && old(consumed) < |incoming| ==>
        r == if incoming[old(consumed)].Malformed? then Err(InvalidMessage) else Ok(incoming[old(consumed)])
    {
      if !inTime {
        return Err(TimedOut);
      }
      if consumed == |incoming| {
        return Err(Closed);
      }
      var next := incoming[consumed];
      consumed := consumed + 1;
      r := if next.Malformed? then Err(InvalidMessage) else Ok(next);
    }
  }

  method ViewerCall(wire: FramedStream, identity: ViewerIdentity, rnd: Random, io: Io)
    returns (result: Result<Established, Error>)
    requires wire.consumed == 0 && wire.sent == []
    modifies wire
    ensures wire.incoming == old(wire.incoming)
    ensures old(wire.key).Some? ==> result == Err(AlreadyKeyed) && wire.key == old(wire.key)
    ensures old(wire.key).None? ==>
      End(result, wire.sent, wire.consumed, wire.key) == Viewer(identity, wire.incoming, rnd, io)
  {
    if wire.key.Some? {
      return Err(AlreadyKeyed);
    }
    var strict := identity.PinnedHost?;
    var verified: Option<(string, Bytes)> := None;
    match identity {
      case LegacyUnverified =>
      case PinnedHost(expectedId, peerKey) =>
        if expectedId == "" || |expectedId| > 512 {
          return Err(InvalidPinned);
        }
        verified := Some((expectedId, peerKey));
      case Rendezvous(expectedId, signedIdPk, serverKey) =>
        var v := OpenIdPk(signedIdPk, serverKey);
        if v.Ok? && v.value.id == expectedId {
          verified := Some((expectedId, v.value.pk));
        }
    }
    if verified.None? {
      var failed := wire.Send(Empty, io.write);
      return if failed.None? then Ok(Established(LegacyPlain(false), None)) else Err(failed.value);
    }
    var (expectedId, signKey) := verified.value;
    var received := wire.Recv(io.readInTime);
    if received.Err? {
      return Err(received.error);
    }
    var message := received.value;
    var reply := Empty;
    var security := LegacyPlain(false);
    if message.SignedId? {
      var v := OpenIdPk(message.blob, signKey);
      if v.Ok? && v.value.id == expectedId {
        reply := PublicKey(rnd.public, Sealed(rnd.key, rnd.public, v.value.pk));
        var failed := wire.Send(reply, io.write);
        if failed.Some? {
          return Err(failed.value);
        }
        wire.key := Some(rnd.key);
        return Ok(Established(Encrypted(Some(expectedId)), None));
      }
      if strict {
        return Err(if v.Ok? then PinnedMismatch else PinnedUnverified);
      }
      if v.Err? {
        reply := PublicKey([], Junk);
        security := LegacyPlain(true);
      }
    }
    if strict {
      return Err(PinnedMissing);
    }
    var failed := wire.Send(reply, io.write);
    if failed.Some? {
      return Err(failed.value);
    }
    var prefetched := if message.SignedId? then None else Some(message);
    result := Ok(Established(security, prefetched));
  }

  method HostCall(wire: FramedStream, identity: HostIdentity, boxPublic: Bytes, io: Io)
    returns (result: Result<Established, Error>)
    requires wire.consumed == 0 && wire.sent == []
    modifies wire
    ensures wire.incoming == old(wire.incoming)
    ensures old(wire.key).Some? ==> result == Err(AlreadyKeyed) && wire.key == old(wire.key)
    ensures old(wire.key).None? ==>
      End(result, wire.sent, wire.consumed, wire.key) == Host(identity, wire.incoming, boxPublic, io)
  {
    if wire.key.Some? {
      return Err(AlreadyKeyed);
    }
    if identity.LegacyHost? {
      return Ok(Established(LegacyPlain(false), None));
    }
    var failed := wire.Send(HostHello(identity.id, identity.signingKey, boxPublic), io.write);
    if failed.Some? {
      return Err(failed.value);
    }
    var received := wire.Recv(io.readInTime);
    if received.Err? {
      return Err(received.error);
    }
    var reply := received.value;
    var security: Security;
    match reply {
      case PublicKey(asymmetric, symmetric) =>
        if asymmetric == [] {
          security := LegacyPlain(true);
        } else {
          var key := OpenBox(asymmetric, symmetric, boxPublic);
          if key.None? {
            return Err(InvalidKeyExchange);
          }
          wire.key := key;
          security := Encrypted(None);
        }
      case Empty =>
        security := LegacyPlain(false);
      case _ =>
        return Err(UnexpectedMessage);
    }
    result := Ok(Established(security, None));
  }
}
