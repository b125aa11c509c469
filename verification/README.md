# Connection and transfer protocols of the remote-desktop engine

A Dafny model of the protocols by which a viewer logs in to a host, receives its picture and
exchanges files with it, with proofs of what those protocols keep. `dafny verify dfyconfig.toml`
checks all of it.

The parts, from the wire up:

- **Framing and cancellation** (`BytesCodec`, `Transport`). A length-prefixed codec decoded
  incrementally refines a one-shot parser. A send that is cancelled, late or fails ends the
  stream, so the peer reads a prefix of what was submitted and no nonce is used twice.
- **Key handshake** (`Handshake`). Three viewer and two host identity modes over symbolic
  signatures and boxes: both ends agree, and a pinned viewer never ends in plain text.
- **Login** (`Authentication`, `Session`, `TwoParty`). The authentication object, the two
  session objects, and the two of them joined by FIFO channels with a local approver, failing
  writes, deadlines and a closed connection that loses its tail, in every interleaving.
- **Local approval** (`Host`). Request epochs shared by all hosts of a process.
- **File transfer** (`TransferJob`, `FileTransfer`, `TransferProgress`, `TransferResume`). One job
  object in its two roles, a sender and a receiver joined by two channels in every interleaving,
  and a transfer taken up again after it was stopped anywhere.
- **Video** (`VideoAdmission`, `Reclamation`). Permits shared by the receiving and the feeding
  task, and who owns the native decoders when a session ends.
- **Fingerprints** (`Galois`, `Aes`, `Fingerprint`, `AesExample`, `FingerprintCache`). AES-128 as FIPS 197
  defines it, the in-place code against it, and the cache keyed by concatenated names.
- **Exact arithmetic** (`AddrMangle`, `Input`). Mangled addresses and pointer normalization.

An object whose methods update its fields is a class here too; each method is proved equal to a
function of the old state, and the theorems over runs are about those functions. Providers, clocks,
random bytes, failing writes and time-outs are arguments, so a statement over all arguments is a
statement over all environments. Runs have no bound on their length.

Where the code does not do what one would expect of it, the exact condition is proved:

- The two ends of a login may disagree about the second factor exactly if the viewer may be older
  than 1.2.0 and the host's policy allows a click (`TwoParty.SecondFactorExact`).
- A viewer that waits for a code is sent back to its login by an attempt policy that refuses a code in other words
  than the three the viewer knows, while its host still waits (`TwoParty.RefusedCode`).
- A file continued at an offset is corrupted if an earlier file was accepted, because the receiver
  then ignores the decision (`FileTransfer.IntactExact`, `TransferProgress.LateResume`).
- A missing file ends a job early with overwrite detection on (`TransferProgress.DoneExactly`,
  `TransferProgress.DoneTooEarly`).
- The fingerprint cache is wrong for unknown parameter names (`FingerprintCache.ServedCorrectly`,
  `FingerprintCache.UnknownNamesCollide`).
- An IPv6 scope and flow label do not survive mangling (`AddrMangle.MangleRoundTrip`).

Hypotheses of the theorems, all of them conditions a caller could check:

- `TwoParty.SecondFactorSync` and `TwoParty.SecondFactorExact`: the texts of the attempt policy do not read as the viewer's own
  second-factor error (`PoliteStep`).
- `TwoParty.SecondFactorAsked`: the attempt policy refuses a code only in such words.
- `FileTransfer`: the compressor gives a non-empty inverse image for a non-empty block; file names
  and their two companions are pairwise distinct on the receiver; the sender has every file and
  no `.download` companion; an offset is only asked for to continue a partial download from its
  end. Stale companions of accepted files are allowed.
- `Reclamation`: a decoder whose close returns Ok reports that it is closed and not quarantined,
  such a report is true, and an open that fails otherwise than in destroying leaves nothing.
- `Transport`: the secret box opens what it sealed under the same nonce and adds 16 bytes.
- `Handshake`: a signature opens only with its signer's key, a box only for its receiver.

## Model

| member | source | states |
|---|---|---|
| Authentication.Permissions.Intersect | crates/rd-engine/src/authentication.rs:63-72 | The greatest permission set within both: below each, and above everything below both. |
| Authentication.Verify | crates/rd-engine/src/authentication.rs:35-46 | Accepts exactly a 32-byte response that answers the challenge for some stored password; every stored value is compared. |
| Authentication.HostAuthentication.LoginCall | crates/rd-engine/src/authentication.rs:233-309 | The whole new state and action of a login: refusals in order, the attempt policy, password, click approval, and the latch on the controller id. |
| Authentication.HostAuthentication.PollApproval | crates/rd-engine/src/authentication.rs:310-326 | A pending approval changes nothing, a denial closes, an approval grants what is approved within the ceiling and goes on to the second factor. |
| Authentication.HostAuthentication.AfterPrimaryCall | crates/rd-engine/src/authentication.rs:327-334 | A required second factor is asked for; otherwise the session is authorized at once. |
| Authentication.HostAuthentication.SecondFactorCall | crates/rd-engine/src/authentication.rs:335-354 | Only a verified code in the second-factor state authorizes; every other answer leaves the state alone. |
| Authentication.HostAuthentication.AuthorizeCall | crates/rd-engine/src/authentication.rs:355-376 | The viewer's disabling options only remove permissions from the grant. |
| Authentication.RunHasProvenance | crates/rd-engine/src/authentication.rs:233-376 | In every run a session that awaits approval or a second factor has a current, plain desktop login behind it, and in the latter case an accepted primary credential after that login with exactly its grant. |
| Authentication.AuthorizationProvenance | crates/rd-engine/src/authentication.rs:233-376 | Authorization is issued only for the latched request, after an accepted password or approval with no login in between, and after a verified code if one was required; the grant is that credential's own, cut by ceiling and disables, never an older one. |
| Authentication.AuthorizedOnce | crates/rd-engine/src/authentication.rs:233-376 | A run issues at most one authorization, and a host is authorized only if it issued one. |
| Authentication.PasswordLetsIn | crates/rd-engine/src/authentication.rs:282-288 | In any undecided run an admissible request whose response answers the challenge for a stored password is authorized with exactly the password grant, each permission cut by ceiling and disables, or asks for a required code. |
| Authentication.ApprovalLetsIn | crates/rd-engine/src/authentication.rs:310-326 | An approval authorizes the session that waits for it with exactly its grant, so cut. |
| Authentication.ClickLetsIn | crates/rd-engine/src/authentication.rs:289-308 | An approval already given does so for an admissible request that brings no accepted password. |
| Authentication.ApprovalPending | crates/rd-engine/src/authentication.rs:289-308 | Without an answer such a request leaves the session waiting, with the words a viewer that sent a password gets. |
| Authentication.CodeLetsIn | crates/rd-engine/src/authentication.rs:335-354 | A verified code authorizes with exactly what the primary credential after the last login was granted. |
| Authentication.RetryLetsIn | crates/rd-engine/src/authentication.rs:265-308 | A wrong, empty or too frequent password leaves the right one to be accepted next. |
| Authentication.LoginCloses | crates/rd-engine/src/authentication.rs:233-264 | A login closes an undecided session exactly if it is not admissible or is denied by the approver it reaches. |
| Authentication.LoginRefusedWith | crates/rd-engine/src/authentication.rs:233-264 | With which words, in the order of the checks. |
| Authentication.PollDecides | crates/rd-engine/src/authentication.rs:310-326 | A poll changes nothing unless the session waits and the approver has decided; a denial closes it. |
| Authentication.CodeRefused | crates/rd-engine/src/authentication.rs:335-354 | Any other code, or one after a refused attempt, leaves the session waiting, with the words for it. |
| Authentication.DecidedStays | crates/rd-engine/src/authentication.rs:233-354 | No call changes an authorized or closed session, except closing it. |
| Authentication.SecretsDropped | crates/rd-engine/src/authentication.rs:265-281 | No run keeps a request's password response or operating-system login. |
| Authentication.IdentityLatched | crates/rd-engine/src/authentication.rs:258-287 | The controller id, once latched, stays until the session closes, and closing is final. |
| Authentication.PasswordRoundTrip | crates/rd-engine/src/authentication.rs:13-46 | The viewer's answer is accepted exactly if the host stores the password's salted form, or a different value that collides with it under the digest of this challenge. |
| Session.UpsertReports | crates/rd-engine/src/session.rs:309-329 | Replacing a permission report in place changes the permissions by that report alone. |
| Session.UpsertKeys | crates/rd-engine/src/session.rs:309-329 | Reports keep unique keys. |
| Session.ReceiveConsistent | crates/rd-engine/src/session.rs:435-560 | Whatever is received, cached reports keep unique keys and the viewer's permissions are the all-true defaults overlaid by them. |
| Session.AfterErrorExact | crates/rd-engine/src/session.rs:505-516 | Exactly which error texts leave a viewer waiting for a code, for a click, or for a login. |
| Session.LoginSent | crates/rd-engine/src/session.rs:348-405 | Exactly when a login goes out, what it latches without the password, and when it fails or ends the session. |
| Session.LoginAnswersChallenge | crates/rd-engine/src/session.rs:380-400 | The one record sent carries the digest of the salted password's digest and the challenge; the host accepts it exactly if the salted form is stored or collides. |
| Session.ViewerEventsExact | crates/rd-engine/src/session.rs:435-560 | Each event reported to the caller exactly in its case. |
| Session.ViewerFaultsExact | crates/rd-engine/src/session.rs:435-560 | Each refusal exactly in its case. |
| Session.ViewerStateExact | crates/rd-engine/src/session.rs:435-560 | Exactly which records end the session, what the others change, and that only an unanswered delay probe is echoed. |
| Session.RecordExact | crates/rd-engine/src/session.rs:309-329 | A report of a known permission changes just that permission and is the only one kept of it; others change nothing. |
| Session.ViewerInterrupted | crates/rd-engine/src/session.rs:427-470 | The end of the stream, an unreadable record or a time-out leaves nothing behind. |
| Session.FactorSent | crates/rd-engine/src/session.rs:406-426 | A code goes out exactly from a viewer that waits for one in time. |
| Session.ClosedOnce | crates/rd-engine/src/session.rs:561-569 | Closing tells the peer once and clears the session. |
| Session.ActionExact | crates/rd-engine/src/session.rs:672-728 | What an authentication action makes the host write, in order, report and become; a failing write ends the session after the records before it. |
| Session.HostRecordsExact | crates/rd-engine/src/session.rs:772-850 | Which records a host answers, ignores, hands to authentication or is ended by. |
| Session.HostEndsExact | crates/rd-engine/src/session.rs:729-860 | What ends a host without a record, past its deadline, or on closing. |
| Session.ViewerSession.StoreReport | crates/rd-engine/src/session.rs:309-329 | The loop over the cached reports replaces the one with the same key where it stands, or appends. |
| Session.ViewerSession.RecordPermissionCall | crates/rd-engine/src/session.rs:309-329 | Permission and cached report change together and stay consistent. |
| Session.ViewerSession.TerminateCall | crates/rd-engine/src/session.rs:331-347 | Termination clears everything and gives up the wire. |
| Session.ViewerSession.LoginCall | crates/rd-engine/src/session.rs:348-405 | The new state, result and record sent of a login: its refusals, the empty and the answered password, expiry and a failed write. |
| Session.ViewerSession.SendSecondFactor | crates/rd-engine/src/session.rs:406-426 | A code is sent only in the second-factor state; a failed or late write ends the session. |
| Session.ViewerSession.Receive | crates/rd-engine/src/session.rs:427-434 | Any error ends the session; otherwise the result is that of the inner receive. |
| Session.ViewerSession.ReceiveInner | crates/rd-engine/src/session.rs:435-560 | For every state and message the new state, the event or fault and the records sent, including late, unsolicited and premature ones. |
| Session.ViewerSession.Close | crates/rd-engine/src/session.rs:561-569 | Closing sends one close record from an open session and then owns nothing. |
| Session.HostSession.ApplyCall | crates/rd-engine/src/session.rs:662-671 | A failed write while applying an action ends the session. |
| Session.HostSession.ApplyInner | crates/rd-engine/src/session.rs:672-728 | Which records an action sends, in order, how many of them when a write fails, and the state they leave. |
| Session.HostSession.PollApproval | crates/rd-engine/src/session.rs:729-738 | The approver's answer reaches the wire, unless the deadline before authorization has passed. |
| Session.HostSession.ReceiveInner | crates/rd-engine/src/session.rs:772-850 | For every state and message the new state, event or fault and records sent. |
| Session.HostSession.Receive | crates/rd-engine/src/session.rs:739-771 | Any error closes the host; otherwise the result is that of the inner receive. |
| Session.HostSession.Close | crates/rd-engine/src/session.rs:851-860 | Closing sends one close record from an open session, and authentication is closed with it. |
| TwoParty.StepInv | crates/rd-engine/src/session.rs:435-850 | Every step of either end, of the approver, of a failing write or of a lost tail keeps the invariant that ties both machines to what is in flight. |
| TwoParty.PairSafety | crates/rd-engine/src/session.rs:435-850 | At every point of every execution the host has issued at most one authorization, an Active viewer has exactly that one behind it, and the next record read is never an unsolicited success or a premature payload at either end. |
| TwoParty.ActiveProvenance | crates/rd-engine/src/session.rs:435-850 | An Active viewer was let in by an accepted credential of its host's last login, and a verified code where one was required, with exactly that credential's grant. |
| TwoParty.PermissionConvergence | crates/rd-engine/src/session.rs:672-728 | While viewer and host are up, the viewer's permissions overlaid by the reports in flight are the host's grant. |
| TwoParty.ReportsStayConsistent | crates/rd-engine/src/session.rs:309-329 | In every execution the viewer's reports have unique keys and its permissions are the defaults they overlay. |
| TwoParty.SecondFactorSync | crates/rd-engine/src/session.rs:500-532 | If the viewer, its channel drained, awaits a second factor and no login is in flight, the host awaits it too or is closed, or, for a viewer older than 1.2.0 only, still awaits a click; when that can happen is the next two rows. |
| TwoParty.SecondFactorAsked | crates/rd-engine/src/session.rs:500-532 | The converse: a host that waits for a code, with no login in flight, has a viewer that waits for one, if refused codes are answered in such words. |
| TwoParty.RefusedCode | crates/rd-engine/src/session.rs:505-516 | That condition decides: after a refused code the viewer is where the words put it. |
| TwoParty.SecondFactorAgrees | crates/rd-engine/src/session.rs:500-532 | Without the exception: if the policy takes passwords only, or no viewer logs in with a version below 1.2.0, a host facing a viewer that awaits a second factor awaits it or is closed. |
| TwoParty.SecondFactorExact | crates/rd-engine/src/session.rs:675-689 | For every host and every lower bound on the versions of its viewers: the ends always agree exactly if the policy takes passwords only, the bound is at least 1.2.0, or nobody can log in at all. |
| TwoParty.OldViewerDesynchronised | crates/rd-engine/src/session.rs:675-689 | Under every policy that allows a click and for every older version, an execution that leaves the viewer asking for a code while its host awaits a click. |
| TwoParty.LatchedIdentity | crates/rd-engine/src/session.rs:348-405 | Neither end ever changes the controller id it latched. |
| TwoParty.RightPasswordLetsIn | crates/rd-engine/src/session.rs:348-728 | From any reachable idle pair, supplying a password whose salted form is stored makes the viewer Active with exactly the host's grant, or both wait for the required code. |
| Handshake.ViewerCall | crates/rd-engine/src/handshake.rs:109-220 | Result, records sent, records read and key installed, for all three viewer identity modes, with a failing write and with the deadline passing during the read or the write. |
| Handshake.HostCall | crates/rd-engine/src/handshake.rs:221-281 | Result, records sent, records read and key installed, for both host identity modes, with a failing write and with the deadline passing during the write or the read. |
| Handshake.PinnedNeverPlain | crates/rd-engine/src/handshake.rs:109-220 | A pinned viewer succeeds only encrypted, with the pinned key's own signature over the pinned id, and otherwise sends nothing but public-key records. |
| Handshake.PinnedExact | crates/rd-engine/src/handshake.rs:109-220 | A pinned viewer succeeds exactly, in time, against the pinned key's certificate of the pinned id. |
| Handshake.PinnedErrors | crates/rd-engine/src/handshake.rs:109-220 | With which error it fails otherwise. |
| Handshake.RendezvousEncrypted | crates/rd-engine/src/handshake.rs:129-180 | A rendezvous viewer ends encrypted exactly if the server certified a key for the expected id and that key certified a box key for the same id; the session key is sealed to that box key. |
| Handshake.RendezvousFallback | crates/rd-engine/src/handshake.rs:129-216 | How it falls back otherwise: what it sends, whether it asks for a key refresh, and which record it hands on. |
| Handshake.RendezvousErrors | crates/rd-engine/src/handshake.rs:109-220 | It fails only for the connection's sake or an unreadable record. |
| Handshake.UnverifiedPlain | crates/rd-engine/src/handshake.rs:144-154 | A viewer that does not verify its host reads nothing and ends plain. |
| Handshake.HostKeyIsSealed | crates/rd-engine/src/handshake.rs:221-281 | A host installs a key exactly when it ends encrypted, and only the key the peer sealed to this run's box key. |
| Handshake.HostAnswers | crates/rd-engine/src/handshake.rs:243-281 | What a signing host makes of the one record it reads: a key exactly if it was sealed to its box key, a refresh exactly for an empty key, plain exactly for an empty record. |
| Handshake.HostErrors | crates/rd-engine/src/handshake.rs:221-281 | With which error it fails otherwise. |
| Handshake.Agreement | crates/rd-engine/src/handshake.rs:109-281 | If both ends succeed they agree on encryption, session key and key-refresh flag; encryption means the viewer's evidence names the host; the challenge is read exactly once, even if the handshake consumed it. |
| Handshake.PinnedSucceeds | crates/rd-engine/src/handshake.rs:109-281 | Without a failing write or a missed deadline a pinned viewer and a host succeed exactly when the host holds the pinned id and key. |
| BytesCodec.Codec.DecodeHeadCall | libs/hbb_common/src/bytes_codec.rs:44-75 | Advances over a complete header and yields its length, or leaves the buffer alone, or refuses a length over the limit. |
| BytesCodec.Codec.DecodeDataCall | libs/hbb_common/src/bytes_codec.rs:76-82 | Splits off a complete payload, or leaves the buffer alone. |
| BytesCodec.Codec.DecodeCall | libs/hbb_common/src/bytes_codec.rs:88-116 | One decode of the non-raw codec: new state, rest of the buffer and frame. |
| BytesCodec.Codec.Read | libs/hbb_common/src/bytes_codec.rs:84-116 | Feeding chunks and decoding until nothing is complete yields what the one-shot parser yields; the loop ends because every frame shrinks the buffer. |
| BytesCodec.Codec.EncodeCall | libs/hbb_common/src/bytes_codec.rs:121-142 | Appends the shortest header and the payload, or refuses what needs more than 30 bits. |
| BytesCodec.StreamingRefinesParse | libs/hbb_common/src/bytes_codec.rs:44-142 | For every byte stream and every cut into chunks, streaming gives the frames, the rest and the first error of a one-shot parse of the whole. |
| BytesCodec.HeaderReads | libs/hbb_common/src/bytes_codec.rs:44-142 | Every header written is read back, with its own length and the payload's. |
| BytesCodec.ParseEncoded | libs/hbb_common/src/bytes_codec.rs:44-142 | An encoded payload parses to itself and leaves the rest, or fails if it is over the limit. |
| BytesCodec.FramingRoundTrip | libs/hbb_common/src/bytes_codec.rs:44-142 | Encoded payloads, in any chunks, decode to exactly themselves, or up to the first one over the limit, where decoding fails. |
| BytesCodec.TruncatedStream | libs/hbb_common/src/bytes_codec.rs:44-142 | A stream cut inside its last record decodes to the whole records before it, without error. |
| Transport.WireWriter.SendCall | crates/rd-engine/src/transport.rs:119-155 | The bytes put on the wire, the nonce used and the state after a send that completes, is refused, fails, times out or is dropped. |
| Transport.SessionIo.SendCall | crates/rd-engine/src/session.rs:84-109 | The wire is owned across the write and comes back only if it completed. |
| Transport.WireReader.Recv | crates/rd-engine/src/transport.rs:69-104 | The next message, end of stream or error, with the nonce counter advanced for every record opened. |
| Transport.RunShape | crates/rd-engine/src/transport.rs:104-155 | In every schedule the attempts use consecutive nonces, and nothing follows the one that was cut. |
| Transport.SendExact | crates/rd-engine/src/transport.rs:119-155 | A refused send changes nothing; any other uses one nonce if encrypted and ends the stream unless written whole. |
| Transport.OpenExact | crates/rd-engine/src/transport.rs:89-104 | What the reader makes of each packet: the next nonce, the short packet passed on, the one that ends it. |
| Transport.PeerReads | crates/rd-engine/src/transport.rs:69-155 | The peer opens exactly the messages whose records are complete. |
| Transport.CancelledSendsAreTerminal | crates/rd-engine/src/transport.rs:104-155 | In every schedule of cancellation, time-out and failure the wire holds whole records and at most one partial record, at its end; no nonce is used twice; and the peer, whatever the chunks, reads a prefix of the messages submitted. |
| Galois.TimesIsSum | libs/hbb_common/src/fingerprint.rs:120-137 | The product modulo x^8+x^4+x^3+x+1, FIPS 197 section 4.2, is the sum of doublings that the loop adds up. |
| Galois.TimesDistributes | libs/hbb_common/src/fingerprint.rs:120-137 | Multiplication distributes over addition. |
| Galois.GfMul | libs/hbb_common/src/fingerprint.rs:120-137 | The shift-and-add loop computes multiplication as FIPS 197 section 4.2 defines it. |
| Aes.SubstitutionBox | libs/hbb_common/src/fingerprint.rs:8-25 | Every table entry is the affine transform of the multiplicative inverse, FIPS 197 section 5.1.1. |
| Aes.TableRoundTrip | libs/hbb_common/src/fingerprint.rs:8-25 | The table is a bijection, undone by inverse affine transform and inversion. |
| Aes.SubBytesRoundTrip | libs/hbb_common/src/fingerprint.rs:91-95 | Byte substitution is undone by its inverse, both ways. |
| Aes.ShiftRowsRoundTrip | libs/hbb_common/src/fingerprint.rs:97-112 | Row shifting is undone by its inverse, both ways. |
| Aes.MixColumnsRoundTrip | libs/hbb_common/src/fingerprint.rs:139-151 | Column mixing is undone by its inverse, both ways. |
| Aes.CipherBijective | libs/hbb_common/src/fingerprint.rs:71-89 | For every key the inverse cipher of FIPS 197 section 5.3 undoes the cipher, and the cipher undoes it. |
| Fingerprint.SubBytesInPlace | libs/hbb_common/src/fingerprint.rs:91-95 | The state in place becomes its byte substitution. |
| Fingerprint.ShiftRowsInPlace | libs/hbb_common/src/fingerprint.rs:97-112 | The twelve moves are the row shift of FIPS 197 section 5.1.2. |
| Fingerprint.AddRoundKeyInPlace | libs/hbb_common/src/fingerprint.rs:114-118 | The state in place becomes its sum with the round key. |
| Fingerprint.MixColumnsInPlace | libs/hbb_common/src/fingerprint.rs:139-151 | The loop multiplies each column by the polynomial of FIPS 197 section 5.1.3. |
| Fingerprint.ConstantIsRcon | libs/hbb_common/src/fingerprint.rs:41-53 | The ten constants are the powers of x that FIPS 197 section 5.2 asks for. |
| Fingerprint.ExpandKey | libs/hbb_common/src/fingerprint.rs:27-69 | Eleven round keys, each the four words of the key expansion of FIPS 197 section 5.2. |
| Fingerprint.FinalizeBlock | libs/hbb_common/src/fingerprint.rs:71-89 | The block after expansion and ten rounds is the cipher of FIPS 197 section 5.1. |
| AesExample.ExampleVector | libs/hbb_common/src/fingerprint.rs:71-89 | The worked example of FIPS 197 appendices A.1 and B, every word and state of it: the definitions are those of the standard, not only lawful ones. |
| FingerprintCache.Sha512Hasher.Update | libs/hbb_common/src/fingerprint.rs:314-324 | Short data extends the buffer; longer data is digested up to its last 32 bytes, which replace the buffer. |
| FingerprintCache.Sha512Hasher.Finalize | libs/hbb_common/src/fingerprint.rs:326-353 | The digest, followed by the two enciphered blocks of the last 32 bytes if there are any. |
| FingerprintCache.OnlyDigestCollides | libs/hbb_common/src/fingerprint.rs:314-353 | Strings of one length share a fingerprint exactly when their last 32 bytes and the digest of the rest agree: the enciphered tail loses nothing. |
| FingerprintCache.HashLayout | libs/hbb_common/src/fingerprint.rs:314-353 | The bytes of a fingerprint for every length of the string. |
| FingerprintCache.FieldsByName | libs/hbb_common/src/fingerprint.rs:363-376 | Which field each name reads. |
| FingerprintCache.MaterialConcat | libs/hbb_common/src/fingerprint.rs:359-378 | The material of a list is that of its names in order. |
| FingerprintCache.OnlyWins | libs/hbb_common/src/fingerprint.rs:271-278 | `only` wins whatever is excepted; without either all parameters are meant. |
| FingerprintCache.WithoutConcat | libs/hbb_common/src/fingerprint.rs:273-276 | Excepting drops names one by one and keeps the order of the rest. |
| FingerprintCache.CalculateFingerprint | libs/hbb_common/src/fingerprint.rs:356-381 | The fingerprint of the concatenated values of the known parameters asked for, in order. |
| FingerprintCache.JoinInjective | libs/hbb_common/src/fingerprint.rs:256-280 | Lists of known names with the same concatenation are equal: the names form a prefix-free code. |
| FingerprintCache.Cache.GetFingerprint | libs/hbb_common/src/fingerprint.rs:256-296 | One call: `only` wins over `except`, a cached answer is returned, the first call of a process computes without storing. |
| FingerprintCache.Cache.GetFingerprintingInfo | libs/hbb_common/src/fingerprint.rs:245-254 | Asking for the system information creates an empty cache if there is none, and leaves one that exists alone. |
| FingerprintCache.MaterialRecognised | libs/hbb_common/src/fingerprint.rs:361-378 | Lists with the same known names in the same order have the same material. |
| FingerprintCache.ServedCorrectly | libs/hbb_common/src/fingerprint.rs:280-295 | For any lists of names, with the cache created before or by the first call: every answer is right, whatever the system and the digest, exactly if calls that share a concatenated name select the same known names in the same order, the call that creates the cache left out. |
| FingerprintCache.CacheAgreement | libs/hbb_common/src/fingerprint.rs:256-296 | For known names, whatever the calls, every answer is what a computation would give. |
| FingerprintCache.UnknownNamesCollide | libs/hbb_common/src/fingerprint.rs:280-295 | With unknown names it is not: asking for `eo` and `l` poisons the entry of `eol`. |
| TransferJob.TransferJob.ModifyTimeCall | libs/hbb_common/src/fs.rs:704-726 | The digest of the current file is dropped and its download renamed over it. |
| TransferJob.TransferJob.WriteCall | libs/hbb_common/src/fs.rs:760-829 | One block: the job, the disk and the error after it, including the turn to another file. |
| TransferJob.TransferJob.OpenStreamCall | libs/hbb_common/src/fs.rs:842-878 | Opens the current file, reports the end of the list, or moves past a file that cannot be opened. |
| TransferJob.TransferJob.InitStreamCall | libs/hbb_common/src/fs.rs:893-906 | Announces a digest and waits, exactly when overwrite detection is on and the file is neither confirmed nor waited for. |
| TransferJob.TransferJob.Fill | libs/hbb_common/src/fs.rs:953-980 | However the stream cuts its reads, the buffer gets the next 128 KiB or all that is left. |
| TransferJob.TransferJob.ReadCall | libs/hbb_common/src/fs.rs:929-1008 | The next block, or none, or an error, with the file number, flags and counters after it. |
| TransferJob.TransferJob.TurnCall | libs/hbb_common/src/fs.rs:1336-1382 | One turn of the job at the front: what is sent, and whether the job is removed. |
| TransferJob.TransferJob.DecideCall | libs/hbb_common/src/fs.rs:1156-1185 | A decision for another file number is ignored; a skip moves on; an acceptance confirms and moves to its offset. |
| TransferJob.TransferJob.SeekToCall | libs/hbb_common/src/fs.rs:1105-1154 | Continues a partial download if both companions exist, reads on from the offset if only the file does, and counts the offset in either case. |
| TransferJob.CompressedNames | libs/hbb_common/src/fs.rs:446-458 | Exactly the names with one of nine endings are never compressed. |
| TransferJob.NameExact | libs/hbb_common/src/fs.rs:943-949 | A single unnamed file is judged by the last component of its path. |
| TransferJob.WriteAtExact | libs/hbb_common/src/fs.rs:811-826 | Writing replaces just the bytes from its position on. |
| TransferJob.WriteRefused | libs/hbb_common/src/fs.rs:761-769 | A block for another job, for no file, or onto a file opened to be read changes nothing. |
| TransferJob.WriteCounts | libs/hbb_common/src/fs.rs:811-828 | An accepted block counts its bytes and its size on the wire, and moves its file's download on. |
| TransferJob.OpenExact | libs/hbb_common/src/fs.rs:842-878 | Opening in each case, for every job. |
| TransferJob.PackExact | libs/hbb_common/src/fs.rs:990-999 | A block is compressed exactly if its name allows it and it gets shorter. |
| TransferJob.FailuresReported | libs/hbb_common/src/fs.rs:1322-1353 | Every failure of a turn is reported with the file number to go on from. |
| TransferJob.DecideIgnored | libs/hbb_common/src/fs.rs:1156-1183 | A decision about another file, or that decides nothing, changes nothing. |
| TransferJob.SkipExact | libs/hbb_common/src/fs.rs:1087-1103 | A skip moves on and is remembered; a single skipped file is reported as such. |
| TransferJob.AcceptExact | libs/hbb_common/src/fs.rs:1105-1183 | An acceptance confirms; an offset moves to the download, to the file, or nowhere, and counts only if it moved. |
| FileTransfer.FailedCompression | libs/hbb_common/src/fs.rs:990-1007 | A compressor that returns nothing loses the block exactly for files that are compressed at all. |
| FileTransfer.Matched | libs/hbb_common/src/fs.rs:1156-1164 | The receiver's file number is the sender's exactly while every file so far was skipped. |
| FileTransfer.StepKeeps | libs/hbb_common/src/fs.rs:760-1185 | Every step of either end keeps the invariant that the drained receiver holds exactly the bytes the sender has sent. |
| FileTransfer.TransferResult | libs/hbb_common/src/fs.rs:760-1185 | In any interleaving no write fails; at the end every accepted file holds what was sent for it without companions, and every other path is as it was. |
| FileTransfer.IntactExact | libs/hbb_common/src/fs.rs:1105-1185 | What was sent for a file is the file exactly if it started at offset 0, or continued a partial prefix with every earlier file skipped, or the file is empty. |
| FileTransfer.FilesRecreated | libs/hbb_common/src/fs.rs:760-1185 | In every completed transfer skipped files are untouched and accepted ones are recreated exactly under that condition. |
| FileTransfer.CountersAgree | libs/hbb_common/src/fs.rs:818-827 | Both ends end with equal counters exactly when every offset was asked for before any file was accepted. |
| TransferProgress.EveryChoiceCompletes | libs/hbb_common/src/fs.rs:760-1185 | For every polite list of decisions there is a run that makes exactly these and completes. |
| TransferProgress.LateResume | libs/hbb_common/src/fs.rs:1156-1164 | A completed run, of two files, in which the second, accepted at offset 1 after an accepted first one, arrives without its first byte. |
| TransferResume.LeftBehind | libs/hbb_common/src/fs.rs:760-829 | At any point of a run, whatever is in flight: the open file's download is a prefix of the sender's with its digest beside it, and accepted files before it are whole. |
| TransferResume.InterruptedResumes | libs/hbb_common/src/fs.rs:760-1185 | A transfer stopped anywhere is taken up from the disk left behind by a run that skips what is done and continues the download from its end, and leaves the open file, the accepted ones before it and all after it whole, unless the open one was itself resumed too late. |
| TransferProgress.DoneExactly | libs/hbb_common/src/fs.rs:1336-1382 | Exactly when a turn reports the job done, with errors: no file is left, or this turn's open failed and overwrite detection is on or it was the last file. |
| TransferProgress.OrderlyKept | libs/hbb_common/src/fs.rs:842-1185 | A file is confirmed or waited for only while it is open, errors included, and an answer to a digest never indexes out of bounds. |
| TransferProgress.DoneTooEarly | libs/hbb_common/src/fs.rs:860-864 | With overwrite detection, a missing first file ends a job that still has the second to send. |
| TransferProgress.TurnProgress | libs/hbb_common/src/fs.rs:842-1008 | Errors included, a turn decreases (files left, bytes left, confirmation phase) unless it waits for a decision. |
| TransferProgress.TransferCompletes | libs/hbb_common/src/fs.rs:1336-1382 | Without errors the sender reports the job done exactly when it is past its last file; until the receiver has seen that, some step decreases what remains, and every step that changes anything does. |
| VideoAdmission.BoundedOrderedAdmission | crates/rd-engine/src/viewer.rs:1460-1512 | In every interleaving free plus held permits are 2 records and 32 MiB, the decoder gets the wire's units in order, and a record with its permits never waits for the channel. |
| VideoAdmission.BlockedMeansFeeding | crates/rd-engine/src/viewer.rs:1498-1512 | A receiver blocked on permits means a record admitted and a feeder, feeding or tearing down, with a step that brings its release nearer. |
| VideoAdmission.FeederDrains | crates/rd-engine/src/viewer.rs:1782-1805 | The feeder's steps alone submit everything admitted, in order, and unblock the receiver. |
| Reclamation.Viewer.CloseDecoder | crates/rd-engine/src/viewer.rs:1660-1693 | The flag is lowered only on the worker's report of closed and not quarantined; the result is independent of it. |
| Reclamation.Viewer.OpenDecoder | crates/rd-engine/src/viewer.rs:1734-1771 | The flag is raised before the open and lowered only by an error that leaves nothing behind. |
| Reclamation.Viewer.FeedLoop | crates/rd-engine/src/viewer.rs:1711-1806 | The whole loop: cancellation, a decoder that stops, codec switches, open failures, rejected units and panics. |
| Reclamation.Viewer.Feed | crates/rd-engine/src/viewer.rs:1695-1709 | The decoder is closed on every return of the loop, and a failure to close it wins over the loop's result. |
| Reclamation.Viewer.JoinTasks | crates/rd-engine/src/viewer.rs:1418-1442 | The first failure of the tasks, unless a later one is a failure to destroy. |
| Reclamation.Viewer.FinishCall | crates/rd-engine/src/viewer.rs:520-550 | Only the flag decides what close may say. |
| Reclamation.ReclamationSound | crates/rd-engine/src/viewer.rs:1660-1780 | Whatever happens, close returns Ok exactly when no attempt to open a decoder is in doubt and the surface was released, and then every decoder opened was destroyed. |
| Reclamation.ContractNeeded | crates/rd-engine/src/viewer.rs:1660-1693 | Without the decoder's contract a silent close before a codec switch lets close return Ok while a decoder lives. |
| Reclamation.DestroyFailureReported | crates/rd-engine/src/viewer.rs:1426-1449 | A decoder that could not be destroyed is what close reports, in whatever order the tasks end. |
| Reclamation.DestroyFailureSurvives | crates/rd-engine/src/viewer.rs:1695-1780 | From the decoder's answers alone: a decoder that could not be destroyed, at a change of contract, at the end or when opening failed, is what close reports, whatever the loop returned and in whatever order the tasks end. |
| Reclamation.StopReported | crates/rd-engine/src/viewer.rs:1695-1806 | How the task ends for each reason its loop stops, and that a failure to close replaces it. |
| Host.Grant.Decide | crates/rd-engine/src/host.rs:134-142 | Exactly one decision is taken, for the published epoch only. |
| Host.LocalHost.ApproveCall | crates/rd-engine/src/host.rs:233-244 | A click counts only with a number, an uncancelled host and an undecided current request. |
| Host.Grant.CheckCall | crates/rd-engine/src/host.rs:276-288 | A session sees only decisions on its own epoch. |
| Host.DecisionLasts | crates/rd-engine/src/host.rs:276-288 | Whatever is published again or clicked afterwards, a live session that asks gets exactly the decision taken on its epoch. |
| Host.ClickNeverWidens | crates/rd-engine/src/host.rs:302-313 | Whatever a human allows, a session is never granted clipboard, audio or files, and the keyboard only where the operator opted in and a sink exists. |
| Host.AllowGrants | crates/rd-engine/src/host.rs:269-313 | A waiting session that asks after an allow decision is authorized, with the keyboard exactly if the host's operator opted in, a sink exists and the viewer did not disable it. |
| Host.CheckExact | crates/rd-engine/src/host.rs:276-288 | A session learns of a decision exactly if it was taken on its own epoch. |
| Host.ClickCounts | crates/rd-engine/src/host.rs:233-244 | Exactly which clicks count in a run, and that no other changes anything. |
| Host.CancelStops | crates/rd-engine/src/host.rs:233-247 | After a cancellation no click counts. |
| Host.WaitingIsPublished | crates/rd-engine/src/host.rs:483-514 | A session that waits for an approval has its request published, and none gets more than 64 events. |
| Host.IssuedBacked | crates/rd-engine/src/host.rs:442-512 | Under click-only policy a session is authorized only if an allow decision on its own epoch followed its publication, and within the local permissions. |
| Host.ApprovalEpochs | crates/rd-engine/src/host.rs:442-512 | However hosts, peers and clicks interleave: epochs increase strictly, each takes at most one decision, and authorization follows publication and an allow decision for its own epoch. |
| Host.DenialStands | crates/rd-engine/src/host.rs:129-155 | An authorized epoch is never denied, before or after. |
| AddrMangle.EncodeCall | libs/hbb_common/src/lib.rs:143-174 | The loop over trailing zeros encodes as the format says. |
| AddrMangle.MangleRoundTrip | libs/hbb_common/src/lib.rs:128-200 | Decoding an encoding never underflows and gives the converted address back, exactly up to an IPv6 scope and flow label. |
| AddrMangle.Converted | libs/hbb_common/src/lib.rs:129-140 | Exactly which IPv6 addresses are converted, and to what. |
| AddrMangle.WiderMask | libs/hbb_common/src/lib.rs:191-198 | The decoder's 24-bit mask and the reader's 17-bit mask give the same port whenever the reader's checks pass. |
| AddrMangle.PeerAcceptsEncodings | crates/rd-engine/src/rendezvous.rs:363-392 | The reader accepts an encoding exactly when its address is a valid route, and returns it. |
| AddrMangle.RouteExact | crates/rd-engine/src/rendezvous.rs:185-187 | What makes an address a valid route. |
| AddrMangle.OtherLengths | crates/rd-engine/src/rendezvous.rs:363-366 | What decoder and reader make of every other length. |
| AddrMangle.PeerChecksWhatDecodes | crates/rd-engine/src/rendezvous.rs:367-391 | For every accepted string of at most 16 bytes decoding does not underflow and returns the checked address and port. |
| AddrMangle.UncheckedUnderflows | libs/hbb_common/src/lib.rs:193-194 | A three-byte string on which the unchecked decoder underflows, and which the reader refuses. |
| Input.NormalizeAbsolute | crates/rd-engine/src/input.rs:375-392 | Both coordinates of every point are between 0 and 65535, each clamped along its own axis. |
| Input.NoOverflow | crates/rd-engine/src/input.rs:384-390 | No intermediate value leaves 64 bits, and no dividend is negative. |
| Input.Monotone | crates/rd-engine/src/input.rs:386-390 | A point further right or down never maps further left or up. |
| Input.Clamped | crates/rd-engine/src/input.rs:372-374 | Points outside stay on the near edge, and a desktop of at least two pixels reaches both edges. |
| Input.PixelsRecovered | crates/rd-engine/src/input.rs:384-390 | Exactly the desktops of at most 65536 pixels keep all pixels apart, and there ceiling division gives each back. |

## Left out

- Protobuf serialization: a message is a value, or its bytes where only its length matters; version strings are compared as numbers.
- Cryptography: signatures, boxes and the secret box are symbolic, SHA-256 and SHA-512 are functions; `Encrypt` and `FramedStream` of libs/hbb_common/src/tcp.rs appear only through their contracts.
- Sockets, DNS, timers and task scheduling: channels, deadlines and cancellation are steps or arguments.
- The raw mode of the codec, whose frames are the chunks themselves, and buffer preallocation; the length limit does not change within a stream.
- The hand-off of an authorized session to the media runtime (`into_authenticated_parts`): from then on both ends write in `TwoParty` what that runtime may write.
- The record prefetched by the handshake is, for a session, its first incoming record.
- The asynchronous tasks of the video pipeline are steps of a state machine rather than loops; the deadlines of `SurfaceDecoder` and the publisher under `platform/` are behind their contracts.
- Failures of the local disk in the transfer model: creating, renaming and writing a file succeed; opening and reading may fail. A file is its contents, without its modification time, and an open handle is a path and a position.
- Printer jobs, in-memory sources, path and symlink validation, recursive listing and the jobs of other transfers.
- Wrap-around of the 64-bit transfer counters, the 32-bit file number and the 32-bit offset.
- The choice a receiver makes from a digest (`is_write_need_confirmation`): any decision is allowed.
- The reader's text form of a request number: approval gets the number or the fact that there is none.
- System information gathered for a fingerprint, and the entropy computed but not used for its key.
- Key tables, colour and capability tables, bitrate control, generated bridges and the user interface: branch tables and plumbing.
