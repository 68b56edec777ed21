/** PQXDH, and the sessions it seeds. */
module Handshake {
  import opened Prelude
  import opened Suites
  import opened DoubleRatchet
  import opened RatchetPair
  import opened RatchetCodec
  import opened Identity

  datatype HandshakeError = BadKeyLength | NotMlKem | BadEncapLength | EncapsulationFailed
    | MissingOneTime | BadCiphertextLength | DecapsulationFailed

  /** Public material the initiator sends with its first frame. */
  datatype InitMessage = InitMessage(
    identity: Key32, ephemeral: Key32, kemCiphertext: Bytes, usedOneTime: bool)

  /**
  The laws the libraries owe: a lawful ratchet suite, key and ciphertext sizes of ML-KEM-768, and
  decapsulation recovering the encapsulated secret (section 7 of FIPS 203).
  */
  ghost predicate LawfulLibrary(lib: Library) {
    && Lawful(lib.ratchet)
    && (forall seed :: |lib.kemGenerate(seed).0| == DECAP_LEN && |lib.kemGenerate(seed).1| == ENCAP_LEN)
    && (forall seed, coins :: KemAgrees(lib, lib.kemGenerate(seed).0, lib.kemGenerate(seed).1, coins))
  }

  predicate KemAgrees(lib: Library, decap: Bytes, encap: Bytes, coins: Bytes) {
    match lib.encapsulate(encap, coins)
    case None => true
    case Some((ct, ss)) => |ct| == KEM_CT_LEN && lib.decapsulate(decap, ct) == Some(ss)
  }

  function Zeros(n: nat): (b: Bytes)
    ensures |b| == n
  {
    seq(n, _ => 0)
  }

  const ZeroKey: Key32 := Zeros(32)

  /** Outputs of the right sizes, a seal that hides nothing, one DH output for everybody. */
  function PlainLibrary(): Library {
    Library(
      Suite((a: Key32) => a, (a, p) => ZeroKey, (r, d) => (ZeroKey, ZeroKey), c => (ZeroKey, ZeroKey),
            (k, n, p, m) => Some(m), (k, n, p, c) => Some(c)),
      (k, m) => [],
      seed => (Zeros(DECAP_LEN), Zeros(ENCAP_LEN)),
      (key, coins) => Some((Zeros(KEM_CT_LEN), ZeroKey)),
      (key, c) => Some(ZeroKey),
      m => ZeroKey)
  }

  /** The laws ask for nothing that contradicts itself. */
  lemma PlainLibraryLawful()
    ensures LawfulLibrary(PlainLibrary())
  {
  }

  function DecodeX25519(b: Bytes): Result<Key32, HandshakeError> {
    if |b| == 32 then Ok(b) else Err(BadKeyLength)
  }

  /** DH1 || DH2 || DH3 || [DH4] || PQ. */
  function KeyMaterial(dh1: Key32, dh2: Key32, dh3: Key32, dh4: Option<Key32>, pq: Key32): Bytes {
    dh1 + dh2 + dh3 + (match dh4 case Some(d) => d case None => []) + pq
  }

  /** Key material determines every secret that went into it, and whether a one-time key was used. */
  lemma KeyMaterialInjective(a1: Key32, a2: Key32, a3: Key32, a4: Option<Key32>, pqA: Key32,
                             b1: Key32, b2: Key32, b3: Key32, b4: Option<Key32>, pqB: Key32)
    requires KeyMaterial(a1, a2, a3, a4, pqA) == KeyMaterial(b1, b2, b3, b4, pqB)
    ensures a1 == b1 && a2 == b2 && a3 == b3 && a4 == b4 && pqA == pqB
  {
    var m := KeyMaterial(a1, a2, a3, a4, pqA);
    assert m[..32] == a1 && m[..32] == b1;
    assert m[32..64] == a2 && m[32..64] == b2;
    assert m[64..96] == a3 && m[64..96] == b3;
    assert m[|m| - 32..] == pqA && m[|m| - 32..] == pqB;
    if a4.Some? { assert m[96..128] == a4.value && m[96..128] == b4.value; }
  }

  function InitiatorHandshake(lib: Library, alice: IdentityKeyPair, bundle: PreKeyBundle, eph: Key32, coins: Bytes)
    : Result<(Key32, InitMessage), HandshakeError>
  {
    var bobIk :- DecodeX25519(bundle.identityKey.bytes);
    var bobSpk :- DecodeX25519(bundle.signedPreKey.key.bytes);
    var bobOpk :- match bundle.oneTime
      case Some(pk) => (match DecodeX25519(pk.bytes) case Ok(k) => Ok(Some(k)) case Err(e) => Err(e))
      case None => Ok(None);
    if bundle.pqKem.key.algo != MlKem768 then Err(NotMlKem)
    else if |bundle.pqKem.key.bytes| != ENCAP_LEN then Err(BadEncapLength)
    else
      var dh := lib.ratchet.dh;
      match lib.encapsulate(bundle.pqKem.key.bytes, coins)
      case None => Err(EncapsulationFailed)
      case Some((ct, pq)) =>
        var dh4 := match bobOpk case Some(opk) => Some(dh(eph, opk)) case None => None;
        var ikm := KeyMaterial(dh(alice.dhSecret, bobSpk), dh(eph, bobIk), dh(eph, bobSpk), dh4, pq);
        Ok((lib.kdfRoot(ikm),
            InitMessage(lib.ratchet.pub(alice.dhSecret), lib.ratchet.pub(eph), ct, dh4.Some?)))
  }

  function ResponderHandshake(lib: Library, bob: PreKeySecrets, msg: InitMessage): Result<Key32, HandshakeError> {
    var dh := lib.ratchet.dh;
    if msg.usedOneTime && bob.oneTime.None? then Err(MissingOneTime)
    else if |msg.kemCiphertext| != KEM_CT_LEN then Err(BadCiphertextLength)
    else
      match lib.decapsulate(bob.kem.decap, msg.kemCiphertext)
      case None => Err(DecapsulationFailed)
      case Some(pq) =>
        var dh4 := if msg.usedOneTime then Some(dh(bob.oneTime.value.secret, msg.ephemeral)) else None;
        Ok(lib.kdfRoot(KeyMaterial(
             dh(bob.signedPreKey.secret, msg.identity), dh(bob.identity.dhSecret, msg.ephemeral),
             dh(bob.signedPreKey.secret, msg.ephemeral), dh4, pq)))
  }

  /** Handshake against a bundle, then a ratchet towards its signed pre-key. */
  function InitiatorSession(lib: Library, alice: IdentityKeyPair, bundle: PreKeyBundle, eph: Key32, coins: Bytes,
      rnd: Key32): Result<(ByteRatchet, InitMessage), HandshakeError>
  {
    var (shared, msg) :- InitiatorHandshake(lib, alice, bundle, eph, coins);
    var spk :- DecodeX25519(bundle.signedPreKey.key.bytes);
    Ok((NewInitiator(lib.ratchet, shared, spk, rnd), msg))
  }

  /** Handshake from the init message, then a ratchet from our own signed pre-key secret. */
  function ResponderSession(lib: Library, bob: PreKeySecrets, msg: InitMessage): Result<ByteRatchet, HandshakeError> {
    var shared :- ResponderHandshake(lib, bob, msg);
    Ok(NewResponder(shared, bob.signedPreKey.secret))
  }

  // ---------------------------------------------------------------------------
  // The handshakes as written, building the key material in a buffer
  // ---------------------------------------------------------------------------

  method RunInitiator(lib: Library, alice: IdentityKeyPair, bundle: PreKeyBundle, eph: Key32, coins: Bytes)
    returns (r: Result<(Key32, InitMessage), HandshakeError>)
    ensures r == InitiatorHandshake(lib, alice, bundle, eph, coins)
  {
    if |bundle.identityKey.bytes| != 32 || |bundle.signedPreKey.key.bytes| != 32 { return Err(BadKeyLength); }
    var bobIk: Key32, bobSpk: Key32 := bundle.identityKey.bytes, bundle.signedPreKey.key.bytes;
    if bundle.oneTime.Some? && |bundle.oneTime.value.bytes| != 32 { return Err(BadKeyLength); }
    if bundle.pqKem.key.algo != MlKem768 { return Err(NotMlKem); }
    if |bundle.pqKem.key.bytes| != ENCAP_LEN { return Err(BadEncapLength); }
    var dh1 := lib.ratchet.dh(alice.dhSecret, bobSpk);
    var dh2 := lib.ratchet.dh(eph, bobIk);
    var dh3 := lib.ratchet.dh(eph, bobSpk);
    var kem := lib.encapsulate(bundle.pqKem.key.bytes, coins);
    if kem.None? { return Err(EncapsulationFailed); }
    var ikm: Bytes := dh1;
    ikm := ikm + dh2;
    ikm := ikm + dh3;
    if bundle.oneTime.Some? {
      var opk: Key32 := bundle.oneTime.value.bytes;
      ikm := ikm + lib.ratchet.dh(eph, opk);
    } else {
      assert ikm == ikm + [];
    }
    ikm := ikm + kem.value.1;
    return Ok((lib.kdfRoot(ikm),
               InitMessage(lib.ratchet.pub(alice.dhSecret), lib.ratchet.pub(eph), kem.value.0, bundle.oneTime.Some?)));
  }

  method RunResponder(lib: Library, bob: PreKeySecrets, msg: InitMessage) returns (r: Result<Key32, HandshakeError>)
    ensures r == ResponderHandshake(lib, bob, msg)
  {
    var dh1 := lib.ratchet.dh(bob.signedPreKey.secret, msg.identity);
    var dh2 := lib.ratchet.dh(bob.identity.dhSecret, msg.ephemeral);
    var dh3 := lib.ratchet.dh(bob.signedPreKey.secret, msg.ephemeral);
    if msg.usedOneTime && bob.oneTime.None? { return Err(MissingOneTime); }
    if |msg.kemCiphertext| != KEM_CT_LEN { return Err(BadCiphertextLength); }
    var pq := lib.decapsulate(bob.kem.decap, msg.kemCiphertext);
    if pq.None? { return Err(DecapsulationFailed); }
    var ikm: Bytes := dh1;
    ikm := ikm + dh2;
    ikm := ikm + dh3;
    if msg.usedOneTime {
      ikm := ikm + lib.ratchet.dh(bob.oneTime.value.secret, msg.ephemeral);
    } else {
      assert ikm == ikm + [];
    }
    ikm := ikm + pq.value;
    return Ok(lib.kdfRoot(ikm));
  }

  // ---------------------------------------------------------------------------
  // Agreement
  // ---------------------------------------------------------------------------

  /** The bundle of `p`, with or without its one-time key. */
  predicate Publishes(lib: Library, bundle: PreKeyBundle, p: PreKeySecrets) {
    var full := BundleOf(p, lib, bundle.deviceId);
    bundle == full || bundle == full.(oneTime := None)
  }

  lemma GeneratedSecretsConsistent(lib: Library, deviceId: nat, signing: Key32, dhSecret: Key32, spk: Key32,
      otk: Option<Key32>, kemSeed: Bytes)
    requires LawfulLibrary(lib)
    ensures var (bundle, p) := Generate(lib, deviceId, signing, dhSecret, spk, otk, kemSeed);
            Consistent(lib, p) && Publishes(lib, bundle, p) && bundle.oneTime.Some? == otk.Some?
  {
  }

  /** An X25519 key, and an ML-KEM-768 key, as they are listed in a bundle. */
  predicate Listed(key: PublicKey, algo: KeyAlgo, bytes: Bytes) {
    key.algo == algo && key.bytes == bytes
  }

  /**
  What is generated, field by field: the bundle is the device's, each public half is that of the secret kept,
  and both signed keys carry the signature of exactly the bytes beside them, made with the given signing key.
  */
  lemma GeneratedFields(lib: Library, deviceId: nat, signing: Key32, dhSecret: Key32, spk: Key32, otk: Option<Key32>,
      kemSeed: Bytes)
    ensures var (b, p) := Generate(lib, deviceId, signing, dhSecret, spk, otk, kemSeed);
            && b.deviceId == deviceId
            && Listed(b.identityKey, X25519, lib.ratchet.pub(dhSecret))
            && Listed(b.signedPreKey.key, X25519, lib.ratchet.pub(spk))
            && b.signedPreKey.signature == lib.sign(signing, b.signedPreKey.key.bytes)
            && Listed(b.pqKem.key, MlKem768, lib.kemGenerate(kemSeed).1)
            && b.pqKem.signature == lib.sign(signing, b.pqKem.key.bytes)
            && b.oneTime.Some? == otk.Some?
            && (otk.Some? ==> Listed(b.oneTime.value, X25519, lib.ratchet.pub(otk.value)))
    ensures var (b, p) := Generate(lib, deviceId, signing, dhSecret, spk, otk, kemSeed);
            && p.identity.signing == signing && p.identity.dhSecret == dhSecret && p.signedPreKey.secret == spk
            && p.signedPreKey.public == b.signedPreKey.key.bytes
            && p.signedPreKey.signature == b.signedPreKey.signature
            && p.oneTime.Some? == otk.Some?
            && (otk.Some? ==> p.oneTime.value.secret == otk.value && p.oneTime.value.public == b.oneTime.value.bytes)
            && p.kem.decap == lib.kemGenerate(kemSeed).0 && p.kem.encap == b.pqKem.key.bytes
  {
  }

  /** Every key of the bundle whose signature a verifier checks passes, for every verifier that accepts signatures. */
  lemma GeneratedSignaturesVerify(lib: Library, verify: (Bytes, Bytes, Bytes) -> bool, verifying: Key32 -> Bytes,
      deviceId: nat, signing: Key32, dhSecret: Key32, spk: Key32, otk: Option<Key32>, kemSeed: Bytes)
    requires forall k: Key32, m: Bytes :: verify(verifying(k), m, lib.sign(k, m))
    ensures var b := Generate(lib, deviceId, signing, dhSecret, spk, otk, kemSeed).0;
            && verify(verifying(signing), b.signedPreKey.key.bytes, b.signedPreKey.signature)
            && verify(verifying(signing), b.pqKem.key.bytes, b.pqKem.signature)
  {
    GeneratedFields(lib, deviceId, signing, dhSecret, spk, otk, kemSeed);
  }

  /** What the initiator checks, in this order, before it computes anything. */
  predicate KeysDecode(bundle: PreKeyBundle) {
    && |bundle.identityKey.bytes| == 32 && |bundle.signedPreKey.key.bytes| == 32
    && (bundle.oneTime.Some? ==> |bundle.oneTime.value.bytes| == 32)
  }

  /** The initiator's failures, exactly. */
  lemma InitiatorFailsIff(lib: Library, alice: IdentityKeyPair, bundle: PreKeyBundle, eph: Key32, coins: Bytes,
                          rnd: Key32)
    ensures var r := InitiatorHandshake(lib, alice, bundle, eph, coins);
            var kem := bundle.pqKem.key;
            && (r == Err(BadKeyLength) <==> !KeysDecode(bundle))
            && (r == Err(NotMlKem) <==> KeysDecode(bundle) && kem.algo != MlKem768)
            && (r == Err(BadEncapLength) <==> KeysDecode(bundle) && kem.algo == MlKem768 && |kem.bytes| != 1184)
            && (r == Err(EncapsulationFailed) <==>
                  && KeysDecode(bundle) && kem.algo == MlKem768 && |kem.bytes| == 1184
                  && lib.encapsulate(kem.bytes, coins).None?)
            && (r.Ok? <==>
                  && KeysDecode(bundle) && kem.algo == MlKem768 && |kem.bytes| == 1184
                  && lib.encapsulate(kem.bytes, coins).Some?)
            && (r.Err? ==> InitiatorSession(lib, alice, bundle, eph, coins, rnd) == Err(r.error))
  {
  }

  /** Five inputs in this order, or four without a one-time key, each of 32 bytes. */
  predicate MixedIn(ikm: Bytes, dh1: Key32, dh2: Key32, dh3: Key32, dh4: Option<Key32>, pq: Key32) {
    && |ikm| == (if dh4.Some? then 160 else 128)
    && ikm[..32] == dh1 && ikm[32..64] == dh2 && ikm[64..96] == dh3
    && (dh4.Some? ==> ikm[96..128] == dh4.value) && ikm[|ikm| - 32..] == pq
  }

  lemma KeyMaterialLayout(dh1: Key32, dh2: Key32, dh3: Key32, dh4: Option<Key32>, pq: Key32)
    ensures MixedIn(KeyMaterial(dh1, dh2, dh3, dh4, pq), dh1, dh2, dh3, dh4, pq)
  {
    var m := KeyMaterial(dh1, dh2, dh3, dh4, pq);
    assert m[..32] == dh1 && m[32..64] == dh2 && m[64..96] == dh3 && m[|m| - 32..] == pq;
    if dh4.Some? { assert m[96..128] == dh4.value; }
  }

  /**
  What the initiator derives its root from: its identity key with the signed pre-key, its ephemeral key with
  the identity key, the signed pre-key and the one-time key if there is one, and the encapsulated secret. The
  message carries both its public keys, the ciphertext, and whether there was a one-time key.
  */
  lemma InitiatorMixes(lib: Library, alice: IdentityKeyPair, bundle: PreKeyBundle, eph: Key32, coins: Bytes)
    requires InitiatorHandshake(lib, alice, bundle, eph, coins).Ok?
    ensures KeysDecode(bundle)
    ensures var (root, msg) := InitiatorHandshake(lib, alice, bundle, eph, coins).value;
            var ik: Key32, spk: Key32 := bundle.identityKey.bytes, bundle.signedPreKey.key.bytes;
            var opk: Option<Key32> := if bundle.oneTime.Some? then Some(bundle.oneTime.value.bytes) else None;
            var dh := lib.ratchet.dh;
            var (ct, pq) := lib.encapsulate(bundle.pqKem.key.bytes, coins).value;
            && msg == InitMessage(lib.ratchet.pub(alice.dhSecret), lib.ratchet.pub(eph), ct, opk.Some?)
            && exists ikm ::
                 && root == lib.kdfRoot(ikm)
                 && MixedIn(ikm, dh(alice.dhSecret, spk), dh(eph, ik), dh(eph, spk),
                            if opk.Some? then Some(dh(eph, opk.value)) else None, pq)
  {
    var ik: Key32, spk: Key32 := bundle.identityKey.bytes, bundle.signedPreKey.key.bytes;
    var dh4: Option<Key32> :=
      if bundle.oneTime.Some? then Some(lib.ratchet.dh(eph, bundle.oneTime.value.bytes)) else None;
    KeyMaterialLayout(lib.ratchet.dh(alice.dhSecret, spk), lib.ratchet.dh(eph, ik), lib.ratchet.dh(eph, spk), dh4,
        lib.encapsulate(bundle.pqKem.key.bytes, coins).value.1);
  }

  /** What the responder derives it from: the same outputs from the other side, and the decapsulated secret. */
  lemma ResponderMixes(lib: Library, p: PreKeySecrets, msg: InitMessage)
    requires ResponderHandshake(lib, p, msg).Ok?
    ensures lib.decapsulate(p.kem.decap, msg.kemCiphertext).Some? && (msg.usedOneTime ==> p.oneTime.Some?)
    ensures var dh := lib.ratchet.dh;
            var spk := p.signedPreKey.secret;
            exists ikm ::
              && ResponderHandshake(lib, p, msg).value == lib.kdfRoot(ikm)
              && MixedIn(ikm, dh(spk, msg.identity), dh(p.identity.dhSecret, msg.ephemeral), dh(spk, msg.ephemeral),
                         if msg.usedOneTime then Some(dh(p.oneTime.value.secret, msg.ephemeral)) else None,
                         lib.decapsulate(p.kem.decap, msg.kemCiphertext).value)
  {
    var dh := lib.ratchet.dh;
    var spk := p.signedPreKey.secret;
    KeyMaterialLayout(dh(spk, msg.identity), dh(p.identity.dhSecret, msg.ephemeral), dh(spk, msg.ephemeral),
        if msg.usedOneTime then Some(dh(p.oneTime.value.secret, msg.ephemeral)) else None,
        lib.decapsulate(p.kem.decap, msg.kemCiphertext).value);
  }

  /**
  Both sides reach the same root, whether the bundle still carries the one-time key or not, and the
  two ratchets form a session start: the responder sees its keys only through their stored blob.
  */
  lemma SessionsAgree(lib: Library, alice: IdentityKeyPair, p: PreKeySecrets, kemSeed: Bytes, bundle: PreKeyBundle,
                      eph: Key32, coins: Bytes, rnd: Key32)
    requires LawfulLibrary(lib) && Consistent(lib, p) && Publishes(lib, bundle, p)
    requires (p.kem.decap, p.kem.encap) == lib.kemGenerate(kemSeed)
    ensures var stored := Identity.Parse(lib, Identity.Print(p));
            match InitiatorSession(lib, alice, bundle, eph, coins, rnd)
            case Err(e) => e == EncapsulationFailed && lib.encapsulate(p.kem.encap, coins) == None
            case Ok((ra, msg)) =>
              && stored.Ok?
              && (match ResponderSession(lib, stored.value, msg)
                  case Err(_) => false
                  case Ok(rb) =>
                    exists shared: Key32 ::
                      && Start(lib.ratchet, shared, p.signedPreKey.secret, rnd).a.rt == ra
                      && Start(lib.ratchet, shared, p.signedPreKey.secret, rnd).b.rt == rb
                      && Inv(lib.ratchet, Start(lib.ratchet, shared, p.signedPreKey.secret, rnd)))
  {
    Identity.RoundTrip(lib, p, []);
    assert Identity.Print(p) + [] == Identity.Print(p);
    match InitiatorSession(lib, alice, bundle, eph, coins, rnd)
    case Err(_) =>
    case Ok((ra, msg)) =>
      assert KemAgrees(lib, lib.kemGenerate(kemSeed).0, lib.kemGenerate(kemSeed).1, coins);
      var shared := InitiatorHandshake(lib, alice, bundle, eph, coins).value.0;
      assert ResponderHandshake(lib, p, msg) == Ok(shared);
      StartInv(lib.ratchet, shared, p.signedPreKey.secret, rnd);
  }

  /** The responder's failures, exactly. */
  lemma ResponderFailsIff(lib: Library, p: PreKeySecrets, msg: InitMessage)
    ensures var r := ResponderSession(lib, p, msg);
            && (r == Err(MissingOneTime) <==> msg.usedOneTime && p.oneTime.None?)
            && (r == Err(BadCiphertextLength) <==>
                  !(msg.usedOneTime && p.oneTime.None?) && |msg.kemCiphertext| != 1088)
            && (r == Err(DecapsulationFailed) <==>
                  && !(msg.usedOneTime && p.oneTime.None?) && |msg.kemCiphertext| == 1088
                  && lib.decapsulate(p.kem.decap, msg.kemCiphertext) == None)
            && (r.Err? <==>
                  || (msg.usedOneTime && p.oneTime.None?)
                  || |msg.kemCiphertext| != 1088
                  || lib.decapsulate(p.kem.decap, msg.kemCiphertext) == None)
  {
  }

  /** The ratchets are seeded with the handshake's root: towards the signed pre-key, and from its secret. */
  lemma SessionsAreSeeded(lib: Library, alice: IdentityKeyPair, bundle: PreKeyBundle, eph: Key32, coins: Bytes,
                          rnd: Key32, p: PreKeySecrets, msg: InitMessage)
    ensures InitiatorSession(lib, alice, bundle, eph, coins, rnd).Ok? ==>
              && InitiatorHandshake(lib, alice, bundle, eph, coins).Ok? && |bundle.signedPreKey.key.bytes| == 32
              && var (root, m) := InitiatorHandshake(lib, alice, bundle, eph, coins).value;
                 var spk: Key32 := bundle.signedPreKey.key.bytes;
                 var (root1, chain) := lib.ratchet.kdfRk(root, lib.ratchet.dh(rnd, spk));
                 InitiatorSession(lib, alice, bundle, eph, coins, rnd)
                 == Ok((Ratchet(root1, rnd, Some(spk), Some(chain), None, 0, 0), m))
    ensures ResponderSession(lib, p, msg).Ok? ==>
              && ResponderHandshake(lib, p, msg).Ok?
              && ResponderSession(lib, p, msg).value
                 == Ratchet(ResponderHandshake(lib, p, msg).value, p.signedPreKey.secret, None, None, None, 0, 0)
  {
  }
}
