/** Device identity, pre-keys and the KEM key pair; the blob a device keeps to answer handshakes. */
module Identity {
  import opened Prelude
  import opened Cursors
  import opened RatchetCodec

  const DECAP_LEN := 2400        // ML-KEM-768 decapsulation key (section 8 of FIPS 203)
  const ENCAP_LEN := 1184        // ML-KEM-768 encapsulation key
  const KEM_CT_LEN := 1088       // ML-KEM-768 ciphertext

  datatype IdentityError = TruncatedSecrets | BadDecapKey | BadEncapKey

  /** The libraries behind identity and handshake, on bytes. */
  datatype Library = Library(
    ratchet: ByteSuite,
    sign: (Key32, Bytes) -> Bytes,                        // Ed25519, deterministic (RFC 8032)
    kemGenerate: Bytes -> (Bytes, Bytes),                 // randomness to (decapsulation, encapsulation) key
    encapsulate: (Bytes, Bytes) -> Option<(Bytes, Key32)>,  // key, randomness to (ciphertext, secret)
    decapsulate: (Bytes, Bytes) -> Option<Key32>,         // key, ciphertext
    kdfRoot: Bytes -> Key32)

  datatype IdentityKeyPair = IdentityKeyPair(signing: Key32, dhSecret: Key32)
  datatype SignedPreKeyPair = SignedPreKeyPair(secret: Key32, public: Key32, signature: Bytes)
  datatype OneTimePreKey = OneTimePreKey(secret: Key32, public: Key32)
  datatype KemKeyPair = KemKeyPair(decap: Bytes, encap: Bytes)

  datatype PreKeySecrets = PreKeySecrets(
    identity: IdentityKeyPair,
    signedPreKey: SignedPreKeyPair,
    oneTime: Option<OneTimePreKey>,
    kem: KemKeyPair)

  datatype KeyAlgo = X25519 | MlKem768
  datatype PublicKey = PublicKey(algo: KeyAlgo, bytes: Bytes)
  datatype SignedPreKey = SignedPreKey(key: PublicKey, signature: Bytes)

  /** What a device publishes. The device identifier is a number here. */
  datatype PreKeyBundle = PreKeyBundle(
    deviceId: nat,
    identityKey: PublicKey,
    signedPreKey: SignedPreKey,
    oneTime: Option<PublicKey>,
    pqKem: SignedPreKey)

  function MakeSignedPreKey(lib: Library, identity: IdentityKeyPair, secret: Key32): SignedPreKeyPair {
    var public := lib.ratchet.pub(secret);
    SignedPreKeyPair(secret, public, lib.sign(identity.signing, public))
  }

  function MakeOneTime(lib: Library, secret: Key32): OneTimePreKey {
    OneTimePreKey(secret, lib.ratchet.pub(secret))
  }

  function BundleOf(p: PreKeySecrets, lib: Library, deviceId: nat): PreKeyBundle {
    PreKeyBundle(
      deviceId,
      PublicKey(X25519, lib.ratchet.pub(p.identity.dhSecret)),
      SignedPreKey(PublicKey(X25519, p.signedPreKey.public), p.signedPreKey.signature),
      match p.oneTime case Some(o) => Some(PublicKey(X25519, o.public)) case None => None,
      SignedPreKey(PublicKey(MlKem768, p.kem.encap), lib.sign(p.identity.signing, p.kem.encap)))
  }

  /** `generate_prekey_bundle`, with the random secrets as arguments. */
  function Generate(lib: Library, deviceId: nat, signing: Key32, dhSecret: Key32, spk: Key32, otk: Option<Key32>,
      kemSeed: Bytes): (PreKeyBundle, PreKeySecrets)
  {
    var identity := IdentityKeyPair(signing, dhSecret);
    var (decap, encap) := lib.kemGenerate(kemSeed);
    var secrets := PreKeySecrets(
      identity,
      MakeSignedPreKey(lib, identity, spk),
      match otk case Some(k) => Some(MakeOneTime(lib, k)) case None => None,
      KemKeyPair(decap, encap));
    (BundleOf(secrets, lib, deviceId), secrets)
  }

  /** Secrets as generation makes them: derived halves match, KEM keys have their fixed sizes. */
  predicate Consistent(lib: Library, p: PreKeySecrets) {
    && p.signedPreKey == MakeSignedPreKey(lib, p.identity, p.signedPreKey.secret)
    && (p.oneTime.Some? ==> p.oneTime.value == MakeOneTime(lib, p.oneTime.value.secret))
    && |p.kem.decap| == DECAP_LEN && |p.kem.encap| == ENCAP_LEN
  }

  // ---------------------------------------------------------------------------
  // Secret blob
  // ---------------------------------------------------------------------------

  function OneTimeSecret(p: PreKeySecrets): Option<Key32> {
    match p.oneTime
    case Some(o) => Some(o.secret)
    case None => None
  }

  /** A u32 little-endian length, then the bytes. The length is truncated to 32 bits, as the cast does. */
  function PrintBlock(b: Bytes): Bytes {
    LittleEndian(|b| % U32_SIZE) + b
  }

  function Print(p: PreKeySecrets): Bytes {
    p.identity.signing + p.identity.dhSecret + p.signedPreKey.secret + PrintOption(OneTimeSecret(p))
    + PrintBlock(p.kem.decap) + PrintBlock(p.kem.encap)
  }

  function TakeBlock(d: Bytes): Result<(Bytes, Bytes), Truncated> {
    var (n, rest) :- TakeU32(d);
    Take(rest, n)
  }

  datatype Fields = Fields(signing: Key32, dhSecret: Key32, spk: Key32, otk: Option<Key32>)

  function ParseKeys(d: Bytes): Result<(Fields, Bytes), Truncated> {
    var (signing, d1) :- TakeKey(d);
    var (dhSecret, d2) :- TakeKey(d1);
    var (spk, d3) :- TakeKey(d2);
    var (otk, d4) :- TakeOption(d3);
    Ok((Fields(signing, dhSecret, spk, otk), d4))
  }

  function Rebuild(lib: Library, f: Fields, decap: Bytes, encap: Bytes): PreKeySecrets {
    var identity := IdentityKeyPair(f.signing, f.dhSecret);
    PreKeySecrets(identity, MakeSignedPreKey(lib, identity, f.spk),
                  match f.otk case Some(k) => Some(MakeOneTime(lib, k)) case None => None,
                  KemKeyPair(decap, encap))
  }

  /** The public halves and the signature are recomputed from the restored secrets. */
  function Parse(lib: Library, d: Bytes): Result<PreKeySecrets, IdentityError> {
    match ParseKeys(d)
    case Err(_) => Err(TruncatedSecrets)
    case Ok((f, d1)) =>
      match TakeBlock(d1)
      case Err(_) => Err(TruncatedSecrets)
      case Ok((decap, d2)) =>
        if |decap| != DECAP_LEN then Err(BadDecapKey)
        else match TakeBlock(d2)
          case Err(_) => Err(TruncatedSecrets)
          case Ok((encap, _)) =>
            if |encap| != ENCAP_LEN then Err(BadEncapKey)
            else Ok(Rebuild(lib, f, decap, encap))
  }

  lemma TakeBlockPrinted(b: Bytes, rest: Bytes)
    requires |b| < U32_SIZE
    ensures TakeBlock(PrintBlock(b) + rest) == Ok((b, rest))
  {
    SizeRead(|b|, b + rest);
    TakeSized(LittleEndian(|b| % U32_SIZE), b, rest);
  }

  lemma SmallSize(n: nat)
    requires n < U32_SIZE
    ensures n % U32_SIZE == n
  {
  }

  lemma SizeRead(n: nat, rest: Bytes)
    requires n < U32_SIZE
    ensures TakeU32(LittleEndian(n % U32_SIZE) + rest) == Ok((n, rest))
  {
    var m: u32 := n % U32_SIZE;
    SmallSize(n);
    TakeU32Printed(m, rest);
  }

  lemma TakeSized(size: Bytes, b: Bytes, rest: Bytes)
    requires |b| < U32_SIZE && TakeU32(size + (b + rest)) == Ok((|b|, b + rest))
    ensures TakeBlock(size + b + rest) == Ok((b, rest))
  {
    assert size + b + rest == size + (b + rest);
    TakePrinted(b, rest);
  }

  /** Every consistent set of secrets, with or without a one-time key, survives its blob. */
  lemma RoundTrip(lib: Library, p: PreKeySecrets, rest: Bytes)
    requires Consistent(lib, p)
    ensures Parse(lib, Print(p) + rest) == Ok(p)
  {
    var d5 := PrintBlock(p.kem.encap) + rest;
    var d4 := PrintBlock(p.kem.decap) + d5;
    var d3 := PrintOption(OneTimeSecret(p)) + d4;
    var d2 := p.signedPreKey.secret + d3;
    var d1 := p.identity.dhSecret + d2;
    assert Print(p) + rest == p.identity.signing + d1;
    TakePrinted(p.identity.signing, d1);
    TakePrinted(p.identity.dhSecret, d2);
    TakePrinted(p.signedPreKey.secret, d3);
    TakeOptionPrinted(OneTimeSecret(p), d4);
    TakeBlockPrinted(p.kem.decap, d5);
    TakeBlockPrinted(p.kem.encap, rest);
  }

  lemma TakeBlockExtends(d: Bytes, more: Bytes)
    requires TakeBlock(d).Ok?
    ensures var (b, rest) := TakeBlock(d).value;
            TakeBlock(d + more) == Ok((b, rest + more)) && |d| == 4 + |b| + |rest|
  {
    TakeExtends(d, more, 4);
    TakeExtends(d[4..], more, FromLittleEndian(d[..4]));
  }

  lemma ParseExtends(lib: Library, d: Bytes, more: Bytes)
    requires Parse(lib, d).Ok?
    ensures Parse(lib, d + more) == Parse(lib, d) && |Print(Parse(lib, d).value)| <= |d|
  {
    var (signing, d1) := TakeKey(d).value;
    var (dhSecret, d2) := TakeKey(d1).value;
    var (spk, d3) := TakeKey(d2).value;
    var (otk, d4) := TakeOption(d3).value;
    var (decap, d5) := TakeBlock(d4).value;
    TakeExtends(d, more, 32);
    TakeExtends(d1, more, 32);
    TakeExtends(d2, more, 32);
    TakeOptionExtends(d3, more);
    TakeBlockExtends(d4, more);
    TakeBlockExtends(d5, more);
  }

  lemma PrefixGivesWhole(lib: Library, b: Bytes, n: nat)
    requires n <= |b| && Parse(lib, b[..n]).Ok?
    ensures Parse(lib, b) == Parse(lib, b[..n]) && |Print(Parse(lib, b).value)| <= n
  {
    CutJoins(b, n);
    ParseExtends(lib, b[..n], b[n..]);
  }

  /** No strict prefix of a blob of consistent secrets is accepted. */
  lemma StrictPrefixRejected(lib: Library, p: PreKeySecrets, n: nat)
    requires Consistent(lib, p) && n < |Print(p)|
    ensures Parse(lib, Print(p)[..n]).Err?
  {
    CutJoins(Print(p), n);
    RoundTrip(lib, p, []);
    if Parse(lib, Print(p)[..n]).Ok? { PrefixGivesWhole(lib, Print(p), n); }
  }

  /** Where a block at `at` ends: after its length, and after as many bytes as that says. */
  function BlockEnd(d: Bytes, at: nat): nat {
    if at + 4 <= |d| then at + 4 + NumberAt(d, at) else at + 4
  }

  lemma TakeBlockEnds(d: Bytes, at: nat)
    requires at <= |d|
    ensures TakeBlock(d[at..]).Ok? <==> BlockEnd(d, at) <= |d|
    ensures BlockEnd(d, at) <= |d| ==> TakeBlock(d[at..]).value == (d[at + 4..BlockEnd(d, at)], d[BlockEnd(d, at)..])
  {
    TakeNumber(d, at);
    if BlockEnd(d, at) <= |d| {
      var rest, n := d[at + 4..], NumberAt(d, at);
      assert rest[..n] == d[at + 4..at + 4 + n] && rest[n..] == d[at + 4 + n..];
    }
  }

  /** Secrets as they were stored, with the public halves and the signature made again from them. */
  predicate Restores(lib: Library, p: PreKeySecrets, d: Bytes, decapAt: nat, encapAt: nat, end: nat)
    requires 96 < decapAt <= |d| && decapAt == OptionEnd(d, 96) && decapAt + 4 <= encapAt <= |d|
    requires encapAt + 4 <= end <= |d|
  {
    && p.identity.signing == d[..32] && p.identity.dhSecret == d[32..64] && p.signedPreKey.secret == d[64..96]
    && p.signedPreKey.public == lib.ratchet.pub(p.signedPreKey.secret)
    && p.signedPreKey.signature == lib.sign(p.identity.signing, p.signedPreKey.public)
    && OptionRead(d, 96, OneTimeSecret(p))
    && (p.oneTime.Some? ==> p.oneTime.value.public == lib.ratchet.pub(p.oneTime.value.secret))
    && p.kem.decap == d[decapAt + 4..encapAt] && p.kem.encap == d[encapAt + 4..end]
  }

  /** Which blobs are read, as what, and how the others fail, for every string of bytes. */
  lemma ParsesIff(lib: Library, d: Bytes)
    ensures var decapAt := OptionEnd(d, 96);
            var encapAt := BlockEnd(d, decapAt);
            var end := BlockEnd(d, encapAt);
            var r := Parse(lib, d);
            && (r == Err(BadDecapKey) <==> encapAt <= |d| && NumberAt(d, decapAt) != 2400)
            && (r == Err(BadEncapKey) <==> end <= |d| && NumberAt(d, decapAt) == 2400 && NumberAt(d, encapAt) != 1184)
            && (r.Ok? <==> end <= |d| && NumberAt(d, decapAt) == 2400 && NumberAt(d, encapAt) == 1184)
            && (r == Err(TruncatedSecrets) <==> encapAt > |d| || (NumberAt(d, decapAt) == 2400 && end > |d|))
            && (r.Ok? ==> Restores(lib, r.value, d, decapAt, encapAt, end))
  {
    if |d| < 96 { return; }
    ParsesKeys(d);
    var decapAt := OptionEnd(d, 96);
    if decapAt > |d| { return; }
    TakeBlockEnds(d, decapAt);
    var encapAt := BlockEnd(d, decapAt);
    if encapAt > |d| { return; }
    TakeBlockEnds(d, encapAt);
  }

  lemma ParsesKeys(d: Bytes)
    requires |d| >= 96
    ensures ParseKeys(d).Ok? <==> OptionEnd(d, 96) <= |d|
    ensures ParseKeys(d).Ok? ==>
              var (f, rest) := ParseKeys(d).value;
              && f.signing == d[..32] && f.dhSecret == d[32..64] && f.spk == d[64..96] && OptionRead(d, 96, f.otk)
              && rest == d[OptionEnd(d, 96)..]
  {
    assert d[32..][..32] == d[32..64] && d[32..][32..] == d[64..];
    assert d[64..][..32] == d[64..96] && d[64..][32..] == d[96..];
    TakeOptionEnds(d, 96);
  }

  /** A block at `at`: its length modulo 2^32, lowest byte first, and the bytes. */
  predicate BlockAt(d: Bytes, at: nat, b: Bytes) {
    && at + 4 + |b| <= |d| && NumberAt(d, at) == |b| % 0x1_0000_0000
    && d[at + 4..at + 4 + |b|] == b
  }

  lemma PrintedBlockAt(before: Bytes, b: Bytes, after: Bytes)
    ensures BlockAt(before + PrintBlock(b) + after, |before|, b)
  {
    var d, at := before + PrintBlock(b) + after, |before|;
    var size := LittleEndian(|b| % U32_SIZE);
    assert d == before + size + b + after;
    LittleEndianDigits(|b| % U32_SIZE);
    assert d[at] == size[0] && d[at + 1] == size[1] && d[at + 2] == size[2] && d[at + 3] == size[3];
    assert d[at + 4..at + 4 + |b|] == b;
  }

  /** Where the printed secrets are: three keys, the one-time key or its absence, and both KEM keys last. */
  lemma PrintLayout(p: PreKeySecrets)
    ensures var d := Print(p);
            var decapAt := 96 + OptionSize(OneTimeSecret(p));
            var encapAt := decapAt + 4 + |p.kem.decap|;
            && |d| == encapAt + 4 + |p.kem.encap|
            && d[..32] == p.identity.signing && d[32..64] == p.identity.dhSecret && d[64..96] == p.signedPreKey.secret
            && OptionAt(d, 96, OneTimeSecret(p)) && BlockAt(d, decapAt, p.kem.decap) && BlockAt(d, encapAt, p.kem.encap)
  {
    var option, decap, encap := PrintOption(OneTimeSecret(p)), PrintBlock(p.kem.decap), PrintBlock(p.kem.encap);
    KeysAt(p.identity.signing, p.identity.dhSecret, p.signedPreKey.secret, option, decap, encap);
    var keys := p.identity.signing + p.identity.dhSecret + p.signedPreKey.secret;
    TailAt(keys, OneTimeSecret(p), p.kem.decap, p.kem.encap);
  }

  lemma KeysAt(a: Key32, b: Key32, c: Key32, option: Bytes, decap: Bytes, encap: Bytes)
    ensures var d := a + b + c + option + decap + encap;
            d[..32] == a && d[32..64] == b && d[64..96] == c
  {
  }

  lemma TailAt(keys: Bytes, o: Option<Key32>, decap: Bytes, encap: Bytes)
    ensures var d := keys + PrintOption(o) + PrintBlock(decap) + PrintBlock(encap);
            var decapAt := |keys| + OptionSize(o);
            OptionAt(d, |keys|, o) && BlockAt(d, decapAt, decap) && BlockAt(d, decapAt + 4 + |decap|, encap)
  {
    var option, first, second := PrintOption(o), PrintBlock(decap), PrintBlock(encap);
    CutsOf(keys, option, first, second);
    PrintedOptionAt(keys, o, first + second);
    PrintedBlockAt(keys + option, decap, second);
    PrintedBlockAt(keys + option + first, encap, []);
  }

  /** The same bytes, cut in three ways. */
  lemma CutsOf(a: Bytes, b: Bytes, c: Bytes, d: Bytes)
    ensures a + b + c + d == a + b + (c + d) == (a + b) + c + d == (a + b + c) + d + []
  {
  }

  method ToBytes(p: PreKeySecrets) returns (out: Bytes)
    ensures out == Print(p)
  {
    out := [];
    out := out + p.identity.signing;
    out := out + p.identity.dhSecret;
    out := out + p.signedPreKey.secret;
    ghost var keys := p.identity.signing + p.identity.dhSecret + p.signedPreKey.secret;
    assert out == keys;
    match p.oneTime {
      case Some(o) =>
        out := out + [1];
        out := out + o.secret;
        assert out == keys + ([1] + o.secret);
      case None =>
        out := out + [0];
    }
    ghost var head := keys + PrintOption(OneTimeSecret(p));
    assert out == head;
    out := PushBlock(out, p.kem.decap);
    out := PushBlock(out, p.kem.encap);
  }

  method PushBlock(buffer: Bytes, b: Bytes) returns (out: Bytes)
    ensures out == buffer + PrintBlock(b)
  {
    out := buffer + LittleEndian(|b| % U32_SIZE);
    out := out + b;
  }

  method TakeBlockAt(data: Bytes, p: nat) returns (r: Result<Bytes, Truncated>, q: nat)
    requires p <= |data|
    ensures q <= |data|
    ensures match TakeBlock(data[p..])
            case Ok((x, rest)) => r == Ok(x) && data[q..] == rest
            case Err(_) => r == Err(Truncated)
  {
    var len, p1 := TakeAt(data, p, 4);
    if len.Err? { return Err(Truncated), p; }
    r, q := TakeAt(data, p1, FromLittleEndian(len.value));
  }

  method FromBytes(lib: Library, data: Bytes) returns (r: Result<PreKeySecrets, IdentityError>)
    ensures r == Parse(lib, data)
  {
    assert data[0..] == data;
    var signing, p1 := TakeAt(data, 0, 32);
    if signing.Err? { return Err(TruncatedSecrets); }
    var idDh, p2 := TakeAt(data, p1, 32);
    if idDh.Err? { return Err(TruncatedSecrets); }
    var spk, p3 := TakeAt(data, p2, 32);
    if spk.Err? { return Err(TruncatedSecrets); }
    var oneTime, p4 := TakeOptionAt(data, p3);
    if oneTime.Err? { return Err(TruncatedSecrets); }
    var f := Fields(signing.value, idDh.value, spk.value, oneTime.value);
    assert ParseKeys(data) == Ok((f, data[p4..]));
    var decap, p5 := TakeBlockAt(data, p4);
    if decap.Err? { return Err(TruncatedSecrets); }
    if |decap.value| != DECAP_LEN { return Err(BadDecapKey); }
    var encap, p6 := TakeBlockAt(data, p5);
    if encap.Err? { return Err(TruncatedSecrets); }
    if |encap.value| != ENCAP_LEN { return Err(BadEncapKey); }
    return Ok(Rebuild(lib, f, decap.value, encap.value));
  }
}
