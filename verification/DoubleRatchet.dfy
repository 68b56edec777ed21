/** The Double Ratchet state and its two transitions, as functions on values. */
module DoubleRatchet {
  import opened Prelude
  import opened Suites

  datatype RatchetError = NoRemoteKey | SealFailed | OpenFailed | FrameTooShort | TruncatedState

  datatype Ratchet<Sec, Pub, Key> = Ratchet(
    root: Key,
    self: Sec,
    remote: Option<Pub>,
    send: Option<Key>,
    recv: Option<Key>,
    sendN: u32,
    recvN: u32)

  /** `[sender DH public key][AEAD output]`. */
  datatype Frame<Pub, Box> = Frame(dh: Pub, body: Box)

  /** 12-byte nonce: eight zero bytes, then the counter in big-endian order. */
  function Nonce(n: u32): Bytes {
    [0, 0, 0, 0, 0, 0, 0, 0] + BigEndian(n)
  }

  lemma NonceInjective(m: u32, n: u32)
    requires Nonce(m) == Nonce(n)
    ensures m == n
  {
    assert BigEndian(m) == Nonce(m)[8..] && BigEndian(n) == Nonce(n)[8..];
    BigEndianInjective(m, n);
  }

  /** Twelve bytes: eight zeros, and the counter with its most significant byte first. */
  lemma NonceLayout(n: u32)
    ensures var b := Nonce(n);
            && |b| == 12 && (forall i | 0 <= i < 8 :: b[i] == 0)
            && n == 0x100_0000 * (b[8] as int) + 0x1_0000 * (b[9] as int) + 0x100 * (b[10] as int) + b[11] as int
  {
    BigEndianDigits(n);
    assert Nonce(n)[8..] == BigEndian(n);
    assert forall i | 0 <= i < 4 :: Nonce(n)[8 + i] == BigEndian(n)[i];
  }

  function NewInitiator<Sec, Pub, Key, Box>(s: Suite<Sec, Pub, Key, Box>, shared: Key, remote: Pub, rnd: Sec)
    : Ratchet<Sec, Pub, Key>
  {
    var (root, chain) := s.kdfRk(shared, s.dh(rnd, remote));
    Ratchet(root, rnd, Some(remote), Some(chain), None, 0, 0)
  }

  function NewResponder<Sec, Pub, Key>(shared: Key, self: Sec): Ratchet<Sec, Pub, Key> {
    Ratchet(shared, self, None, None, None, 0, 0)
  }

  /** The next `Encrypt` performs a sending DH ratchet. */
  predicate SendRotates<Sec, Pub, Key>(r: Ratchet<Sec, Pub, Key>) {
    r.send.None? && r.remote.Some?
  }

  /** Decrypting a frame that carries `dh` performs a receiving DH ratchet. */
  predicate ReceiveRotates<Sec, Pub(==), Key>(r: Ratchet<Sec, Pub, Key>, dh: Pub) {
    r.remote != Some(dh) || r.recv.None?
  }

  function SendRatchet<Sec, Pub, Key, Box>(s: Suite<Sec, Pub, Key, Box>, r: Ratchet<Sec, Pub, Key>, rnd: Sec)
    : Ratchet<Sec, Pub, Key>
    requires SendRotates(r)
  {
    var (root, chain) := s.kdfRk(r.root, s.dh(rnd, r.remote.value));
    r.(root := root, self := rnd, send := Some(chain), sendN := 0)
  }

  function ReceiveRatchet<Sec, Pub, Key, Box>(s: Suite<Sec, Pub, Key, Box>, r: Ratchet<Sec, Pub, Key>, dh: Pub)
    : Ratchet<Sec, Pub, Key>
  {
    var (root, chain) := s.kdfRk(r.root, s.dh(r.self, dh));
    r.(root := root, recv := Some(chain), recvN := 0, remote := Some(dh), send := None)
  }

  /** `encrypt`: the state it leaves behind (even on failure) and the frame. */
  function Encrypt<Sec, Pub, Key, Box>(s: Suite<Sec, Pub, Key, Box>, r: Ratchet<Sec, Pub, Key>, rnd: Sec, m: Bytes)
    : (Ratchet<Sec, Pub, Key>, Result<Frame<Pub, Box>, RatchetError>)
  {
    if r.send.None? && r.remote.None? then
      (r, Err(NoRemoteKey))
    else
      var r1 := if r.send.None? then SendRatchet(s, r, rnd) else r;
      var (next, key) := s.kdfCk(r1.send.value);
      match s.seal(key, Nonce(r1.sendN), s.pub(r1.self), m)
      case None => (r1, Err(SealFailed))
      case Some(box) =>
        (r1.(send := Some(next), sendN := Inc(r1.sendN)), Ok(Frame(s.pub(r1.self), box)))
  }

  /** `decrypt`: the state it leaves behind (even on failure) and the plaintext. */
  function Decrypt<Sec, Pub(==), Key, Box>(s: Suite<Sec, Pub, Key, Box>, r: Ratchet<Sec, Pub, Key>, f: Frame<Pub, Box>)
    : (Ratchet<Sec, Pub, Key>, Result<Bytes, RatchetError>)
  {
    var r1 := if ReceiveRotates(r, f.dh) then ReceiveRatchet(s, r, f.dh) else r;
    var (next, key) := s.kdfCk(r1.recv.value);
    match s.open(key, Nonce(r1.recvN), f.dh, f.body)
    case None => (r1, Err(OpenFailed))
    case Some(m) => (r1.(recv := Some(next), recvN := Inc(r1.recvN)), Ok(m))
  }

  /**
  A decrypt that fails authentication has already changed the in-memory state exactly when the
  frame triggered a DH ratchet: the root moves before the AEAD check.
  */
  lemma FailedDecryptKeepsStateIff<Sec, Pub, Key, Box>(s: Suite<Sec, Pub, Key, Box>, r: Ratchet<Sec, Pub, Key>,
      f: Frame<Pub, Box>)
    requires Decrypt(s, r, f).1.Err?
    ensures Decrypt(s, r, f).0 == r <==> !ReceiveRotates(r, f.dh)
  {
    if ReceiveRotates(r, f.dh) {
      var r1 := ReceiveRatchet(s, r, f.dh);
      assert r1.remote == Some(f.dh) && r1.recv.Some?;
    }
  }

  /**
  Sending on a chain that is in place. It fails exactly when the AEAD fails on that chain's message key, the
  counter's nonce, the own public key and the text, and then changes nothing.
  */
  lemma SendsOnChainIff<Sec, Pub, Key, Box>(s: Suite<Sec, Pub, Key, Box>, r: Ratchet<Sec, Pub, Key>, rnd: Sec,
      m: Bytes)
    requires r.send.Some?
    ensures var (next, key) := s.kdfCk(r.send.value);
            var box := s.seal(key, Nonce(r.sendN), s.pub(r.self), m);
            var (r1, res) := Encrypt(s, r, rnd, m);
            if box.None? then r1 == r && res == Err(SealFailed)
            else
              && res == Ok(Frame(s.pub(r.self), box.value))
              && r1 == Ratchet(r.root, r.self, r.remote, Some(next), r.recv,
                               if r.sendN == U32_SIZE - 1 then 0 else r.sendN + 1, r.recvN)
  {
  }

  /**
  Sending with no chain: a new DH key starts one. It fails exactly when the AEAD fails on the first message
  key of the new chain, under nonce zero and the new public key; the new chain then stays.
  */
  lemma SendsOnNewChainIff<Sec, Pub, Key, Box>(s: Suite<Sec, Pub, Key, Box>, r: Ratchet<Sec, Pub, Key>, rnd: Sec,
      m: Bytes)
    requires r.send.None? && r.remote.Some?
    ensures var (root, chain) := s.kdfRk(r.root, s.dh(rnd, r.remote.value));
            var (next, key) := s.kdfCk(chain);
            var box := s.seal(key, Nonce(0), s.pub(rnd), m);
            var (r1, res) := Encrypt(s, r, rnd, m);
            if box.None? then
              && res == Err(SealFailed)
              && r1 == Ratchet(root, rnd, r.remote, Some(chain), r.recv, 0, r.recvN)
            else
              && res == Ok(Frame(s.pub(rnd), box.value))
              && r1 == Ratchet(root, rnd, r.remote, Some(next), r.recv, 1, r.recvN)
  {
  }

  /** What a send seals with: message key, counter and own secret. */
  datatype Sealing<Sec, Key> = Sealing(key: Key, counter: u32, self: Sec)

  /** The sealing of the next send, if there is a chain or a remote key to start one with. */
  function NextSealing<Sec, Pub, Key, Box>(s: Suite<Sec, Pub, Key, Box>, r: Ratchet<Sec, Pub, Key>, rnd: Sec)
    : Option<Sealing<Sec, Key>>
  {
    match (r.send, r.remote)
    case (Some(chain), _) => Some(Sealing(s.kdfCk(chain).1, r.sendN, r.self))
    case (None, Some(p)) => Some(Sealing(s.kdfCk(s.kdfRk(r.root, s.dh(rnd, p)).1).1, 0, rnd))
    case (None, None) => None
  }

  /** When a send succeeds, for every suite, state and text, and how it fails otherwise. */
  lemma EncryptSucceedsIff<Sec, Pub, Key, Box>(s: Suite<Sec, Pub, Key, Box>, r: Ratchet<Sec, Pub, Key>, rnd: Sec,
      m: Bytes)
    ensures var (r1, res) := Encrypt(s, r, rnd, m);
            match NextSealing(s, r, rnd)
            case None => res == Err(NoRemoteKey) && r1 == r && r.send.None? && r.remote.None?
            case Some(n) =>
              var box := s.seal(n.key, Nonce(n.counter), s.pub(n.self), m);
              && (res.Ok? <==> box.Some?)
              && res == if box.Some? then Ok(Frame(s.pub(n.self), box.value)) else Err(SealFailed)
  {
    if r.send.Some? {
      SendsOnChainIff(s, r, rnd, m);
    } else if r.remote.Some? {
      SendsOnNewChainIff(s, r, rnd, m);
    }
  }

  /** The chain a frame is read on: a new one if its DH key is new or there is none, else the one in place. */
  function ReadingChain<Sec, Pub(==), Key, Box>(s: Suite<Sec, Pub, Key, Box>, r: Ratchet<Sec, Pub, Key>, dh: Pub)
    : (Key, u32)
  {
    match r.recv
    case Some(chain) => if r.remote == Some(dh) then (chain, r.recvN) else (s.kdfRk(r.root, s.dh(r.self, dh)).1, 0)
    case None => (s.kdfRk(r.root, s.dh(r.self, dh)).1, 0)
  }

  lemma ReadsOnChainIff<Sec, Pub, Key, Box>(s: Suite<Sec, Pub, Key, Box>, r: Ratchet<Sec, Pub, Key>,
      f: Frame<Pub, Box>)
    requires r.recv.Some? && r.remote == Some(f.dh)
    ensures var (next, key) := s.kdfCk(r.recv.value);
            var text := s.open(key, Nonce(r.recvN), f.dh, f.body);
            Decrypt(s, r, f) ==
              if text.None? then (r, Err(OpenFailed))
              else (Ratchet(r.root, r.self, r.remote, r.send, Some(next), r.sendN,
                            if r.recvN == U32_SIZE - 1 then 0 else r.recvN + 1), Ok(text.value))
  {
  }

  lemma ReadsOnNewChainIff<Sec, Pub, Key, Box>(s: Suite<Sec, Pub, Key, Box>, r: Ratchet<Sec, Pub, Key>,
      f: Frame<Pub, Box>)
    requires r.recv.None? || r.remote != Some(f.dh)
    ensures var (root, chain) := s.kdfRk(r.root, s.dh(r.self, f.dh));
            var (next, key) := s.kdfCk(chain);
            var text := s.open(key, Nonce(0), f.dh, f.body);
            Decrypt(s, r, f) ==
              if text.None? then (Ratchet(root, r.self, Some(f.dh), None, Some(chain), r.sendN, 0), Err(OpenFailed))
              else (Ratchet(root, r.self, Some(f.dh), None, Some(next), r.sendN, 1), Ok(text.value))
  {
  }

  /**
  When a frame is read, for every suite, state and frame: exactly when the AEAD opens its body under the
  message key and nonce of the reading chain and the frame's DH key; the text is the one it opens to.
  */
  lemma DecryptSucceedsIff<Sec, Pub, Key, Box>(s: Suite<Sec, Pub, Key, Box>, r: Ratchet<Sec, Pub, Key>,
      f: Frame<Pub, Box>)
    ensures var (chain, n) := ReadingChain(s, r, f.dh);
            var text := s.open(s.kdfCk(chain).1, Nonce(n), f.dh, f.body);
            Decrypt(s, r, f).1 == if text.Some? then Ok(text.value) else Err(OpenFailed)
  {
    if r.recv.Some? && r.remote == Some(f.dh) {
      ReadsOnChainIff(s, r, f);
    } else {
      ReadsOnNewChainIff(s, r, f);
    }
  }
}
