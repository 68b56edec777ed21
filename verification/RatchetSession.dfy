/** The mutable ratchet object, proved against the transitions on values. */
module RatchetSession {
  import opened Prelude
  import opened Cursors
  import opened DoubleRatchet
  import opened RatchetCodec

  const DH_PUB_LEN := 32

  /** The frame on the wire: the DH public key, then the AEAD output. */
  function FrameBytes(f: Frame<Key32, Bytes>): Bytes {
    f.dh + f.body
  }

  function EncryptBytes(s: ByteSuite, r: ByteRatchet, rnd: Key32, m: Bytes): (ByteRatchet, Result<Bytes, RatchetError>)
  {
    match Encrypt(s, r, rnd, m)
    case (r1, Ok(f)) => (r1, Ok(FrameBytes(f)))
    case (r1, Err(e)) => (r1, Err(e))
  }

  function DecryptBytes(s: ByteSuite, r: ByteRatchet, ct: Bytes): (ByteRatchet, Result<Bytes, RatchetError>) {
    if |ct| < DH_PUB_LEN then (r, Err(FrameTooShort))
    else Decrypt(s, r, Frame(ct[..DH_PUB_LEN], ct[DH_PUB_LEN..]))
  }

  /** Reading a framed message off the wire is decrypting the frame. */
  lemma DecryptsFrameBytes(s: ByteSuite, r: ByteRatchet, f: Frame<Key32, Bytes>)
    ensures DecryptBytes(s, r, FrameBytes(f)) == Decrypt(s, r, f)
  {
    assert FrameBytes(f)[..DH_PUB_LEN] == f.dh && FrameBytes(f)[DH_PUB_LEN..] == f.body;
  }

  /**
  What goes over the wire, and when: 32 bytes of public key, then what the AEAD made of the text under the next
  sealing, which exists unless there is neither a sending chain nor a remote key.
  */
  lemma EncryptsToWire(s: ByteSuite, r: ByteRatchet, rnd: Key32, m: Bytes)
    ensures var res := EncryptBytes(s, r, rnd, m).1;
            match NextSealing(s, r, rnd)
            case None => res == Err(NoRemoteKey)
            case Some(n) =>
              match s.seal(n.key, Nonce(n.counter), s.pub(n.self), m)
              case None => res == Err(SealFailed)
              case Some(box) =>
                res.Ok? && |res.value| == 32 + |box| && res.value[..32] == s.pub(n.self) && res.value[32..] == box
  {
    EncryptSucceedsIff(s, r, rnd, m);
  }

  /** What is read off the wire: nothing below 32 bytes, and otherwise a public key and a sealed body. */
  lemma DecryptsFromWire(s: ByteSuite, r: ByteRatchet, ct: Bytes)
    ensures var (r1, res) := DecryptBytes(s, r, ct);
            && (res == Err(FrameTooShort) <==> |ct| < 32) && (|ct| < 32 ==> r1 == r)
            && (|ct| >= 32 ==>
                  var (chain, n) := ReadingChain(s, r, ct[..32]);
                  var text := s.open(s.kdfCk(chain).1, Nonce(n), ct[..32], ct[32..]);
                  res == if text.Some? then Ok(text.value) else Err(OpenFailed))
  {
    if |ct| >= 32 { DecryptSucceedsIff(s, r, Frame(ct[..32], ct[32..])); }
  }

  class RatchetState {
    const suite: ByteSuite
    var rootKey: Key32
    var dhSelf: Key32
    var dhRemote: Option<Key32>
    var chainSend: Option<Key32>
    var chainRecv: Option<Key32>
    var sendN: u32
    var recvN: u32

    function View(): ByteRatchet
      reads this
    {
      Ratchet(rootKey, dhSelf, dhRemote, chainSend, chainRecv, sendN, recvN)
    }

    constructor (suite: ByteSuite, r: ByteRatchet)
      ensures this.suite == suite && View() == r
    {
      this.suite := suite;
      rootKey, dhSelf, dhRemote := r.root, r.self, r.remote;
      chainSend, chainRecv, sendN, recvN := r.send, r.recv, r.sendN, r.recvN;
    }

    constructor Initiator(suite: ByteSuite, shared: Key32, remote: Key32, rnd: Key32)
      ensures this.suite == suite && View() == NewInitiator(suite, shared, remote, rnd)
    {
      this.suite := suite;
      dhSelf, dhRemote := rnd, Some(remote);
      chainRecv, sendN, recvN := None, 0, 0;
      var dhOut := suite.dh(rnd, remote);
      var (newRoot, chain) := suite.kdfRk(shared, dhOut);
      rootKey := newRoot;
      chainSend := Some(chain);
    }

    constructor Responder(suite: ByteSuite, shared: Key32, self: Key32)
      ensures this.suite == suite && View() == NewResponder(shared, self)
    {
      this.suite := suite;
      rootKey, dhSelf, dhRemote := shared, self, None;
      chainSend, chainRecv, sendN, recvN := None, None, 0, 0;
    }

    method Encrypt(plaintext: Bytes, rnd: Key32) returns (res: Result<Bytes, RatchetError>)
      modifies this
      ensures (View(), res) == EncryptBytes(suite, old(View()), rnd, plaintext)
    {
      if chainSend.None? {
        if dhRemote.None? {
          return Err(NoRemoteKey);
        }
        dhSelf := rnd;
        var dhOut := suite.dh(dhSelf, dhRemote.value);
        var (newRoot, chain) := suite.kdfRk(rootKey, dhOut);
        rootKey := newRoot;
        chainSend := Some(chain);
        sendN := 0;
      }
      var (nextChain, msgKey) := suite.kdfCk(chainSend.value);
      var dhPub := suite.pub(dhSelf);
      var ct := suite.seal(msgKey, Nonce(sendN), dhPub, plaintext);
      if ct.None? {
        return Err(SealFailed);
      }
      chainSend := Some(nextChain);
      sendN := Inc(sendN);
      var framed: Bytes := [];
      framed := framed + dhPub;
      framed := framed + ct.value;
      assert framed == dhPub + ct.value;
      return Ok(framed);
    }

    method Decrypt(ct: Bytes) returns (res: Result<Bytes, RatchetError>)
      modifies this
      ensures (View(), res) == DecryptBytes(suite, old(View()), ct)
    {
      if |ct| < DH_PUB_LEN {
        return Err(FrameTooShort);
      }
      var remoteDh: Key32 := ct[..DH_PUB_LEN];
      var aeadCt := ct[DH_PUB_LEN..];
      var isNewRemote := match dhRemote case Some(prev) => prev != remoteDh case None => true;
      if isNewRemote || chainRecv.None? {
        var dhOut := suite.dh(dhSelf, remoteDh);
        var (newRoot, chain) := suite.kdfRk(rootKey, dhOut);
        rootKey := newRoot;
        chainRecv := Some(chain);
        recvN := 0;
        dhRemote := Some(remoteDh);
        chainSend := None;
      }
      var (nextChain, msgKey) := suite.kdfCk(chainRecv.value);
      var pt := suite.open(msgKey, Nonce(recvN), remoteDh, aeadCt);
      if pt.None? {
        return Err(OpenFailed);
      }
      chainRecv := Some(nextChain);
      recvN := Inc(recvN);
      return Ok(pt.value);
    }

    method ToBytes() returns (o: Bytes)
      ensures o == Print(View())
    {
      o := [];
      o := o + rootKey;
      o := o + dhSelf;
      match dhRemote {
        case Some(p) => o := o + [1]; o := o + p;
        case None => o := o + [0];
      }
      ghost var head := rootKey + dhSelf + PrintOption(dhRemote);
      assert o == head;
      var chains := [chainSend, chainRecv];
      var i := 0;
      while i < 2
        invariant 0 <= i <= 2
        invariant o == if i == 0 then head else if i == 1 then head + PrintOption(chainSend)
                       else head + PrintOption(chainSend) + PrintOption(chainRecv)
      {
        match chains[i] {
          case Some(c) => o := o + [1]; o := o + c;
          case None => o := o + [0];
        }
        i := i + 1;
      }
      o := o + LittleEndian(sendN);
      o := o + LittleEndian(recvN);
    }
  }

  method FromBytes(suite: ByteSuite, data: Bytes) returns (r: Result<RatchetState, RatchetError>)
    ensures match Parse(data)
            case Ok(v) => r.Ok? && fresh(r.value) && r.value.suite == suite && r.value.View() == v
            case Err(e) => r == Err(e)
  {
    assert data[0..] == data;
    var root, p1 := TakeAt(data, 0, 32);
    if root.Err? { return Err(TruncatedState); }
    var self, p2 := TakeAt(data, p1, 32);
    if self.Err? { return Err(TruncatedState); }
    var remote, p3 := TakeOptionAt(data, p2);
    if remote.Err? { return Err(TruncatedState); }
    var send, p4 := TakeOptionAt(data, p3);
    if send.Err? { return Err(TruncatedState); }
    var recv, p5 := TakeOptionAt(data, p4);
    if recv.Err? { return Err(TruncatedState); }
    var sn, p6 := TakeAt(data, p5, 4);
    if sn.Err? { return Err(TruncatedState); }
    var rn, p7 := TakeAt(data, p6, 4);
    if rn.Err? { return Err(TruncatedState); }
    var rootKey: Key32, dhSelf: Key32 := root.value, self.value;
    var v: ByteRatchet := Ratchet(rootKey, dhSelf, remote.value, send.value, recv.value,
                     FromLittleEndian(sn.value), FromLittleEndian(rn.value));
    var state := new RatchetState(suite, v);
    return Ok(state);
  }
}
