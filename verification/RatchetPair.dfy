/**
Two parties running the Double Ratchet over one FIFO channel per direction. Every interleaving of
sends and deliveries is a list of `Step`s; the invariant says how the two root-key chains and the
frames still in flight fit together.
*/
module RatchetPair {
  import opened Prelude
  import opened Suites
  import opened DoubleRatchet

  /** A ratchet with the bookkeeping the theorems speak about: root steps taken and keys used. */
  datatype Party<Sec, Pub, Key> = Party(
    rt: Ratchet<Sec, Pub, Key>,
    rootSteps: nat,
    sealedWith: seq<(Key, u32)>,   // message key and nonce counter of every frame sent
    openedWith: seq<Key>)          // message key of every frame read

  /** One direction: frames in flight, every plaintext sent, every plaintext delivered. */
  datatype Link<Pub, Box> = Link(frames: seq<Frame<Pub, Box>>, sent: seq<Bytes>, got: seq<Bytes>)

  datatype World<Sec, Pub, Key, Box> = World(
    a: Party<Sec, Pub, Key>, b: Party<Sec, Pub, Key>,
    ab: Link<Pub, Box>, ba: Link<Pub, Box>,
    failed: bool)                  // some delivery was rejected

  datatype Step<Sec> =
    | SendA(rnd: Sec, text: Bytes) | SendB(rnd: Sec, text: Bytes)
    | ReceiveA | ReceiveB

  // ---------------------------------------------------------------------------
  // Transitions
  // ---------------------------------------------------------------------------

  function PartySend<Sec, Pub, Key, Box>(s: Suite<Sec, Pub, Key, Box>, p: Party<Sec, Pub, Key>, rnd: Sec, m: Bytes)
    : (Party<Sec, Pub, Key>, Result<Frame<Pub, Box>, RatchetError>)
  {
    var (rt, res) := Encrypt(s, p.rt, rnd, m);
    var r1 := if SendRotates(p.rt) then SendRatchet(s, p.rt, rnd) else p.rt;
    (Party(rt,
           p.rootSteps + (if SendRotates(p.rt) then 1 else 0),
           if res.Ok? then p.sealedWith + [(s.kdfCk(r1.send.value).1, r1.sendN)] else p.sealedWith,
           p.openedWith),
     res)
  }

  function PartyReceive<Sec, Pub(==), Key, Box>(s: Suite<Sec, Pub, Key, Box>, p: Party<Sec, Pub, Key>,
      f: Frame<Pub, Box>): (Party<Sec, Pub, Key>, Result<Bytes, RatchetError>)
  {
    var (rt, res) := Decrypt(s, p.rt, f);
    var r1 := if ReceiveRotates(p.rt, f.dh) then ReceiveRatchet(s, p.rt, f.dh) else p.rt;
    (Party(rt,
           p.rootSteps + (if ReceiveRotates(p.rt, f.dh) then 1 else 0),
           p.sealedWith,
           if res.Ok? then p.openedWith + [s.kdfCk(r1.recv.value).1] else p.openedWith),
     res)
  }

  function Flip<Sec, Pub, Key, Box>(w: World<Sec, Pub, Key, Box>): World<Sec, Pub, Key, Box> {
    World(w.b, w.a, w.ba, w.ab, w.failed)
  }

  /** A frame enters the channel. */
  function Extended<Pub, Box>(l: Link<Pub, Box>, f: Frame<Pub, Box>, m: Bytes): Link<Pub, Box> {
    Link(l.frames + [f], l.sent + [m], l.got)
  }

  /** The oldest frame leaves the channel and `m` is delivered. */
  function Shifted<Pub, Box>(l: Link<Pub, Box>, m: Bytes): Link<Pub, Box>
    requires l.frames != []
  {
    Link(l.frames[1..], l.sent, l.got + [m])
  }

  function ASends<Sec, Pub, Key, Box>(s: Suite<Sec, Pub, Key, Box>, w: World<Sec, Pub, Key, Box>, rnd: Sec, m: Bytes)
    : World<Sec, Pub, Key, Box>
  {
    var (a, res) := PartySend(s, w.a, rnd, m);
    match res
    case Ok(f) => w.(a := a, ab := Extended(w.ab, f, m))
    case Err(_) => w.(a := a)
  }

  function BReceives<Sec, Pub(==), Key, Box>(s: Suite<Sec, Pub, Key, Box>, w: World<Sec, Pub, Key, Box>)
    : World<Sec, Pub, Key, Box>
  {
    if w.ab.frames == [] then w else
    var (b, res) := PartyReceive(s, w.b, w.ab.frames[0]);
    match res
    case Ok(m) => w.(b := b, ab := Shifted(w.ab, m))
    case Err(_) => w.(b := b, ab := w.ab.(frames := w.ab.frames[1..]), failed := true)
  }

  function Apply<Sec, Pub(==), Key, Box>(s: Suite<Sec, Pub, Key, Box>, w: World<Sec, Pub, Key, Box>, step: Step<Sec>)
    : World<Sec, Pub, Key, Box>
  {
    match step
    case SendA(rnd, m) => ASends(s, w, rnd, m)
    case SendB(rnd, m) => Flip(ASends(s, Flip(w), rnd, m))
    case ReceiveB => BReceives(s, w)
    case ReceiveA => Flip(BReceives(s, Flip(w)))
  }

  function Run<Sec, Pub(==), Key, Box>(s: Suite<Sec, Pub, Key, Box>, w: World<Sec, Pub, Key, Box>,
      steps: seq<Step<Sec>>): World<Sec, Pub, Key, Box>
    decreases |steps|
  {
    if steps == [] then w else Run(s, Apply(s, w, steps[0]), steps[1..])
  }

  /** A key drawn for a DH rotation differs from the key it replaces. */
  predicate FreshFor<Sec, Pub(==), Key, Box>(s: Suite<Sec, Pub, Key, Box>, r: Ratchet<Sec, Pub, Key>, rnd: Sec) {
    SendRotates(r) ==> s.pub(rnd) != s.pub(r.self)
  }

  predicate FreshStep<Sec, Pub(==), Key, Box>(s: Suite<Sec, Pub, Key, Box>, w: World<Sec, Pub, Key, Box>,
      step: Step<Sec>)
  {
    match step
    case SendA(rnd, _) => FreshFor(s, w.a.rt, rnd)
    case SendB(rnd, _) => FreshFor(s, w.b.rt, rnd)
    case _ => true
  }

  predicate FreshRun<Sec, Pub(==), Key, Box>(s: Suite<Sec, Pub, Key, Box>, w: World<Sec, Pub, Key, Box>,
      steps: seq<Step<Sec>>)
    decreases |steps|
  {
    steps == [] || (FreshStep(s, w, steps[0]) && FreshRun(s, Apply(s, w, steps[0]), steps[1..]))
  }

  /** A freshly established session: initiator `a`, responder `b`, nothing in flight. */
  function Start<Sec, Pub, Key, Box>(s: Suite<Sec, Pub, Key, Box>, shared: Key, preKey: Sec, rnd: Sec)
    : World<Sec, Pub, Key, Box>
  {
    World(Party(NewInitiator(s, shared, s.pub(preKey), rnd), 1, [], []),
          Party(NewResponder(shared, preKey), 0, [], []),
          Link([], [], []), Link([], [], []), false)
  }

  // ---------------------------------------------------------------------------
  // Invariant
  // ---------------------------------------------------------------------------

  function ChainAt<Sec, Pub, Key, Box>(s: Suite<Sec, Pub, Key, Box>, c: Key, k: nat): Key {
    if k == 0 then c else ChainAt(s, s.kdfCk(c).0, k - 1)
  }

  function CountAt(n: u32, k: nat): u32
    decreases k
  {
    if k == 0 then n else CountAt(Inc(n), k - 1)
  }

  predicate SealedBy<Sec, Pub(==), Key, Box(==)>(s: Suite<Sec, Pub, Key, Box>, dh: Pub, c: Key, n: u32,
      f: Frame<Pub, Box>, m: Bytes)
  {
    f.dh == dh && s.seal(s.kdfCk(c).1, Nonce(n), dh, m) == Some(f.body)
  }

  /** `frames` are the consecutive frames of one sending chain that carry `plains`. */
  predicate Stream<Sec, Pub(==), Key, Box(==)>(s: Suite<Sec, Pub, Key, Box>, dh: Pub, c: Key, n: u32,
                                               frames: seq<Frame<Pub, Box>>, plains: seq<Bytes>)
    decreases |frames|
  {
    && |frames| == |plains|
    && (frames == [] ||
        (&& SealedBy(s, dh, c, n, frames[0], plains[0])
         && Stream(s, dh, s.kdfCk(c).0, Inc(n), frames[1..], plains[1..])))
  }

  /** Frames the reader's current receiving chain will open; none when it has no such chain. */
  predicate Readable<Sec, Pub(==), Key, Box(==)>(s: Suite<Sec, Pub, Key, Box>, dh: Option<Pub>, c: Option<Key>, n: u32,
                                                 frames: seq<Frame<Pub, Box>>, plains: seq<Bytes>)
  {
    if dh.Some? && c.Some? then Stream(s, dh.value, c.value, n, frames, plains)
    else frames == [] && plains == []
  }

  function Pending<Pub, Box>(l: Link<Pub, Box>): seq<Bytes>
    requires |l.got| <= |l.sent|
  {
    l.sent[|l.got|..]
  }

  /** What has been delivered is, in order, a prefix of what was sent; the rest is in flight. */
  predicate Conserved<Pub, Box>(l: Link<Pub, Box>) {
    |l.got| <= |l.sent| && l.got == l.sent[..|l.got|] && |l.frames| == |l.sent| - |l.got|
  }

  /** `x` sent last and `y` has caught up: equal roots, `y` must rotate before it sends. */
  predicate Even<Sec, Pub(==), Key(==), Box(==)>(s: Suite<Sec, Pub, Key, Box>, x: Ratchet<Sec, Pub, Key>,
      y: Ratchet<Sec, Pub, Key>, xy: Link<Pub, Box>, yx: Link<Pub, Box>)
    requires Conserved(xy) && Conserved(yx)
  {
    && x.root == y.root
    && x.remote == Some(s.pub(y.self)) && y.remote == Some(s.pub(x.self))
    && y.send.None? && y.recv.Some?
    && Readable(s, y.remote, y.recv, y.recvN, xy.frames, Pending(xy))
    && x.send == Some(ChainAt(s, y.recv.value, |xy.frames|))
    && x.sendN == CountAt(y.recvN, |xy.frames|)
    && Readable(s, x.remote, x.recv, x.recvN, yx.frames, Pending(yx))
  }

  /**
  `x` has rotated and `y` has not seen it yet. The first `k` frames towards `y` still belong to the
  chain `y` is reading; the others belong to the chain `y` will derive from the first of them.
  */
  predicate Ahead<Sec, Pub(==), Key(==), Box(==)>(s: Suite<Sec, Pub, Key, Box>, x: Ratchet<Sec, Pub, Key>,
      y: Ratchet<Sec, Pub, Key>, xy: Link<Pub, Box>, yx: Link<Pub, Box>, k: nat)
    requires Conserved(xy) && Conserved(yx)
  {
    var (root, chain) := s.kdfRk(y.root, s.dh(y.self, s.pub(x.self)));
    && x.root == root
    && x.remote == Some(s.pub(y.self))
    && ReceiveRotates(y, s.pub(x.self))
    && k <= |xy.frames|
    && Readable(s, y.remote, y.recv, y.recvN, xy.frames[..k], Pending(xy)[..k])
    && Stream(s, s.pub(x.self), chain, 0, xy.frames[k..], Pending(xy)[k..])
    && x.send == Some(ChainAt(s, chain, |xy.frames| - k))
    && x.sendN == CountAt(0, |xy.frames| - k)
    && Readable(s, x.remote, x.recv, x.recvN, yx.frames, Pending(yx))
    && (if y.send.Some? then
          && (x.recv.Some? ==>
                && y.send == Some(ChainAt(s, x.recv.value, |yx.frames|))
                && y.sendN == CountAt(x.recvN, |yx.frames|))
          && x.recv.Some?
        else y.remote.None? && x.recv.None?)
  }

  ghost predicate SomeAhead<Sec, Pub, Key, Box>(s: Suite<Sec, Pub, Key, Box>, x: Ratchet<Sec, Pub, Key>,
      y: Ratchet<Sec, Pub, Key>, xy: Link<Pub, Box>, yx: Link<Pub, Box>)
    requires Conserved(xy) && Conserved(yx)
  {
    exists k: nat :: Ahead(s, x, y, xy, yx, k)
  }

  /** `x` took the last root step, or took one more than `y`. */
  ghost predicate Leads<Sec, Pub, Key, Box>(s: Suite<Sec, Pub, Key, Box>, x: Party<Sec, Pub, Key>,
      y: Party<Sec, Pub, Key>, xy: Link<Pub, Box>, yx: Link<Pub, Box>)
    requires Conserved(xy) && Conserved(yx)
  {
    || (x.rootSteps == y.rootSteps && Even(s, x.rt, y.rt, xy, yx))
    || (x.rootSteps == y.rootSteps + 1 && SomeAhead(s, x.rt, y.rt, xy, yx))
  }

  /** Root steps alternate: the initiator takes the odd ones, the responder the even ones. */
  ghost predicate Inv<Sec, Pub, Key, Box>(s: Suite<Sec, Pub, Key, Box>, w: World<Sec, Pub, Key, Box>) {
    InvFrom(s, w, 1)
  }

  /** `parity` is that of the root steps `a` takes when it sends. */
  ghost predicate InvFrom<Sec, Pub, Key, Box>(s: Suite<Sec, Pub, Key, Box>, w: World<Sec, Pub, Key, Box>, parity: nat) {
    && !w.failed && Conserved(w.ab) && Conserved(w.ba)
    && (|| (w.a.rootSteps % 2 == parity && Leads(s, w.a, w.b, w.ab, w.ba))
        || (w.b.rootSteps % 2 == 1 - parity && Leads(s, w.b, w.a, w.ba, w.ab)))
  }

  // ---------------------------------------------------------------------------
  // Streams
  // ---------------------------------------------------------------------------

  lemma {:induction false} ChainStep<Sec(!new), Pub(!new), Key(!new), Box(!new)>(s: Suite<Sec, Pub, Key, Box>, c: Key,
      n: u32, k: nat)
    ensures ChainAt(s, c, k + 1) == s.kdfCk(ChainAt(s, c, k)).0
    ensures CountAt(n, k + 1) == Inc(CountAt(n, k))
    decreases k
  {
    if k > 0 {
      ChainStep(s, s.kdfCk(c).0, Inc(n), k - 1);
    }
  }

  lemma {:induction false} StreamAppend<Sec(!new), Pub(!new), Key(!new), Box(!new)>(s: Suite<Sec, Pub, Key, Box>,
      dh: Pub, c: Key, n: u32, frames: seq<Frame<Pub, Box>>, plains: seq<Bytes>, f: Frame<Pub, Box>, m: Bytes)
    requires Stream(s, dh, c, n, frames, plains)
    requires SealedBy(s, dh, ChainAt(s, c, |frames|), CountAt(n, |frames|), f, m)
    ensures Stream(s, dh, c, n, frames + [f], plains + [m])
    decreases |frames|
  {
    if frames != [] {
      StreamAppend(s, dh, s.kdfCk(c).0, Inc(n), frames[1..], plains[1..], f, m);
      assert (frames + [f])[1..] == frames[1..] + [f] && (plains + [m])[1..] == plains[1..] + [m];
    }
  }

  lemma OpensSealed<Sec(!new), Pub(!new), Key(!new), Box(!new)>(s: Suite<Sec, Pub, Key, Box>, dh: Pub, c: Key, n: u32,
      f: Frame<Pub, Box>, m: Bytes)
    requires Lawful(s) && SealedBy(s, dh, c, n, f, m)
    ensures s.open(s.kdfCk(c).1, Nonce(n), f.dh, f.body) == Some(m)
  {
    assert s.seal(s.kdfCk(c).1, Nonce(n), dh, m) == Some(f.body);
  }

  // ---------------------------------------------------------------------------
  // What a send and a read do to a ratchet whose chain is in place
  // ---------------------------------------------------------------------------

  lemma ExtendedPending<Pub, Box>(l: Link<Pub, Box>, f: Frame<Pub, Box>, m: Bytes)
    requires Conserved(l)
    ensures Conserved(Extended(l, f, m)) && Pending(Extended(l, f, m)) == Pending(l) + [m]
  {
  }

  lemma ShiftedPending<Pub, Box>(l: Link<Pub, Box>)
    requires Conserved(l) && l.frames != []
    ensures var l1 := Shifted(l, Pending(l)[0]);
            Conserved(l1) && Pending(l1) == Pending(l)[1..]
  {
  }

  lemma SendOnChainEffect<Sec(!new), Pub(!new), Key(!new), Box(!new)>(s: Suite<Sec, Pub, Key, Box>,
      x: Ratchet<Sec, Pub, Key>, rnd: Sec, m: Bytes)
    requires x.send.Some?
    ensures var (x1, res) := Encrypt(s, x, rnd, m);
            match res
            case Err(_) => x1 == x
            case Ok(f) => x1 == x.(send := Some(s.kdfCk(x.send.value).0), sendN := Inc(x.sendN))
                          && SealedBy(s, s.pub(x.self), x.send.value, x.sendN, f, m)
  {
  }

  lemma SendRotatingEffect<Sec(!new), Pub(!new), Key(!new), Box(!new)>(s: Suite<Sec, Pub, Key, Box>,
      x: Ratchet<Sec, Pub, Key>, rnd: Sec, m: Bytes)
    requires SendRotates(x)
    ensures var (root, chain) := s.kdfRk(x.root, s.dh(rnd, x.remote.value));
            var (x1, res) := Encrypt(s, x, rnd, m);
            match res
            case Err(_) => x1 == x.(root := root, self := rnd, send := Some(chain), sendN := 0)
            case Ok(f) => x1 == x.(root := root, self := rnd, send := Some(s.kdfCk(chain).0), sendN := 1)
                          && SealedBy(s, s.pub(rnd), chain, 0, f, m)
  {
  }

  /** Reading the first frame of the stream a receiving chain expects. */
  lemma ReceiveOnChainEffect<Sec(!new), Pub(!new), Key(!new), Box(!new)>(s: Suite<Sec, Pub, Key, Box>,
      y: Ratchet<Sec, Pub, Key>, frames: seq<Frame<Pub, Box>>, plains: seq<Bytes>)
    requires Lawful(s) && frames != [] && Readable(s, y.remote, y.recv, y.recvN, frames, plains)
    ensures !ReceiveRotates(y, frames[0].dh)
    ensures Decrypt(s, y, frames[0])
            == (y.(recv := Some(s.kdfCk(y.recv.value).0), recvN := Inc(y.recvN)), Ok(plains[0]))
    ensures Readable(s, y.remote, Some(s.kdfCk(y.recv.value).0), Inc(y.recvN), frames[1..], plains[1..])
  {
    OpensSealed(s, y.remote.value, y.recv.value, y.recvN, frames[0], plains[0]);
  }

  /** Reading the first frame of a chain the reader has yet to derive. */
  lemma ReceiveRotatingEffect<Sec(!new), Pub(!new), Key(!new), Box(!new)>(s: Suite<Sec, Pub, Key, Box>,
      y: Ratchet<Sec, Pub, Key>, dh: Pub, f: Frame<Pub, Box>, m: Bytes)
    requires Lawful(s) && ReceiveRotates(y, dh)
    requires SealedBy(s, dh, s.kdfRk(y.root, s.dh(y.self, dh)).1, 0, f, m)
    ensures var (root, chain) := s.kdfRk(y.root, s.dh(y.self, dh));
            Decrypt(s, y, f)
            == (y.(root := root, remote := Some(dh), send := None, recv := Some(s.kdfCk(chain).0), recvN := 1), Ok(m))
  {
    OpensSealed(s, dh, s.kdfRk(y.root, s.dh(y.self, dh)).1, 0, f, m);
  }

  // ---------------------------------------------------------------------------
  // The two shapes of the invariant under one more frame, and under one fewer
  // ---------------------------------------------------------------------------

  lemma EvenExtends<Sec(!new), Pub(!new), Key(!new), Box(!new)>(s: Suite<Sec, Pub, Key, Box>, x: Ratchet<Sec, Pub, Key>,
      y: Ratchet<Sec, Pub, Key>, xy: Link<Pub, Box>, yx: Link<Pub, Box>, f: Frame<Pub, Box>, m: Bytes)
    requires Conserved(xy) && Conserved(yx) && Even(s, x, y, xy, yx)
    requires SealedBy(s, s.pub(x.self), x.send.value, x.sendN, f, m)
    ensures Conserved(Extended(xy, f, m))
    ensures Even(s, x.(send := Some(s.kdfCk(x.send.value).0), sendN := Inc(x.sendN)), y, Extended(xy, f, m), yx)
  {
    ExtendedPending(xy, f, m);
    ChainStep(s, y.recv.value, y.recvN, |xy.frames|);
    StreamAppend(s, s.pub(x.self), y.recv.value, y.recvN, xy.frames, Pending(xy), f, m);
  }

  lemma AheadExtends<Sec(!new), Pub(!new), Key(!new), Box(!new)>(s: Suite<Sec, Pub, Key, Box>,
      x: Ratchet<Sec, Pub, Key>, y: Ratchet<Sec, Pub, Key>, xy: Link<Pub, Box>, yx: Link<Pub, Box>, k: nat,
      f: Frame<Pub, Box>, m: Bytes)
    requires Conserved(xy) && Conserved(yx) && Ahead(s, x, y, xy, yx, k)
    requires SealedBy(s, s.pub(x.self), x.send.value, x.sendN, f, m)
    ensures Conserved(Extended(xy, f, m))
    ensures Ahead(s, x.(send := Some(s.kdfCk(x.send.value).0), sendN := Inc(x.sendN)), y, Extended(xy, f, m), yx, k)
  {
    ExtendedPending(xy, f, m);
    var frames, pend := xy.frames, Pending(xy);
    var chain := s.kdfRk(y.root, s.dh(y.self, s.pub(x.self))).1;
    assert (frames + [f])[..k] == frames[..k] && (pend + [m])[..k] == pend[..k];
    assert (frames + [f])[k..] == frames[k..] + [f] && (pend + [m])[k..] == pend[k..] + [m];
    ChainStep(s, chain, 0, |frames| - k);
    StreamAppend(s, s.pub(x.self), chain, 0, frames[k..], pend[k..], f, m);
  }

  /** The side that is behind keeps sending on its old chain. */
  lemma AheadExtendsBack<Sec(!new), Pub(!new), Key(!new), Box(!new)>(s: Suite<Sec, Pub, Key, Box>,
      x: Ratchet<Sec, Pub, Key>, y: Ratchet<Sec, Pub, Key>, xy: Link<Pub, Box>, yx: Link<Pub, Box>, k: nat,
      f: Frame<Pub, Box>, m: Bytes)
    requires Conserved(xy) && Conserved(yx) && Ahead(s, x, y, xy, yx, k) && y.send.Some?
    requires SealedBy(s, s.pub(y.self), y.send.value, y.sendN, f, m)
    ensures Conserved(Extended(yx, f, m))
    ensures Ahead(s, x, y.(send := Some(s.kdfCk(y.send.value).0), sendN := Inc(y.sendN)), xy, Extended(yx, f, m), k)
  {
    ExtendedPending(yx, f, m);
    ChainStep(s, x.recv.value, x.recvN, |yx.frames|);
    StreamAppend(s, s.pub(y.self), x.recv.value, x.recvN, yx.frames, Pending(yx), f, m);
  }

  /** `y` owes a rotation and performs it: roles swap, with `y` now ahead. */
  lemma EvenRotates<Sec(!new), Pub(!new), Key(!new), Box(!new)>(s: Suite<Sec, Pub, Key, Box>, x: Ratchet<Sec, Pub, Key>,
      y: Ratchet<Sec, Pub, Key>, xy: Link<Pub, Box>, yx: Link<Pub, Box>, rnd: Sec)
    requires Lawful(s) && Conserved(xy) && Conserved(yx) && Even(s, x, y, xy, yx) && FreshFor(s, y, rnd)
    ensures Ahead(s, SendRatchet(s, y, rnd), x, yx, xy, |yx.frames|)
  {
    var k := |yx.frames|;
    assert yx.frames[..k] == yx.frames && Pending(yx)[..k] == Pending(yx);
    assert yx.frames[k..] == [] && Pending(yx)[k..] == [];
    assert s.dh(rnd, s.pub(x.self)) == s.dh(x.self, s.pub(rnd));
  }

  lemma EvenShifts<Sec(!new), Pub(!new), Key(!new), Box(!new)>(s: Suite<Sec, Pub, Key, Box>, x: Ratchet<Sec, Pub, Key>,
      y: Ratchet<Sec, Pub, Key>, xy: Link<Pub, Box>, yx: Link<Pub, Box>)
    requires Lawful(s) && Conserved(xy) && Conserved(yx) && Even(s, x, y, xy, yx) && xy.frames != []
    ensures var (y1, res) := Decrypt(s, y, xy.frames[0]);
            && res == Ok(Pending(xy)[0]) && Conserved(Shifted(xy, res.value))
            && !ReceiveRotates(y, xy.frames[0].dh) && Even(s, x, y1, Shifted(xy, res.value), yx)
  {
    ReceiveOnChainEffect(s, y, xy.frames, Pending(xy));
    ShiftedPending(xy);
  }

  /** The leader reads a frame the other side sent before the last rotation. */
  lemma EvenShiftsBack<Sec(!new), Pub(!new), Key(!new), Box(!new)>(s: Suite<Sec, Pub, Key, Box>,
      x: Ratchet<Sec, Pub, Key>, y: Ratchet<Sec, Pub, Key>, xy: Link<Pub, Box>, yx: Link<Pub, Box>)
    requires Lawful(s) && Conserved(xy) && Conserved(yx) && Even(s, x, y, xy, yx) && yx.frames != []
    ensures var (x1, res) := Decrypt(s, x, yx.frames[0]);
            && res == Ok(Pending(yx)[0]) && Conserved(Shifted(yx, res.value))
            && !ReceiveRotates(x, yx.frames[0].dh) && Even(s, x1, y, xy, Shifted(yx, res.value))
  {
    ReceiveOnChainEffect(s, x, yx.frames, Pending(yx));
    ShiftedPending(yx);
  }

  lemma AheadShiftsBack<Sec(!new), Pub(!new), Key(!new), Box(!new)>(s: Suite<Sec, Pub, Key, Box>,
      x: Ratchet<Sec, Pub, Key>, y: Ratchet<Sec, Pub, Key>, xy: Link<Pub, Box>, yx: Link<Pub, Box>, k: nat)
    requires Lawful(s) && Conserved(xy) && Conserved(yx) && Ahead(s, x, y, xy, yx, k) && yx.frames != []
    ensures var (x1, res) := Decrypt(s, x, yx.frames[0]);
            && res == Ok(Pending(yx)[0]) && Conserved(Shifted(yx, res.value))
            && !ReceiveRotates(x, yx.frames[0].dh) && Ahead(s, x1, y, xy, Shifted(yx, res.value), k)
  {
    ReceiveOnChainEffect(s, x, yx.frames, Pending(yx));
    ShiftedPending(yx);
  }

  lemma TailsOfParts<T>(s: seq<T>, k: nat)
    requires 0 < k <= |s|
    ensures s[1..][..k - 1] == s[..k][1..] && s[1..][k - 1..] == s[k..]
  {
  }

  /** A frame of the chain the reader already has, although the sender has rotated since. */
  lemma AheadShiftsOld<Sec(!new), Pub(!new), Key(!new), Box(!new)>(s: Suite<Sec, Pub, Key, Box>,
      x: Ratchet<Sec, Pub, Key>, y: Ratchet<Sec, Pub, Key>, xy: Link<Pub, Box>, yx: Link<Pub, Box>, k: nat)
    requires Lawful(s) && Conserved(xy) && Conserved(yx) && Ahead(s, x, y, xy, yx, k) && k > 0
    ensures var (y1, res) := Decrypt(s, y, xy.frames[0]);
            && res == Ok(Pending(xy)[0]) && Conserved(Shifted(xy, res.value))
            && !ReceiveRotates(y, xy.frames[0].dh) && Ahead(s, x, y1, Shifted(xy, res.value), yx, k - 1)
  {
    var frames, pend := xy.frames, Pending(xy);
    ReceiveOnChainEffect(s, y, frames[..k], pend[..k]);
    ShiftedPending(xy);
    TailsOfParts(frames, k);
    TailsOfParts(pend, k);
  }

  /** The first frame of the new chain: the reader catches up and owes the next rotation. */
  lemma AheadShiftsNew<Sec(!new), Pub(!new), Key(!new), Box(!new)>(s: Suite<Sec, Pub, Key, Box>,
      x: Ratchet<Sec, Pub, Key>, y: Ratchet<Sec, Pub, Key>, xy: Link<Pub, Box>, yx: Link<Pub, Box>)
    requires Lawful(s) && Conserved(xy) && Conserved(yx) && Ahead(s, x, y, xy, yx, 0) && xy.frames != []
    ensures var (y1, res) := Decrypt(s, y, xy.frames[0]);
            && res == Ok(Pending(xy)[0]) && Conserved(Shifted(xy, res.value))
            && ReceiveRotates(y, xy.frames[0].dh) && Even(s, x, y1, Shifted(xy, res.value), yx)
  {
    var frames, pend := xy.frames, Pending(xy);
    assert frames[0..] == frames && pend[0..] == pend;
    ReceiveRotatingEffect(s, y, s.pub(x.self), frames[0], pend[0]);
    ShiftedPending(xy);
  }

  // ---------------------------------------------------------------------------
  // One step preserves the invariant
  // ---------------------------------------------------------------------------

  lemma LeaderSends<Sec(!new), Pub(!new), Key(!new), Box(!new)>(s: Suite<Sec, Pub, Key, Box>,
      w: World<Sec, Pub, Key, Box>, rnd: Sec, m: Bytes)
    requires Conserved(w.ab) && Conserved(w.ba) && Leads(s, w.a, w.b, w.ab, w.ba)
    ensures var v := ASends(s, w, rnd, m);
            && v.failed == w.failed && v.ba == w.ba && Conserved(v.ab)
            && v.a.rootSteps == w.a.rootSteps && Leads(s, v.a, v.b, v.ab, v.ba)
  {
    var v := ASends(s, w, rnd, m);
    SendOnChainEffect(s, w.a.rt, rnd, m);
    var res := Encrypt(s, w.a.rt, rnd, m).1;
    if res.Ok? {
      if w.a.rootSteps == w.b.rootSteps {
        EvenExtends(s, w.a.rt, w.b.rt, w.ab, w.ba, res.value, m);
      } else {
        var k: nat :| Ahead(s, w.a.rt, w.b.rt, w.ab, w.ba, k);
        AheadExtends(s, w.a.rt, w.b.rt, w.ab, w.ba, k, res.value, m);
        assert Ahead(s, v.a.rt, v.b.rt, v.ab, v.ba, k);
      }
    }
  }

  lemma FollowerSends<Sec(!new), Pub(!new), Key(!new), Box(!new)>(s: Suite<Sec, Pub, Key, Box>,
      w: World<Sec, Pub, Key, Box>, rnd: Sec, m: Bytes)
    requires Conserved(w.ab) && Conserved(w.ba)
    requires w.b.rootSteps != w.a.rootSteps && Leads(s, w.b, w.a, w.ba, w.ab)
    ensures var v := ASends(s, w, rnd, m);
            && v.failed == w.failed && v.ba == w.ba && Conserved(v.ab)
            && v.b.rootSteps == w.b.rootSteps && Leads(s, v.b, v.a, v.ba, v.ab)
  {
    var v := ASends(s, w, rnd, m);
    var k: nat :| Ahead(s, w.b.rt, w.a.rt, w.ba, w.ab, k);
    var res := Encrypt(s, w.a.rt, rnd, m).1;
    if w.a.rt.send.Some? {
      SendOnChainEffect(s, w.a.rt, rnd, m);
      if res.Ok? {
        AheadExtendsBack(s, w.b.rt, w.a.rt, w.ba, w.ab, k, res.value, m);
      }
    }
    assert Ahead(s, v.b.rt, v.a.rt, v.ba, v.ab, k);
  }

  lemma RotatingSends<Sec(!new), Pub(!new), Key(!new), Box(!new)>(s: Suite<Sec, Pub, Key, Box>,
      w: World<Sec, Pub, Key, Box>, rnd: Sec, m: Bytes)
    requires Lawful(s) && Conserved(w.ab) && Conserved(w.ba)
    requires w.b.rootSteps == w.a.rootSteps && Leads(s, w.b, w.a, w.ba, w.ab) && FreshFor(s, w.a.rt, rnd)
    ensures var v := ASends(s, w, rnd, m);
            && v.failed == w.failed && v.ba == w.ba && Conserved(v.ab)
            && v.a.rootSteps == w.a.rootSteps + 1 && Leads(s, v.a, v.b, v.ab, v.ba)
  {
    var v := ASends(s, w, rnd, m);
    var k := |w.ab.frames|;
    SendRotatingEffect(s, w.a.rt, rnd, m);
    EvenRotates(s, w.b.rt, w.a.rt, w.ba, w.ab, rnd);
    var res := Encrypt(s, w.a.rt, rnd, m).1;
    if res.Ok? {
      AheadExtends(s, SendRatchet(s, w.a.rt, rnd), w.b.rt, w.ab, w.ba, k, res.value, m);
    }
    assert Ahead(s, v.a.rt, v.b.rt, v.ab, v.ba, k);
  }

  lemma FollowerReceives<Sec(!new), Pub(!new), Key(!new), Box(!new)>(s: Suite<Sec, Pub, Key, Box>,
      w: World<Sec, Pub, Key, Box>)
    requires Lawful(s) && Conserved(w.ab) && Conserved(w.ba) && w.ab.frames != []
    requires Leads(s, w.a, w.b, w.ab, w.ba)
    ensures var v := BReceives(s, w);
            && v.failed == w.failed && v.ba == w.ba && Conserved(v.ab)
            && v.a.rootSteps == w.a.rootSteps && Leads(s, v.a, v.b, v.ab, v.ba)
  {
    var v := BReceives(s, w);
    if w.a.rootSteps == w.b.rootSteps {
      EvenShifts(s, w.a.rt, w.b.rt, w.ab, w.ba);
    } else {
      var k: nat :| Ahead(s, w.a.rt, w.b.rt, w.ab, w.ba, k);
      if k > 0 {
        AheadShiftsOld(s, w.a.rt, w.b.rt, w.ab, w.ba, k);
        assert Ahead(s, v.a.rt, v.b.rt, v.ab, v.ba, k - 1);
      } else {
        AheadShiftsNew(s, w.a.rt, w.b.rt, w.ab, w.ba);
      }
    }
  }

  lemma LeaderReceives<Sec(!new), Pub(!new), Key(!new), Box(!new)>(s: Suite<Sec, Pub, Key, Box>,
      w: World<Sec, Pub, Key, Box>)
    requires Lawful(s) && Conserved(w.ab) && Conserved(w.ba) && w.ab.frames != []
    requires Leads(s, w.b, w.a, w.ba, w.ab)
    ensures var v := BReceives(s, w);
            && v.failed == w.failed && v.ba == w.ba && Conserved(v.ab)
            && v.b.rootSteps == w.b.rootSteps && Leads(s, v.b, v.a, v.ba, v.ab)
  {
    var v := BReceives(s, w);
    if w.b.rootSteps == w.a.rootSteps {
      EvenShiftsBack(s, w.b.rt, w.a.rt, w.ba, w.ab);
    } else {
      var k: nat :| Ahead(s, w.b.rt, w.a.rt, w.ba, w.ab, k);
      AheadShiftsBack(s, w.b.rt, w.a.rt, w.ba, w.ab, k);
      assert Ahead(s, v.b.rt, v.a.rt, v.ba, v.ab, k);
    }
  }

  lemma ASendsKeepsInv<Sec(!new), Pub(!new), Key(!new), Box(!new)>(s: Suite<Sec, Pub, Key, Box>,
      w: World<Sec, Pub, Key, Box>, parity: nat, rnd: Sec, m: Bytes)
    requires Lawful(s) && parity <= 1 && InvFrom(s, w, parity) && FreshFor(s, w.a.rt, rnd)
    ensures InvFrom(s, ASends(s, w, rnd, m), parity)
  {
    if w.a.rootSteps % 2 == parity && Leads(s, w.a, w.b, w.ab, w.ba) {
      LeaderSends(s, w, rnd, m);
    } else {
      assert w.b.rootSteps % 2 == 1 - parity && Leads(s, w.b, w.a, w.ba, w.ab);
      FollowerSendsKeepsInv(s, w, ASends(s, w, rnd, m), parity, rnd, m);
    }
  }

  lemma SecondLeadsInv<Sec(!new), Pub(!new), Key(!new), Box(!new)>(s: Suite<Sec, Pub, Key, Box>,
      w: World<Sec, Pub, Key, Box>, parity: nat)
    requires !w.failed && Conserved(w.ab) && Conserved(w.ba)
    requires w.b.rootSteps % 2 == 1 - parity && Leads(s, w.b, w.a, w.ba, w.ab)
    ensures InvFrom(s, w, parity)
  {
  }

  lemma FirstLeadsInv<Sec(!new), Pub(!new), Key(!new), Box(!new)>(s: Suite<Sec, Pub, Key, Box>,
      w: World<Sec, Pub, Key, Box>, parity: nat)
    requires !w.failed && Conserved(w.ab) && Conserved(w.ba)
    requires w.a.rootSteps % 2 == parity && Leads(s, w.a, w.b, w.ab, w.ba)
    ensures InvFrom(s, w, parity)
  {
  }

  lemma NowFirstLeads<Sec(!new), Pub(!new), Key(!new), Box(!new)>(s: Suite<Sec, Pub, Key, Box>,
      w: World<Sec, Pub, Key, Box>, v: World<Sec, Pub, Key, Box>, parity: nat)
    requires parity <= 1 && !v.failed && Conserved(v.ab) && Conserved(v.ba)
    requires w.a.rootSteps % 2 == 1 - parity && v.a.rootSteps == w.a.rootSteps + 1 && Leads(s, v.a, v.b, v.ab, v.ba)
    ensures InvFrom(s, v, parity)
  {
    FirstLeadsInv(s, v, parity);
  }

  lemma FollowerSendsKeepsInv<Sec(!new), Pub(!new), Key(!new), Box(!new)>(s: Suite<Sec, Pub, Key, Box>,
      w: World<Sec, Pub, Key, Box>, v: World<Sec, Pub, Key, Box>, parity: nat, rnd: Sec, m: Bytes)
    requires Lawful(s) && parity <= 1 && !w.failed && Conserved(w.ab) && Conserved(w.ba) && FreshFor(s, w.a.rt, rnd)
    requires w.b.rootSteps % 2 == 1 - parity && Leads(s, w.b, w.a, w.ba, w.ab) && v == ASends(s, w, rnd, m)
    ensures InvFrom(s, v, parity)
  {
    if w.b.rootSteps == w.a.rootSteps {
      RotatingSends(s, w, rnd, m);
      NowFirstLeads(s, w, v, parity);
    } else {
      FollowerSends(s, w, rnd, m);
      SecondLeadsInv(s, v, parity);
    }
  }

  lemma BReceivesKeepsInv<Sec(!new), Pub(!new), Key(!new), Box(!new)>(s: Suite<Sec, Pub, Key, Box>,
      w: World<Sec, Pub, Key, Box>, parity: nat)
    requires Lawful(s) && parity <= 1 && InvFrom(s, w, parity)
    ensures InvFrom(s, BReceives(s, w), parity)
  {
    if w.ab.frames == [] {
    } else if w.a.rootSteps % 2 == parity && Leads(s, w.a, w.b, w.ab, w.ba) {
      FollowerReceives(s, w);
    } else {
      LeaderReceives(s, w);
    }
  }

  /** Every step of either party keeps the invariant. */
  lemma StepKeepsInv<Sec(!new), Pub(!new), Key(!new), Box(!new)>(s: Suite<Sec, Pub, Key, Box>,
      w: World<Sec, Pub, Key, Box>, step: Step<Sec>)
    requires Lawful(s) && Inv(s, w) && FreshStep(s, w, step)
    ensures Inv(s, Apply(s, w, step))
  {
    match step
    case SendA(rnd, m) => ASendsKeepsInv(s, w, 1, rnd, m);
    case ReceiveB => BReceivesKeepsInv(s, w, 1);
    case SendB(rnd, m) => ASendsKeepsInv(s, Flip(w), 0, rnd, m);
    case ReceiveA => BReceivesKeepsInv(s, Flip(w), 0);
  }

  /** A fresh session satisfies the invariant: the initiator is one root step ahead. */
  lemma StartInv<Sec(!new), Pub(!new), Key(!new), Box(!new)>(s: Suite<Sec, Pub, Key, Box>, shared: Key, preKey: Sec,
      rnd: Sec)
    requires Lawful(s)
    ensures Inv(s, Start(s, shared, preKey, rnd))
  {
    var w := Start(s, shared, preKey, rnd);
    assert Ahead(s, w.a.rt, w.b.rt, w.ab, w.ba, 0);
  }

  lemma {:induction false} RunKeepsInv<Sec(!new), Pub(!new), Key(!new), Box(!new)>(s: Suite<Sec, Pub, Key, Box>,
      w: World<Sec, Pub, Key, Box>, steps: seq<Step<Sec>>)
    requires Lawful(s) && Inv(s, w) && FreshRun(s, w, steps)
    ensures Inv(s, Run(s, w, steps))
    decreases |steps|
  {
    if steps != [] {
      StepKeepsInv(s, w, steps[0]);
      RunKeepsInv(s, Apply(s, w, steps[0]), steps[1..]);
    }
  }

  /**
  Correctness over whole runs: under every interleaving of sends and in-order deliveries, no delivery
  is rejected, and in each direction the delivered plaintexts are exactly the sent ones, in order, up
  to those still in flight.
  */
  lemma EveryDeliveryDecrypts<Sec(!new), Pub(!new), Key(!new), Box(!new)>(s: Suite<Sec, Pub, Key, Box>, shared: Key,
      preKey: Sec, rnd: Sec, steps: seq<Step<Sec>>)
    requires Lawful(s) && FreshRun(s, Start(s, shared, preKey, rnd), steps)
    ensures var w := Run(s, Start(s, shared, preKey, rnd), steps);
            && !w.failed
            && w.ab.got <= w.ab.sent && |w.ab.sent| == |w.ab.got| + |w.ab.frames|
            && w.ba.got <= w.ba.sent && |w.ba.sent| == |w.ba.got| + |w.ba.frames|
  {
    StartInv(s, shared, preKey, rnd);
    RunKeepsInv(s, Start(s, shared, preKey, rnd), steps);
  }

  /**
  Delivering everything in flight towards `b` hands over exactly the plaintexts that were in flight.
  */
  lemma {:induction false} DrainDeliversPending<Sec(!new), Pub(!new), Key(!new), Box(!new)>(
      s: Suite<Sec, Pub, Key, Box>, w: World<Sec, Pub, Key, Box>)
    requires Lawful(s) && Inv(s, w)
    ensures var v := Run(s, w, seq(|w.ab.frames|, _ => ReceiveB));
            !v.failed && v.ab.frames == [] && v.ab.got == w.ab.sent == v.ab.sent
    decreases |w.ab.frames|
  {
    if w.ab.frames != [] {
      var steps: seq<Step<Sec>> := seq(|w.ab.frames|, _ => ReceiveB);
      var v := BReceives(s, w);
      StepKeepsInv(s, w, ReceiveB);
      assert !v.failed && v.ab.frames == w.ab.frames[1..];
      assert steps[1..] == seq(|v.ab.frames|, _ => ReceiveB);
      DrainDeliversPending(s, v);
    }
  }

  /** A send moves the root by one step of the root KDF when there is no sending chain, and not at all otherwise. */
  ghost predicate OnlyOwedSendMovesRoot<Sec(!new), Pub(!new), Key(!new), Box(!new)>(s: Suite<Sec, Pub, Key, Box>,
      r: Ratchet<Sec, Pub, Key>)
  {
    forall x: Sec, m ::
      if r.send.Some? then Encrypt(s, r, x, m).0.root == r.root
      else r.remote.Some? && Encrypt(s, r, x, m).0.root == s.kdfRk(r.root, s.dh(x, r.remote.value)).0
  }

  /**
  Lockstep of the root chains: the step counts differ by at most one. When they are equal the roots
  are equal, exactly one side has no sending chain, and only that side's next send moves its root.
  When one is ahead, its root is the other's root advanced by the DH of the two current keys.
  */
  lemma Lockstep<Sec(!new), Pub(!new), Key(!new), Box(!new)>(s: Suite<Sec, Pub, Key, Box>, shared: Key, preKey: Sec,
      rnd: Sec, steps: seq<Step<Sec>>)
    requires Lawful(s) && FreshRun(s, Start(s, shared, preKey, rnd), steps)
    ensures var w := Run(s, Start(s, shared, preKey, rnd), steps);
            && -1 <= w.a.rootSteps - w.b.rootSteps <= 1
            && (w.a.rootSteps == w.b.rootSteps ==>
                  && w.a.rt.root == w.b.rt.root
                  && w.a.rt.send.Some? != w.b.rt.send.Some?
                  && OnlyOwedSendMovesRoot(s, w.a.rt) && OnlyOwedSendMovesRoot(s, w.b.rt)
                  && (forall x: Sec, m ::
                        PartySend(s, w.a, x, m).0.rootSteps == w.a.rootSteps + 1 <==> w.a.rt.send.None?)
                  && (forall x: Sec, m ::
                        PartySend(s, w.b, x, m).0.rootSteps == w.b.rootSteps + 1 <==> w.b.rt.send.None?))
            && (w.a.rootSteps == w.b.rootSteps + 1 ==>
                  w.a.rt.root == s.kdfRk(w.b.rt.root, s.dh(w.b.rt.self, s.pub(w.a.rt.self))).0)
            && (w.b.rootSteps == w.a.rootSteps + 1 ==>
                  w.b.rt.root == s.kdfRk(w.a.rt.root, s.dh(w.a.rt.self, s.pub(w.b.rt.self))).0)
  {
    StartInv(s, shared, preKey, rnd);
    RunKeepsInv(s, Start(s, shared, preKey, rnd), steps);
  }
}
