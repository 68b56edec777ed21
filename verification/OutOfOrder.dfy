/**
What a reader does with genuine frames that arrive again, reflected, or before their turn, over free
terms. The ratchet keeps no skipped keys, yet not every skip is rejected.
*/
module OutOfOrder {
  import opened Prelude
  import opened DoubleRatchet
  import opened RatchetPair
  import opened SymbolicSecrecy

  // ---------------------------------------------------------------------------
  // Replays and reflections
  // ---------------------------------------------------------------------------

  /** Sealed under a key this party has already used, for sending or for reading. */
  predicate UsedHere(p: FreeParty, f: Frame<Pk, Sealed>) {
    || (exists i | 0 <= i < |p.openedWith| :: p.openedWith[i] == f.body.key)
    || (exists i | 0 <= i < |p.sealedWith| :: p.sealedWith[i].0 == f.body.key)
  }

  lemma SafeRejectsUsed(p: FreeParty, f: Frame<Pk, Sealed>)
    requires Safe(p) && UsedHere(p, f)
    ensures Decrypt(FreeSuite(), p.rt, f).1.Err?
  {
    assert SpentKey(p.rt, f.body.key);
    DecryptSpends(p.rt, f);
  }

  /**
  Whatever a party has been made to send or read, it rejects every frame it has read before, every frame
  of its own that is sent back to it, and every other box under one of those keys, under any header.
  */
  lemma ReplaysAndReflectionsRejected(initiator: bool, session: nat, self: nat, remote: Pk, ops: seq<Op>,
      f: Frame<Pk, Sealed>)
    requires UsedHere(RunParty(NewSession(initiator, session, self, remote), ops), f)
    ensures Decrypt(FreeSuite(), RunParty(NewSession(initiator, session, self, remote), ops).rt, f).1.Err?
  {
    RunKeepsSafe(NewSession(initiator, session, self, remote), ops);
    SafeRejectsUsed(RunParty(NewSession(initiator, session, self, remote), ops), f);
  }

  // ---------------------------------------------------------------------------
  // The keys of the frames of a pair
  // ---------------------------------------------------------------------------

  /** The frames of one direction, delivered and in flight, are those the writer sealed, in order. */
  predicate KeysInOrder(writer: FreeParty, reader: FreeParty, l: Link<Pk, Sealed>) {
    && |writer.sealedWith| == |l.got| + |l.frames| && |reader.openedWith| == |l.got|
    && (forall i | 0 <= i < |l.got| :: writer.sealedWith[i].0 == reader.openedWith[i])
    && (forall i | 0 <= i < |l.frames| :: writer.sealedWith[|l.got| + i].0 == l.frames[i].body.key)
  }

  lemma ASendsKeysInOrder(w: FreeWorld, rnd: nat, m: Bytes)
    requires KeysInOrder(w.a, w.b, w.ab) && KeysInOrder(w.b, w.a, w.ba)
    ensures var v := ASends(FreeSuite(), w, rnd, m); KeysInOrder(v.a, v.b, v.ab) && KeysInOrder(v.b, v.a, v.ba)
  {
  }

  lemma BReceivesKeysInOrder(w: FreeWorld)
    requires KeysInOrder(w.a, w.b, w.ab) && KeysInOrder(w.b, w.a, w.ba) && !BReceives(FreeSuite(), w).failed
    ensures var v := BReceives(FreeSuite(), w); KeysInOrder(v.a, v.b, v.ab) && KeysInOrder(v.b, v.a, v.ba)
  {
  }

  lemma {:induction false} RunKeysInOrder(w: FreeWorld, steps: seq<Step<nat>>)
    requires Alternating(w) && FreshRun(FreeSuite(), w, steps)
    requires KeysInOrder(w.a, w.b, w.ab) && KeysInOrder(w.b, w.a, w.ba)
    ensures var v := Run(FreeSuite(), w, steps);
            Alternating(v) && KeysInOrder(v.a, v.b, v.ab) && KeysInOrder(v.b, v.a, v.ba)
    decreases |steps|
  {
    if steps != [] {
      StepKeepsAlternating(w, steps[0]);
      match steps[0] {
        case SendA(rnd, m) => ASendsKeysInOrder(w, rnd, m);
        case SendB(rnd, m) => ASendsKeysInOrder(Flip(w), rnd, m);
        case ReceiveB => BReceivesKeysInOrder(w);
        case ReceiveA => BReceivesKeysInOrder(Flip(w));
      }
      RunKeysInOrder(Apply(FreeSuite(), w, steps[0]), steps[1..]);
    }
  }

  lemma {:induction false} ChainAtIndex(c: Term, k: nat)
    ensures ChainIndex(ChainAt(FreeSuite(), c, k)) == ChainIndex(c) + k
    ensures IsChain(c) ==>
              IsChain(ChainAt(FreeSuite(), c, k)) && ChainStart(ChainAt(FreeSuite(), c, k)) == ChainStart(c)
    decreases k
  {
    if k > 0 {
      ChainAtIndex(Next(c), k - 1);
    }
  }

  lemma {:induction false} StreamAt(dh: Pk, c: Term, n: u32, frames: seq<Frame<Pk, Sealed>>, plains: seq<Bytes>, i: nat)
    requires Stream(FreeSuite(), dh, c, n, frames, plains) && i < |frames|
    ensures frames[i].dh == dh && frames[i].body.key == Msg(ChainAt(FreeSuite(), c, i))
    decreases i
  {
    if i > 0 {
      StreamAt(dh, Next(c), Inc(n), frames[1..], plains[1..], i - 1);
    }
  }

  // ---------------------------------------------------------------------------
  // Frames before their turn
  // ---------------------------------------------------------------------------

  /** The oldest frame in flight, or the first one in flight with a DH key that makes the reader rotate. */
  predicate Acceptable(r: FreeRatchet, frames: seq<Frame<Pk, Sealed>>, j: nat)
    requires j < |frames|
  {
    j == 0 || (ReceiveRotates(r, frames[j].dh) && forall i | 0 <= i < j :: frames[i].dh != frames[j].dh)
  }

  /** What is in flight towards `r`: frames of the chain it reads, then frames of a chain it will derive. */
  predicate InFlight(r: FreeRatchet, frames: seq<Frame<Pk, Sealed>>, plains: seq<Bytes>, next: Pk, k: nat) {
    && k <= |frames| == |plains| && WellFormed(r)
    && Readable(FreeSuite(), r.remote, r.recv, r.recvN, frames[..k], plains[..k])
    && (k < |frames| ==> ReceiveRotates(r, next))
    && Stream(FreeSuite(), next, Chain(r.root, FreeDh(r.self, next)), 0, frames[k..], plains[k..])
  }

  lemma HeaderAt(r: FreeRatchet, frames: seq<Frame<Pk, Sealed>>, plains: seq<Bytes>, next: Pk, k: nat, j: nat)
    requires InFlight(r, frames, plains, next, k) && j < |frames|
    ensures ReceiveRotates(r, frames[j].dh) <==> k <= j
    ensures j >= k ==> frames[j].dh == next
    ensures frames[j].body.key == if j < k then Msg(ChainAt(FreeSuite(), r.recv.value, j))
                                  else Msg(ChainAt(FreeSuite(), Chain(r.root, FreeDh(r.self, next)), j - k))
  {
    if j < k {
      StreamAt(r.remote.value, r.recv.value, r.recvN, frames[..k], plains[..k], j);
    } else {
      StreamAt(next, Chain(r.root, FreeDh(r.self, next)), 0, frames[k..], plains[k..], j - k);
    }
  }

  lemma FirstOfChainOpens(r: FreeRatchet, frames: seq<Frame<Pk, Sealed>>, plains: seq<Bytes>, next: Pk, k: nat)
    requires InFlight(r, frames, plains, next, k) && frames != []
    ensures Decrypt(FreeSuite(), r, frames[0]).1.Ok?
    ensures k < |frames| ==> Decrypt(FreeSuite(), r, frames[k]).1.Ok?
  {
    FreeSuiteLawful();
    if k > 0 {
      ReceiveOnChainEffect(FreeSuite(), r, frames[..k], plains[..k]);
    }
    if k < |frames| {
      ReceiveRotatingEffect(FreeSuite(), r, next, frames[k..][0], plains[k..][0]);
    }
  }

  lemma AcceptedIff(r: FreeRatchet, frames: seq<Frame<Pk, Sealed>>, plains: seq<Bytes>, next: Pk, k: nat, j: nat)
    requires InFlight(r, frames, plains, next, k) && j < |frames|
    ensures Decrypt(FreeSuite(), r, frames[j]).1.Ok? <==> Acceptable(r, frames, j)
    ensures Acceptable(r, frames, j) <==> j == 0 || j == k
  {
    forall i | 0 <= i <= j
      ensures ReceiveRotates(r, frames[i].dh) <==> k <= i
      ensures i >= k ==> frames[i].dh == next
    {
      HeaderAt(r, frames, plains, next, k, i);
    }
    if k <= j { assert frames[k].dh == next; }
    FirstOfChainOpens(r, frames, plains, next, k);
    if j != 0 && j != k {
      HeaderAt(r, frames, plains, next, k, j);
      ChainAtIndex(if j < k then r.recv.value else Chain(r.root, FreeDh(r.self, next)), if j < k then j else j - k);
    }
  }

  /** The invariant of a pair, seen from one reader. */
  lemma PairInFlight(w: FreeWorld)
    requires Alternating(w)
    ensures |w.ab.got| <= |w.ab.sent|
    ensures exists k: nat :: InFlight(w.b.rt, w.ab.frames, Pending(w.ab), Pk(w.a.rt.self), k)
    ensures |w.ba.got| <= |w.ba.sent|
    ensures exists k: nat :: InFlight(w.a.rt, w.ba.frames, Pending(w.ba), Pk(w.b.rt.self), k)
  {
    if Leads(FreeSuite(), w.a, w.b, w.ab, w.ba) {
      LeaderInFlight(w);
    } else {
      LeaderInFlight(Flip(w));
    }
  }

  lemma LeaderInFlight(w: FreeWorld)
    requires WellFormed(w.a.rt) && WellFormed(w.b.rt) && RatchetPair.Conserved(w.ab) && RatchetPair.Conserved(w.ba)
    requires Leads(FreeSuite(), w.a, w.b, w.ab, w.ba)
    ensures exists k: nat :: InFlight(w.b.rt, w.ab.frames, Pending(w.ab), Pk(w.a.rt.self), k)
    ensures exists k: nat :: InFlight(w.a.rt, w.ba.frames, Pending(w.ba), Pk(w.b.rt.self), k)
  {
    AllOnOneChain(w.a.rt, w.ba.frames, Pending(w.ba), Pk(w.b.rt.self));
    if w.a.rootSteps == w.b.rootSteps {
      AllOnOneChain(w.b.rt, w.ab.frames, Pending(w.ab), Pk(w.a.rt.self));
    } else {
      var k: nat :| Ahead(FreeSuite(), w.a.rt, w.b.rt, w.ab, w.ba, k);
      assert InFlight(w.b.rt, w.ab.frames, Pending(w.ab), Pk(w.a.rt.self), k);
    }
  }

  lemma AllOnOneChain(r: FreeRatchet, frames: seq<Frame<Pk, Sealed>>, plains: seq<Bytes>, next: Pk)
    requires WellFormed(r) && |frames| == |plains| && Readable(FreeSuite(), r.remote, r.recv, r.recvN, frames, plains)
    ensures InFlight(r, frames, plains, next, |frames|)
  {
    assert frames[..|frames|] == frames && plains[..|frames|] == plains;
  }

  /** One direction of a pair: the writer's frames against the reader's present state. */
  predicate OrderVerdict(writer: FreeParty, reader: FreeParty, l: Link<Pk, Sealed>) {
    && |writer.sealedWith| == |l.got| + |l.frames|
    && (forall i | 0 <= i < |l.frames| :: writer.sealedWith[|l.got| + i].0 == l.frames[i].body.key)
    && (forall i | 0 <= i < |l.frames| ::
          Decrypt(FreeSuite(), reader.rt, l.frames[i]).1.Ok? <==> Acceptable(reader.rt, l.frames, i))
  }

  /** Boxes under the keys of delivered frames. */
  ghost predicate DeliveredRejected(writer: FreeParty, reader: FreeParty, l: Link<Pk, Sealed>)
    requires |l.got| <= |writer.sealedWith|
  {
    forall i, f: Frame<Pk, Sealed> | 0 <= i < |l.got| && f.body.key == writer.sealedWith[i].0 ::
      Decrypt(FreeSuite(), reader.rt, f).1.Err?
  }

  lemma DirectionVerdict(writer: FreeParty, reader: FreeParty, l: Link<Pk, Sealed>, plains: seq<Bytes>, next: Pk,
      k: nat)
    requires Safe(reader) && KeysInOrder(writer, reader, l) && InFlight(reader.rt, l.frames, plains, next, k)
    ensures OrderVerdict(writer, reader, l) && DeliveredRejected(writer, reader, l)
  {
    forall i | 0 <= i < |l.frames|
      ensures Decrypt(FreeSuite(), reader.rt, l.frames[i]).1.Ok? <==> Acceptable(reader.rt, l.frames, i)
    {
      AcceptedIff(reader.rt, l.frames, plains, next, k, i);
    }
    forall i, f: Frame<Pk, Sealed> | 0 <= i < |l.got| && f.body.key == writer.sealedWith[i].0
      ensures Decrypt(FreeSuite(), reader.rt, f).1.Err?
    {
      assert reader.openedWith[i] == f.body.key;
      SafeRejectsUsed(reader, f);
    }
  }

  /**
  In every run and for every frame ever sent: one that was delivered is rejected if it comes again, and
  one in flight is accepted exactly if it is the oldest, or the first in flight whose DH key makes the
  reader rotate.
  */
  lemma AcceptedExactly(session: nat, preKey: nat, rnd: nat, steps: seq<Step<nat>>)
    requires FreshRun(FreeSuite(), Start(FreeSuite(), Shared(session), preKey, rnd), steps)
    ensures var w := Run(FreeSuite(), Start(FreeSuite(), Shared(session), preKey, rnd), steps);
            && OrderVerdict(w.a, w.b, w.ab) && DeliveredRejected(w.a, w.b, w.ab)
            && OrderVerdict(w.b, w.a, w.ba) && DeliveredRejected(w.b, w.a, w.ba)
  {
    FreeSuiteLawful();
    StartInv(FreeSuite(), Shared(session), preKey, rnd);
    RunKeysInOrder(Start(FreeSuite(), Shared(session), preKey, rnd), steps);
    var w := Run(FreeSuite(), Start(FreeSuite(), Shared(session), preKey, rnd), steps);
    PairInFlight(w);
    var j: nat :| InFlight(w.b.rt, w.ab.frames, Pending(w.ab), Pk(w.a.rt.self), j);
    DirectionVerdict(w.a, w.b, w.ab, Pending(w.ab), Pk(w.a.rt.self), j);
    var k: nat :| InFlight(w.a.rt, w.ba.frames, Pending(w.ba), Pk(w.b.rt.self), k);
    DirectionVerdict(w.b, w.a, w.ba, Pending(w.ba), Pk(w.b.rt.self), k);
  }

  // ---------------------------------------------------------------------------
  // What an accepted skip costs, and when none can happen
  // ---------------------------------------------------------------------------

  /** A frame is accepted before its turn, and then everything it overtook is rejected. */
  predicate SkipLosesOvertaken(r: FreeRatchet, frames: seq<Frame<Pk, Sealed>>, j: nat)
    requires j < |frames|
  {
    var (r1, res) := Decrypt(FreeSuite(), r, frames[j]);
    j > 0 && res.Ok? ==> forall i | 0 <= i < j :: Decrypt(FreeSuite(), r1, frames[i]).1.Err?
  }

  lemma OvertakenRejected(r: FreeRatchet, frames: seq<Frame<Pk, Sealed>>, plains: seq<Bytes>, next: Pk, k: nat, j: nat)
    requires InFlight(r, frames, plains, next, k) && j < |frames|
    ensures SkipLosesOvertaken(r, frames, j)
  {
    AcceptedIff(r, frames, plains, next, k, j);
    var (r1, res) := Decrypt(FreeSuite(), r, frames[j]);
    if j > 0 && res.Ok? {
      HeaderAt(r, frames, plains, next, k, j);
      forall i | 0 <= i < j
        ensures Decrypt(FreeSuite(), r1, frames[i]).1.Err?
      {
        HeaderAt(r, frames, plains, next, k, i);
        ChainAtIndex(r.recv.value, i);
        var late := ChainUsedToReceive(r1, frames[i]).value;
        assert ReceiveRotates(r1, frames[i].dh) && Epoch(late) == RootDepth(r1.root);
        assert Epoch(ChainAt(FreeSuite(), r.recv.value, i)) < RootDepth(r.root) < RootDepth(r1.root);
      }
    }
  }

  /** In every run: a skip that the reader accepts makes every frame it overtook unreadable. */
  lemma SkippedFramesAreLost(session: nat, preKey: nat, rnd: nat, steps: seq<Step<nat>>)
    requires FreshRun(FreeSuite(), Start(FreeSuite(), Shared(session), preKey, rnd), steps)
    ensures var w := Run(FreeSuite(), Start(FreeSuite(), Shared(session), preKey, rnd), steps);
            && (forall j | 0 <= j < |w.ab.frames| :: SkipLosesOvertaken(w.b.rt, w.ab.frames, j))
            && (forall j | 0 <= j < |w.ba.frames| :: SkipLosesOvertaken(w.a.rt, w.ba.frames, j))
  {
    FreeSuiteLawful();
    StartInv(FreeSuite(), Shared(session), preKey, rnd);
    RunKeepsAlternating(Start(FreeSuite(), Shared(session), preKey, rnd), steps);
    var w := Run(FreeSuite(), Start(FreeSuite(), Shared(session), preKey, rnd), steps);
    PairInFlight(w);
    var k: nat :| InFlight(w.b.rt, w.ab.frames, Pending(w.ab), Pk(w.a.rt.self), k);
    var l: nat :| InFlight(w.a.rt, w.ba.frames, Pending(w.ba), Pk(w.b.rt.self), l);
    forall j | 0 <= j < |w.ab.frames| { OvertakenRejected(w.b.rt, w.ab.frames, Pending(w.ab), Pk(w.a.rt.self), k, j); }
    forall j | 0 <= j < |w.ba.frames| { OvertakenRejected(w.a.rt, w.ba.frames, Pending(w.ba), Pk(w.b.rt.self), l, j); }
  }

  /** The initiator sends, is answered, has one more frame of its first chain in flight, and rotates. */
  const AcrossARotation: seq<Step<nat>> :=
    [SendA(0, []), ReceiveB, SendB(3, []), SendA(0, []), ReceiveA, SendA(4, [])]

  const Root1: Term := Root(Shared(0), Dh(1, 2))
  const Root2: Term := Root(Root1, Dh(2, 3))
  const Chain1: Term := Chain(Shared(0), Dh(1, 2))
  const Chain2: Term := Chain(Root1, Dh(2, 3))
  const Chain3: Term := Chain(Root2, Dh(3, 4))

  function Box(self: nat, chain: Term, n: u32): Frame<Pk, Sealed> {
    Frame(Pk(self), Sealed(Msg(chain), Nonce(n), Pk(self), []))
  }

  function After(n: nat): FreeWorld
    requires n <= 6
  {
    if n == 0 then Opening else Apply(FreeSuite(), After(n - 1), AcrossARotation[n - 1])
  }

  lemma FirstExchange()
    ensures After(1).a.rt == Ratchet(Root1, 2, Some(Pk(1)), Some(Next(Chain1)), None, 1, 0)
    ensures After(1).b == Opening.b && After(1).ab.frames == [Box(2, Chain1, 0)] && After(1).ba.frames == []
    ensures After(2).a == After(1).a && After(2).ab.frames == [] && After(2).ba.frames == []
    ensures After(2).b.rt == Ratchet(Root1, 1, Some(Pk(2)), None, Some(Next(Chain1)), 0, 1)
  {
    assert After(1) == Apply(FreeSuite(), Opening, SendA(0, []));
    assert After(2) == Apply(FreeSuite(), After(1), ReceiveB);
  }

  lemma AnswerAndOneMore()
    ensures After(3).b.rt == Ratchet(Root2, 3, Some(Pk(2)), Some(Next(Chain2)), Some(Next(Chain1)), 1, 1)
    ensures After(3).a == After(2).a && After(3).ab.frames == [] && After(3).ba.frames == [Box(3, Chain2, 0)]
    ensures After(4).a.rt == After(2).a.rt.(send := Some(Next(Next(Chain1))), sendN := 2)
    ensures After(4).b == After(3).b && After(4).ab.frames == [Box(2, Next(Chain1), 1)] && After(4).ba == After(3).ba
  {
    FirstExchange();
    assert After(3) == Apply(FreeSuite(), After(2), SendB(3, []));
    assert After(4) == Apply(FreeSuite(), After(3), SendA(0, []));
  }

  lemma AnswerRead()
    ensures After(5).a.rt == Ratchet(Root2, 2, Some(Pk(3)), None, Some(Next(Chain2)), 2, 1)
    ensures After(5).b == After(4).b && After(5).ab == After(4).ab
  {
    FirstExchange();
    AnswerAndOneMore();
    assert After(5) == Apply(FreeSuite(), After(4), ReceiveA);
  }

  lemma Rotated()
    ensures After(6).b == After(5).b
    ensures After(6).ab.frames == After(5).ab.frames + [Box(4, Chain3, 0)]
  {
    AnswerRead();
    assert After(6) == Apply(FreeSuite(), After(5), SendA(4, []));
  }

  lemma {:induction false} RunIsAfter(n: nat)
    requires n <= 6
    ensures Run(FreeSuite(), After(n), AcrossARotation[n..]) == After(6)
    ensures FreshRun(FreeSuite(), After(n), AcrossARotation[n..])
    decreases 6 - n
  {
    if n < 6 {
      var rest := AcrossARotation[n..];
      assert rest[0] == AcrossARotation[n] && rest[1..] == AcrossARotation[n + 1..];
      FirstExchange();
      AnswerAndOneMore();
      AnswerRead();
      RunIsAfter(n + 1);
    }
  }

  /** The responder's state in the end: it has answered and read nothing since. */
  const Answerer: FreeRatchet := Ratchet(Root2, 3, Some(Pk(2)), Some(Next(Chain2)), Some(Next(Chain1)), 1, 1)

  lemma InTheEnd()
    ensures After(6).b.rt == Answerer
    ensures After(6).ab.frames == [Box(2, Next(Chain1), 1), Box(4, Chain3, 0)]
  {
    AnswerAndOneMore();
    AnswerRead();
    Rotated();
  }

  lemma AnswererSkips()
    ensures var (r1, res) := Decrypt(FreeSuite(), Answerer, Box(4, Chain3, 0));
            res.Ok? && Decrypt(FreeSuite(), r1, Box(2, Next(Chain1), 1)).1.Err?
  {
  }

  /** Two frames are in flight; the later one is accepted, and the earlier one is rejected after it. */
  predicate SecondOvertakesFirst(w: FreeWorld) {
    && |w.ab.frames| == 2
    && var (r1, res) := Decrypt(FreeSuite(), w.b.rt, w.ab.frames[1]);
       res.Ok? && Decrypt(FreeSuite(), r1, w.ab.frames[0]).1.Err?
  }

  /** Such a skip exists: the second frame in flight is accepted first, and the first one is then rejected. */
  lemma SkipAcrossRotationAccepted()
    ensures FreshRun(FreeSuite(), Opening, AcrossARotation)
    ensures SecondOvertakesFirst(Run(FreeSuite(), Opening, AcrossARotation))
  {
    RunIsAfter(0);
    assert AcrossARotation[0..] == AcrossARotation && After(0) == Opening;
    InTheEnd();
    AnswererSkips();
  }

  /** The initiator alone sends: nothing comes back, and all it has in flight is of its first chain. */
  predicate OneSided(w: FreeWorld, self: nat) {
    && w.ba.frames == [] && w.a.rt.send.Some? && w.a.rt.self == self
    && forall i | 0 <= i < |w.ab.frames| :: w.ab.frames[i].dh == Pk(self)
  }

  lemma {:induction false} RunStaysOneSided(w: FreeWorld, self: nat, steps: seq<Step<nat>>)
    requires OneSided(w, self) && forall i | 0 <= i < |steps| :: !steps[i].SendB?
    ensures OneSided(Run(FreeSuite(), w, steps), self)
    decreases |steps|
  {
    if steps != [] {
      RunStaysOneSided(Apply(FreeSuite(), w, steps[0]), self, steps[1..]);
    }
  }

  /**
  A session used in one direction only, as the client uses its sessions: the reader accepts the oldest
  frame in flight and no other frame that was ever sent.
  */
  lemma OneWayAcceptsOldestOnly(session: nat, preKey: nat, rnd: nat, steps: seq<Step<nat>>)
    requires FreshRun(FreeSuite(), Start(FreeSuite(), Shared(session), preKey, rnd), steps)
    requires forall i | 0 <= i < |steps| :: !steps[i].SendB?
    ensures var w := Run(FreeSuite(), Start(FreeSuite(), Shared(session), preKey, rnd), steps);
            && |w.a.sealedWith| == |w.ab.got| + |w.ab.frames|
            && DeliveredRejected(w.a, w.b, w.ab)
            && forall i | 0 <= i < |w.ab.frames| :: Decrypt(FreeSuite(), w.b.rt, w.ab.frames[i]).1.Ok? <==> i == 0
  {
    AcceptedExactly(session, preKey, rnd, steps);
    RunStaysOneSided(Start(FreeSuite(), Shared(session), preKey, rnd), rnd, steps);
    var w := Run(FreeSuite(), Start(FreeSuite(), Shared(session), preKey, rnd), steps);
    forall i | 0 <= i < |w.ab.frames|
      ensures Acceptable(w.b.rt, w.ab.frames, i) <==> i == 0
    {
      assert w.ab.frames[0].dh == w.ab.frames[i].dh;
    }
  }
}
