/**
Post-compromise healing over free terms: after one party's whole state has leaked, which of the keys
that the two parties go on to use can be computed from it.
*/
module Healing {
  import opened Prelude
  import opened DoubleRatchet
  import opened RatchetPair
  import opened SymbolicSecrecy
  import opened OutOfOrder

  // ---------------------------------------------------------------------------
  // Root keys of one session lie on one line
  // ---------------------------------------------------------------------------

  /** `t` is `r` advanced by root steps. */
  predicate LeadsTo(r: Term, t: Term) {
    r == t || (t.Root? && t.dh.Dh? && LeadsTo(r, t.root))
  }

  lemma {:induction false} LeadsToTransitive(r: Term, s: Term, t: Term)
    requires LeadsTo(r, s) && LeadsTo(s, t)
    ensures LeadsTo(r, t)
  {
    if s != t {
      LeadsToTransitive(r, s, t.root);
    }
  }

  /** Of two roots on one line, the earlier leads to the later. */
  lemma {:induction false} LeadsToLinear(r: Term, s: Term, t: Term)
    requires LeadsTo(r, t) && LeadsTo(s, t) && RootDepth(r) <= RootDepth(s)
    ensures LeadsTo(r, s)
  {
    LeadsToDeepens(s, t);
    LeadsToDeepens(r, t);
    if s != t {
      LeadsToLinear(r, s, t.root);
    }
  }

  lemma {:induction false} LeadsToDeepens(r: Term, t: Term)
    requires LeadsTo(r, t)
    ensures RootDepth(r) <= RootDepth(t) && (RootDepth(r) == RootDepth(t) ==> r == t)
    ensures IsRoot(r) ==> IsRoot(t)
  {
    if r != t {
      LeadsToDeepens(r, t.root);
    }
  }

  /** The root key that came out of the root step that made the chain of `c`. */
  function RootBeside(c: Term): Term
    requires IsChain(c)
  {
    ChainStartShape(c);
    Root(ChainStart(c).root, ChainStart(c).dh)
  }

  // ---------------------------------------------------------------------------
  // What a leaked state yields
  // ---------------------------------------------------------------------------

  /** Every root step from `r` to `t` mixed in a DH output with a known secret. */
  ghost predicate StepsKnown(secrets: iset<nat>, r: Term, t: Term)
    requires LeadsTo(r, t)
  {
    r == t || ((t.dh.lo in secrets || t.dh.hi in secrets) && StepsKnown(secrets, r, t.root))
  }

  lemma {:induction false} RootDerivableIff(r: FreeRatchet, secrets: iset<nat>, t: Term)
    requires WellFormed(r) && LeadsTo(r.root, t)
    ensures Builds(Held(r), secrets, t) <==> StepsKnown(secrets, r.root, t)
  {
    if r.root != t {
      LeadsToDeepens(r.root, t);
      RootDerivableIff(r, secrets, t.root);
    }
  }

  lemma {:induction false} ChainDerivableIff(r: FreeRatchet, secrets: iset<nat>, c: Term)
    requires WellFormed(r) && IsChain(c) && RootDepth(r.root) <= Epoch(c) && LeadsTo(r.root, RootBeside(c))
    ensures Builds(Held(r), secrets, c) <==> StepsKnown(secrets, r.root, RootBeside(c))
  {
    match c
    case Chain(root, _) => RootDerivableIff(r, secrets, root);
    case Next(c1) => ChainDerivableIff(r, secrets, c1);
  }

  /** A step with no known secret is not made good by later ones. */
  lemma {:induction false} UnknownStepStays(secrets: iset<nat>, r: Term, s: Term, t: Term)
    requires LeadsTo(r, s) && LeadsTo(s, t) && !StepsKnown(secrets, r, s)
    ensures LeadsTo(r, t) && !StepsKnown(secrets, r, t)
  {
    LeadsToTransitive(r, s, t);
    LeadsToDeepens(r, s);
    LeadsToDeepens(s, t);
    if s != t {
      UnknownStepStays(secrets, r, s, t.root);
    }
  }

  // ---------------------------------------------------------------------------
  // One party
  // ---------------------------------------------------------------------------

  /** The sending chain came out of the step that made the current root; every key used lies on a chain. */
  predicate SendsBesideRoot(p: FreeParty) {
    && (p.rt.send.Some? ==> IsChain(p.rt.send.value) && RootBeside(p.rt.send.value) == p.rt.root)
    && forall i | 0 <= i < |p.sealedWith| :: p.sealedWith[i].0.Msg? && IsChain(p.sealedWith[i].0.chain)
  }

  /** What `q` has sealed since it was `p` lies on chains that came with `p`'s root or a later one. */
  predicate Grew(p: FreeParty, q: FreeParty)
    requires SendsBesideRoot(q)
  {
    && LeadsTo(p.rt.root, q.rt.root) && p.sealedWith <= q.sealedWith
    && forall i | |p.sealedWith| <= i < |q.sealedWith| :: LeadsTo(p.rt.root, RootBeside(q.sealedWith[i].0.chain))
  }

  lemma SendGrows(p: FreeParty, rnd: nat, m: Bytes)
    requires SendsBesideRoot(p) && IsRoot(p.rt.root)
    ensures var q := PartySend(FreeSuite(), p, rnd, m).0;
            && SendsBesideRoot(q) && Grew(p, q)
            && forall i | |p.sealedWith| <= i < |q.sealedWith| :: RootBeside(q.sealedWith[i].0.chain) == q.rt.root
  {
    if p.rt.send.Some? || SendRotates(p.rt) { AdvanceChain(ChainUsedToSend(p.rt, rnd).value); }
  }

  lemma ReceiveGrows(p: FreeParty, f: Frame<Pk, Sealed>)
    requires SendsBesideRoot(p)
    ensures var q := PartyReceive(FreeSuite(), p, f).0;
            SendsBesideRoot(q) && Grew(p, q) && q.sealedWith == p.sealedWith
  {
  }

  lemma GrewTransitive(p: FreeParty, q: FreeParty, r: FreeParty)
    requires SendsBesideRoot(q) && SendsBesideRoot(r) && Grew(p, q) && Grew(q, r)
    ensures Grew(p, r)
  {
    LeadsToTransitive(p.rt.root, q.rt.root, r.rt.root);
    forall i | |p.sealedWith| <= i < |r.sealedWith|
      ensures LeadsTo(p.rt.root, RootBeside(r.sealedWith[i].0.chain))
    {
      if i < |q.sealedWith| {
        assert r.sealedWith[i] == q.sealedWith[i];
      } else {
        LeadsToTransitive(p.rt.root, q.rt.root, RootBeside(r.sealedWith[i].0.chain));
      }
    }
  }

  // ---------------------------------------------------------------------------
  // Both parties
  // ---------------------------------------------------------------------------

  /** The root key that has taken the most steps. */
  function Latest(w: FreeWorld): Term {
    if w.a.rootSteps >= w.b.rootSteps then w.a.rt.root else w.b.rt.root
  }

  /** What the pair invariant says about the two roots. */
  predicate RootsInStep(w: FreeWorld) {
    && IsRoot(w.a.rt.root) && IsRoot(w.b.rt.root)
    && -1 <= w.a.rootSteps - w.b.rootSteps <= 1
    && (w.a.rootSteps == w.b.rootSteps ==> w.a.rt.root == w.b.rt.root)
    && (w.a.rootSteps > w.b.rootSteps ==>
          !SendRotates(w.b.rt) && w.a.rt.root == Root(w.b.rt.root, FreeDh(w.b.rt.self, Pk(w.a.rt.self))))
    && (w.b.rootSteps > w.a.rootSteps ==>
          !SendRotates(w.a.rt) && w.b.rt.root == Root(w.a.rt.root, FreeDh(w.a.rt.self, Pk(w.b.rt.self))))
  }

  lemma InvKeepsRootsInStep(w: FreeWorld)
    requires Alternating(w)
    ensures RootsInStep(w)
  {
  }

  /** The party's root and every chain it has sealed on lie on the line that ends in `latest`. */
  predicate OnLine(latest: Term, p: FreeParty) {
    && SendsBesideRoot(p) && LeadsTo(p.rt.root, latest)
    && forall i | 0 <= i < |p.sealedWith| :: LeadsTo(RootBeside(p.sealedWith[i].0.chain), latest)
  }

  /** All roots lie on one line, and its last step mixed the two current secrets. */
  predicate OneLine(w: FreeWorld) {
    && OnLine(Latest(w), w.a) && OnLine(Latest(w), w.b)
    && Latest(w).Root? && Latest(w).dh == FreeDh(w.a.rt.self, Pk(w.b.rt.self))
  }

  predicate WorldGrew(w: FreeWorld, v: FreeWorld)
    requires SendsBesideRoot(v.a) && SendsBesideRoot(v.b)
  {
    Grew(w.a, v.a) && Grew(w.b, v.b) && LeadsTo(Latest(w), Latest(v))
  }

  lemma ASendsKeepsLine(w: FreeWorld, rnd: nat, m: Bytes)
    requires OneLine(w) && RootsInStep(w) && RootsInStep(ASends(FreeSuite(), w, rnd, m))
    ensures var v := ASends(FreeSuite(), w, rnd, m);
            OneLine(v) && WorldGrew(w, v)
  {
    SendGrows(w.a, rnd, m);
  }

  lemma BReceivesKeepsLine(w: FreeWorld)
    requires OneLine(w) && RootsInStep(w) && RootsInStep(BReceives(FreeSuite(), w))
    ensures var v := BReceives(FreeSuite(), w);
            OneLine(v) && WorldGrew(w, v)
  {
    if w.ab.frames != [] { ReceiveGrows(w.b, w.ab.frames[0]); }
  }

  lemma FlipKeepsLine(w: FreeWorld)
    requires RootsInStep(w)
    ensures RootsInStep(Flip(w)) && Latest(Flip(w)) == Latest(w) && (OneLine(w) <==> OneLine(Flip(w)))
  {
  }

  lemma StepKeepsLine(w: FreeWorld, step: Step<nat>)
    requires Alternating(w) && OneLine(w) && FreshStep(FreeSuite(), w, step)
    ensures var v := Apply(FreeSuite(), w, step);
            Alternating(v) && OneLine(v) && WorldGrew(w, v)
  {
    var v := Apply(FreeSuite(), w, step);
    StepKeepsAlternating(w, step);
    InvKeepsRootsInStep(w);
    InvKeepsRootsInStep(v);
    FlipKeepsLine(w);
    FlipKeepsLine(v);
    match step
    case SendA(rnd, m) => ASendsKeepsLine(w, rnd, m);
    case ReceiveB => BReceivesKeepsLine(w);
    case SendB(rnd, m) => ASendsKeepsLine(Flip(w), rnd, m);
    case ReceiveA => BReceivesKeepsLine(Flip(w));
  }

  lemma {:induction false} RunKeepsLine(w: FreeWorld, steps: seq<Step<nat>>)
    requires Alternating(w) && OneLine(w) && FreshRun(FreeSuite(), w, steps)
    ensures var v := Run(FreeSuite(), w, steps);
            Alternating(v) && OneLine(v) && WorldGrew(w, v)
    decreases |steps|
  {
    if steps != [] {
      var v := Apply(FreeSuite(), w, steps[0]);
      StepKeepsLine(w, steps[0]);
      RunKeepsLine(v, steps[1..]);
      var u := Run(FreeSuite(), w, steps);
      GrewTransitive(w.a, v.a, u.a);
      GrewTransitive(w.b, v.b, u.b);
      LeadsToTransitive(Latest(w), Latest(v), Latest(u));
    }
  }

  function NewPair(session: nat, preKey: nat, rnd: nat): FreeWorld {
    Start(FreeSuite(), Shared(session), preKey, rnd)
  }

  lemma StartOnLine(session: nat, preKey: nat, rnd: nat)
    ensures Alternating(NewPair(session, preKey, rnd)) && OneLine(NewPair(session, preKey, rnd))
  {
    FreeSuiteLawful();
    StartInv(FreeSuite(), Shared(session), preKey, rnd);
  }

  // ---------------------------------------------------------------------------
  // After a leak
  // ---------------------------------------------------------------------------

  function Side(w: FreeWorld, initiator: bool): FreeParty {
    if initiator then w.a else w.b
  }

  /** Keys of chains made after the leaked root. */
  ghost predicate DerivableIffStepsKnown(leaked: FreeRatchet, secrets: iset<nat>, q: FreeParty)
    requires SendsBesideRoot(q)
  {
    forall i | 0 <= i < |q.sealedWith| && RootDepth(leaked.root) <= Epoch(q.sealedWith[i].0.chain) ::
      var c := q.sealedWith[i].0.chain;
      && LeadsTo(leaked.root, RootBeside(c))
      && (Derivable(Held(leaked), secrets, Msg(c)) <==> StepsKnown(secrets, leaked.root, RootBeside(c)))
  }

  lemma LineIsDerivableIff(leaked: FreeRatchet, secrets: iset<nat>, latest: Term, q: FreeParty)
    requires WellFormed(leaked) && LeadsTo(leaked.root, latest) && OnLine(latest, q)
    ensures DerivableIffStepsKnown(leaked, secrets, q)
  {
    forall i | 0 <= i < |q.sealedWith| && RootDepth(leaked.root) <= Epoch(q.sealedWith[i].0.chain)
      ensures var c := q.sealedWith[i].0.chain;
              && LeadsTo(leaked.root, RootBeside(c))
              && (Derivable(Held(leaked), secrets, Msg(c)) <==> StepsKnown(secrets, leaked.root, RootBeside(c)))
    {
      var c := q.sealedWith[i].0.chain;
      LeadsToLinear(leaked.root, RootBeside(c), latest);
      ChainDerivableIff(leaked, secrets, c);
      DerivableIffBuilds(Held(leaked), secrets, Msg(c));
    }
  }

  /**
  Exactly what a leak gives away later on. In every run, take either party's whole state at any point
  and any set of DH secrets: a key that either party uses at any time on a chain made after the leaked
  root is derivable if and only if every root step from that root to that chain used a known secret.
  */
  lemma DerivableAfterLeakIff(session: nat, preKey: nat, rnd: nat, before: seq<Step<nat>>, after: seq<Step<nat>>,
                              initiator: bool, secrets: iset<nat>)
    requires FreshRun(FreeSuite(), NewPair(session, preKey, rnd), before)
    requires FreshRun(FreeSuite(), Run(FreeSuite(), NewPair(session, preKey, rnd), before), after)
    ensures var w := Run(FreeSuite(), NewPair(session, preKey, rnd), before);
            var v := Run(FreeSuite(), w, after);
            && SendsBesideRoot(v.a) && DerivableIffStepsKnown(Side(w, initiator).rt, secrets, v.a)
            && SendsBesideRoot(v.b) && DerivableIffStepsKnown(Side(w, initiator).rt, secrets, v.b)
  {
    StartOnLine(session, preKey, rnd);
    RunKeepsLine(NewPair(session, preKey, rnd), before);
    var w := Run(FreeSuite(), NewPair(session, preKey, rnd), before);
    RunKeepsLine(w, after);
    var v := Run(FreeSuite(), w, after);
    var leaked := Side(w, initiator).rt;
    LeadsToTransitive(leaked.root, Latest(w), Latest(v));
    LineIsDerivableIff(leaked, secrets, Latest(v), v.a);
    LineIsDerivableIff(leaked, secrets, Latest(v), v.b);
  }

  /** The keys `q` has used from its `n`-th on cannot be computed. */
  ghost predicate SecretFrom(leaked: FreeRatchet, secrets: iset<nat>, q: FreeParty, n: nat) {
    forall i | n <= i < |q.sealedWith| :: !Derivable(Held(leaked), secrets, q.sealedWith[i].0)
  }

  /** Both current secrets are unknown, so the latest root step is one the leak does not reach. */
  lemma LatestStepUnknown(w: FreeWorld, v: FreeWorld, initiator: bool, secrets: iset<nat>)
    requires Alternating(w) && OneLine(w) && OneLine(v) && LeadsTo(Latest(w), Latest(v))
    requires Side(w, initiator).rt.self in secrets && v.a.rt.self !in secrets && v.b.rt.self !in secrets
    ensures var leaked := Side(w, initiator).rt;
            LeadsTo(leaked.root, Latest(v)) && !StepsKnown(secrets, leaked.root, Latest(v))
  {
    var leaked := Side(w, initiator).rt;
    LeadsToTransitive(leaked.root, Latest(w), Latest(v));
    if leaked.root == Latest(v) {
      LeadsToDeepens(leaked.root, Latest(w));
      LeadsToDeepens(Latest(w), Latest(v));
    }
  }

  lemma SealedOnLaterRoots(leaked: FreeRatchet, secrets: iset<nat>, healed: Term, p: FreeParty, q: FreeParty)
    requires WellFormed(leaked) && LeadsTo(leaked.root, healed) && !StepsKnown(secrets, leaked.root, healed)
    requires SendsBesideRoot(q) && Grew(p, q) && p.rt.root == healed
    ensures SecretFrom(leaked, secrets, q, |p.sealedWith|)
  {
    forall i | |p.sealedWith| <= i < |q.sealedWith|
      ensures !Derivable(Held(leaked), secrets, q.sealedWith[i].0)
    {
      var c := q.sealedWith[i].0.chain;
      UnknownStepStays(secrets, leaked.root, healed, RootBeside(c));
      LeadsToDeepens(healed, RootBeside(c));
      LeadsToDeepens(leaked.root, healed);
      ChainDerivableIff(leaked, secrets, c);
      DerivableIffBuilds(Held(leaked), secrets, Msg(c));
    }
  }

  /**
  A party's state leaked at `w`. Once both current secrets are unknown at `v`, what a party that holds the
  latest root has sealed between `v` and `u` cannot be computed.
  */
  ghost predicate HealedFrom(w: FreeWorld, v: FreeWorld, u: FreeWorld, initiator: bool, others: iset<nat>) {
    var leaked := Side(w, initiator).rt;
    var secrets := others + iset{leaked.self};
    v.a.rt.self !in secrets && v.b.rt.self !in secrets ==>
      && (v.a.rootSteps >= v.b.rootSteps ==> SecretFrom(leaked, secrets, u.a, |v.a.sealedWith|))
      && (v.b.rootSteps >= v.a.rootSteps ==> SecretFrom(leaked, secrets, u.b, |v.b.sealedWith|))
  }

  lemma HealsFrom(w: FreeWorld, between: seq<Step<nat>>, after: seq<Step<nat>>, initiator: bool, others: iset<nat>)
    requires Alternating(w) && OneLine(w) && FreshRun(FreeSuite(), w, between)
    requires FreshRun(FreeSuite(), Run(FreeSuite(), w, between), after)
    ensures var v := Run(FreeSuite(), w, between);
            HealedFrom(w, v, Run(FreeSuite(), v, after), initiator, others)
  {
    RunKeepsLine(w, between);
    var v := Run(FreeSuite(), w, between);
    RunKeepsLine(v, after);
    var u := Run(FreeSuite(), v, after);
    var leaked := Side(w, initiator).rt;
    var secrets := others + iset{leaked.self};
    if v.a.rt.self !in secrets && v.b.rt.self !in secrets {
      LatestStepUnknown(w, v, initiator, secrets);
      InvKeepsRootsInStep(v);
      if v.a.rootSteps >= v.b.rootSteps { SealedOnLaterRoots(leaked, secrets, Latest(v), v.a, u.a); }
      if v.b.rootSteps >= v.a.rootSteps { SealedOnLaterRoots(leaked, secrets, Latest(v), v.b, u.b); }
    }
  }

  /**
  Healing. One party's whole state leaks, its DH secret included, to an observer who may know any other
  secrets too. Once both parties' current secrets are unknown to the observer, each party that holds
  the latest root seals every further frame, for the rest of the run, under a key that cannot be
  computed from the leak.
  */
  lemma HealsAfterBothRotate(session: nat, preKey: nat, rnd: nat,
      before: seq<Step<nat>>, between: seq<Step<nat>>, after: seq<Step<nat>>, initiator: bool, others: iset<nat>)
    requires FreshRun(FreeSuite(), NewPair(session, preKey, rnd), before)
    requires var w := Run(FreeSuite(), NewPair(session, preKey, rnd), before);
             FreshRun(FreeSuite(), w, between) && FreshRun(FreeSuite(), Run(FreeSuite(), w, between), after)
    ensures var w := Run(FreeSuite(), NewPair(session, preKey, rnd), before);
            var v := Run(FreeSuite(), w, between);
            HealedFrom(w, v, Run(FreeSuite(), v, after), initiator, others)
  {
    StartOnLine(session, preKey, rnd);
    RunKeepsLine(NewPair(session, preKey, rnd), before);
    HealsFrom(Run(FreeSuite(), NewPair(session, preKey, rnd), before), between, after, initiator, others);
  }

  lemma NextChainOpen(leaked: FreeRatchet, x: nat)
    ensures Derivable(Held(leaked), iset{leaked.self}, Msg(Chain(leaked.root, FreeDh(x, Pk(leaked.self)))))
  {
    DerivableIffBuilds(Held(leaked), iset{leaked.self}, Msg(Chain(leaked.root, FreeDh(x, Pk(leaked.self)))));
  }

  /**
  One rotation is not enough: when the state of the side that sent last leaks, the first frame the other
  side seals after rotating is still open to whoever has that state, its DH secret included.
  */
  lemma FirstRotationDoesNotHeal(session: nat, preKey: nat, rnd: nat, before: seq<Step<nat>>, initiator: bool, x: nat,
      m: Bytes)
    requires FreshRun(FreeSuite(), NewPair(session, preKey, rnd), before)
    ensures var w := Run(FreeSuite(), NewPair(session, preKey, rnd), before);
            var leaked, other := Side(w, initiator).rt, Side(w, !initiator);
            var sealed := PartySend(FreeSuite(), other, x, m).0.sealedWith;
            w.a.rootSteps == w.b.rootSteps && other.rt.send.None? ==>
              |sealed| == |other.sealedWith| + 1 && Derivable(Held(leaked), iset{leaked.self}, sealed[|sealed| - 1].0)
  {
    StartOnLine(session, preKey, rnd);
    RunKeepsLine(NewPair(session, preKey, rnd), before);
    var w := Run(FreeSuite(), NewPair(session, preKey, rnd), before);
    var leaked, other := Side(w, initiator).rt, Side(w, !initiator);
    if w.a.rootSteps == w.b.rootSteps && other.rt.send.None? {
      assert other.rt.root == leaked.root && other.rt.remote == Some(Pk(leaked.self));
      assert ChainUsedToSend(other.rt, x).value == Chain(leaked.root, FreeDh(x, Pk(leaked.self)));
      NextChainOpen(leaked, x);
    }
  }

  // ---------------------------------------------------------------------------
  // Both cases occur
  // ---------------------------------------------------------------------------

  const OneFrameRead: seq<Step<nat>> := [SendA(0, []), ReceiveB]

  lemma FirstFrameRead()
    ensures FreshRun(FreeSuite(), Opening, OneFrameRead) && Run(FreeSuite(), Opening, OneFrameRead) == After(2)
    ensures After(2).a.rootSteps == After(2).b.rootSteps == 1 && After(2).b.sealedWith == []
  {
    assert OneFrameRead[1..] == [ReceiveB] && OneFrameRead[1..][1..] == [];
    assert After(1) == Apply(FreeSuite(), Opening, OneFrameRead[0]);
    assert After(2) == Apply(FreeSuite(), After(1), ReceiveB);
  }

  /**
  A session on which one rotation does not heal: the initiator's state leaks once its first frame has been
  read, the responder rotates, and its answer is open to whoever has the leaked state.
  */
  lemma RotationStaysOpen()
    ensures FreshRun(FreeSuite(), Opening, OneFrameRead)
    ensures var w := Run(FreeSuite(), Opening, OneFrameRead);
            var sealed := PartySend(FreeSuite(), w.b, 3, []).0.sealedWith;
            && w.a.rootSteps == w.b.rootSteps && w.b.rt.send.None?
            && |sealed| == 1 && Derivable(Held(w.a.rt), iset{w.a.rt.self}, sealed[0].0)
  {
    FirstFrameRead();
    FirstExchange();
    FirstRotationDoesNotHeal(0, 1, 2, OneFrameRead, true, 3, []);
  }

  lemma ResponderRotated()
    ensures After(4).a.rootSteps == 1 && After(4).b.rootSteps == 2 && |After(4).a.sealedWith| == 2
  {
    FirstFrameRead();
    FirstExchange();
    AnswerAndOneMore();
    assert After(1) == Apply(FreeSuite(), Opening, SendA(0, []));
    assert After(3) == Apply(FreeSuite(), After(2), SendB(3, []));
    assert After(4) == Apply(FreeSuite(), After(3), SendA(0, []));
  }

  lemma AnswerTaken()
    ensures After(5).a.rootSteps == 2 && After(5).b.rootSteps == 2 && |After(5).a.sealedWith| == 2
    ensures After(5).a.rt.send.None? && After(5).a.rt.remote.Some? && After(5).b.rt.self == 3
  {
    ResponderRotated();
    FirstExchange();
    AnswerAndOneMore();
    AnswerRead();
    assert After(5) == Apply(FreeSuite(), After(4), ReceiveA);
  }

  lemma BothRotated()
    ensures After(6).a.rt.self == 4 && After(6).a.rt.send.Some? && After(6).b.rt.self == 3
    ensures After(6).a.rootSteps == 3 && After(6).b.rootSteps == 2 && |After(6).a.sealedWith| == 3
  {
    AnswerTaken();
    assert After(6) == Apply(FreeSuite(), After(5), SendA(4, []));
  }

  /**
  A session that heals: the initiator's state leaks before anything is sent, both sides rotate, and the
  next frame of the initiator is closed to whoever has the leaked state.
  */
  lemma BothRotationsClose()
    ensures FreshRun(FreeSuite(), Opening, AcrossARotation)
    ensures var v := Run(FreeSuite(), Opening, AcrossARotation);
            var sealed := PartySend(FreeSuite(), v.a, 0, []).0.sealedWith;
            && |sealed| == |v.a.sealedWith| + 1
            && !Derivable(Held(Opening.a.rt), iset{Opening.a.rt.self}, sealed[|v.a.sealedWith|].0)
  {
    RunIsAfter(0);
    assert AcrossARotation[0..] == AcrossARotation && After(0) == Opening;
    BothRotated();
    var v := After(6);
    var after: seq<Step<nat>> := [SendA(0, [])];
    assert after[1..] == [];
    assert FreshRun(FreeSuite(), v, after);
    assert Run(FreeSuite(), v, after).a == PartySend(FreeSuite(), v.a, 0, []).0;
    HealsAfterBothRotate(0, 1, 2, [], AcrossARotation, after, true, iset{});
    assert iset{} + iset{Opening.a.rt.self} == iset{Opening.a.rt.self};
  }
}
