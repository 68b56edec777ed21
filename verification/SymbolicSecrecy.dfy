/**
The free-term reading of the primitives: every key is the term that built it, so "can be computed
from" is a closure and key reuse is term equality.
*/
module SymbolicSecrecy {
  import opened Prelude
  import opened Suites
  import opened DoubleRatchet
  import opened RatchetPair

  datatype Term =
    | Shared(session: nat)             // PQXDH output, a fresh atom per session
    | Dh(lo: nat, hi: nat)             // X25519 output of two secrets, order forgotten
    | Kem(key: nat, coins: nat)        // secret encapsulated to a key pair with some randomness
    | Hybrid(dh1: Term, dh2: Term, dh3: Term, dh4: Option<Term>, kem: Term)   // PQXDH output, taken apart
    | Root(root: Term, dh: Term) | Chain(root: Term, dh: Term)   // the two halves of kdf_rk
    | Next(chain: Term) | Msg(chain: Term)                       // the two halves of kdf_ck

  datatype Pk = Pk(id: nat)

  datatype Sealed = Sealed(key: Term, nonce: Bytes, ad: Pk, text: Bytes)

  function FreeDh(a: nat, p: Pk): Term {
    if a <= p.id then Dh(a, p.id) else Dh(p.id, a)
  }

  function FreeSuite(): Suite<nat, Pk, Term, Sealed> {
    Suite((a: nat) => Pk(a),
          (a, p) => FreeDh(a, p),
          (r, d) => (Root(r, d), Chain(r, d)),
          c => (Next(c), Msg(c)),
          (k, n, ad, m) => Some(Sealed(k, n, ad, m)),
          (k, n, ad, c: Sealed) => if c == Sealed(k, n, ad, c.text) then Some(c.text) else None)
  }

  lemma FreeSuiteLawful()
    ensures Lawful(FreeSuite())
  {
  }

  type FreeParty = Party<nat, Pk, Term>
  type FreeRatchet = Ratchet<nat, Pk, Term>

  // ---------------------------------------------------------------------------
  // What can be computed from a ratchet state
  // ---------------------------------------------------------------------------

  /** The key terms a party holds. */
  function Held(r: FreeRatchet): set<Term> {
    {r.root} + (if r.send.Some? then {r.send.value} else {}) + (if r.recv.Some? then {r.recv.value} else {})
  }

  /** Closed under the KDFs, and under DH for whoever knows one of the two secrets; public keys are public. */
  ghost predicate Closed(known: set<Term>, secrets: iset<nat>, S: iset<Term>) {
    && (forall t :: t in known ==> t in S)
    && (forall i, j :: i in secrets || j in secrets ==> Dh(i, j) in S)
    && (forall t, u :: t in S && u in S ==> Root(t, u) in S && Chain(t, u) in S)
    && (forall t :: t in S ==> Next(t) in S && Msg(t) in S)
    && (forall t: Term :: t.Hybrid? && HybridFrom(S, t) ==> t in S)
  }

  /** Everything that goes into a hybrid handshake is in `S`. */
  ghost predicate HybridFrom(S: iset<Term>, t: Term)
    requires t.Hybrid?
  {
    t.dh1 in S && t.dh2 in S && t.dh3 in S && (t.dh4.Some? ==> t.dh4.value in S) && t.kem in S
  }

  ghost predicate Derivable(known: set<Term>, secrets: iset<nat>, t: Term) {
    forall S: iset<Term> :: Closed(known, secrets, S) ==> t in S
  }

  /** The strongest observer: every DH secret there is. */
  ghost const EverySecret: iset<nat> := iset n: nat | true

  /** The top constructor of a term determines the only rule that can have produced it. */
  ghost predicate Builds(known: set<Term>, secrets: iset<nat>, t: Term) {
    t in known ||
    match t
    case Shared(_) => false
    case Kem(_, _) => false
    case Dh(i, j) => i in secrets || j in secrets
    case Hybrid(a, b, c, d, k) =>
      && Builds(known, secrets, a) && Builds(known, secrets, b) && Builds(known, secrets, c)
      && (d.Some? ==> Builds(known, secrets, d.value)) && Builds(known, secrets, k)
    case Root(r, d) => Builds(known, secrets, r) && Builds(known, secrets, d)
    case Chain(r, d) => Builds(known, secrets, r) && Builds(known, secrets, d)
    case Next(c) => Builds(known, secrets, c)
    case Msg(c) => Builds(known, secrets, c)
  }

  lemma HybridDerivable(known: set<Term>, secrets: iset<nat>, t: Term)
    requires t.Hybrid? && Derivable(known, secrets, t.dh1) && Derivable(known, secrets, t.dh2)
    requires Derivable(known, secrets, t.dh3) && (t.dh4.Some? ==> Derivable(known, secrets, t.dh4.value))
    requires Derivable(known, secrets, t.kem)
    ensures Derivable(known, secrets, t)
  {
    forall S: iset<Term> | Closed(known, secrets, S)
      ensures t in S
    {
      assert HybridFrom(S, t);
    }
  }

  lemma {:induction false} DerivableIffBuilds(known: set<Term>, secrets: iset<nat>, t: Term)
    ensures Derivable(known, secrets, t) <==> Builds(known, secrets, t)
  {
    var S := iset u | Builds(known, secrets, u);
    assert Closed(known, secrets, S);
    if Builds(known, secrets, t) && t !in known {
      match t
      case Dh(_, _) =>
      case Hybrid(a, b, c, d, k) =>
        DerivableIffBuilds(known, secrets, a);
        DerivableIffBuilds(known, secrets, b);
        DerivableIffBuilds(known, secrets, c);
        if d.Some? { DerivableIffBuilds(known, secrets, d.value); }
        DerivableIffBuilds(known, secrets, k);
        HybridDerivable(known, secrets, t);
      case Root(r, d) => DerivableIffBuilds(known, secrets, r); DerivableIffBuilds(known, secrets, d);
      case Chain(r, d) => DerivableIffBuilds(known, secrets, r); DerivableIffBuilds(known, secrets, d);
      case Next(c) => DerivableIffBuilds(known, secrets, c);
      case Msg(c) => DerivableIffBuilds(known, secrets, c);
    }
  }

  // ---------------------------------------------------------------------------
  // The shape of root and chain keys
  // ---------------------------------------------------------------------------

  /** A root key: the session secret advanced by root steps. */
  predicate IsRoot(t: Term) {
    t.Shared? || (t.Root? && IsRoot(t.root))
  }

  function RootDepth(t: Term): nat {
    if t.Root? then 1 + RootDepth(t.root) else 0
  }

  /** A chain key: the output of one root step, advanced along its chain. */
  predicate IsChain(t: Term) {
    match t
    case Chain(r, _) => IsRoot(r)
    case Next(c) => IsChain(c)
    case _ => false
  }

  /** The first key of the chain `c` lies on. */
  function ChainStart(c: Term): Term {
    if c.Next? then ChainStart(c.chain) else c
  }

  function ChainIndex(c: Term): nat {
    if c.Next? then 1 + ChainIndex(c.chain) else 0
  }

  lemma ChainStartShape(c: Term)
    requires IsChain(c)
    ensures ChainStart(c).Chain? && IsRoot(ChainStart(c).root)
  {
  }

  /** How many root steps came before the one that created the chain of `c`. */
  function Epoch(c: Term): nat
    requires IsChain(c)
  {
    ChainStartShape(c);
    RootDepth(ChainStart(c).root)
  }

  // ---------------------------------------------------------------------------
  // Invariant of one party, whatever it is made to read
  // ---------------------------------------------------------------------------

  /** A chain key that is behind everything the party still holds. */
  predicate Spent(r: FreeRatchet, c: Term) {
    && IsChain(c) && Epoch(c) < RootDepth(r.root)
    && (r.send.Some? && ChainStart(r.send.value) == ChainStart(c) ==> ChainIndex(c) < ChainIndex(r.send.value))
    && (r.recv.Some? && ChainStart(r.recv.value) == ChainStart(c) ==> ChainIndex(c) < ChainIndex(r.recv.value))
  }

  predicate WellFormed(r: FreeRatchet) {
    && IsRoot(r.root)
    && (r.send.Some? ==> IsChain(r.send.value) && Epoch(r.send.value) < RootDepth(r.root))
    && (r.recv.Some? ==> IsChain(r.recv.value) && Epoch(r.recv.value) < RootDepth(r.root))
    && (r.send.Some? && r.recv.Some? ==> Epoch(r.send.value) != Epoch(r.recv.value))
  }

  predicate SpentKey(r: FreeRatchet, key: Term) {
    key.Msg? && Spent(r, key.chain)
  }

  predicate Safe(p: FreeParty) {
    && WellFormed(p.rt)
    && (forall i | 0 <= i < |p.sealedWith| :: SpentKey(p.rt, p.sealedWith[i].0))
    && (forall i | 0 <= i < |p.openedWith| :: SpentKey(p.rt, p.openedWith[i]))
    && (forall i, j | 0 <= i < j < |p.sealedWith| :: p.sealedWith[i].0 != p.sealedWith[j].0)
  }

  lemma {:induction false} OldRootsUnderivable(r: FreeRatchet, secrets: iset<nat>, t: Term)
    requires WellFormed(r) && IsRoot(t) && RootDepth(t) < RootDepth(r.root)
    ensures !Builds(Held(r), secrets, t)
  {
    if t.Root? {
      OldRootsUnderivable(r, secrets, t.root);
    }
  }

  lemma {:induction false} SpentUnderivable(r: FreeRatchet, secrets: iset<nat>, c: Term)
    requires WellFormed(r) && Spent(r, c)
    ensures !Builds(Held(r), secrets, c)
  {
    match c
    case Chain(root, _) => OldRootsUnderivable(r, secrets, root);
    case Next(c1) => SpentUnderivable(r, secrets, c1);
  }

  /** The chain key `encrypt` takes its message key from. */
  function ChainUsedToSend(r: FreeRatchet, rnd: nat): Option<Term> {
    if SendRotates(r) then SendRatchet(FreeSuite(), r, rnd).send else r.send
  }

  function ChainUsedToReceive(r: FreeRatchet, f: Frame<Pk, Sealed>): Option<Term> {
    if ReceiveRotates(r, f.dh) then ReceiveRatchet(FreeSuite(), r, f.dh).recv else r.recv
  }

  lemma AdvanceChain(c: Term)
    requires IsChain(c)
    ensures IsChain(Next(c)) && ChainStart(Next(c)) == ChainStart(c) && Epoch(Next(c)) == Epoch(c)
    ensures ChainIndex(Next(c)) == ChainIndex(c) + 1
  {
  }

  /** Encrypting spends exactly one chain key that was not spent before, and unspends none. */
  lemma EncryptSpends(r: FreeRatchet, rnd: nat, m: Bytes)
    requires WellFormed(r)
    ensures var (r1, res) := Encrypt(FreeSuite(), r, rnd, m);
            && WellFormed(r1)
            && (forall c | Spent(r, c) :: Spent(r1, c))
            && (res.Ok? ==> var c := ChainUsedToSend(r, rnd); c.Some? && Spent(r1, c.value) && !Spent(r, c.value))
  {
    var (r1, res) := Encrypt(FreeSuite(), r, rnd, m);
    if res.Ok? {
      var c := ChainUsedToSend(r, rnd).value;
      if SendRotates(r) {
        assert ChainStart(c) == c && Epoch(c) == RootDepth(r.root);
        assert RootDepth(r1.root) == RootDepth(r.root) + 1;
      }
      AdvanceChain(c);
      assert r1.send == Some(Next(c));
    }
  }

  /** The same for decrypting, whatever frame is presented and whether or not it authenticates. */
  lemma DecryptSpends(r: FreeRatchet, f: Frame<Pk, Sealed>)
    requires WellFormed(r)
    ensures var (r1, res) := Decrypt(FreeSuite(), r, f);
            && WellFormed(r1)
            && (forall c | Spent(r, c) :: Spent(r1, c))
            && (res.Ok? ==> var c := ChainUsedToReceive(r, f); c.Some? && Spent(r1, c.value) && !Spent(r, c.value))
  {
    var (r1, res) := Decrypt(FreeSuite(), r, f);
    var c := ChainUsedToReceive(r, f).value;
    if ReceiveRotates(r, f.dh) {
      assert ChainStart(c) == c && Epoch(c) == RootDepth(r.root);
      assert RootDepth(r1.root) == RootDepth(r.root) + 1;
    }
    AdvanceChain(c);
    assert r1.recv == Some(if res.Ok? then Next(c) else c);
  }

  lemma SendKeepsSafe(p: FreeParty, rnd: nat, m: Bytes)
    requires Safe(p)
    ensures Safe(PartySend(FreeSuite(), p, rnd, m).0)
  {
    EncryptSpends(p.rt, rnd, m);
  }

  lemma ReceiveKeepsSafe(p: FreeParty, f: Frame<Pk, Sealed>)
    requires Safe(p)
    ensures Safe(PartyReceive(FreeSuite(), p, f).0)
  {
    DecryptSpends(p.rt, f);
  }

  // ---------------------------------------------------------------------------
  // Forward secrecy of one party against arbitrary input
  // ---------------------------------------------------------------------------

  datatype Op = Send(rnd: nat, text: Bytes) | Receive(frame: Frame<Pk, Sealed>)

  function RunParty(p: FreeParty, ops: seq<Op>): FreeParty
    decreases |ops|
  {
    if ops == [] then p
    else match ops[0]
      case Send(rnd, m) => RunParty(PartySend(FreeSuite(), p, rnd, m).0, ops[1..])
      case Receive(f) => RunParty(PartyReceive(FreeSuite(), p, f).0, ops[1..])
  }

  /** The initiator's view of a session seeded with `secret`, and the responder's. */
  function Seeded(initiator: bool, secret: Term, self: nat, remote: Pk): FreeParty {
    if initiator then Party(NewInitiator(FreeSuite(), secret, remote, self), 1, [], [])
    else Party(NewResponder(secret, self), 0, [], [])
  }

  function NewSession(initiator: bool, session: nat, self: nat, remote: Pk): FreeParty {
    Seeded(initiator, Shared(session), self, remote)
  }

  lemma {:induction false} RunKeepsSafe(p: FreeParty, ops: seq<Op>)
    requires Safe(p)
    ensures Safe(RunParty(p, ops))
    decreases |ops|
  {
    if ops != [] {
      match ops[0]
      case Send(rnd, m) =>
        SendKeepsSafe(p, rnd, m);
        RunKeepsSafe(PartySend(FreeSuite(), p, rnd, m).0, ops[1..]);
      case Receive(f) =>
        ReceiveKeepsSafe(p, f);
        RunKeepsSafe(PartyReceive(FreeSuite(), p, f).0, ops[1..]);
    }
  }

  lemma SafeKeepsSecrets(p: FreeParty)
    requires Safe(p)
    ensures forall i | 0 <= i < |p.sealedWith| :: !Derivable(Held(p.rt), EverySecret, p.sealedWith[i].0)
    ensures forall i | 0 <= i < |p.openedWith| :: !Derivable(Held(p.rt), EverySecret, p.openedWith[i])
  {
    forall k | SpentKey(p.rt, k)
      ensures !Derivable(Held(p.rt), EverySecret, k)
    {
      SpentUnderivable(p.rt, EverySecret, k.chain);
      DerivableIffBuilds(Held(p.rt), EverySecret, k);
    }
  }

  /**
  Forward secrecy: whatever a party is made to send or read, closing its whole state under both
  KDFs, together with every DH output there is, never yields a message key it has already used.
  */
  lemma ForwardSecrecy(initiator: bool, session: nat, self: nat, remote: Pk, ops: seq<Op>)
    ensures var p := RunParty(NewSession(initiator, session, self, remote), ops);
            && (forall i | 0 <= i < |p.sealedWith| :: !Derivable(Held(p.rt), EverySecret, p.sealedWith[i].0))
            && (forall i | 0 <= i < |p.openedWith| :: !Derivable(Held(p.rt), EverySecret, p.openedWith[i]))
  {
    var start := NewSession(initiator, session, self, remote);
    RunKeepsSafe(start, ops);
    SafeKeepsSecrets(RunParty(start, ops));
  }

  /**
  The boundary of forward secrecy on a chain the party still holds: the keys at and beyond the held
  one are derivable, those before it are not.
  */
  lemma {:induction false} HeldChainDerivableIff(r: FreeRatchet, secrets: iset<nat>, held: Term, c: Term)
    requires WellFormed(r) && (r.send == Some(held) || r.recv == Some(held))
    requires IsChain(c) && ChainStart(c) == ChainStart(held)
    ensures Derivable(Held(r), secrets, Msg(c)) <==> ChainIndex(held) <= ChainIndex(c)
  {
    DerivableIffBuilds(Held(r), secrets, Msg(c));
    if ChainIndex(c) < ChainIndex(held) {
      SpentUnderivable(r, secrets, c);
    } else {
      BuildsOnwards(Held(r), secrets, held, c);
    }
  }

  lemma {:induction false} BuildsOnwards(known: set<Term>, secrets: iset<nat>, held: Term, c: Term)
    requires IsChain(held) && IsChain(c) && held in known
    requires ChainStart(c) == ChainStart(held) && ChainIndex(held) <= ChainIndex(c)
    ensures Builds(known, secrets, c)
  {
    if ChainIndex(held) == ChainIndex(c) {
      SameChainSameIndex(held, c);
    } else {
      BuildsOnwards(known, secrets, held, c.chain);
    }
  }

  lemma {:induction false} SameChainSameIndex(c: Term, d: Term)
    requires ChainStart(c) == ChainStart(d) && ChainIndex(c) == ChainIndex(d)
    ensures c == d
  {
    if c.Next? && d.Next? {
      SameChainSameIndex(c.chain, d.chain);
    }
  }

  // ---------------------------------------------------------------------------
  // No message key is used twice by the two parties together
  // ---------------------------------------------------------------------------

  type FreeWorld = World<nat, Pk, Term, Sealed>

  /** The party sends only on chains made by root steps of the given parity. */
  predicate SendsOn(p: FreeParty, parity: nat) {
    && Safe(p) && RootDepth(p.rt.root) == p.rootSteps
    && (p.rt.send.Some? ==> Epoch(p.rt.send.value) % 2 == parity)
    && (forall i | 0 <= i < |p.sealedWith| :: Epoch(p.sealedWith[i].0.chain) % 2 == parity)
  }

  lemma SendKeepsParity(p: FreeParty, parity: nat, rnd: nat, m: Bytes)
    requires SendsOn(p, parity) && (SendRotates(p.rt) ==> p.rootSteps % 2 == parity)
    ensures SendsOn(PartySend(FreeSuite(), p, rnd, m).0, parity)
  {
    SendKeepsSafe(p, rnd, m);
    if SendRotates(p.rt) {
      assert Epoch(ChainUsedToSend(p.rt, rnd).value) == RootDepth(p.rt.root);
    }
    if p.rt.send.Some? || SendRotates(p.rt) {
      AdvanceChain(ChainUsedToSend(p.rt, rnd).value);
    }
  }

  lemma ReceiveKeepsParity(p: FreeParty, parity: nat, f: Frame<Pk, Sealed>)
    requires SendsOn(p, parity)
    ensures SendsOn(PartyReceive(FreeSuite(), p, f).0, parity)
  {
    ReceiveKeepsSafe(p, f);
  }

  ghost predicate Alternating(w: FreeWorld) {
    Inv(FreeSuite(), w) && SendsOn(w.a, 0) && SendsOn(w.b, 1)
  }

  /** Only the initiator's rotations are odd root steps, only the responder's are even ones. */
  lemma RotationParity(w: FreeWorld)
    requires Inv(FreeSuite(), w)
    ensures SendRotates(w.a.rt) ==> w.a.rootSteps % 2 == 0
    ensures SendRotates(w.b.rt) ==> w.b.rootSteps % 2 == 1
  {
  }

  lemma StepKeepsSendsOn(w: FreeWorld, step: Step<nat>)
    requires SendsOn(w.a, 0) && SendsOn(w.b, 1)
    requires SendRotates(w.a.rt) ==> w.a.rootSteps % 2 == 0
    requires SendRotates(w.b.rt) ==> w.b.rootSteps % 2 == 1
    ensures var v := Apply(FreeSuite(), w, step);
            SendsOn(v.a, 0) && SendsOn(v.b, 1)
  {
    match step
    case SendA(rnd, m) => SendKeepsParity(w.a, 0, rnd, m);
    case SendB(rnd, m) => SendKeepsParity(w.b, 1, rnd, m);
    case ReceiveB => if w.ab.frames != [] { ReceiveKeepsParity(w.b, 1, w.ab.frames[0]); }
    case ReceiveA => if w.ba.frames != [] { ReceiveKeepsParity(w.a, 0, w.ba.frames[0]); }
  }

  lemma StepKeepsAlternating(w: FreeWorld, step: Step<nat>)
    requires Alternating(w) && FreshStep(FreeSuite(), w, step)
    ensures Alternating(Apply(FreeSuite(), w, step))
  {
    FreeSuiteLawful();
    StepKeepsInv(FreeSuite(), w, step);
    RotationParity(w);
    StepKeepsSendsOn(w, step);
  }

  lemma {:induction false} RunKeepsAlternating(w: FreeWorld, steps: seq<Step<nat>>)
    requires Alternating(w) && FreshRun(FreeSuite(), w, steps)
    ensures Alternating(Run(FreeSuite(), w, steps))
    decreases |steps|
  {
    if steps != [] {
      StepKeepsAlternating(w, steps[0]);
      RunKeepsAlternating(Apply(FreeSuite(), w, steps[0]), steps[1..]);
    }
  }

  /**
  In every run, no two frames, by whichever party, are sealed under the same message key; a repeated
  nonce counter (it wraps at 32 bits) therefore never repeats a (key, nonce) pair.
  */
  lemma NoMessageKeyReused(session: nat, preKey: nat, rnd: nat, steps: seq<Step<nat>>)
    requires FreshRun(FreeSuite(), Start(FreeSuite(), Shared(session), preKey, rnd), steps)
    ensures var w := Run(FreeSuite(), Start(FreeSuite(), Shared(session), preKey, rnd), steps);
            var used := w.a.sealedWith + w.b.sealedWith;
            forall i, j | 0 <= i < j < |used| :: used[i].0 != used[j].0
  {
    FreeSuiteLawful();
    var start := Start(FreeSuite(), Shared(session), preKey, rnd);
    StartInv(FreeSuite(), Shared(session), preKey, rnd);
    RunKeepsAlternating(start, steps);
  }

  /** At every point of every run of two parties, neither party's state yields a key it has used. */
  lemma PairForwardSecrecy(session: nat, preKey: nat, rnd: nat, steps: seq<Step<nat>>)
    requires FreshRun(FreeSuite(), Start(FreeSuite(), Shared(session), preKey, rnd), steps)
    ensures var w := Run(FreeSuite(), Start(FreeSuite(), Shared(session), preKey, rnd), steps);
            forall p | p in {w.a, w.b} ::
              && (forall i | 0 <= i < |p.sealedWith| :: !Derivable(Held(p.rt), EverySecret, p.sealedWith[i].0))
              && (forall i | 0 <= i < |p.openedWith| :: !Derivable(Held(p.rt), EverySecret, p.openedWith[i]))
  {
    FreeSuiteLawful();
    var start := Start(FreeSuite(), Shared(session), preKey, rnd);
    StartInv(FreeSuite(), Shared(session), preKey, rnd);
    RunKeepsAlternating(start, steps);
    var w := Run(FreeSuite(), start, steps);
    SafeKeepsSecrets(w.a);
    SafeKeepsSecrets(w.b);
  }

  // ---------------------------------------------------------------------------
  // Nonce counters
  // ---------------------------------------------------------------------------

  /** Counters follow the chains, modulo their width. */
  predicate CountersFollow(p: FreeParty) {
    && (p.rt.send.Some? ==> p.rt.sendN == ChainIndex(p.rt.send.value) % U32_SIZE)
    && (p.rt.recv.Some? ==> p.rt.recvN == ChainIndex(p.rt.recv.value) % U32_SIZE)
    && (forall i | 0 <= i < |p.sealedWith| ::
          p.sealedWith[i].0.Msg? && p.sealedWith[i].1 == ChainIndex(p.sealedWith[i].0.chain) % U32_SIZE)
  }

  lemma CounterWraps(n: nat)
    ensures Inc(n % U32_SIZE) == (n + 1) % U32_SIZE
  {
  }

  lemma SendKeepsCounters(p: FreeParty, rnd: nat, m: Bytes)
    requires CountersFollow(p)
    ensures CountersFollow(PartySend(FreeSuite(), p, rnd, m).0)
  {
    if p.rt.send.Some? { CounterWraps(ChainIndex(p.rt.send.value)); }
  }

  lemma ReceiveKeepsCounters(p: FreeParty, f: Frame<Pk, Sealed>)
    requires CountersFollow(p)
    ensures CountersFollow(PartyReceive(FreeSuite(), p, f).0)
  {
    if p.rt.recv.Some? { CounterWraps(ChainIndex(p.rt.recv.value)); }
  }

  lemma {:induction false} RunKeepsCounters(p: FreeParty, ops: seq<Op>)
    requires CountersFollow(p)
    ensures CountersFollow(RunParty(p, ops))
    decreases |ops|
  {
    if ops != [] {
      match ops[0]
      case Send(rnd, m) =>
        SendKeepsCounters(p, rnd, m);
        RunKeepsCounters(PartySend(FreeSuite(), p, rnd, m).0, ops[1..]);
      case Receive(f) =>
        ReceiveKeepsCounters(p, f);
        RunKeepsCounters(PartyReceive(FreeSuite(), p, f).0, ops[1..]);
    }
  }

  /**
  Whatever a party is made to send or read, a frame's nonce is its position on its chain modulo 2^32:
  nonces repeat on a chain exactly when 2^32 divides the distance, and then under different keys.
  */
  lemma NoncesRepeatIff(initiator: bool, session: nat, self: nat, remote: Pk, ops: seq<Op>, i: nat, j: nat)
    requires i < j < |RunParty(NewSession(initiator, session, self, remote), ops).sealedWith|
    ensures NoncesApart(RunParty(NewSession(initiator, session, self, remote), ops).sealedWith, i, j)
  {
    NewSessionFollows(initiator, session, self, remote);
    NoncesOfRun(NewSession(initiator, session, self, remote), ops, i, j);
  }

  /**
  Uses `i` and `j` have different keys; they share a nonce exactly when 2^32 divides the distance of their
  positions.
  */
  predicate NoncesApart(used: seq<(Term, u32)>, i: nat, j: nat)
    requires i < j < |used|
  {
    && used[i].0.Msg? && used[j].0.Msg? && used[i].0 != used[j].0
    && (Nonce(used[i].1) == Nonce(used[j].1)
        <==> (ChainIndex(used[j].0.chain) - ChainIndex(used[i].0.chain)) % U32_SIZE == 0)
  }

  lemma NewSessionFollows(initiator: bool, session: nat, self: nat, remote: Pk)
    ensures Safe(NewSession(initiator, session, self, remote))
            && CountersFollow(NewSession(initiator, session, self, remote))
  {
  }

  lemma NoncesOfRun(p: FreeParty, ops: seq<Op>, i: nat, j: nat)
    requires Safe(p) && CountersFollow(p) && i < j < |RunParty(p, ops).sealedWith|
    ensures NoncesApart(RunParty(p, ops).sealedWith, i, j)
  {
    RunKeepsSafe(p, ops);
    RunKeepsCounters(p, ops);
    NoncesOf(RunParty(p, ops), i, j);
  }

  lemma NoncesOf(p: FreeParty, i: nat, j: nat)
    requires Safe(p) && CountersFollow(p) && i < j < |p.sealedWith|
    ensures NoncesApart(p.sealedWith, i, j)
  {
    var used := p.sealedWith;
    if Nonce(used[i].1) == Nonce(used[j].1) { NonceInjective(used[i].1, used[j].1); }
    SameRemainder(ChainIndex(used[i].0.chain), ChainIndex(used[j].0.chain));
  }

  lemma SameRemainder(m: nat, n: nat)
    ensures m % U32_SIZE == n % U32_SIZE <==> (n - m) % U32_SIZE == 0
  {
  }

  // ---------------------------------------------------------------------------
  // What a forged frame does to a state that is kept in memory
  // ---------------------------------------------------------------------------

  /**
  `decrypt` moves the root before the AEAD check. After a frame `forged` that fails authentication,
  a genuine frame that was readable stays readable if and only if the forgery did not trigger a DH
  ratchet, or carried the very DH key the genuine frame carries.
  */
  lemma GenuineFrameSurvivesIff(r: FreeRatchet, forged: Frame<Pk, Sealed>, genuine: Frame<Pk, Sealed>)
    requires WellFormed(r)
    requires Decrypt(FreeSuite(), r, forged).1.Err? && Decrypt(FreeSuite(), r, genuine).1.Ok?
    ensures Decrypt(FreeSuite(), Decrypt(FreeSuite(), r, forged).0, genuine).1.Ok?
            <==> !ReceiveRotates(r, forged.dh) || forged.dh == genuine.dh
  {
    if ReceiveRotates(r, forged.dh) && forged.dh != genuine.dh {
      var before := ChainUsedToReceive(r, genuine).value;
      var r2 := Decrypt(FreeSuite(), r, forged).0;
      var after := ChainUsedToReceive(r2, genuine).value;
      assert genuine.body.key == Msg(before);
      assert after.root == r2.root && RootDepth(r2.root) == RootDepth(r.root) + 1;
      assert ChainStart(after) == after && Epoch(after) == RootDepth(r2.root);
      assert before != after;
    }
  }

  /** One forged frame on a new session, and the initiator's first genuine frame. */
  const Opening: FreeWorld := Start(FreeSuite(), Shared(0), 1, 2)

  const ForgedFrame: Frame<Pk, Sealed> := Frame(Pk(9), Sealed(Shared(5), [], Pk(9), []))

  const FirstFrame: Frame<Pk, Sealed> := Encrypt(FreeSuite(), Opening.a.rt, 3, []).1.value

  /**
  The failing side is reachable: the responder of a new session rejects a forged frame, its in-memory
  state moves all the same, and the initiator's first frame, readable before, is readable no more.
  */
  lemma ForgeryStrandsFirstFrame()
    ensures var r, r1 := Opening.b.rt, Decrypt(FreeSuite(), Opening.b.rt, ForgedFrame).0;
            && Decrypt(FreeSuite(), r, ForgedFrame).1.Err? && r1 != r
            && Decrypt(FreeSuite(), r, FirstFrame).1.Ok? && Decrypt(FreeSuite(), r1, FirstFrame).1.Err?
  {
    GenuineFrameSurvivesIff(Opening.b.rt, ForgedFrame, FirstFrame);
  }
}
