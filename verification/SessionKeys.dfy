/**
Where keys come from, over free terms: whatever a party is made to send or read, all its keys descend from
the secret its session was seeded with.
*/
module SessionKeys {
  import opened Prelude
  import opened DoubleRatchet
  import opened RatchetPair
  import opened SymbolicSecrecy

  /** The term a root, chain or message key was derived from, step by step. */
  function Origin(t: Term): Term {
    match t
    case Root(r, _) => Origin(r)
    case Chain(r, _) => Origin(r)
    case Next(c) => Origin(c)
    case Msg(c) => Origin(c)
    case _ => t
  }

  /** What a session is seeded with: an opaque secret, or a handshake's output. */
  predicate IsSeed(t: Term) {
    t.Shared? || t.Hybrid?
  }

  /** Every key of the state descends from `seed`. */
  predicate HeldFrom(r: FreeRatchet, seed: Term) {
    && Origin(r.root) == seed
    && (r.send.Some? ==> Origin(r.send.value) == seed) && (r.recv.Some? ==> Origin(r.recv.value) == seed)
  }

  /** Every key the party holds or has used descends from `seed`. */
  predicate Descends(p: FreeParty, seed: Term) {
    && HeldFrom(p.rt, seed)
    && (forall i | 0 <= i < |p.sealedWith| :: Origin(p.sealedWith[i].0) == seed)
    && (forall i | 0 <= i < |p.openedWith| :: Origin(p.openedWith[i]) == seed)
  }

  lemma SendDescends(p: FreeParty, seed: Term, rnd: nat, m: Bytes)
    requires Descends(p, seed)
    ensures Descends(PartySend(FreeSuite(), p, rnd, m).0, seed)
  {
  }

  lemma ReceiveDescends(p: FreeParty, seed: Term, f: Frame<Pk, Sealed>)
    requires Descends(p, seed)
    ensures Descends(PartyReceive(FreeSuite(), p, f).0, seed)
  {
  }

  lemma {:induction false} RunDescends(p: FreeParty, seed: Term, ops: seq<Op>)
    requires Descends(p, seed)
    ensures Descends(RunParty(p, ops), seed)
    decreases |ops|
  {
    if ops != [] {
      match ops[0]
      case Send(rnd, m) =>
        SendDescends(p, seed, rnd, m);
        RunDescends(PartySend(FreeSuite(), p, rnd, m).0, seed, ops[1..]);
      case Receive(f) =>
        ReceiveDescends(p, seed, f);
        RunDescends(PartyReceive(FreeSuite(), p, f).0, seed, ops[1..]);
    }
  }

  lemma SeededDescends(initiator: bool, seed: Term, self: nat, remote: Pk, ops: seq<Op>)
    requires IsSeed(seed)
    ensures Descends(RunParty(Seeded(initiator, seed, self, remote), ops), seed)
  {
    RunDescends(Seeded(initiator, seed, self, remote), seed, ops);
  }

  // ---------------------------------------------------------------------------
  // Frames of another session
  // ---------------------------------------------------------------------------

  lemma ForeignKeyRejected(p: FreeParty, seed: Term, f: Frame<Pk, Sealed>)
    requires Descends(p, seed) && Origin(f.body.key) != seed
    ensures Decrypt(FreeSuite(), p.rt, f).1.Err?
  {
  }

  /** The party has sealed a frame under this key. */
  predicate SealedHere(p: FreeParty, key: Term) {
    exists i | 0 <= i < |p.sealedWith| :: p.sealedWith[i].0 == key
  }

  /**
  Whatever two parties of different sessions have been made to send or read, the one rejects every box
  under a key the other has sealed with, under any header.
  */
  lemma ForeignSessionRejected(initiator: bool, seed: Term, self: nat, remote: Pk, ops: seq<Op>,
      initiator2: bool, seed2: Term, self2: nat, remote2: Pk, ops2: seq<Op>, f: Frame<Pk, Sealed>)
    requires IsSeed(seed) && IsSeed(seed2) && seed != seed2
    requires SealedHere(RunParty(Seeded(initiator2, seed2, self2, remote2), ops2), f.body.key)
    ensures Decrypt(FreeSuite(), RunParty(Seeded(initiator, seed, self, remote), ops).rt, f).1.Err?
  {
    SeededDescends(initiator, seed, self, remote, ops);
    SeededDescends(initiator2, seed2, self2, remote2, ops2);
    ForeignKeyRejected(RunParty(Seeded(initiator, seed, self, remote), ops), seed, f);
  }

  // ---------------------------------------------------------------------------
  // Secrecy of a whole session
  // ---------------------------------------------------------------------------

  /** The observer holds no key of the session. */
  predicate HoldsNone(known: set<Term>, seed: Term) {
    forall t | t in known :: Origin(t) != seed
  }

  lemma {:induction false} DescendantsUnderivable(known: set<Term>, secrets: iset<nat>, seed: Term, t: Term)
    requires HoldsNone(known, seed) && IsSeed(seed) && Origin(t) == seed
    ensures Builds(known, secrets, t) ==> Builds(known, secrets, seed)
  {
    match t
    case Root(r, _) => DescendantsUnderivable(known, secrets, seed, r);
    case Chain(r, _) => DescendantsUnderivable(known, secrets, seed, r);
    case Next(c) => DescendantsUnderivable(known, secrets, seed, c);
    case Msg(c) => DescendantsUnderivable(known, secrets, seed, c);
    case _ =>
  }

  /**
  As long as the secret that seeded a session cannot be computed, no key that a party of the session uses
  can be, whatever it is made to send or read and whatever DH secrets are known.
  */
  lemma SeedProtectsSession(initiator: bool, seed: Term, self: nat, remote: Pk, ops: seq<Op>, known: set<Term>,
      secrets: iset<nat>)
    requires IsSeed(seed) && HoldsNone(known, seed) && !Derivable(known, secrets, seed)
    ensures var p := RunParty(Seeded(initiator, seed, self, remote), ops);
            && (forall i | 0 <= i < |p.sealedWith| :: !Derivable(known, secrets, p.sealedWith[i].0))
            && (forall i | 0 <= i < |p.openedWith| :: !Derivable(known, secrets, p.openedWith[i]))
  {
    SeededDescends(initiator, seed, self, remote, ops);
    DerivableIffBuilds(known, secrets, seed);
    forall t | Origin(t) == seed
      ensures !Derivable(known, secrets, t)
    {
      DescendantsUnderivable(known, secrets, seed, t);
      DerivableIffBuilds(known, secrets, t);
    }
  }
}
