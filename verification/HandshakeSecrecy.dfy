/**
PQXDH over free terms: what it takes to compute the root, and what a session seeded with it keeps from an
observer who has broken one of the two kinds of key agreement.
*/
module HandshakeSecrecy {
  import opened Prelude
  import opened RatchetPair
  import opened SymbolicSecrecy
  import opened SessionKeys

  /** The public keys of a bundle; a KEM key pair is its number. */
  datatype Published = Published(identity: Pk, signed: Pk, oneTime: Option<Pk>, kem: nat)

  /** The secrets a responder answers with. */
  datatype Kept = Kept(identity: nat, signed: nat, oneTime: Option<nat>, kem: nat)

  datatype Cipher = Cipher(key: nat, coins: nat)

  datatype Greeting = Greeting(identity: Pk, ephemeral: Pk, ciphertext: Cipher, usedOneTime: bool)

  /** Decapsulating with a key pair the ciphertext was not made for gives another secret, not an error. */
  function Decapsulate(key: nat, c: Cipher): Term {
    Kem(key, c.coins)
  }

  function InitiatorRoot(identity: nat, eph: nat, coins: nat, b: Published): Term {
    Hybrid(FreeDh(identity, b.signed), FreeDh(eph, b.identity), FreeDh(eph, b.signed),
           match b.oneTime case Some(opk) => Some(FreeDh(eph, opk)) case None => None,
           Kem(b.kem, coins))
  }

  function InitiatorGreeting(identity: nat, eph: nat, coins: nat, b: Published): Greeting {
    Greeting(Pk(identity), Pk(eph), Cipher(b.kem, coins), b.oneTime.Some?)
  }

  /** None when the greeting used a one-time key that is gone. */
  function ResponderRoot(k: Kept, g: Greeting): Option<Term> {
    if g.usedOneTime && k.oneTime.None? then None
    else Some(Hybrid(FreeDh(k.signed, g.identity), FreeDh(k.identity, g.ephemeral), FreeDh(k.signed, g.ephemeral),
                     if g.usedOneTime then Some(FreeDh(k.oneTime.value, g.ephemeral)) else None,
                     Decapsulate(k.kem, g.ciphertext)))
  }

  /** The bundle's keys belong to these secrets; a one-time key need not be in the bundle. */
  predicate PublishedBy(b: Published, k: Kept) {
    && b.identity == Pk(k.identity) && b.signed == Pk(k.signed) && b.kem == k.kem
    && (b.oneTime.Some? ==> k.oneTime == Some(b.oneTime.value.id))
  }

  /**
  The responder reaches the initiator's root exactly when the bundle the initiator used is of the
  responder's own keys.
  */
  lemma RootsAgreeIff(identity: nat, eph: nat, coins: nat, b: Published, k: Kept)
    ensures ResponderRoot(k, InitiatorGreeting(identity, eph, coins, b)) == Some(InitiatorRoot(identity, eph, coins, b))
            <==> PublishedBy(b, k)
  {
  }

  // ---------------------------------------------------------------------------
  // What it takes to compute the root
  // ---------------------------------------------------------------------------

  /** One of the two secrets behind a DH output is known. */
  ghost predicate EitherKnown(secrets: iset<nat>, secret: nat, public: Pk) {
    secret in secrets || public.id in secrets
  }

  /** Every DH output of the handshake has a known secret; a one-time key adds one. */
  ghost predicate DhSideOpen(secrets: iset<nat>, identity: nat, eph: nat, b: Published) {
    && EitherKnown(secrets, identity, b.signed)
    && EitherKnown(secrets, eph, b.identity)
    && EitherKnown(secrets, eph, b.signed)
    && (b.oneTime.Some? ==> EitherKnown(secrets, eph, b.oneTime.value))
  }

  /** The observer may hold KEM secrets and keys of all kinds, but no DH output and no handshake output. */
  predicate Outsider(known: set<Term>) {
    forall t | t in known :: !t.Dh? && !Origin(t).Hybrid?
  }

  /**
  The root can be computed exactly by whoever knows a secret behind every DH output that was taken, and the
  KEM secret as well.
  */
  lemma RootDerivableIff(known: set<Term>, secrets: iset<nat>, identity: nat, eph: nat, coins: nat, b: Published)
    requires Outsider(known)
    ensures Derivable(known, secrets, InitiatorRoot(identity, eph, coins, b))
            <==> DhSideOpen(secrets, identity, eph, b) && Kem(b.kem, coins) in known
  {
    DerivableIffBuilds(known, secrets, InitiatorRoot(identity, eph, coins, b));
    DhBuiltIff(known, secrets, identity, b.signed);
    DhBuiltIff(known, secrets, eph, b.identity);
    DhBuiltIff(known, secrets, eph, b.signed);
    if b.oneTime.Some? { DhBuiltIff(known, secrets, eph, b.oneTime.value); }
  }

  lemma DhBuiltIff(known: set<Term>, secrets: iset<nat>, secret: nat, public: Pk)
    requires Outsider(known)
    ensures Builds(known, secrets, FreeDh(secret, public)) <==> EitherKnown(secrets, secret, public)
  {
  }

  /** A session seeded with the root, seen from either side. */
  ghost predicate SessionClosed(known: set<Term>, secrets: iset<nat>, p: FreeParty) {
    && (forall i | 0 <= i < |p.sealedWith| :: !Derivable(known, secrets, p.sealedWith[i].0))
    && (forall i | 0 <= i < |p.openedWith| :: !Derivable(known, secrets, p.openedWith[i]))
  }

  /**
  Whoever has broken X25519 altogether, and holds every KEM secret but this one, computes neither the root
  nor any key of the session, whatever its parties are made to send or read.
  */
  lemma BrokenDhIsNotEnough(known: set<Term>, identity: nat, eph: nat, coins: nat, b: Published,
                            initiator: bool, self: nat, remote: Pk, ops: seq<Op>)
    requires Outsider(known) && Kem(b.kem, coins) !in known
    ensures var root := InitiatorRoot(identity, eph, coins, b);
            && !Derivable(known, EverySecret, root)
            && SessionClosed(known, EverySecret, RunParty(Seeded(initiator, root, self, remote), ops))
  {
    RootDerivableIff(known, EverySecret, identity, eph, coins, b);
    SeedProtectsSession(initiator, InitiatorRoot(identity, eph, coins, b), self, remote, ops, known, EverySecret);
  }

  /**
  Whoever has broken ML-KEM altogether computes neither the root nor any key of the session while one DH
  output of the handshake has two unknown secrets.
  */
  lemma BrokenKemIsNotEnough(known: set<Term>, secrets: iset<nat>, identity: nat, eph: nat, coins: nat, b: Published,
                             initiator: bool, self: nat, remote: Pk, ops: seq<Op>)
    requires Outsider(known) && !DhSideOpen(secrets, identity, eph, b)
    ensures var root := InitiatorRoot(identity, eph, coins, b);
            && !Derivable(known, secrets, root)
            && SessionClosed(known, secrets, RunParty(Seeded(initiator, root, self, remote), ops))
  {
    RootDerivableIff(known, secrets, identity, eph, coins, b);
    SeedProtectsSession(initiator, InitiatorRoot(identity, eph, coins, b), self, remote, ops, known, secrets);
  }

  /**
  With both kinds open the handshake protects nothing: the key of the initiator's first frame can then be
  computed exactly when its first root step used a known secret, too.
  */
  lemma FirstKeyDerivableIff(known: set<Term>, secrets: iset<nat>, identity: nat, eph: nat, coins: nat, b: Published,
                             rnd: nat, spare: nat, m: Bytes)
    requires Outsider(known)
    ensures var p := Seeded(true, InitiatorRoot(identity, eph, coins, b), rnd, b.signed);
            var sealed := PartySend(FreeSuite(), p, spare, m).0.sealedWith;
            && |sealed| == 1
            && (Derivable(known, secrets, sealed[0].0)
                <==> DhSideOpen(secrets, identity, eph, b) && Kem(b.kem, coins) in known
                     && EitherKnown(secrets, rnd, b.signed))
  {
    var root := InitiatorRoot(identity, eph, coins, b);
    var p := Seeded(true, root, rnd, b.signed);
    var key := PartySend(FreeSuite(), p, spare, m).0.sealedWith[0].0;
    var chain := Chain(root, FreeDh(rnd, b.signed));
    assert key == Msg(chain) && Origin(key) == Origin(chain) == Origin(root) == root;
    RootDerivableIff(known, secrets, identity, eph, coins, b);
    DerivableIffBuilds(known, secrets, root);
    DerivableIffBuilds(known, secrets, key);
    DhBuiltIff(known, secrets, rnd, b.signed);
  }
}
