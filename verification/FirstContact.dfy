/**
Whose session a reader keeps under a name, over free terms. `decrypt` looks the session up by the name in
the payload and seeds a new one from the handshake message only when it finds none.
*/
module FirstContact {
  import opened Prelude
  import opened DoubleRatchet
  import opened RatchetPair
  import opened SymbolicSecrecy
  import opened SessionKeys
  import opened HandshakeSecrecy

  type Name = nat

  datatype Letter = Letter(from: Name, frame: Frame<Pk, Sealed>, init: Option<Greeting>)

  type Inbox = map<Name, FreeRatchet>

  /** The stored session for the name, or the one the handshake message leads to. */
  function SessionFor(kept: Kept, inbox: Inbox, l: Letter): Option<FreeRatchet> {
    if l.from in inbox then Some(inbox[l.from])
    else if l.init.None? then None
    else match ResponderRoot(kept, l.init.value)
      case None => None
      case Some(root) => Some(NewResponder(root, kept.signed))
  }

  /** A session is stored only after a frame has been read with it. */
  function Read(kept: Kept, inbox: Inbox, l: Letter): (Inbox, Option<Bytes>) {
    match SessionFor(kept, inbox, l)
    case None => (inbox, None)
    case Some(r) =>
      match Decrypt(FreeSuite(), r, l.frame)
      case (_, Err(_)) => (inbox, None)
      case (r1, Ok(m)) => (inbox[l.from := r1], Some(m))
  }

  function ReadAll(kept: Kept, inbox: Inbox, letters: seq<Letter>): Inbox
    decreases |letters|
  {
    if letters == [] then inbox else ReadAll(kept, Read(kept, inbox, letters[0]).0, letters[1..])
  }

  // ---------------------------------------------------------------------------
  // A session once stored
  // ---------------------------------------------------------------------------

  /** The secret the session was seeded with. */
  function SeedOf(r: FreeRatchet): Term {
    Origin(r.root)
  }

  predicate OneSeed(r: FreeRatchet) {
    IsSeed(SeedOf(r)) && HeldFrom(r, SeedOf(r))
  }

  lemma DecryptKeepsSeed(r: FreeRatchet, f: Frame<Pk, Sealed>)
    requires OneSeed(r)
    ensures OneSeed(Decrypt(FreeSuite(), r, f).0) && SeedOf(Decrypt(FreeSuite(), r, f).0) == SeedOf(r)
    ensures Origin(f.body.key) != SeedOf(r) ==> Decrypt(FreeSuite(), r, f).1.Err?
  {
    var p := Party(r, 0, [], []);
    ReceiveDescends(p, SeedOf(r), f);
    if Origin(f.body.key) != SeedOf(r) { ForeignKeyRejected(p, SeedOf(r), f); }
  }

  /** Every session is of one seed, which some handshake message led to. */
  ghost predicate InboxOk(inbox: Inbox, seeds: iset<Term>) {
    forall x | x in inbox :: OneSeed(inbox[x]) && SeedOf(inbox[x]) in seeds
  }

  /** What the handshake messages of the letters lead the reader to. */
  ghost function SeedsOf(kept: Kept, letters: seq<Letter>): iset<Term> {
    iset i, root | 0 <= i < |letters| && letters[i].init.Some?
                   && ResponderRoot(kept, letters[i].init.value) == Some(root) :: root
  }

  lemma SessionForHasSeed(kept: Kept, inbox: Inbox, l: Letter, seeds: iset<Term>)
    requires InboxOk(inbox, seeds) && SeedsOf(kept, [l]) <= seeds && SessionFor(kept, inbox, l).Some?
    ensures var r := SessionFor(kept, inbox, l).value;
            OneSeed(r) && SeedOf(r) in seeds && (l.from in inbox ==> r == inbox[l.from])
  {
    if l.from !in inbox {
      assert [l][0] == l;
      assert SessionFor(kept, inbox, l).value.root in SeedsOf(kept, [l]);
    }
  }

  lemma ReadKeepsSessions(kept: Kept, inbox: Inbox, l: Letter, seeds: iset<Term>)
    requires InboxOk(inbox, seeds) && SeedsOf(kept, [l]) <= seeds
    ensures InboxOk(Read(kept, inbox, l).0, seeds)
    ensures forall x | x in inbox ::
              x in Read(kept, inbox, l).0 && SeedOf(Read(kept, inbox, l).0[x]) == SeedOf(inbox[x])
  {
    if SessionFor(kept, inbox, l).Some? {
      var r := SessionFor(kept, inbox, l).value;
      var r1 := Decrypt(FreeSuite(), r, l.frame).0;
      SessionForHasSeed(kept, inbox, l, seeds);
      DecryptKeepsSeed(r, l.frame);
      assert Read(kept, inbox, l).0 in {inbox, inbox[l.from := r1]};
    }
  }

  lemma {:induction false} ReadAllKeepsSessions(kept: Kept, inbox: Inbox, letters: seq<Letter>, seeds: iset<Term>)
    requires InboxOk(inbox, seeds) && SeedsOf(kept, letters) <= seeds
    ensures var inbox1 := ReadAll(kept, inbox, letters);
            && InboxOk(inbox1, seeds)
            && forall x | x in inbox :: x in inbox1 && SeedOf(inbox1[x]) == SeedOf(inbox[x])
    decreases |letters|
  {
    if letters != [] {
      ReadKeepsSessions(kept, inbox, letters[0], seeds);
      ReadAllKeepsSessions(kept, Read(kept, inbox, letters[0]).0, letters[1..], seeds);
    }
  }

  // ---------------------------------------------------------------------------
  // A newcomer that takes a name
  // ---------------------------------------------------------------------------

  /** Somebody's own handshake against the reader's bundle, and the key drawn for its ratchet. */
  datatype Handshake = Handshake(identity: nat, eph: nat, coins: nat, bundle: Published, rnd: nat)

  function RootOf(h: Handshake): Term {
    InitiatorRoot(h.identity, h.eph, h.coins, h.bundle)
  }

  function Opener(h: Handshake): FreeParty {
    Seeded(true, RootOf(h), h.rnd, h.bundle.signed)
  }

  /** The first payload of the session, under the name `x`. */
  function FirstLetter(h: Handshake, x: Name, spare: nat, text: Bytes): Letter {
    Letter(x, Encrypt(FreeSuite(), Opener(h).rt, spare, text).1.value,
           Some(InitiatorGreeting(h.identity, h.eph, h.coins, h.bundle)))
  }

  lemma FirstLetterOpens(kept: Kept, h: Handshake, x: Name, spare: nat, text: Bytes)
    requires PublishedBy(h.bundle, kept)
    ensures ResponderRoot(kept, InitiatorGreeting(h.identity, h.eph, h.coins, h.bundle)) == Some(RootOf(h))
    ensures var f := FirstLetter(h, x, spare, text).frame;
            Decrypt(FreeSuite(), NewResponder(RootOf(h), kept.signed), f).1 == Ok(text)
  {
    RootsAgreeIff(h.identity, h.eph, h.coins, h.bundle, kept);
  }

  lemma FirstLetterKey(h: Handshake, x: Name, spare: nat, text: Bytes)
    ensures Origin(FirstLetter(h, x, spare, text).frame.body.key) == RootOf(h)
  {
    var chain := Chain(RootOf(h), FreeDh(h.rnd, h.bundle.signed));
    assert FirstLetter(h, x, spare, text).frame.body.key == Msg(chain);
    assert Origin(Msg(chain)) == Origin(chain) == Origin(RootOf(h));
  }

  /**
  Whatever letters a reader has been handed, let anyone open a session with it under the name x, by a
  handshake that none of those letters carried. The letter is read, as from x, exactly when the reader
  holds no session for x; and if it is not read it changes nothing.
  */
  lemma NewcomerReadIff(kept: Kept, letters: seq<Letter>, h: Handshake, x: Name, spare: nat, text: Bytes)
    requires PublishedBy(h.bundle, kept) && RootOf(h) !in SeedsOf(kept, letters)
    ensures var inbox := ReadAll(kept, map[], letters);
            Read(kept, inbox, FirstLetter(h, x, spare, text))
            == if x in inbox then (inbox, None)
               else (inbox[x := Decrypt(FreeSuite(), NewResponder(RootOf(h), kept.signed),
                         FirstLetter(h, x, spare, text).frame).0], Some(text))
  {
    var inbox := ReadAll(kept, map[], letters);
    ReadAllKeepsSessions(kept, map[], letters, SeedsOf(kept, letters));
    FirstLetterOpens(kept, h, x, spare, text);
    if x in inbox {
      FirstLetterKey(h, x, spare, text);
      DecryptKeepsSeed(inbox[x], FirstLetter(h, x, spare, text).frame);
    }
  }

  /** A letter under the name x, in a box whose key a party of the session `seed` has sealed with. */
  predicate FromSession(l: Letter, x: Name, p: FreeParty) {
    l.from == x && SealedHere(p, l.frame.body.key)
  }

  /**
  The first session a reader stores under a name is the only one it ever reads under it: whatever letters
  follow, one under a key of another session is refused and changes nothing.
  */
  lemma FirstSessionStays(kept: Kept, before: seq<Letter>, after: seq<Letter>, x: Name, l: Letter,
      initiator: bool, seed: Term, self: nat, remote: Pk, ops: seq<Op>)
    requires var inbox := ReadAll(kept, map[], before);
             IsSeed(seed) && x in inbox && SeedOf(inbox[x]) != seed
    requires FromSession(l, x, RunParty(Seeded(initiator, seed, self, remote), ops))
    ensures var inbox := ReadAll(kept, ReadAll(kept, map[], before), after);
            Read(kept, inbox, l) == (inbox, None)
  {
    var seeds := SeedsOf(kept, before) + SeedsOf(kept, after);
    var inbox := ReadAll(kept, map[], before);
    ReadAllKeepsSessions(kept, map[], before, seeds);
    ReadAllKeepsSessions(kept, inbox, after, seeds);
    SeededDescends(initiator, seed, self, remote, ops);
    DecryptKeepsSeed(ReadAll(kept, inbox, after)[x], l.frame);
  }

  /**
  So a newcomer that comes first under a name shuts the name's owner out: once its letter is read, no frame
  of a session with another handshake is ever read under that name.
  */
  lemma NewcomerShutsOwnerOut(kept: Kept, before: seq<Letter>, h: Handshake, x: Name, spare: nat, text: Bytes,
      after: seq<Letter>, l: Letter, owner: Handshake, ops: seq<Op>)
    requires PublishedBy(h.bundle, kept) && RootOf(h) !in SeedsOf(kept, before) && RootOf(owner) != RootOf(h)
    requires x !in ReadAll(kept, map[], before) && FromSession(l, x, RunParty(Opener(owner), ops))
    ensures var (inbox, read) := Read(kept, ReadAll(kept, map[], before), FirstLetter(h, x, spare, text));
            && read == Some(text)
            && Read(kept, ReadAll(kept, inbox, after), l) == (ReadAll(kept, inbox, after), None)
  {
    var first := FirstLetter(h, x, spare, text);
    NewcomerReadIff(kept, before, h, x, spare, text);
    FirstLetterKey(h, x, spare, text);
    var seeded := NewResponder(RootOf(h), kept.signed);
    DecryptKeepsSeed(seeded, first.frame);
    ReadAllAppends(kept, map[], before, first);
    FirstSessionStays(kept, before + [first], after, x, l, true, RootOf(owner), owner.rnd, owner.bundle.signed, ops);
  }

  lemma {:induction false} ReadAllAppends(kept: Kept, inbox: Inbox, letters: seq<Letter>, l: Letter)
    ensures ReadAll(kept, inbox, letters + [l]) == Read(kept, ReadAll(kept, inbox, letters), l).0
    decreases |letters|
  {
    if letters == [] {
      assert [l][1..] == [];
    } else {
      assert (letters + [l])[1..] == letters[1..] + [l];
      ReadAllAppends(kept, Read(kept, inbox, letters[0]).0, letters[1..], l);
    }
  }
}
