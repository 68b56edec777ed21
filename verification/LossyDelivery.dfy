/**
One direction between two clients over a network that may lose, reorder and repeat, over free terms. The
writer's session is used for sending only, the reader keeps no skipped keys and stores a session only when
a frame was read with it.
*/
module LossyDelivery {
  import opened Prelude
  import opened DoubleRatchet
  import opened RatchetPair
  import opened SymbolicSecrecy
  import opened OutOfOrder
  import opened HandshakeSecrecy
  import opened FirstContact

  /** The writer and all it ever wrote; the reader's stored sessions and all it has read. */
  datatype Line = Line(
    writer: FreeRatchet,
    letters: seq<Letter>,
    sent: seq<Bytes>,
    inbox: Inbox,
    got: seq<Bytes>)

  datatype Event =
    | Write(rnd: nat, text: Bytes)
    | Hand(i: nat)                    // the network hands over the i-th letter written, once more or for the first time

  /** Both ends of a direction: the writer's handshake, its name, and the reader's secrets. */
  datatype Ends = Ends(h: Handshake, from: Name, kept: Kept)

  function Begin(e: Ends): Line {
    Line(Opener(e.h).rt, [], [], map[], [])
  }

  /** The handshake message rides on the first letter only. */
  function InitOf(e: Ends, i: nat): Option<Greeting> {
    if i == 0 then Some(InitiatorGreeting(e.h.identity, e.h.eph, e.h.coins, e.h.bundle)) else None
  }

  function Step(e: Ends, l: Line, event: Event): Line {
    match event
    case Write(rnd, text) =>
      (match Encrypt(FreeSuite(), l.writer, rnd, text)
       case (w, Err(_)) => l.(writer := w)
       case (w, Ok(f)) =>
         l.(writer := w, letters := l.letters + [Letter(e.from, f, InitOf(e, |l.letters|))], sent := l.sent + [text]))
    case Hand(i) =>
      if i >= |l.letters| then l
      else match Read(e.kept, l.inbox, l.letters[i])
        case (inbox, None) => l.(inbox := inbox)
        case (inbox, Some(m)) => l.(inbox := inbox, got := l.got + [m])
  }

  function Steps(e: Ends, l: Line, events: seq<Event>): Line
    decreases |events|
  {
    if events == [] then l else Steps(e, Step(e, l, events[0]), events[1..])
  }

  // ---------------------------------------------------------------------------
  // Where both ends are
  // ---------------------------------------------------------------------------

  /** The chain every frame of the direction belongs to. */
  function ChainOf(e: Ends): Term {
    Chain(RootOf(e.h), FreeDh(e.h.rnd, e.h.bundle.signed))
  }

  function RootAfter(e: Ends): Term {
    Term.Root(RootOf(e.h), FreeDh(e.h.rnd, e.h.bundle.signed))
  }

  function KeyAt(e: Ends, n: nat): Term {
    ChainAt(FreeSuite(), ChainOf(e), n)
  }

  function WriterAt(e: Ends, n: nat): FreeRatchet {
    Ratchet(RootAfter(e), e.h.rnd, Some(e.h.bundle.signed), Some(KeyAt(e, n)), None, CountAt(0, n), 0)
  }

  function ReaderAt(e: Ends, n: nat): FreeRatchet {
    Ratchet(RootAfter(e), e.kept.signed, Some(Pk(e.h.rnd)), None, Some(KeyAt(e, n)), 0, CountAt(0, n))
  }

  function LetterAt(e: Ends, n: nat, text: Bytes): Letter {
    Letter(e.from, Frame(Pk(e.h.rnd), Sealed(Msg(KeyAt(e, n)), Nonce(CountAt(0, n)), Pk(e.h.rnd), text)), InitOf(e, n))
  }

  /** Nothing is stored until something was read. */
  function InboxAt(e: Ends, n: nat): Inbox {
    if n == 0 then map[] else map[e.from := ReaderAt(e, n)]
  }

  predicate LineOk(e: Ends, l: Line) {
    && |l.letters| == |l.sent| && l.writer == WriterAt(e, |l.sent|)
    && (forall i | 0 <= i < |l.sent| :: l.letters[i] == LetterAt(e, i, l.sent[i]))
    && |l.got| <= |l.sent| && l.got == l.sent[..|l.got|]
    && l.inbox == InboxAt(e, |l.got|)
  }

  lemma WriteKeepsOk(e: Ends, l: Line, rnd: nat, text: Bytes)
    requires LineOk(e, l)
    ensures LineOk(e, Step(e, l, Write(rnd, text)))
    ensures l.sent <= Step(e, l, Write(rnd, text)).sent
  {
    ChainStep(FreeSuite(), ChainOf(e), 0, |l.sent|);
    var l1 := Step(e, l, Write(rnd, text));
    assert l1.letters == l.letters + [LetterAt(e, |l.sent|, text)];
  }

  lemma KeysApart(e: Ends, m: nat, n: nat)
    requires m != n
    ensures KeyAt(e, m) != KeyAt(e, n)
  {
    ChainAtIndex(ChainOf(e), m);
    ChainAtIndex(ChainOf(e), n);
  }

  lemma StoredSessionReads(e: Ends, i: nat, n: nat, text: Bytes)
    requires n > 0
    ensures Decrypt(FreeSuite(), ReaderAt(e, n), LetterAt(e, i, text).frame)
            == if i == n then (ReaderAt(e, n + 1), Ok(text)) else (ReaderAt(e, n), Err(OpenFailed))
  {
    ChainStep(FreeSuite(), ChainOf(e), 0, n);
    if i != n { KeysApart(e, i, n); }
  }

  /** The first letter read seeds the session, exactly if it is the first one written. */
  lemma NoSessionReads(e: Ends, i: nat, text: Bytes)
    requires PublishedBy(e.h.bundle, e.kept)
    ensures Read(e.kept, map[], LetterAt(e, i, text))
            == if i == 0 then (InboxAt(e, 1), Some(text)) else (map[], None)
  {
    if i == 0 {
      RootsAgreeIff(e.h.identity, e.h.eph, e.h.coins, e.h.bundle, e.kept);
      ChainStep(FreeSuite(), ChainOf(e), 0, 0);
      var r := NewResponder(RootOf(e.h), e.kept.signed);
      assert FreeDh(e.kept.signed, Pk(e.h.rnd)) == FreeDh(e.h.rnd, e.h.bundle.signed);
      assert Decrypt(FreeSuite(), r, LetterAt(e, 0, text).frame) == (ReaderAt(e, 1), Ok(text));
    }
  }

  /** With `n` letters read, a letter is read exactly if it is the next one; otherwise nothing changes. */
  lemma ReadIffNext(e: Ends, i: nat, n: nat, text: Bytes)
    requires PublishedBy(e.h.bundle, e.kept)
    ensures Read(e.kept, InboxAt(e, n), LetterAt(e, i, text))
            == if i == n then (InboxAt(e, n + 1), Some(text)) else (InboxAt(e, n), None)
  {
    if n == 0 {
      NoSessionReads(e, i, text);
    } else {
      StoredSessionReads(e, i, n, text);
      assert InboxAt(e, n)[e.from := ReaderAt(e, n + 1)] == InboxAt(e, n + 1);
    }
  }

  lemma HandKeepsOk(e: Ends, l: Line, i: nat)
    requires PublishedBy(e.h.bundle, e.kept) && LineOk(e, l)
    ensures var l1 := Step(e, l, Hand(i));
            && LineOk(e, l1) && l1.sent == l.sent
            && |l1.got| == |l.got| + (if i == |l.got| < |l.sent| then 1 else 0)
            && (i != |l.got| ==> l1.inbox == l.inbox)
  {
    if i < |l.letters| { ReadIffNext(e, i, |l.got|, l.sent[i]); }
  }

  lemma {:induction false} StepsKeepOk(e: Ends, l: Line, events: seq<Event>)
    requires PublishedBy(e.h.bundle, e.kept) && LineOk(e, l)
    ensures LineOk(e, Steps(e, l, events)) && l.sent <= Steps(e, l, events).sent
    decreases |events|
  {
    if events != [] {
      match events[0] {
        case Write(rnd, text) => WriteKeepsOk(e, l, rnd, text);
        case Hand(i) => HandKeepsOk(e, l, i);
      }
      StepsKeepOk(e, Step(e, l, events[0]), events[1..]);
    }
  }

  /**
  However letters are lost, reordered and repeated: what was read is, in order, a prefix of what was
  written, and of all letters ever written the reader reads the next one and no other; a refused letter
  leaves the stored session as it is.
  */
  lemma ReadsExactlyNext(e: Ends, events: seq<Event>)
    requires PublishedBy(e.h.bundle, e.kept)
    ensures var l := Steps(e, Begin(e), events);
            && |l.letters| == |l.sent| && |l.got| <= |l.sent| && l.got == l.sent[..|l.got|]
            && forall i | 0 <= i < |l.letters| ::
                 var (inbox, r) := Read(e.kept, l.inbox, l.letters[i]);
                 if i == |l.got| then r == Some(l.sent[i]) else r == None && inbox == l.inbox
  {
    StepsKeepOk(e, Begin(e), events);
    var l := Steps(e, Begin(e), events);
    forall i | 0 <= i < |l.letters| { ReadIffNext(e, i, |l.got|, l.sent[i]); }
  }

  // ---------------------------------------------------------------------------
  // A letter that is lost
  // ---------------------------------------------------------------------------

  /** The network never hands over letter `n` again. */
  predicate Lost(n: nat, events: seq<Event>) {
    forall i | 0 <= i < |events| :: events[i] != Hand(n)
  }

  lemma {:induction false} NothingPastTheGap(e: Ends, l: Line, events: seq<Event>, n: nat)
    requires PublishedBy(e.h.bundle, e.kept) && LineOk(e, l) && |l.got| <= n && Lost(n, events)
    ensures var l1 := Steps(e, l, events);
            LineOk(e, l1) && |l.got| <= |l1.got| <= n && (|l.got| == n ==> l1.inbox == l.inbox)
    decreases |events|
  {
    if events != [] {
      match events[0] {
        case Write(rnd, text) => WriteKeepsOk(e, l, rnd, text);
        case Hand(i) => HandKeepsOk(e, l, i);
      }
      NothingPastTheGap(e, Step(e, l, events[0]), events[1..], n);
    }
  }

  /**
  What a loss costs. Letter `n` has not been read and is not handed over any more: whatever else is
  written and handed over, in whatever order and however often, nothing from `n` on is ever read, every later
  letter is refused, and once all before `n` is read the stored session never changes again.
  */
  lemma LossEndsTheDirection(e: Ends, before: seq<Event>, after: seq<Event>, n: nat)
    requires PublishedBy(e.h.bundle, e.kept) && Lost(n, after)
    requires |Steps(e, Begin(e), before).got| <= n
    ensures var l := Steps(e, Begin(e), before);
            var l1 := Steps(e, l, after);
            && |l1.got| <= n && (|l.got| == n ==> l1.got == l.got && l1.inbox == l.inbox)
            && forall i | n < i < |l1.letters| :: Read(e.kept, l1.inbox, l1.letters[i]) == (l1.inbox, None)
  {
    StepsKeepOk(e, Begin(e), before);
    var l := Steps(e, Begin(e), before);
    NothingPastTheGap(e, l, after, n);
    StepsKeepOk(e, l, after);
    var l1 := Steps(e, l, after);
    forall i | n < i < |l1.letters| { ReadIffNext(e, i, |l1.got|, l1.sent[i]); }
  }
}
