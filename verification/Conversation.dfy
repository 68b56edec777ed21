/**
What two parties say to each other, without any cryptography: texts in two queues. A ratchet pair over
primitives that do not fail is that conversation.
*/
module Conversation {
  import opened Prelude
  import opened Suites
  import opened DoubleRatchet
  import opened RatchetPair

  /** Texts sent and texts delivered, in each direction. */
  datatype Talk = Talk(abSent: seq<Bytes>, abGot: seq<Bytes>, baSent: seq<Bytes>, baGot: seq<Bytes>)

  const Silence: Talk := Talk([], [], [], [])

  /** The initiator may speak at any time, the responder once it has heard something. */
  function Said<Sec>(t: Talk, step: Step<Sec>): Talk {
    match step
    case SendA(_, m) => t.(abSent := t.abSent + [m])
    case SendB(_, m) => if t.abGot == [] then t else t.(baSent := t.baSent + [m])
    case ReceiveB => if |t.abGot| >= |t.abSent| then t else t.(abGot := t.abGot + [t.abSent[|t.abGot|]])
    case ReceiveA => if |t.baGot| >= |t.baSent| then t else t.(baGot := t.baGot + [t.baSent[|t.baGot|]])
  }

  function AllSaid<Sec>(t: Talk, steps: seq<Step<Sec>>): Talk
    decreases |steps|
  {
    if steps == [] then t else AllSaid(Said(t, steps[0]), steps[1..])
  }

  function TalkOf<Sec, Pub, Key, Box>(w: World<Sec, Pub, Key, Box>): Talk {
    Talk(w.ab.sent, w.ab.got, w.ba.sent, w.ba.got)
  }

  /** An AEAD that never fails to seal. */
  ghost predicate SealsAll<Sec(!new), Pub(!new), Key(!new), Box(!new)>(s: Suite<Sec, Pub, Key, Box>) {
    forall k: Key, n: Bytes, p: Pub, m: Bytes :: s.seal(k, n, p, m).Some?
  }

  /** The initiator always has a remote key; the responder has one exactly when it has read something. */
  predicate RemotesKnown<Sec, Pub, Key, Box>(w: World<Sec, Pub, Key, Box>) {
    && w.a.rt.remote.Some? && (w.b.rt.remote.Some? <==> w.ab.got != []) && (w.b.rt.send.Some? ==> w.b.rt.remote.Some?)
  }

  lemma SendsAreSaid<Sec(!new), Pub(!new), Key(!new), Box(!new)>(s: Suite<Sec, Pub, Key, Box>,
      w: World<Sec, Pub, Key, Box>, rnd: Sec, m: Bytes)
    requires SealsAll(s)
    ensures var v := ASends(s, w, rnd, m);
            && v.ab.sent == (if w.a.rt.send.Some? || w.a.rt.remote.Some? then w.ab.sent + [m] else w.ab.sent)
            && v.ab.got == w.ab.got && v.ba == w.ba && v.b == w.b && v.a.rt.remote == w.a.rt.remote
            && (v.a.rt.send.Some? ==> w.a.rt.send.Some? || w.a.rt.remote.Some?)
  {
    EncryptSucceedsIff(s, w.a.rt, rnd, m);
  }

  lemma ReceivesAreSaid<Sec(!new), Pub(!new), Key(!new), Box(!new)>(s: Suite<Sec, Pub, Key, Box>,
      w: World<Sec, Pub, Key, Box>)
    requires Conserved(w.ab) && Conserved(BReceives(s, w).ab) && !BReceives(s, w).failed
    ensures var v := BReceives(s, w);
            && v.ab.sent == w.ab.sent && v.ba == w.ba && v.a == w.a
            && (if |w.ab.got| >= |w.ab.sent| then v == w
                else v.ab.got == w.ab.got + [w.ab.sent[|w.ab.got|]] && v.b.rt.remote.Some?)
            && (v.b.rt.send.Some? ==> w.b.rt.send.Some?)
  {
    if w.ab.frames != [] {
      var v := BReceives(s, w);
      assert v.ab.got == v.ab.sent[..|v.ab.got|];
    }
  }

  lemma StepIsSaid<Sec(!new), Pub(!new), Key(!new), Box(!new)>(s: Suite<Sec, Pub, Key, Box>,
      w: World<Sec, Pub, Key, Box>, step: Step<Sec>)
    requires Lawful(s) && SealsAll(s) && Inv(s, w) && FreshStep(s, w, step) && RemotesKnown(w)
    ensures var v := Apply(s, w, step);
            Inv(s, v) && RemotesKnown(v) && TalkOf(v) == Said(TalkOf(w), step)
  {
    StepKeepsInv(s, w, step);
    match step
    case SendA(rnd, m) => SendsAreSaid(s, w, rnd, m);
    case SendB(rnd, m) => SendsAreSaid(s, Flip(w), rnd, m);
    case ReceiveB => ReceivesAreSaid(s, w);
    case ReceiveA => ReceivesAreSaid(s, Flip(w));
  }

  lemma {:induction false} StepsAreSaid<Sec(!new), Pub(!new), Key(!new), Box(!new)>(s: Suite<Sec, Pub, Key, Box>,
      w: World<Sec, Pub, Key, Box>, steps: seq<Step<Sec>>)
    requires Lawful(s) && SealsAll(s) && Inv(s, w) && FreshRun(s, w, steps) && RemotesKnown(w)
    ensures TalkOf(Run(s, w, steps)) == AllSaid(TalkOf(w), steps)
    decreases |steps|
  {
    if steps != [] {
      StepIsSaid(s, w, steps[0]);
      StepsAreSaid(s, Apply(s, w, steps[0]), steps[1..]);
    }
  }

  /**
  Over primitives whose AEAD seals everything, every run of a pair is the conversation its steps spell: each
  send of the initiator, and each send of the responder once it has read something, is sent; each delivery
  hands over the next text that was sent and not delivered. Nothing else is sent or delivered.
  */
  lemma RunIsConversation<Sec(!new), Pub(!new), Key(!new), Box(!new)>(s: Suite<Sec, Pub, Key, Box>, shared: Key,
      preKey: Sec, rnd: Sec, steps: seq<Step<Sec>>)
    requires Lawful(s) && SealsAll(s) && FreshRun(s, Start(s, shared, preKey, rnd), steps)
    ensures TalkOf(Run(s, Start(s, shared, preKey, rnd), steps)) == AllSaid(Silence, steps)
  {
    StartInv(s, shared, preKey, rnd);
    StepsAreSaid(s, Start(s, shared, preKey, rnd), steps);
  }
}
