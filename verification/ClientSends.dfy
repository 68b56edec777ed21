/**
When the client's `encrypt` and `decrypt` succeed, how they fail, and what a send takes from the pre-key
directory.
*/
module ClientSends {
  import opened Prelude
  import opened Suites
  import opened DoubleRatchet
  import RatchetPair
  import opened Runs
  import opened RatchetCodec
  import opened RatchetSession
  import opened Stepper
  import Identity
  import opened Handshake
  import opened PreKeyStore
  import opened Client
  import opened ClientNetwork
  import opened Conversation

  // ---------------------------------------------------------------------------
  // The outcomes of one call
  // ---------------------------------------------------------------------------

  /** A send finds no session for the peer and has to open one from the peer's bundle. */
  predicate Opens(dev: Device, peer: User) {
    peer !in dev.out
  }

  /** The secrets a device can work with. */
  function SecretsOf(lib: Identity.Library, dev: Device): Option<Identity.PreKeySecrets> {
    match dev.secrets
    case None => None
    case Some(b) => (match Identity.Parse(lib, b) case Ok(p) => Some(p) case Err(_) => None)
  }

  /** The session an opening send would start, from the bundle as it is listed. */
  function Started(lib: Identity.Library, store: PreKeys, dev: Device, peer: User, draws: Draws)
    : Result<(ByteRatchet, InitMessage), HandshakeError>
    requires peer in store && SecretsOf(lib, dev).Some?
  {
    InitiatorSession(lib, SecretsOf(lib, dev).value.identity, store[peer], draws.ephemeral, draws.coins,
        draws.ratchetKey)
  }

  /** How an opening send fails before it has a ratchet, exactly. */
  lemma OpeningFailsIff(lib: Identity.Library, store: PreKeys, dev: Device, me: User, peer: User, text: Bytes,
      draws: Draws)
    ensures var r := ClientEncrypt(lib, store, dev, me, peer, text, draws).2;
            && (r == Err(NoBundle) <==> Opens(dev, peer) && peer !in store)
            && (r == Err(NotProvisioned) <==> Opens(dev, peer) && peer in store && dev.secrets.None?)
            && (r == Err(BadSecrets) <==>
                  Opens(dev, peer) && peer in store && dev.secrets.Some? && SecretsOf(lib, dev).None?)
            && (forall e :: r == Err(HandshakeFailed(e)) <==>
                  && Opens(dev, peer) && peer in store && SecretsOf(lib, dev).Some?
                  && Started(lib, store, dev, peer, draws) == Err(e))
            && r != Err(NoSession)
  {
  }

  /**
  A send on a stored session: the ratchet that was stored takes one step, whose frame goes out under the
  sender's name and whose state is stored; the handshake message rides along unless it already has; the
  directory is not touched. It fails exactly as the ratchet does, and then nothing changes.
  */
  lemma ContinuesExactly(lib: Identity.Library, store: PreKeys, dev: Device, me: User, peer: User, text: Bytes,
      draws: Draws)
    requires !Opens(dev, peer)
    ensures var sess := dev.out[peer];
            ClientEncrypt(lib, store, dev, me, peer, text, draws) ==
              match Parse(sess.ratchet)
              case Err(e) => (store, dev, Err(RatchetFailed(e)))
              case Ok(ratchet) =>
                match EncryptBytes(lib.ratchet, ratchet, draws.rotation, text)
                case (_, Err(e)) => (store, dev, Err(RatchetFailed(e)))
                case (ratchet1, Ok(frame)) =>
                  (store, dev.(out := dev.out[peer := OutSession(Print(ratchet1), sess.init, true)]),
                   Ok(Payload(me, frame, if sess.sentInit then None else Some(sess.init))))
  {
  }

  /**
  A send that opens a session: the listed bundle loses its one-time key whatever happens next; the new
  ratchet takes one step; the payload carries the handshake message, which says whether there was a one-time
  key to use.
  */
  lemma OpensExactly(lib: Identity.Library, store: PreKeys, dev: Device, me: User, peer: User, text: Bytes,
      draws: Draws)
    requires Opens(dev, peer) && peer in store && SecretsOf(lib, dev).Some?
    requires Started(lib, store, dev, peer, draws).Ok?
    ensures var (ratchet, init) := Started(lib, store, dev, peer, draws).value;
            && init.usedOneTime == store[peer].oneTime.Some?
            && ClientEncrypt(lib, store, dev, me, peer, text, draws) ==
               match EncryptBytes(lib.ratchet, ratchet, draws.rotation, text)
               case (_, Err(e)) => (WithoutOneTime(store, peer), dev, Err(RatchetFailed(e)))
               case (ratchet1, Ok(frame)) =>
                 (WithoutOneTime(store, peer),
                  dev.(out := dev.out[peer := OutSession(Print(ratchet1), init, true)]),
                  Ok(Payload(me, frame, Some(init))))
  {
    StoredPrint(Started(lib, store, dev, peer, draws).value.0);
  }

  function WithoutOneTime(store: PreKeys, d: User): PreKeys
    requires d in store
  {
    store[d := store[d].(oneTime := None)]
  }

  /** An opening send takes the one-time key even when it fails later on; no other send touches the directory. */
  lemma DirectoryAfterSend(lib: Identity.Library, store: PreKeys, dev: Device, me: User, peer: User, text: Bytes,
      draws: Draws)
    ensures ClientEncrypt(lib, store, dev, me, peer, text, draws).0
            == if Opens(dev, peer) && peer in store then WithoutOneTime(store, peer) else store
  {
  }

  /** How reading fails, exactly, and that it changes nothing then. */
  lemma DecryptFailsIff(lib: Identity.Library, dev: Device, p: Payload)
    ensures var (dev1, r) := ClientDecrypt(lib, dev, p);
            var known := p.from in dev.inn;
            && (r.Err? ==> dev1 == dev)
            && (r == Err(NoSession) <==> !known && p.init.None?)
            && (r == Err(NotProvisioned) <==> !known && p.init.Some? && dev.secrets.None?)
            && (r == Err(BadSecrets) <==> !known && p.init.Some? && dev.secrets.Some? && SecretsOf(lib, dev).None?)
            && (forall e :: r == Err(HandshakeFailed(e)) <==>
                  && !known && p.init.Some? && SecretsOf(lib, dev).Some?
                  && ResponderSession(lib, SecretsOf(lib, dev).value, p.init.value) == Err(e))
            && r != Err(NoBundle)
  {
  }

  /** The stored session, or one seeded from the handshake message by a device that can. */
  function ReadingSession(lib: Identity.Library, dev: Device, p: Payload): Option<Bytes> {
    if p.from in dev.inn then Some(dev.inn[p.from].ratchet)
    else match (p.init, SecretsOf(lib, dev))
      case (Some(init), Some(secrets)) =>
        (match ResponderSession(lib, secrets, init) case Ok(r) => Some(Print(r)) case Err(_) => None)
      case _ => None
  }

  /**
  Reading, otherwise: the session's ratchet takes one step; what it gives is the text, from the name in the
  payload, and the new state is stored under that name; if it fails nothing is stored.
  */
  lemma ReadsExactly(lib: Identity.Library, dev: Device, p: Payload)
    requires ReadingSession(lib, dev, p).Some?
    ensures ClientDecrypt(lib, dev, p) ==
              match Parse(ReadingSession(lib, dev, p).value)
              case Err(e) => (dev, Err(RatchetFailed(e)))
              case Ok(ratchet) =>
                match DecryptBytes(lib.ratchet, ratchet, p.frame)
                case (_, Err(e)) => (dev, Err(RatchetFailed(e)))
                case (ratchet1, Ok(text)) =>
                  (dev.(inn := dev.inn[p.from := InSession(Print(ratchet1))]), Ok(Decrypted(p.from, text)))
  {
  }

  // ---------------------------------------------------------------------------
  // Sends that succeed
  // ---------------------------------------------------------------------------

  /** Primitives that do not fail: the AEAD seals everything, encapsulation always gives a ciphertext. */
  ghost predicate NeverFails(lib: Identity.Library) {
    SealsAll(lib.ratchet) && forall key, coins :: lib.encapsulate(key, coins).Some?
  }

  lemma PlainLibraryNeverFails()
    ensures LawfulLibrary(PlainLibrary()) && NeverFails(PlainLibrary())
  {
    PlainLibraryLawful();
  }

  lemma SealsBytes(s: ByteSuite, r: ByteRatchet, rnd: Key32, text: Bytes)
    requires SealsAll(s) && (r.send.Some? || r.remote.Some?)
    ensures EncryptBytes(s, r, rnd, text).1.Ok?
  {
    EncryptSucceedsIff(s, r, rnd, text);
  }

  /** The sender's ratchet of a one-way pair always has a chain. */
  lemma WriterHasChain(s: ByteSuite, x: ByteRatchet, y: ByteRatchet, l: RatchetPair.Link<Key32, Bytes>)
    requires OneWay(s, x, y, l)
    ensures x.send.Some?
  {
  }

  lemma StoredSessionSends(lib: Identity.Library, p: Identity.PreKeySecrets, store: PreKeys, dev: Device, x: User,
      y: User, i: Option<InSession>, c: Channel, text: Bytes, draws: Draws)
    requires NeverFails(lib) && y in dev.out && DirectionOk(lib, p, x, Some(dev.out[y]), i, c)
    ensures ClientEncrypt(lib, store, dev, x, y, text, draws).2.Ok?
  {
    var r := Parse(dev.out[y].ratchet).value;
    WriterHasChain(lib.ratchet, r, ReaderState(lib, p, dev.out[y].init, i), LinkOf(c));
    SealsBytes(lib.ratchet, r, draws.rotation, text);
    ContinuesExactly(lib, store, dev, x, y, text, draws);
  }

  lemma PublishedKeysDecode(lib: Identity.Library, bundle: Identity.PreKeyBundle, p: Identity.PreKeySecrets)
    requires Identity.Consistent(lib, p) && Publishes(lib, bundle, p)
    ensures KeysDecode(bundle) && bundle.pqKem.key.algo == Identity.MlKem768 && |bundle.pqKem.key.bytes| == 1184
  {
  }

  lemma OpeningSends(lib: Identity.Library, alice: Identity.PreKeySecrets, bob: Identity.PreKeySecrets, store: PreKeys,
      dev: Device, x: User, y: User, text: Bytes, draws: Draws)
    requires NeverFails(lib) && Opens(dev, y) && y in store
    requires Identity.Consistent(lib, alice) && dev.secrets == Some(Identity.Print(alice))
    requires Identity.Consistent(lib, bob) && Publishes(lib, store[y], bob)
    ensures ClientEncrypt(lib, store, dev, x, y, text, draws).2.Ok?
  {
    Identity.RoundTrip(lib, alice, []);
    assert Identity.Print(alice) + [] == Identity.Print(alice);
    PublishedKeysDecode(lib, store[y], bob);
    InitiatorFailsIff(lib, alice.identity, store[y], draws.ephemeral, draws.coins, draws.ratchetKey);
    SessionsAreSeeded(lib, alice.identity, store[y], draws.ephemeral, draws.coins, draws.ratchetKey, alice,
        InitMessage(draws.ephemeral, draws.ephemeral, [], false));
    SealsBytes(lib.ratchet, Started(lib, store, dev, y, draws).value.0, draws.rotation, text);
    OpensExactly(lib, store, dev, x, y, text, draws);
  }

  /**
  In every state that satisfies the network's invariant, a send succeeds exactly if the sender holds a session
  for the peer or the peer is listed; otherwise it fails for want of a bundle.
  */
  lemma SendSucceedsIff(lib: Identity.Library, acc: Accounts, n: Network, x: User, y: User, text: Bytes, draws: Draws)
    requires NeverFails(lib) && AccountsOk(lib, acc) && NetworkInv(lib, acc, n) && x in acc && y in acc
    ensures x in n.devices
    ensures var r := ClientEncrypt(lib, n.directory, n.devices[x], x, y, text, draws).2;
            if y in n.devices[x].out || y in n.directory then r.Ok? else r == Err(NoBundle)
  {
    assert Passes(Judge(lib, acc), n, x, y);
    if y in n.devices[x].out {
      StoredSessionSends(lib, acc[y].secrets, n.directory, n.devices[x], x, y, Lookup(n.devices[y].inn, x),
          ChannelOf(n, x, y), text, draws);
    } else if y in n.directory {
      ReaderReady(lib, acc, n, x);
      ReaderReady(lib, acc, n, y);
      OpeningSends(lib, acc[x].secrets, acc[y].secrets, n.directory, n.devices[x], x, y, text, draws);
    } else {
      OpeningFailsIff(lib, n.directory, n.devices[x], x, y, text, draws);
    }
  }

  // ---------------------------------------------------------------------------
  // Whole runs
  // ---------------------------------------------------------------------------

  /** One direction as its users see it: texts written, and what was read, from whom. */
  datatype Post = Post(sent: seq<Bytes>, got: seq<Decrypted>)

  function PostOf(n: Network, x: User, y: User): Post {
    Post(ChannelOf(n, x, y).sent, ChannelOf(n, x, y).got)
  }

  /** Every send is sent, every delivery hands over the next text; nothing else concerns the direction. */
  function Posted(p: Post, e: Event, x: User, y: User): Post {
    match e
    case Send(a, b, text, _) => if (a, b) == (x, y) then p.(sent := p.sent + [text]) else p
    case Deliver(a, b) =>
      if (a, b) == (x, y) && |p.got| < |p.sent| then p.(got := p.got + [Decrypted(x, p.sent[|p.got|])]) else p
    case _ => p
  }

  function AllPosted(p: Post, es: seq<Event>, x: User, y: User): Post
    decreases |es|
  {
    if es == [] then p else AllPosted(Posted(p, es[0], x, y), es[1..], x, y)
  }

  /** Every user has a bundle in the directory. */
  predicate AllListed(acc: Accounts, n: Network) {
    acc.Keys <= n.directory.Keys
  }

  ghost predicate Running(lib: Identity.Library, acc: Accounts, n: Network) {
    NetworkInv(lib, acc, n) && AllListed(acc, n)
  }

  lemma SentIsPosted(n: Network, a: User, b: User, text: Bytes, draws: Draws, store: PreKeys, dev: Device, p: Payload,
                     x: User, y: User)
    ensures PostOf(Sent(n, a, b, text, store, dev, Ok(p)), x, y)
            == Posted(PostOf(n, x, y), Send(a, b, text, draws), x, y)
  {
  }

  lemma DeliveredIsPosted(n: Network, a: User, b: User, dev: Device, x: User, y: User)
    requires ChannelOf(n, a, b).inFlight != []
    requires |ChannelOf(n, a, b).sent| == |ChannelOf(n, a, b).got| + |ChannelOf(n, a, b).inFlight|
    ensures var c := ChannelOf(n, a, b);
            PostOf(Delivered(n, a, b, dev, Ok(Decrypted(a, c.sent[|c.got|]))), x, y)
            == Posted(PostOf(n, x, y), Deliver(a, b), x, y)
  {
  }

  lemma SuccessIsPosted(lib: Identity.Library, n: Network, a: User, b: User, text: Bytes, draws: Draws,
                     x: User, y: User)
    requires a in n.devices
    requires ClientEncrypt(lib, n.directory, n.devices[a], a, b, text, draws).2.Ok?
    ensures PostOf(AfterSend(lib, n, a, b, text, draws), x, y)
            == Posted(PostOf(n, x, y), Send(a, b, text, draws), x, y)
  {
    var (store, dev, r) := ClientEncrypt(lib, n.directory, n.devices[a], a, b, text, draws);
    SentIsPosted(n, a, b, text, draws, store, dev, r.value, x, y);
  }

  lemma SendIsPosted(lib: Identity.Library, acc: Accounts, n: Network, a: User, b: User, text: Bytes, draws: Draws,
                     x: User, y: User)
    requires NeverFails(lib) && AccountsOk(lib, acc) && Running(lib, acc, n) && a in acc && b in acc
    ensures a in n.devices
    ensures PostOf(AfterSend(lib, n, a, b, text, draws), x, y)
            == Posted(PostOf(n, x, y), Send(a, b, text, draws), x, y)
  {
    SendSucceedsIff(lib, acc, n, a, b, text, draws);
    SuccessIsPosted(lib, n, a, b, text, draws, x, y);
  }

  /** The next text is handed over. */
  lemma NextIsRead(lib: Identity.Library, acc: Accounts, n: Network, a: User, b: User)
    requires LawfulLibrary(lib) && AccountsOk(lib, acc) && NetworkInv(lib, acc, n) && a in acc && b in acc
    ensures b in n.devices
    ensures var c := ChannelOf(n, a, b);
            && |c.sent| == |c.got| + |c.inFlight|
            && (c.inFlight != [] ==>
                  ClientDecrypt(lib, n.devices[b], c.inFlight[0]).1 == Ok(Decrypted(a, c.sent[|c.got|])))
  {
    var c := ChannelOf(n, a, b);
    ReaderReady(lib, acc, n, b);
    assert Passes(Judge(lib, acc), n, a, b);
    DirectionDelivers(lib, acc[b].secrets, a, Lookup(n.devices[a].out, b), Lookup(n.devices[b].inn, a), c);
    if c.inFlight != [] {
      DeliverKeepsDirection(lib, n.devices[b], acc[b], a, Lookup(n.devices[a].out, b), c);
    }
  }

  lemma ReadIsPosted(lib: Identity.Library, n: Network, a: User, b: User, x: User, y: User)
    requires b in n.devices
    requires var c := ChannelOf(n, a, b);
             && |c.sent| == |c.got| + |c.inFlight|
             && (c.inFlight != [] ==>
                   ClientDecrypt(lib, n.devices[b], c.inFlight[0]).1 == Ok(Decrypted(a, c.sent[|c.got|])))
    ensures PostOf(AfterDelivery(lib, n, a, b), x, y) == Posted(PostOf(n, x, y), Deliver(a, b), x, y)
  {
    var c := ChannelOf(n, a, b);
    if c.inFlight != [] {
      DeliveredIsPosted(n, a, b, ClientDecrypt(lib, n.devices[b], c.inFlight[0]).0, x, y);
    }
  }

  lemma DeliveryIsPosted(lib: Identity.Library, acc: Accounts, n: Network, a: User, b: User, x: User, y: User)
    requires LawfulLibrary(lib) && AccountsOk(lib, acc) && Running(lib, acc, n) && a in acc && b in acc
    ensures b in n.devices
    ensures PostOf(AfterDelivery(lib, n, a, b), x, y) == Posted(PostOf(n, x, y), Deliver(a, b), x, y)
  {
    NextIsRead(lib, acc, n, a, b);
    ReadIsPosted(lib, n, a, b, x, y);
  }

  /** Events that are neither sends nor deliveries leave every direction as it is. */
  lemma OtherEventsPostNothing(lib: Identity.Library, acc: Accounts, n: Network, e: Event, x: User, y: User)
    requires !e.Send? && !e.Deliver?
    ensures PostOf(Step(lib, acc, n, e), x, y) == PostOf(n, x, y)
  {
  }

  /** Nobody who is listed is ever struck off. */
  lemma StepKeepsListed(lib: Identity.Library, acc: Accounts, n: Network, e: Event)
    requires AllListed(acc, n)
    ensures AllListed(acc, Step(lib, acc, n, e))
  {
    if e.Send? && n.devices.Keys == acc.Keys && Enabled(acc, e) {
      DirectoryAfterSend(lib, n.directory, n.devices[e.x], e.x, e.y, e.text, e.draws);
    }
  }

  lemma StepIsEvent(lib: Identity.Library, acc: Accounts, n: Network, e: Event)
    requires n.devices.Keys == acc.Keys && Enabled(acc, e)
    ensures e.Send? ==> Step(lib, acc, n, e) == AfterSend(lib, n, e.x, e.y, e.text, e.draws)
    ensures e.Deliver? ==> Step(lib, acc, n, e) == AfterDelivery(lib, n, e.x, e.y)
  {
  }

  lemma StepIsPosted(lib: Identity.Library, acc: Accounts, n: Network, e: Event, x: User, y: User)
    requires LawfulLibrary(lib) && NeverFails(lib) && AccountsOk(lib, acc) && Running(lib, acc, n) && Enabled(acc, e)
    ensures PostOf(Step(lib, acc, n, e), x, y) == Posted(PostOf(n, x, y), e, x, y)
  {
    StepIsEvent(lib, acc, n, e);
    if e.Send? {
      SendIsPosted(lib, acc, n, e.x, e.y, e.text, e.draws, x, y);
    } else if e.Deliver? {
      DeliveryIsPosted(lib, acc, n, e.x, e.y, x, y);
    } else {
      OtherEventsPostNothing(lib, acc, n, e, x, y);
    }
  }

  lemma StepKeepsRunning(lib: Identity.Library, acc: Accounts, n: Network, e: Event)
    requires LawfulLibrary(lib) && NeverFails(lib) && AccountsOk(lib, acc) && Running(lib, acc, n)
    requires Possible(lib, acc, n, e)
    ensures Running(lib, acc, Step(lib, acc, n, e))
  {
    StepKeepsInv(lib, acc, n, e);
    StepKeepsListed(lib, acc, n, e);
  }

  /** `post` follows `step`, event by event, wherever `running` holds, which allowed events keep. */
  ghost predicate Follows(step: (Network, Event) -> Network, allowed: (Network, Event) -> bool,
      running: Network -> bool, x: User, y: User)
  {
    forall n, e | running(n) && allowed(n, e) ::
      running(step(n, e)) && PostOf(step(n, e), x, y) == Posted(PostOf(n, x, y), e, x, y)
  }

  lemma {:induction false} RunIsPosted(step: (Network, Event) -> Network, allowed: (Network, Event) -> bool,
      running: Network -> bool, n: Network, es: seq<Event>, x: User, y: User)
    requires Follows(step, allowed, running, x, y) && running(n) && Allowed(step, allowed, n, es)
    ensures PostOf(Runs.Run(step, n, es), x, y) == AllPosted(PostOf(n, x, y), es, x, y)
    decreases |es|
  {
    if es != [] {
      RunIsPosted(step, allowed, running, step(n, es[0]), es[1..], x, y);
    }
  }

  /**
  Over primitives that do not fail, every run of the network is the exchange of texts that its events spell:
  between any two users everything written is sent, whether it opens a session or continues one, and every
  delivery hands over the next text, from its sender.
  */
  lemma EveryTextIsSent(lib: Identity.Library, acc: Accounts, es: seq<Event>, x: User, y: User)
    requires LawfulLibrary(lib) && NeverFails(lib) && AccountsOk(lib, acc)
    requires Allowed((n, e) => Step(lib, acc, n, e), (n, e) => Possible(lib, acc, n, e), Opening(lib, acc), es)
    ensures PostOf(Runs.Run((n, e) => Step(lib, acc, n, e), Opening(lib, acc), es), x, y)
            == AllPosted(Post([], []), es, x, y)
  {
    var step := (n, e) => Step(lib, acc, n, e);
    var allowed := (n, e) => Possible(lib, acc, n, e);
    var running := n => NetworkInv(lib, acc, n) && AllListed(acc, n);
    forall n, e | running(n) && allowed(n, e)
      ensures running(step(n, e)) && PostOf(step(n, e), x, y) == Posted(PostOf(n, x, y), e, x, y)
    {
      StepKeepsRunning(lib, acc, n, e);
      StepIsPosted(lib, acc, n, e, x, y);
    }
    OpeningInv(lib, acc);
    RunIsPosted(step, allowed, running, Opening(lib, acc), es, x, y);
  }

  // ---------------------------------------------------------------------------
  // One-time keys
  // ---------------------------------------------------------------------------

  predicate HasOneTime(n: Network, y: User) {
    y in n.directory && n.directory[y].oneTime.Some?
  }

  /** The event is a send that opens a session with y and tells y that a one-time key was used. */
  predicate UsesOneTime(lib: Identity.Library, acc: Accounts, n: Network, e: Event, y: User)
    requires n.devices.Keys == acc.Keys
  {
    && e.Send? && e.y == y && Enabled(acc, e) && Opens(n.devices[e.x], y)
    && var r := ClientEncrypt(lib, n.directory, n.devices[e.x], e.x, y, e.text, e.draws).2;
       r.Ok? && r.value.init.Some? && r.value.init.value.usedOneTime
  }

  /** How often a run uses a one-time key of y, and how often y publishes one. */
  function Uses(lib: Identity.Library, acc: Accounts, n: Network, es: seq<Event>, y: User): nat
    requires n.devices.Keys == acc.Keys
    decreases |es|
  {
    if es == [] then 0
    else
      StepKeepsUsers(lib, acc, n, es[0]);
      (if UsesOneTime(lib, acc, n, es[0], y) then 1 else 0) + Uses(lib, acc, Step(lib, acc, n, es[0]), es[1..], y)
  }

  function Announcements(es: seq<Event>, y: User): nat {
    if es == [] then 0 else (if es[0] == Announce(y) then 1 else 0) + Announcements(es[1..], y)
  }

  lemma StepKeepsUsers(lib: Identity.Library, acc: Accounts, n: Network, e: Event)
    requires n.devices.Keys == acc.Keys
    ensures Step(lib, acc, n, e).devices.Keys == acc.Keys
  {
  }

  lemma OneUseTakesTheKey(lib: Identity.Library, acc: Accounts, n: Network, e: Event, y: User)
    requires n.devices.Keys == acc.Keys
    ensures var n1 := Step(lib, acc, n, e);
            (if UsesOneTime(lib, acc, n, e, y) then 1 else 0) + (if HasOneTime(n1, y) then 1 else 0)
            <= (if HasOneTime(n, y) then 1 else 0) + (if e == Announce(y) then 1 else 0)
  {
    if e.Send? && Enabled(acc, e) {
      DirectoryAfterSend(lib, n.directory, n.devices[e.x], e.x, e.y, e.text, e.draws);
      if UsesOneTime(lib, acc, n, e, y) {
        OpensExactly(lib, n.directory, n.devices[e.x], e.x, y, e.text, e.draws);
      }
    }
  }

  /**
  One-time keys are used once: from any state on, over any run, sends that tell y of a one-time key, together
  with the one still listed, are no more than the one listed in the beginning and those y published since. So
  between two publications at most one session is opened with it.
  */
  lemma {:induction false} OneTimeKeysUsedOnce(lib: Identity.Library, acc: Accounts, n: Network, es: seq<Event>,
      y: User)
    requires n.devices.Keys == acc.Keys
    ensures var n1 := Runs.Run((m, e) => Step(lib, acc, m, e), n, es);
            Uses(lib, acc, n, es, y) + (if HasOneTime(n1, y) then 1 else 0)
            <= (if HasOneTime(n, y) then 1 else 0) + Announcements(es, y)
    decreases |es|
  {
    if es != [] {
      OneUseTakesTheKey(lib, acc, n, es[0], y);
      StepKeepsUsers(lib, acc, n, es[0]);
      OneTimeKeysUsedOnce(lib, acc, Step(lib, acc, n, es[0]), es[1..], y);
    }
  }
}
