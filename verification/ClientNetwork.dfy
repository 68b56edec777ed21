/**
Any number of users exchanging messages through FIFO channels, one per ordered pair, over a shared
pre-key directory that strangers may drain and owners may republish to.
*/
module ClientNetwork {
  import opened Prelude
  import opened Suites
  import opened DoubleRatchet
  import opened RatchetPair
  import opened Runs
  import opened RatchetCodec
  import opened RatchetSession
  import opened Stepper
  import Identity
  import opened Handshake
  import opened PreKeyStore
  import opened Client

  /** One direction between two users. */
  datatype Channel = Channel(inFlight: seq<Payload>, sent: seq<Bytes>, got: seq<Decrypted>)

  datatype Network = Network(
    devices: map<User, Device>,
    directory: PreKeys,
    channels: map<(User, User), Channel>,
    failed: bool)                         // some genuine payload was rejected

  /** Long-term secrets of a user, and the randomness its KEM pair was generated from. */
  datatype Account = Account(secrets: Identity.PreKeySecrets, kemSeed: Bytes)

  type Accounts = map<User, Account>

  datatype Event =
    | Send(x: User, y: User, text: Bytes, draws: Draws)
    | Deliver(x: User, y: User)                 // y reads the oldest payload from x
    | Announce(y: User)                         // y publishes its stored bundle again
    | StrangerFetches(y: User)                  // someone else consumes y's one-time key
    | Garbage(y: User, payload: Payload)        // y is handed a payload that it rejects

  function ChannelOf(n: Network, x: User, y: User): Channel {
    if (x, y) in n.channels then n.channels[(x, y)] else Channel([], [], [])
  }

  function Step(lib: Identity.Library, acc: Accounts, n: Network, e: Event): Network {
    if n.devices.Keys != acc.Keys || !Enabled(acc, e) then n else
    match e
    case Send(x, y, text, draws) => AfterSend(lib, n, x, y, text, draws)
    case Deliver(x, y) => AfterDelivery(lib, n, x, y)
    case Announce(y) => n.(directory := n.directory[y := Identity.BundleOf(acc[y].secrets, lib, y)])
    case StrangerFetches(y) => n.(directory := FetchAndConsume(n.directory, y).0)
    case Garbage(y, payload) => n.(devices := n.devices[y := ClientDecrypt(lib, n.devices[y], payload).0])
  }

  function AfterSend(lib: Identity.Library, n: Network, x: User, y: User, text: Bytes, draws: Draws): Network
    requires x in n.devices
  {
    var (store, dev, r) := ClientEncrypt(lib, n.directory, n.devices[x], x, y, text, draws);
    Sent(n, x, y, text, store, dev, r)
  }

  function AfterDelivery(lib: Identity.Library, n: Network, x: User, y: User): Network
    requires y in n.devices
  {
    var c := ChannelOf(n, x, y);
    if c.inFlight == [] then n else
    var (dev, r) := ClientDecrypt(lib, n.devices[y], c.inFlight[0]);
    Delivered(n, x, y, dev, r)
  }

  /** The network once `encrypt` has returned; a payload, if there is one, enters the channel. */
  function Sent(n: Network, x: User, y: User, text: Bytes, store: PreKeys, dev: Device, r: Result<Payload, ClientError>)
    : Network
  {
    var n1 := n.(directory := store, devices := n.devices[x := dev]);
    match r
    case Err(_) => n1
    case Ok(p) => n1.(channels := n.channels[(x, y) := WithSent(ChannelOf(n, x, y), p, text)])
  }

  /** The network once `decrypt` has returned on the oldest payload from x. */
  function Delivered(n: Network, x: User, y: User, dev: Device, r: Result<Decrypted, ClientError>): Network
    requires ChannelOf(n, x, y).inFlight != []
  {
    var n1 := n.(devices := n.devices[y := dev]);
    var c := ChannelOf(n, x, y);
    match r
    case Err(_) => n1.(channels := n.channels[(x, y) := c.(inFlight := c.inFlight[1..])], failed := true)
    case Ok(d) => n1.(channels := n.channels[(x, y) := WithDelivered(c, d)])
  }

  function WithSent(c: Channel, p: Payload, text: Bytes): Channel {
    Channel(c.inFlight + [p], c.sent + [text], c.got)
  }

  function WithDelivered(c: Channel, d: Decrypted): Channel
    requires c.inFlight != []
  {
    Channel(c.inFlight[1..], c.sent, c.got + [d])
  }

  /** The users an event names are accounts. */
  predicate Enabled(acc: Accounts, e: Event) {
    match e
    case Send(x, y, _, _) => x in acc && y in acc
    case Deliver(x, y) => x in acc && y in acc
    case Announce(y) => y in acc
    case StrangerFetches(y) => true
    case Garbage(y, _) => y in acc
  }

  /** Garbage is whatever the reader rejects when it arrives. */
  predicate Possible(lib: Identity.Library, acc: Accounts, n: Network, e: Event) {
    Enabled(acc, e) && (e.Garbage? && e.y in n.devices ==> ClientDecrypt(lib, n.devices[e.y], e.payload).1.Err?)
  }

  // ---------------------------------------------------------------------------
  // Invariant
  // ---------------------------------------------------------------------------

  function Unframe(p: Payload): Frame<Key32, Bytes>
    requires |p.frame| >= 32
  {
    Frame(p.frame[..32], p.frame[32..])
  }

  predicate Framed(ps: seq<Payload>) {
    forall i | 0 <= i < |ps| :: |ps[i].frame| >= 32
  }

  function Frames(ps: seq<Payload>): (fs: seq<Frame<Key32, Bytes>>)
    requires Framed(ps)
    ensures |fs| == |ps|
  {
    seq(|ps|, i requires 0 <= i < |ps| => Unframe(ps[i]))
  }

  function Texts(ds: seq<Decrypted>): (ts: seq<Bytes>)
    ensures |ts| == |ds|
  {
    seq(|ds|, i requires 0 <= i < |ds| => ds[i].text)
  }

  function LinkOf(c: Channel): Link<Key32, Bytes>
    requires Framed(c.inFlight)
  {
    Link(Frames(c.inFlight), c.sent, Texts(c.got))
  }

  const NoLink: Link<Key32, Bytes> := Link([], [], [])

  /** A ratchet pair used in one direction only, before and after the first delivery. */
  predicate OneWay(s: ByteSuite, x: ByteRatchet, y: ByteRatchet, l: Link<Key32, Bytes>) {
    Conserved(l) && (Even(s, x, y, l, NoLink) || Ahead(s, x, y, l, NoLink, 0))
  }

  predicate Stored(blob: Bytes) {
    Parse(blob).Ok? && Print(Parse(blob).value) == blob
  }

  /** What was sent, what was delivered and what is in flight are about the true sender. */
  predicate Attributed(x: User, c: Channel) {
    && (forall i | 0 <= i < |c.inFlight| :: c.inFlight[i].from == x)
    && (forall i | 0 <= i < |c.got| :: c.got[i].from == x)
  }

  /** The handshake message rides on the first frame only. */
  predicate InitFirst(c: Channel, init: InitMessage) {
    forall i | 0 <= i < |c.inFlight| ::
      c.inFlight[i].init == if |c.got| == 0 && i == 0 then Some(init) else None
  }

  /** The receiver's ratchet, or the one it will seed from the handshake message. */
  function ReaderState(lib: Identity.Library, p: Identity.PreKeySecrets, init: InitMessage, i: Option<InSession>)
    : ByteRatchet
    requires i.None? ==> ResponderSession(lib, p, init).Ok?
    requires i.Some? ==> Stored(i.value.ratchet)
  {
    if i.Some? then Parse(i.value.ratchet).value else ResponderSession(lib, p, init).value
  }

  /** The state of one direction: `o` is the sender's session, `i` the receiver's. */
  predicate DirectionOk(lib: Identity.Library, p: Identity.PreKeySecrets, x: User,
                        o: Option<OutSession>, i: Option<InSession>, c: Channel)
  {
    Framed(c.inFlight) && Attributed(x, c) &&
    match o
    case None => i.None? && c == Channel([], [], [])
    case Some(out) =>
      && Stored(out.ratchet) && out.sentInit && InitFirst(c, out.init)
      && (i.None? ==> c.got == [] && c.inFlight != [] && ResponderSession(lib, p, out.init).Ok?)
      && (i.Some? ==> c.got != [] && Stored(i.value.ratchet))
      && OneWay(lib.ratchet, Parse(out.ratchet).value, ReaderState(lib, p, out.init, i), LinkOf(c))
  }

  function Lookup<K(==), V>(m: map<K, V>, k: K): Option<V> {
    if k in m then Some(m[k]) else None
  }

  predicate AccountsOk(lib: Identity.Library, acc: Accounts) {
    forall u | u in acc ::
      && Identity.Consistent(lib, acc[u].secrets)
      && (acc[u].secrets.kem.decap, acc[u].secrets.kem.encap) == lib.kemGenerate(acc[u].kemSeed)
  }

  predicate NetworkInv(lib: Identity.Library, acc: Accounts, n: Network) {
    && n.devices.Keys == acc.Keys
    && Shaped(Judge(lib, acc), Blobs(acc), n)
    && DirectoryOk(lib, acc, n.directory)
  }

  /** The secret blob of every user. */
  function Blobs(acc: Accounts): map<User, Bytes> {
    map u | u in acc :: Identity.Print(acc[u].secrets)
  }

  /** Nothing was rejected, devices hold their blobs, and every direction passes the verdict. */
  predicate Shaped(ok: Verdict, blobs: map<User, Bytes>, n: Network) {
    && !n.failed
    && n.devices.Keys == blobs.Keys
    && (forall u | u in blobs :: n.devices[u].secrets == Some(blobs[u]))
    && AllDirections(ok, blobs.Keys, n)
  }

  predicate DirectoryOk(lib: Identity.Library, acc: Accounts, store: PreKeys) {
    forall d | d in store && d in acc :: Publishes(lib, store[d], acc[d].secrets)
  }

  type Verdict = (User, User, Option<OutSession>, Option<InSession>, Channel) -> bool

  function Judge(lib: Identity.Library, acc: Accounts): Verdict {
    (x: User, y: User, o: Option<OutSession>, i: Option<InSession>, c: Channel) =>
      y in acc && DirectionOk(lib, acc[y].secrets, x, o, i, c)
  }

  /** Every ordered pair of users passes the verdict. */
  predicate AllDirections(ok: Verdict, users: set<User>, n: Network)
    requires n.devices.Keys == users
  {
    forall x, y | x in users && y in users :: Passes(ok, n, x, y)
  }

  predicate Passes(ok: Verdict, n: Network, x: User, y: User)
    requires x in n.devices && y in n.devices
  {
    ok(x, y, Lookup(n.devices[x].out, y), Lookup(n.devices[y].inn, x), ChannelOf(n, x, y))
  }

  /** A send touches one direction only. */
  lemma SentShaped(ok: Verdict, blobs: map<User, Bytes>, n: Network, x: User, y: User, text: Bytes,
                   store: PreKeys, dev: Device, r: Result<Payload, ClientError>)
    requires Shaped(ok, blobs, n) && x in blobs && y in blobs
    requires r.Err? ==> dev == n.devices[x]
    requires r.Ok? ==>
      && y in dev.out && dev == n.devices[x].(out := n.devices[x].out[y := dev.out[y]])
      && ok(x, y, Some(dev.out[y]), Lookup(n.devices[y].inn, x), WithSent(ChannelOf(n, x, y), r.value, text))
    ensures Shaped(ok, blobs, Sent(n, x, y, text, store, dev, r))
  {
    var n1 := Sent(n, x, y, text, store, dev, r);
    if r.Err? {
      assert n1 == n.(directory := store);
    }
    forall a, b | a in blobs && b in blobs
      ensures Passes(ok, n1, a, b)
    {
      assert Passes(ok, n, a, b);
    }
  }

  /** So does an accepted delivery. */
  lemma DeliveredShaped(ok: Verdict, blobs: map<User, Bytes>, n: Network, x: User, y: User, dev: Device, d: Decrypted)
    requires Shaped(ok, blobs, n) && x in blobs && y in blobs && ChannelOf(n, x, y).inFlight != []
    requires x in dev.inn && dev == n.devices[y].(inn := n.devices[y].inn[x := dev.inn[x]])
    requires ok(x, y, Lookup(n.devices[x].out, y), Some(dev.inn[x]), WithDelivered(ChannelOf(n, x, y), d))
    ensures Shaped(ok, blobs, Delivered(n, x, y, dev, Ok(d)))
  {
    var n1 := Delivered(n, x, y, dev, Ok(d));
    forall a, b | a in blobs && b in blobs
      ensures Passes(ok, n1, a, b)
    {
      assert Passes(ok, n, a, b);
    }
  }

  lemma NewDirectoryShaped(ok: Verdict, blobs: map<User, Bytes>, n: Network, store: PreKeys)
    requires Shaped(ok, blobs, n)
    ensures Shaped(ok, blobs, n.(directory := store))
  {
    var n1 := n.(directory := store);
    forall a, b | a in blobs && b in blobs
      ensures Passes(ok, n1, a, b)
    {
      assert Passes(ok, n, a, b);
    }
  }

  // ---------------------------------------------------------------------------
  // Links
  // ---------------------------------------------------------------------------

  lemma LinkExtends(c: Channel, p: Payload, text: Bytes, f: Frame<Key32, Bytes>)
    requires Framed(c.inFlight) && p.frame == FrameBytes(f)
    ensures Framed(c.inFlight + [p])
    ensures LinkOf(WithSent(c, p, text)) == Extended(LinkOf(c), f, text)
  {
    assert Unframe(p) == f;
    assert Frames(c.inFlight + [p]) == Frames(c.inFlight) + [f];
  }

  lemma LinkShifts(c: Channel, d: Decrypted)
    requires Framed(c.inFlight) && c.inFlight != []
    ensures Framed(c.inFlight[1..])
    ensures LinkOf(WithDelivered(c, d)) == Shifted(LinkOf(c), d.text)
  {
    assert Frames(c.inFlight[1..]) == Frames(c.inFlight)[1..];
    assert Texts(c.got + [d]) == Texts(c.got) + [d.text];
  }

  lemma OneWaySends(s: ByteSuite, x: ByteRatchet, y: ByteRatchet, l: Link<Key32, Bytes>, rnd: Key32, m: Bytes)
    requires OneWay(s, x, y, l)
    ensures var (x1, res) := Encrypt(s, x, rnd, m);
            res.Ok? ==> OneWay(s, x1, y, Extended(l, res.value, m))
  {
    SendOnChainEffect(s, x, rnd, m);
    var res := Encrypt(s, x, rnd, m).1;
    if res.Ok? {
      if Even(s, x, y, l, NoLink) {
        EvenExtends(s, x, y, l, NoLink, res.value, m);
      } else {
        AheadExtends(s, x, y, l, NoLink, 0, res.value, m);
      }
    }
  }

  lemma OneWayReceives(s: ByteSuite, x: ByteRatchet, y: ByteRatchet, l: Link<Key32, Bytes>)
    requires Lawful(s) && OneWay(s, x, y, l) && l.frames != []
    ensures var (y1, res) := Decrypt(s, y, l.frames[0]);
            && res == Ok(l.sent[|l.got|]) && OneWay(s, x, y1, Shifted(l, res.value))
  {
    if Even(s, x, y, l, NoLink) {
      EvenShifts(s, x, y, l, NoLink);
    } else {
      AheadShiftsNew(s, x, y, l, NoLink);
    }
  }

  lemma StoredPrint(r: ByteRatchet)
    ensures Stored(Print(r)) && Parse(Print(r)) == Ok(r)
  {
    RoundTrip(r, []);
    assert Print(r) + [] == Print(r);
  }

  // ---------------------------------------------------------------------------
  // Sending
  // ---------------------------------------------------------------------------

  /** A session made from a published bundle is one the owner of the bundle can answer. */
  lemma NewSessionAnswerable(lib: Identity.Library, alice: Identity.IdentityKeyPair, bob: Account,
      bundle: Identity.PreKeyBundle, draws: Draws)
    requires LawfulLibrary(lib) && Identity.Consistent(lib, bob.secrets) && Publishes(lib, bundle, bob.secrets)
    requires (bob.secrets.kem.decap, bob.secrets.kem.encap) == lib.kemGenerate(bob.kemSeed)
    requires InitiatorSession(lib, alice, bundle, draws.ephemeral, draws.coins, draws.ratchetKey).Ok?
    ensures var (ra, init) := InitiatorSession(lib, alice, bundle, draws.ephemeral, draws.coins,
            draws.ratchetKey).value;
            var rb := ResponderSession(lib, bob.secrets, init);
            rb.Ok? && OneWay(lib.ratchet, ra, rb.value, NoLink)
  {
    SessionsAgree(lib, alice, bob.secrets, bob.kemSeed, bundle, draws.ephemeral, draws.coins, draws.ratchetKey);
    Identity.RoundTrip(lib, bob.secrets, []);
    assert Identity.Print(bob.secrets) + [] == Identity.Print(bob.secrets);
    var (ra, init) := InitiatorSession(lib, alice, bundle, draws.ephemeral, draws.coins, draws.ratchetKey).value;
    var rb := ResponderSession(lib, bob.secrets, init).value;
    var shared: Key32 :|
      && Start(lib.ratchet, shared, bob.secrets.signedPreKey.secret, draws.ratchetKey).a.rt == ra
      && Start(lib.ratchet, shared, bob.secrets.signedPreKey.secret, draws.ratchetKey).b.rt == rb;
    StartAhead(lib.ratchet, shared, bob.secrets.signedPreKey.secret, draws.ratchetKey);
  }

  lemma StartAhead(s: ByteSuite, shared: Key32, preKey: Key32, rnd: Key32)
    requires Lawful(s)
    ensures var w := Start(s, shared, preKey, rnd); Ahead(s, w.a.rt, w.b.rt, NoLink, NoLink, 0)
  {
    var w := Start(s, shared, preKey, rnd);
    assert s.dh(rnd, s.pub(preKey)) == s.dh(preKey, s.pub(rnd));
    assert Pending(NoLink) == [];
  }

  /** The ratchet part of `encrypt`: one more payload on a one-way pair. */
  lemma SendOnSession(lib: Identity.Library, x: User, sess: OutSession, reader: ByteRatchet, c: Channel, text: Bytes,
      rotation: Key32)
    requires Stored(sess.ratchet) && Framed(c.inFlight)
    requires OneWay(lib.ratchet, Parse(sess.ratchet).value, reader, LinkOf(c))
    requires StepEncrypt(lib.ratchet, sess.ratchet, text, rotation).Ok?
    ensures var step := StepEncrypt(lib.ratchet, sess.ratchet, text, rotation).value;
            var p := Payload(x, step.data, if sess.sentInit then None else Some(sess.init));
            var c1 := WithSent(c, p, text);
            && Stored(step.state) && Framed(c1.inFlight)
            && OneWay(lib.ratchet, Parse(step.state).value, reader, LinkOf(c1))
  {
    var step := StepEncrypt(lib.ratchet, sess.ratchet, text, rotation).value;
    var ra := Parse(sess.ratchet).value;
    var (ra1, res) := Encrypt(lib.ratchet, ra, rotation, text);
    StoredPrint(ra1);
    OneWaySends(lib.ratchet, ra, reader, LinkOf(c), rotation, text);
    LinkExtends(c, Payload(x, step.data, if sess.sentInit then None else Some(sess.init)), text, res.value);
  }

  lemma ExtendedAttributed(x: User, c: Channel, payload: Payload, text: Bytes, init: InitMessage)
    requires Attributed(x, c) && InitFirst(c, init) && payload.from == x
    requires payload.init == if c.got == [] && c.inFlight == [] then Some(init) else None
    ensures Attributed(x, WithSent(c, payload, text)) && InitFirst(WithSent(c, payload, text), init)
  {
  }

  /** Bookkeeping around `SendOnSession`: sender, first-frame handshake, stored flag. */
  lemma DirectionAfterSend(lib: Identity.Library, p: Identity.PreKeySecrets, x: User, o: Option<OutSession>,
      i: Option<InSession>, c: Channel, sess: OutSession, state: Bytes, payload: Payload, text: Bytes)
    requires DirectionOk(lib, p, x, o, i, c)
    requires if o.Some? then sess == o.value else !sess.sentInit && ResponderSession(lib, p, sess.init).Ok?
    requires payload.from == x && payload.init == if sess.sentInit then None else Some(sess.init)
    requires var c1 := WithSent(c, payload, text);
             && Stored(state) && Framed(c1.inFlight)
             && OneWay(lib.ratchet, Parse(state).value, ReaderState(lib, p, sess.init, i), LinkOf(c1))
    ensures DirectionOk(lib, p, x, Some(OutSession(state, sess.init, true)), i, WithSent(c, payload, text))
  {
    ExtendedAttributed(x, c, payload, text, sess.init);
  }

  /** The session a send works on pairs with the receiver's, whether stored or just established. */
  lemma OutboundReady(lib: Identity.Library, store: PreKeys, dev: Device, alice: Account, bob: Account,
                      x: User, y: User, i: Option<InSession>, c: Channel, draws: Draws)
    requires LawfulLibrary(lib) && Identity.Consistent(lib, alice.secrets) && Identity.Consistent(lib, bob.secrets)
    requires (bob.secrets.kem.decap, bob.secrets.kem.encap) == lib.kemGenerate(bob.kemSeed)
    requires dev.secrets == Some(Identity.Print(alice.secrets))
    requires y in store ==> Publishes(lib, store[y], bob.secrets)
    requires DirectionOk(lib, bob.secrets, x, Lookup(dev.out, y), i, c)
    requires OutboundSession(lib, store, dev, y, draws).1.Ok?
    ensures var sess := OutboundSession(lib, store, dev, y, draws).1.value;
            && (if y in dev.out then sess == dev.out[y] else !sess.sentInit)
            && Stored(sess.ratchet) && (i.None? ==> ResponderSession(lib, bob.secrets, sess.init).Ok?)
            && (i.Some? ==> y in dev.out && Stored(i.value.ratchet))
            && OneWay(lib.ratchet, Parse(sess.ratchet).value, ReaderState(lib, bob.secrets, sess.init, i), LinkOf(c))
  {
    if y !in dev.out {
      Identity.RoundTrip(lib, alice.secrets, []);
      assert Identity.Print(alice.secrets) + [] == Identity.Print(alice.secrets);
      var bundle := store[y];
      var session := InitiatorSession(lib, alice.secrets.identity, bundle, draws.ephemeral, draws.coins,
          draws.ratchetKey);
      NewSessionAnswerable(lib, alice.secrets.identity, bob, bundle, draws);
      StoredPrint(session.value.0);
      assert LinkOf(c) == NoLink;
    }
  }

  /** A send keeps the direction it belongs to. */
  lemma SendKeepsDirection(lib: Identity.Library, store: PreKeys, dev: Device, alice: Account, bob: Account,
                           x: User, y: User, i: Option<InSession>, c: Channel, text: Bytes, draws: Draws)
    requires LawfulLibrary(lib) && Identity.Consistent(lib, alice.secrets) && Identity.Consistent(lib, bob.secrets)
    requires (bob.secrets.kem.decap, bob.secrets.kem.encap) == lib.kemGenerate(bob.kemSeed)
    requires dev.secrets == Some(Identity.Print(alice.secrets))
    requires y in store ==> Publishes(lib, store[y], bob.secrets)
    requires DirectionOk(lib, bob.secrets, x, Lookup(dev.out, y), i, c)
    requires ClientEncrypt(lib, store, dev, x, y, text, draws).2.Ok?
    ensures var (_, dev1, r) := ClientEncrypt(lib, store, dev, x, y, text, draws);
            && y in dev1.out && dev1 == dev.(out := dev.out[y := dev1.out[y]])
            && DirectionOk(lib, bob.secrets, x, Some(dev1.out[y]), i, WithSent(c, r.value, text))
  {
    var (_, dev1, r) := ClientEncrypt(lib, store, dev, x, y, text, draws);
    var sess := OutboundSession(lib, store, dev, y, draws).1.value;
    OutboundReady(lib, store, dev, alice, bob, x, y, i, c, draws);
    SendOnSession(lib, x, sess, ReaderState(lib, bob.secrets, sess.init, i), c, text, draws.rotation);
    DirectionAfterSend(lib, bob.secrets, x, Lookup(dev.out, y), i, c, sess, dev1.out[y].ratchet, r.value, text);
  }

  // ---------------------------------------------------------------------------
  // Delivering
  // ---------------------------------------------------------------------------

  lemma InboundReady(lib: Identity.Library, dev: Device, bob: Account, x: User, o: Option<OutSession>, c: Channel)
    requires Identity.Consistent(lib, bob.secrets) && dev.secrets == Some(Identity.Print(bob.secrets))
    requires DirectionOk(lib, bob.secrets, x, o, Lookup(dev.inn, x), c) && c.inFlight != []
    ensures o.Some?
    ensures var reader := ReaderState(lib, bob.secrets, o.value.init, Lookup(dev.inn, x));
            InboundSession(lib, dev, c.inFlight[0]) == Ok(InSession(Print(reader)))
  {
    Identity.RoundTrip(lib, bob.secrets, []);
    assert Identity.Print(bob.secrets) + [] == Identity.Print(bob.secrets);
  }

  /** The ratchet part of `decrypt` on the oldest payload of a one-way pair. */
  lemma ReceiveOnSession(lib: Identity.Library, writer: ByteRatchet, reader: ByteRatchet, c: Channel)
    requires LawfulLibrary(lib) && Framed(c.inFlight) && c.inFlight != []
    requires OneWay(lib.ratchet, writer, reader, LinkOf(c))
    ensures |c.got| < |c.sent|
    ensures var step := StepDecrypt(lib.ratchet, Print(reader), c.inFlight[0].frame);
            && step.Ok? && step.value.data == c.sent[|c.got|] && Stored(step.value.state)
            && (forall from: User :: var c1 := WithDelivered(c, Decrypted(from, step.value.data));
                  Framed(c1.inFlight) && OneWay(lib.ratchet, writer, Parse(step.value.state).value, LinkOf(c1)))
  {
    var f := Frames(c.inFlight)[0];
    StoredPrint(reader);
    OneWayReceives(lib.ratchet, writer, reader, LinkOf(c));
    assert FrameBytes(f) == c.inFlight[0].frame;
    DecryptsFrameBytes(lib.ratchet, reader, f);
    var (reader1, res) := Decrypt(lib.ratchet, reader, f);
    StoredPrint(reader1);
    forall from: User
      ensures Framed(c.inFlight[1..]) && LinkOf(WithDelivered(c, Decrypted(from, res.value)))
              == Shifted(LinkOf(c), res.value)
    {
      LinkShifts(c, Decrypted(from, res.value));
    }
  }

  lemma ShiftedAttributed(x: User, init: InitMessage, c: Channel, d: Decrypted)
    requires Attributed(x, c) && InitFirst(c, init) && c.inFlight != [] && d.from == x
    ensures Attributed(x, WithDelivered(c, d)) && InitFirst(WithDelivered(c, d), init)
  {
  }

  lemma DirectionAfterDelivery(lib: Identity.Library, p: Identity.PreKeySecrets, x: User, o: Option<OutSession>,
      i: Option<InSession>, c: Channel, state: Bytes, d: Decrypted)
    requires DirectionOk(lib, p, x, o, i, c) && o.Some? && c.inFlight != [] && d.from == x && Stored(state)
    requires var c1 := WithDelivered(c, d);
             Framed(c1.inFlight) && OneWay(lib.ratchet, Parse(o.value.ratchet).value, Parse(state).value, LinkOf(c1))
    ensures DirectionOk(lib, p, x, o, Some(InSession(state)), WithDelivered(c, d))
  {
    ShiftedAttributed(x, o.value.init, c, d);
  }

  /** The oldest payload is accepted, attributed to its sender, and carries the text that was sent. */
  lemma DeliverKeepsDirection(lib: Identity.Library, dev: Device, bob: Account, x: User, o: Option<OutSession>,
      c: Channel)
    requires LawfulLibrary(lib) && Identity.Consistent(lib, bob.secrets)
    requires dev.secrets == Some(Identity.Print(bob.secrets))
    requires DirectionOk(lib, bob.secrets, x, o, Lookup(dev.inn, x), c) && c.inFlight != []
    ensures var (dev1, r) := ClientDecrypt(lib, dev, c.inFlight[0]);
            && |c.got| < |c.sent| && r == Ok(Decrypted(x, c.sent[|c.got|]))
            && x in dev1.inn && dev1 == dev.(inn := dev.inn[x := dev1.inn[x]])
            && DirectionOk(lib, bob.secrets, x, o, Some(dev1.inn[x]), WithDelivered(c, r.value))
  {
    InboundReady(lib, dev, bob, x, o, c);
    var reader := ReaderState(lib, bob.secrets, o.value.init, Lookup(dev.inn, x));
    ReceiveOnSession(lib, Parse(o.value.ratchet).value, reader, c);
    var step := StepDecrypt(lib.ratchet, Print(reader), c.inFlight[0].frame).value;
    DirectionAfterDelivery(lib, bob.secrets, x, o, Lookup(dev.inn, x), c, step.state, Decrypted(x, step.data));
  }

  // ---------------------------------------------------------------------------
  // Runs
  // ---------------------------------------------------------------------------

  lemma FetchKeepsDirectory(lib: Identity.Library, acc: Accounts, store: PreKeys, d: nat)
    requires DirectoryOk(lib, acc, store)
    ensures DirectoryOk(lib, acc, FetchAndConsume(store, d).0)
  {
  }

  lemma SendKeepsDirectory(lib: Identity.Library, acc: Accounts, store: PreKeys, dev: Device, x: User, y: User,
      text: Bytes, draws: Draws)
    requires DirectoryOk(lib, acc, store)
    ensures var (store1, dev1, r) := ClientEncrypt(lib, store, dev, x, y, text, draws);
            DirectoryOk(lib, acc, store1) && dev1.secrets == dev.secrets && (r.Err? ==> dev1 == dev)
  {
    FetchKeepsDirectory(lib, acc, store, y);
  }

  lemma SendKeepsInv(lib: Identity.Library, acc: Accounts, n: Network, x: User, y: User, text: Bytes, draws: Draws)
    requires LawfulLibrary(lib) && AccountsOk(lib, acc) && NetworkInv(lib, acc, n) && x in acc && y in acc
    ensures NetworkInv(lib, acc, AfterSend(lib, n, x, y, text, draws))
  {
    var (store, dev, r) := ClientEncrypt(lib, n.directory, n.devices[x], x, y, text, draws);
    SendKeepsDirectory(lib, acc, n.directory, n.devices[x], x, y, text, draws);
    if r.Ok? {
      assert Passes(Judge(lib, acc), n, x, y);
      SendKeepsDirection(lib, n.directory, n.devices[x], acc[x], acc[y], x, y, Lookup(n.devices[y].inn, x),
          ChannelOf(n, x, y), text, draws);
    }
    SentShaped(Judge(lib, acc), Blobs(acc), n, x, y, text, store, dev, r);
  }

  lemma DeliverKeepsInv(lib: Identity.Library, acc: Accounts, n: Network, x: User, y: User)
    requires LawfulLibrary(lib) && AccountsOk(lib, acc) && NetworkInv(lib, acc, n) && x in acc && y in acc
    ensures NetworkInv(lib, acc, AfterDelivery(lib, n, x, y))
  {
    var c := ChannelOf(n, x, y);
    if c.inFlight != [] {
      var (dev, r) := ClientDecrypt(lib, n.devices[y], c.inFlight[0]);
      assert Passes(Judge(lib, acc), n, x, y);
      DeliverKeepsDirection(lib, n.devices[y], acc[y], x, Lookup(n.devices[x].out, y), c);
      DeliveredShaped(Judge(lib, acc), Blobs(acc), n, x, y, dev, r.value);
    }
  }

  lemma GarbageLeavesNoTrace(lib: Identity.Library, acc: Accounts, n: Network, y: User, payload: Payload)
    requires n.devices.Keys == acc.Keys && y in acc && ClientDecrypt(lib, n.devices[y], payload).1.Err?
    ensures Step(lib, acc, n, Garbage(y, payload)) == n
  {
  }

  lemma AnnounceKeepsDirectory(lib: Identity.Library, acc: Accounts, store: PreKeys, y: User)
    requires DirectoryOk(lib, acc, store) && y in acc
    ensures DirectoryOk(lib, acc, store[y := Identity.BundleOf(acc[y].secrets, lib, y)])
  {
  }

  lemma NewDirectoryKeepsInv(lib: Identity.Library, acc: Accounts, n: Network, store: PreKeys)
    requires NetworkInv(lib, acc, n) && DirectoryOk(lib, acc, store)
    ensures NetworkInv(lib, acc, n.(directory := store))
  {
    NewDirectoryShaped(Judge(lib, acc), Blobs(acc), n, store);
  }

  lemma AnnounceKeepsInv(lib: Identity.Library, acc: Accounts, n: Network, y: User)
    requires NetworkInv(lib, acc, n) && y in acc
    ensures NetworkInv(lib, acc, n.(directory := n.directory[y := Identity.BundleOf(acc[y].secrets, lib, y)]))
  {
    AnnounceKeepsDirectory(lib, acc, n.directory, y);
    NewDirectoryKeepsInv(lib, acc, n, n.directory[y := Identity.BundleOf(acc[y].secrets, lib, y)]);
  }

  lemma FetchKeepsInv(lib: Identity.Library, acc: Accounts, n: Network, y: User)
    requires NetworkInv(lib, acc, n)
    ensures NetworkInv(lib, acc, n.(directory := FetchAndConsume(n.directory, y).0))
  {
    FetchKeepsDirectory(lib, acc, n.directory, y);
    NewDirectoryKeepsInv(lib, acc, n, FetchAndConsume(n.directory, y).0);
  }

  lemma StepKeepsInv(lib: Identity.Library, acc: Accounts, n: Network, e: Event)
    requires LawfulLibrary(lib) && AccountsOk(lib, acc) && NetworkInv(lib, acc, n) && Possible(lib, acc, n, e)
    ensures NetworkInv(lib, acc, Step(lib, acc, n, e))
  {
    match e
    case Send(x, y, text, draws) => SendKeepsInv(lib, acc, n, x, y, text, draws);
    case Deliver(x, y) => DeliverKeepsInv(lib, acc, n, x, y);
    case Announce(y) => AnnounceKeepsInv(lib, acc, n, y);
    case StrangerFetches(y) => FetchKeepsInv(lib, acc, n, y);
    case Garbage(y, payload) => GarbageLeavesNoTrace(lib, acc, n, y, payload);
  }

  /** Everyone provisioned, nobody talking, every bundle published. */
  function Opening(lib: Identity.Library, acc: Accounts): Network {
    Network(map u | u in acc :: Device(Some(Identity.Print(acc[u].secrets)), map[], map[]),
            map u | u in acc :: Identity.BundleOf(acc[u].secrets, lib, u),
            map[], false)
  }

  lemma OpeningShaped(ok: Verdict, blobs: map<User, Bytes>, n: Network)
    requires n.devices.Keys == blobs.Keys
    requires forall u | u in blobs :: n.devices[u] == Device(Some(blobs[u]), map[], map[])
    requires n.channels == map[] && !n.failed
    requires forall x: User, y: User | y in blobs :: ok(x, y, None, None, Channel([], [], []))
    ensures Shaped(ok, blobs, n)
  {
  }

  lemma OpeningInv(lib: Identity.Library, acc: Accounts)
    ensures NetworkInv(lib, acc, Opening(lib, acc))
  {
    forall x: User, y: User | y in acc
      ensures Judge(lib, acc)(x, y, None, None, Channel([], [], []))
    {
      SilentDirection(lib, acc[y].secrets, x);
    }
    OpeningShaped(Judge(lib, acc), Blobs(acc), Opening(lib, acc));
    OpeningDirectory(lib, acc);
  }

  lemma SilentDirection(lib: Identity.Library, p: Identity.PreKeySecrets, x: User)
    ensures DirectionOk(lib, p, x, None, None, Channel([], [], []))
  {
  }

  lemma OpeningDirectory(lib: Identity.Library, acc: Accounts)
    ensures DirectoryOk(lib, acc, Opening(lib, acc).directory)
  {
  }

  lemma RunKeepsNetworkInv(lib: Identity.Library, acc: Accounts, es: seq<Event>)
    requires LawfulLibrary(lib) && AccountsOk(lib, acc)
    requires Allowed((n, e) => Step(lib, acc, n, e), (n, e) => Possible(lib, acc, n, e), Opening(lib, acc), es)
    ensures NetworkInv(lib, acc, Runs.Run((n, e) => Step(lib, acc, n, e), Opening(lib, acc), es))
  {
    var step := (n, e) => Step(lib, acc, n, e);
    var possible := (n, e) => Possible(lib, acc, n, e);
    var inv := n => NetworkInv(lib, acc, n);
    forall n, e | inv(n) && possible(n, e)
      ensures inv(step(n, e))
    {
      StepKeepsInv(lib, acc, n, e);
    }
    OpeningInv(lib, acc);
    InvariantOfRun(step, possible, inv, Opening(lib, acc), es);
  }

  /** Accepted from x are the texts x sent, in order, up to those in flight; a handshake rides on the first. */
  predicate InOrder(x: User, c: Channel) {
    && |c.sent| == |c.got| + |c.inFlight|
    && (forall i | 0 <= i < |c.got| :: c.got[i] == Decrypted(x, c.sent[i]))
    && (forall i | 0 <= i < |c.inFlight| :: c.inFlight[i].init.Some? <==> |c.got| + i == 0)
  }

  /** Nothing genuine was rejected, and every direction is in order. */
  ghost predicate Delivers(acc: Accounts, n: Network) {
    !n.failed && forall x, y | x in acc && y in acc :: InOrder(x, ChannelOf(n, x, y))
  }

  /**
  End to end: however users' sends, deliveries, republications, strangers' fetches and rejected
  garbage interleave, no genuine payload is rejected, and towards each user the decrypted (sender,
  text) pairs are exactly the texts that sender sent, in order, up to those still in flight; in
  flight, only the first payload of a direction carries a handshake message.
  */
  lemma EndToEnd(lib: Identity.Library, acc: Accounts, es: seq<Event>)
    requires LawfulLibrary(lib) && AccountsOk(lib, acc)
    requires Allowed((n, e) => Step(lib, acc, n, e), (n, e) => Possible(lib, acc, n, e), Opening(lib, acc), es)
    ensures Delivers(acc, Runs.Run((n, e) => Step(lib, acc, n, e), Opening(lib, acc), es))
  {
    RunKeepsNetworkInv(lib, acc, es);
    InvDelivers(lib, acc, Runs.Run((n, e) => Step(lib, acc, n, e), Opening(lib, acc), es));
  }

  lemma InvDelivers(lib: Identity.Library, acc: Accounts, n: Network)
    requires NetworkInv(lib, acc, n)
    ensures Delivers(acc, n)
  {
    forall x, y | x in acc && y in acc
      ensures InOrder(x, ChannelOf(n, x, y))
    {
      assert Passes(Judge(lib, acc), n, x, y);
      DirectionDelivers(lib, acc[y].secrets, x, Lookup(n.devices[x].out, y), Lookup(n.devices[y].inn, x),
          ChannelOf(n, x, y));
    }
  }

  lemma DirectionDelivers(lib: Identity.Library, p: Identity.PreKeySecrets, x: User, o: Option<OutSession>,
      i: Option<InSession>, c: Channel)
    requires DirectionOk(lib, p, x, o, i, c)
    ensures InOrder(x, c)
  {
    if o.Some? {
      assert Conserved(LinkOf(c));
      forall k | 0 <= k < |c.got|
        ensures c.got[k] == Decrypted(x, c.sent[k])
      {
        assert Texts(c.got)[k] == c.sent[k];
      }
    }
  }

  // ---------------------------------------------------------------------------
  // Payloads of somebody else that name a user
  // ---------------------------------------------------------------------------

  /** Someone without a session towards y runs the client under x's name. */
  function UnderName(lib: Identity.Library, n: Network, someone: Device, x: User, y: User, text: Bytes, draws: Draws)
    : Result<Payload, ClientError>
  {
    ClientEncrypt(lib, n.directory, someone, x, y, text, draws).2
  }

  /**
  Nothing ties the name in a payload to the handshake it carries: the first session a reader opens for a
  name stays.
  */
  lemma NewcomerAccepted(lib: Identity.Library, store: PreKeys, reader: Device, bob: Account, someone: Device,
      z: Account, x: User, y: User, text: Bytes, draws: Draws)
    requires LawfulLibrary(lib) && Identity.Consistent(lib, bob.secrets) && Identity.Consistent(lib, z.secrets)
    requires (bob.secrets.kem.decap, bob.secrets.kem.encap) == lib.kemGenerate(bob.kemSeed)
    requires reader.secrets == Some(Identity.Print(bob.secrets)) && x !in reader.inn
    requires someone.secrets == Some(Identity.Print(z.secrets)) && y !in someone.out
    requires y in store ==> Publishes(lib, store[y], bob.secrets)
    requires ClientEncrypt(lib, store, someone, x, y, text, draws).2.Ok?
    ensures var (reader1, r) := ClientDecrypt(lib, reader,
            ClientEncrypt(lib, store, someone, x, y, text, draws).2.value);
            r == Ok(Decrypted(x, text)) && x in reader1.inn
  {
    var silent := Channel([], [], []);
    SilentDirection(lib, bob.secrets, x);
    SendKeepsDirection(lib, store, someone, z, bob, x, y, None, silent, text, draws);
    var (_, someone1, r) := ClientEncrypt(lib, store, someone, x, y, text, draws);
    DeliverKeepsDirection(lib, reader, bob, x, Some(someone1.out[y]), WithSent(silent, r.value, text));
  }

  /** A reader without a session has had nothing delivered, so a session it holds all the same fits no writer. */
  lemma NoForeignSession(lib: Identity.Library, p: Identity.PreKeySecrets, x: User,
                         o: Option<OutSession>, o1: Option<OutSession>, foreign: InSession, c: Channel)
    requires DirectionOk(lib, p, x, o, None, c)
    ensures !DirectionOk(lib, p, x, o1, Some(foreign), c)
  {
  }

  lemma ForeignSessionUnshaped(ok: Verdict, blobs: map<User, Bytes>, n: Network, x: User, y: User, reader: Device)
    requires Shaped(ok, blobs, n) && x in blobs && y in blobs && x in reader.inn
    requires forall o :: !ok(x, y, o, Some(reader.inn[x]), ChannelOf(n, x, y))
    ensures !Shaped(ok, blobs, n.(devices := n.devices[y := reader]))
  {
    var n1 := n.(devices := n.devices[y := reader]);
    assert !Passes(ok, n1, x, y);
  }

  /** A session for x that x did not open breaks the direction: x's own handshake will be ignored. */
  lemma ForeignSessionBreaks(lib: Identity.Library, acc: Accounts, n: Network, x: User, y: User, reader: Device)
    requires NetworkInv(lib, acc, n) && x in acc && y in acc && x !in n.devices[y].inn && x in reader.inn
    ensures !NetworkInv(lib, acc, n.(devices := n.devices[y := reader]))
  {
    var ok, o := Judge(lib, acc), Lookup(n.devices[x].out, y);
    assert Passes(ok, n, x, y);
    forall o1
      ensures !ok(x, y, o1, Some(reader.inn[x]), ChannelOf(n, x, y))
    {
      NoForeignSession(lib, acc[y].secrets, x, o, o1, reader.inn[x], ChannelOf(n, x, y));
    }
    ForeignSessionUnshaped(ok, Blobs(acc), n, x, y, reader);
  }

  lemma HeldSessionRejects(lib: Identity.Library, reader: Device, p: Payload)
    requires p.from in reader.inn && StepDecrypt(lib.ratchet, reader.inn[p.from].ratchet, p.frame).Err?
    ensures ClientDecrypt(lib, reader, p).0 == reader && ClientDecrypt(lib, reader, p).1.Err?
  {
  }

  lemma UnderNameCarries(lib: Identity.Library, n: Network, someone: Device, x: User, y: User, text: Bytes,
      draws: Draws)
    requires UnderName(lib, n, someone, x, y, text, draws).Ok?
    ensures UnderName(lib, n, someone, x, y, text, draws).value.from == x
  {
  }

  /** What the invariant says about one reader. */
  lemma ReaderReady(lib: Identity.Library, acc: Accounts, n: Network, y: User)
    requires AccountsOk(lib, acc) && NetworkInv(lib, acc, n) && y in acc
    ensures y in n.devices && n.devices[y].secrets == Some(Identity.Print(acc[y].secrets))
    ensures Identity.Consistent(lib, acc[y].secrets)
    ensures (acc[y].secrets.kem.decap, acc[y].secrets.kem.encap) == lib.kemGenerate(acc[y].kemSeed)
    ensures y in n.directory ==> Publishes(lib, n.directory[y], acc[y].secrets)
  {
  }

  /** Accepted as from x exactly without a session for x; the invariant kept exactly with one. */
  ghost predicate HarmlessIffHeld(lib: Identity.Library, acc: Accounts, n: Network, x: User, y: User, text: Bytes,
                                  reader: Device, r: Result<Decrypted, ClientError>)
    requires y in n.devices
  {
    && (r.Ok? <==> x !in n.devices[y].inn) && (r.Ok? ==> r.value == Decrypted(x, text))
    && (NetworkInv(lib, acc, n.(devices := n.devices[y := reader])) <==> x in n.devices[y].inn)
  }

  lemma NewcomerUnheld(lib: Identity.Library, acc: Accounts, n: Network, someone: Device, z: Account,
                       x: User, y: User, text: Bytes, draws: Draws)
    requires LawfulLibrary(lib) && AccountsOk(lib, acc) && NetworkInv(lib, acc, n) && x in acc && y in acc
    requires someone.secrets == Some(Identity.Print(z.secrets)) && Identity.Consistent(lib, z.secrets)
             && y !in someone.out
    requires UnderName(lib, n, someone, x, y, text, draws).Ok? && x !in n.devices[y].inn
    ensures var (reader, r) := ClientDecrypt(lib, n.devices[y], UnderName(lib, n, someone, x, y, text, draws).value);
            HarmlessIffHeld(lib, acc, n, x, y, text, reader, r)
  {
    ReaderReady(lib, acc, n, y);
    NewcomerAccepted(lib, n.directory, n.devices[y], acc[y], someone, z, x, y, text, draws);
    var reader := ClientDecrypt(lib, n.devices[y], UnderName(lib, n, someone, x, y, text, draws).value).0;
    ForeignSessionBreaks(lib, acc, n, x, y, reader);
  }

  lemma NewcomerHeld(lib: Identity.Library, acc: Accounts, n: Network, x: User, y: User, text: Bytes, p: Payload)
    requires NetworkInv(lib, acc, n) && y in acc && x in n.devices[y].inn && p.from == x
    requires StepDecrypt(lib.ratchet, n.devices[y].inn[x].ratchet, p.frame).Err?
    ensures var (reader, r) := ClientDecrypt(lib, n.devices[y], p);
            HarmlessIffHeld(lib, acc, n, x, y, text, reader, r)
  {
    HeldSessionRejects(lib, n.devices[y], p);
    assert n.devices[y := n.devices[y]] == n.devices;
  }

  /**
  In every state that satisfies the invariant, as all reachable ones do, let anyone with secrets of their
  own open a new session with y under the name x, the frame not being one that y's session for x opens.
  It is accepted, as from x, exactly when y holds no session for x; and the network keeps its invariant
  exactly when y holds one.
  */
  lemma NewcomerHarmlessIff(lib: Identity.Library, acc: Accounts, n: Network, someone: Device, z: Account,
                            x: User, y: User, text: Bytes, draws: Draws)
    requires LawfulLibrary(lib) && AccountsOk(lib, acc) && NetworkInv(lib, acc, n) && x in acc && y in acc
    requires someone.secrets == Some(Identity.Print(z.secrets)) && Identity.Consistent(lib, z.secrets)
             && y !in someone.out
    requires UnderName(lib, n, someone, x, y, text, draws).Ok?
    requires x in n.devices[y].inn ==>
               StepDecrypt(lib.ratchet, n.devices[y].inn[x].ratchet,
                   UnderName(lib, n, someone, x, y, text, draws).value.frame).Err?
    ensures var (reader, r) := ClientDecrypt(lib, n.devices[y], UnderName(lib, n, someone, x, y, text, draws).value);
            HarmlessIffHeld(lib, acc, n, x, y, text, reader, r)
  {
    if x in n.devices[y].inn {
      UnderNameCarries(lib, n, someone, x, y, text, draws);
      NewcomerHeld(lib, acc, n, x, y, text, UnderName(lib, n, someone, x, y, text, draws).value);
    } else {
      NewcomerUnheld(lib, acc, n, someone, z, x, y, text, draws);
    }
  }

  // ---------------------------------------------------------------------------
  // A state in which the newcomer does harm
  // ---------------------------------------------------------------------------

  function PlainAccount(): Account {
    Account(Identity.Generate(PlainLibrary(), 0, ZeroKey, ZeroKey, ZeroKey, None, []).1, [])
  }

  const TwoUsers: Accounts := map[0 := PlainAccount(), 1 := PlainAccount()]

  const Newcomer: Device := Device(Some(Identity.Print(PlainAccount().secrets)), map[], map[])

  const PlainDraws: Draws := Draws(ZeroKey, [], ZeroKey, ZeroKey)

  lemma PlainAccountOk()
    ensures LawfulLibrary(PlainLibrary()) && Identity.Consistent(PlainLibrary(), PlainAccount().secrets)
    ensures (PlainAccount().secrets.kem.decap, PlainAccount().secrets.kem.encap) == PlainLibrary().kemGenerate([])
  {
    PlainLibraryLawful();
  }

  lemma PlainSessionOpens(bundle: Identity.PreKeyBundle)
    requires bundle == Identity.BundleOf(PlainAccount().secrets, PlainLibrary(), bundle.deviceId)
    ensures SessionInitiator(PlainLibrary(), Identity.Print(PlainAccount().secrets), bundle, PlainDraws).Ok?
    ensures var sess := SessionInitiator(PlainLibrary(), Identity.Print(PlainAccount().secrets), bundle, PlainDraws);
            Parse(sess.value.ratchet).Ok? && Parse(sess.value.ratchet).value.send.Some?
  {
    var p := PlainAccount().secrets;
    PlainAccountOk();
    Identity.RoundTrip(PlainLibrary(), p, []);
    assert Identity.Print(p) + [] == Identity.Print(p);
    var session := InitiatorSession(PlainLibrary(), p.identity, bundle, ZeroKey, [], ZeroKey);
    assert session.Ok?;
    StoredPrint(session.value.0);
  }

  lemma PlainLetterIsWritten(text: Bytes)
    ensures UnderName(PlainLibrary(), Opening(PlainLibrary(), TwoUsers), Newcomer, 0, 1, text, PlainDraws).Ok?
  {
    PlainSessionOpens(Opening(PlainLibrary(), TwoUsers).directory[1]);
  }

  /** Read as from x, the payload breaks an invariant that held. */
  ghost predicate Harms(lib: Identity.Library, acc: Accounts, n: Network, x: User, y: User, text: Bytes, p: Payload) {
    && NetworkInv(lib, acc, n) && y in n.devices
    && var (reader, r) := ClientDecrypt(lib, n.devices[y], p);
       r == Ok(Decrypted(x, text)) && !NetworkInv(lib, acc, n.(devices := n.devices[y := reader]))
  }

  lemma NewcomerHarms(lib: Identity.Library, acc: Accounts, someone: Device, z: Account, x: User, y: User, text: Bytes,
      draws: Draws)
    requires LawfulLibrary(lib) && AccountsOk(lib, acc) && x in acc && y in acc
    requires someone.secrets == Some(Identity.Print(z.secrets)) && Identity.Consistent(lib, z.secrets)
             && y !in someone.out
    requires UnderName(lib, Opening(lib, acc), someone, x, y, text, draws).Ok?
    ensures Harms(lib, acc, Opening(lib, acc), x, y, text,
                UnderName(lib, Opening(lib, acc), someone, x, y, text, draws).value)
  {
    OpeningInv(lib, acc);
    NewcomerUnheld(lib, acc, Opening(lib, acc), someone, z, x, y, text, draws);
  }

  lemma TwoUsersOk()
    ensures AccountsOk(PlainLibrary(), TwoUsers)
  {
    PlainAccountOk();
  }

  /**
  The failing side of `NewcomerHarmlessIff` at the start of a network of two users: nobody holds a session,
  a third person writes to user 1 as user 0, is read as user 0, and the invariant is gone.
  */
  lemma NewcomerHarmsOpening(text: Bytes)
    ensures var lib := PlainLibrary();
            var n := Opening(lib, TwoUsers);
            var letter := UnderName(lib, n, Newcomer, 0, 1, text, PlainDraws);
            && LawfulLibrary(lib) && AccountsOk(lib, TwoUsers) && letter.Ok?
            && Harms(lib, TwoUsers, n, 0, 1, text, letter.value)
  {
    PlainAccountOk();
    TwoUsersOk();
    PlainLetterIsWritten(text);
    NewcomerHarms(PlainLibrary(), TwoUsers, Newcomer, PlainAccount(), 0, 1, text, PlainDraws);
  }
}
