/**
The delivery protocol as atomic steps: any number of concurrent ingests (HTTP requests, which may be
dropped between two steps, and live sockets), sessions connecting, draining, leaving and replacing one
another, and HTTP pulls. Account deletion is not part of these runs.
*/
module Delivery {
  import opened Prelude
  import opened Collections
  import opened Messaging
  import opened Hub
  import UserStore
  import GroupStore

  datatype Origin = Socket(session: nat) | Request(id: nat)

  /** A queued copy, tagged with the ingest it came from and the number of that ingest's envelope, from one. */
  datatype Copy = Copy(env: Envelope, origin: Origin, nth: nat)

  /** Where an ingest stands between two atomic steps. */
  datatype IngestPhase =
    | Idle
    | Resolving(env: Envelope, left: seq<nat>, found: seq<nat>)
    | Enqueuing(env: Envelope, done: seq<nat>, todo: seq<nat>)
    | Rechecking(env: Envelope, queued: seq<nat>, left: seq<nat>, found: seq<nat>)
    | Notifying(env: Envelope, toWake: seq<nat>)

  /** The envelopes accepted so far, the last of them in progress unless the phase is `Idle`. */
  datatype Ingest = Ingest(asked: seq<Envelope>, phase: IngestPhase)

  /** Where `ws_session` stands. */
  datatype SessionPhase = Flushing | Sending(batch: seq<Copy>) | Waiting | Ingesting | Leaving | Gone

  datatype Session = Session(
    device: nat, phase: SessionPhase,
    taken: seq<Copy>,               // every copy it drained
    sent: seq<Copy>,                // every copy its socket accepted
    lost: seq<Copy>)                // what it had in hand when its socket failed

  function NewSession(device: nat): Session {
    Session(device, Flushing, [], [], [])
  }

  datatype State = State(
    users: UserStore.UserState,
    groups: GroupStore.Groups,
    queue: map<nat, seq<Copy>>,
    hub: HubState,
    sessions: map<nat, Session>,
    ingests: map<Origin, Ingest>,
    history: map<nat, seq<Copy>>,   // every copy ever queued for a device
    drained: map<nat, seq<Copy>>,   // every copy ever handed out for a device, batch after batch
    pulled: map<nat, seq<Copy>>,    // the part of it that went out over HTTP
    orphaned: set<nat>)             // devices that a dropped request still owed a notification, until drained

  /** What may happen next in one session. */
  datatype Move =
    | Pull                      // drain the queue into a batch to send
    | SendOne | SendFails       // the socket takes the next frame of the batch, or is gone
    | SentAll
    | Recv                      // look at the wake-up channel
    | EndIngest                 // the session's own ingest has finished
    | Hangup                    // the client closed, or an answer to it could not be sent
    | Deregister                // leave the hub on the way out

  datatype Roster = CreateUser(user: UserStore.User) | RegisterDevice(device: UserStore.Device)
      | CreateGroup(group: nat, members: seq<nat>)

  datatype Step =
    | Change(roster: Roster)
    | BeginRequest(id: nat, env: Envelope)
    | BeginOnSocket(s: nat, env: Envelope)
    | Advance(o: Origin)                    // the next atomic step of an ingest
    | Cancel(id: nat)                       // the client of a request goes away and its handler is dropped
    | Connect(s: nat, device: nat)
    | Act(s: nat, move: Move)
    | HttpPull(device: nat)

  function At(m: map<nat, seq<Copy>>, d: nat): seq<Copy> {
    if d in m then m[d] else []
  }

  // ---------------------------------------------------------------------------
  // Ingest steps
  // ---------------------------------------------------------------------------

  function Begin(st: State, i: Ingest, env: Envelope): Ingest {
    if env.ciphertext == [] then i
    else match Audience(st.groups, env.to)
      case Ok(us) => Ingest(i.asked + [env], Resolving(env, us, []))
      case Err(_) => i
  }

  /** One more user's devices join those found: as listed for a direct message, without repeats for a group. */
  function Found(users: UserStore.UserState, env: Envelope, found: seq<nat>, user: nat): seq<nat> {
    var ids := Ids(UserStore.DevicesOf(users, user));
    if env.to.Direct? then ids else AppendNew(found, ids)
  }

  /** Resolve user by user, queue device by device, resolve again, notify device by device. */
  function NextPhase(users: UserStore.UserState, groups: GroupStore.Groups, p: IngestPhase): IngestPhase {
    match p
    case Idle => Idle
    case Resolving(env, left, found) =>
      if left == [] then Enqueuing(env, [], found)
      else Resolving(env, left[1..], Found(users, env, found, left[0]))
    case Enqueuing(env, done, todo) =>
      if todo != [] then Enqueuing(env, done + [todo[0]], todo[1..])
      else (match Audience(groups, env.to)
            case Ok(us) => Rechecking(env, done, us, [])
            case Err(_) => Idle)
    case Rechecking(env, queued, left, found) =>
      if left == [] then Notifying(env, found)
      else Rechecking(env, queued, left[1..], Found(users, env, found, left[0]))
    case Notifying(env, toWake) =>
      if toWake == [] then Idle else Notifying(env, toWake[1..])
  }

  function WithPhase(st: State, o: Origin, phase: IngestPhase): State
    requires o in st.ingests
  {
    st.(ingests := st.ingests[o := st.ingests[o].(phase := phase)])
  }

  function Queued(st: State, d: nat, c: Copy): State {
    st.(queue := st.queue[d := At(st.queue, d) + [c]], history := st.history[d := At(st.history, d) + [c]])
  }

  /** What an ingest does on its way to its next phase: queue a copy, signal a session, or nothing. */
  function Perform(st: State, o: Origin): (st1: State)
    requires o in st.ingests
    ensures st1.ingests == st.ingests && st1.users == st.users && st1.groups == st.groups
    ensures st1.sessions == st.sessions && st1.hub.sessions == st.hub.sessions && st1.drained == st.drained
  {
    var i := st.ingests[o];
    match i.phase
    case Enqueuing(env, _, todo) => if todo == [] then st else Queued(st, todo[0], Copy(env, o, |i.asked|))
    case Notifying(_, toWake) => if toWake == [] then st else st.(hub := Hub.Notify(st.hub, toWake[0]))
    case _ => st
  }

  function AdvanceTo(st: State, o: Origin, next: IngestPhase): State
    requires o in st.ingests
  {
    WithPhase(Perform(st, o), o, next)
  }

  function AdvanceIngest(st: State, o: Origin): State
    requires o in st.ingests
  {
    AdvanceTo(st, o, NextPhase(st.users, st.groups, st.ingests[o].phase))
  }

  // ---------------------------------------------------------------------------
  // Session steps
  // ---------------------------------------------------------------------------

  /** A session after its move, the hub after it, and whether the move drains the device's queue. */
  datatype Moved = Moved(ses: Session, hub: HubState, drains: bool)

  /** A move that is not possible in the session's phase changes nothing. */
  function MoveOf(hub: HubState, mail: seq<Copy>, ingest: IngestPhase, s: nat, ses: Session, move: Move): Moved {
    var stay := Moved(ses, hub, false);
    match (move, ses.phase)
    case (Pull, Flushing) => Moved(ses.(phase := Sending(mail), taken := ses.taken + mail), hub, true)
    case (SendOne, Sending(batch)) =>
      if batch == [] then stay
      else Moved(ses.(phase := Sending(batch[1..]), sent := ses.sent + [batch[0]]), hub, false)
    case (SendFails, Sending(batch)) =>
      if batch == [] then stay else Moved(ses.(phase := Leaving, lost := batch), hub, false)
    case (SentAll, Sending(batch)) =>
      if batch == [] then Moved(ses.(phase := Waiting), hub, false) else stay
    case (Recv, Waiting) =>
      (match Hub.Receive(hub, ses.device, s)
       case (hub1, Wake) => Moved(ses.(phase := Flushing), hub1, false)
       case (_, Closed) => Moved(ses.(phase := Gone), hub, false)
       case (_, Blocked) => stay)
    case (EndIngest, Ingesting) =>
      if ingest == Idle then Moved(ses.(phase := Waiting), hub, false) else stay
    case (Hangup, Waiting) => Moved(ses.(phase := Leaving), hub, false)
    case (Deregister, Leaving) => Moved(ses.(phase := Gone), Hub.Unregister(hub, ses.device), false)
    case _ => stay
  }

  function Drained(st: State, d: nat): State {
    st.(queue := st.queue[d := []], drained := st.drained[d := At(st.drained, d) + At(st.queue, d)],
        orphaned := st.orphaned - {d})
  }

  /** An HTTP pull: the whole queue goes out in one response. */
  function PulledOver(st: State, d: nat): State {
    Drained(st, d).(pulled := st.pulled[d := At(st.pulled, d) + At(st.queue, d)])
  }

  function PhaseOf(st: State, o: Origin): IngestPhase {
    if o in st.ingests then st.ingests[o].phase else Idle
  }

  function ActOn(st: State, s: nat, move: Move): State
    requires s in st.sessions
  {
    var ses := st.sessions[s];
    var m := MoveOf(st.hub, At(st.queue, ses.device), PhaseOf(st, Socket(s)), s, ses, move);
    (if m.drains then Drained(st, ses.device) else st).(sessions := st.sessions[s := m.ses], hub := m.hub)
  }

  function ChangeRoster(st: State, r: Roster): State {
    match r
    case CreateUser(u) => st.(users := UserStore.Create(st.users, u))
    case RegisterDevice(d) => st.(users := UserStore.Register(st.users, d).0)
    case CreateGroup(g, members) =>
      if g in st.groups then st else st.(groups := st.groups[g := GroupStore.GroupRecord(members, None)])
  }

  /** The devices an ingest has queued a copy for and has yet to notify. */
  function Debts(p: IngestPhase): set<nat> {
    match p
    case Enqueuing(_, done, _) => ToSet(done)
    case Rechecking(_, queued, _, _) => ToSet(queued)
    case Notifying(_, toWake) => ToSet(toWake)
    case _ => {}
  }

  /** The copies queued so far stay; the rest of the fan-out and the notifications never happen. */
  function Dropped(st: State, o: Origin): State
    requires o in st.ingests
  {
    WithPhase(st, o, Idle).(orphaned := st.orphaned + Debts(st.ingests[o].phase))
  }

  /** A step that is not enabled changes nothing. */
  function Do(st: State, step: Step): State {
    match step
    case Change(r) => ChangeRoster(st, r)
    case BeginRequest(id, env) =>
      if Request(id) in st.ingests then st
      else st.(ingests := st.ingests[Request(id) := Begin(st, Ingest([], Idle), env)])
    case BeginOnSocket(s, env) =>
      if s !in st.sessions || st.sessions[s].phase != Waiting || Socket(s) !in st.ingests then st
      else st.(sessions := st.sessions[s := st.sessions[s].(phase := Ingesting)],
               ingests := st.ingests[Socket(s) := Begin(st, st.ingests[Socket(s)], env)])
    case Advance(o) => if o in st.ingests then AdvanceIngest(st, o) else st
    case Cancel(id) => if Request(id) in st.ingests then Dropped(st, Request(id)) else st
    case Connect(s, device) =>
      if s in st.sessions || Socket(s) in st.ingests then st
      else st.(sessions := st.sessions[s := NewSession(device)],
               ingests := st.ingests[Socket(s) := Ingest([], Idle)],
               hub := Hub.Register(st.hub, device, s))
    case Act(s, move) => if s in st.sessions then ActOn(st, s, move) else st
    case HttpPull(d) => PulledOver(st, d)
  }

  /** An empty server. */
  const Fresh: State := State(UserStore.UserState(map[], map[]), map[], map[], HubState(map[], map[]), map[],
                              map[], map[], map[], map[], {})

  // ---------------------------------------------------------------------------
  // Invariants
  // ---------------------------------------------------------------------------

  /** The ingest has queued a copy for `d` and has yet to notify `d`. */
  predicate Owes(p: IngestPhase, d: nat) {
    d in Debts(p)
  }

  ghost predicate Owed(ingests: map<Origin, Ingest>, d: nat) {
    exists o | o in ingests :: Owes(ingests[o].phase, d)
  }

  predicate AllAddressed(users: UserStore.UserState, audience: seq<nat>, ds: seq<nat>) {
    forall d | d in ds :: Addressed(users, audience, d)
  }

  /** Every device an ingest works on belongs to its audience, and is worked on once. */
  predicate IngestOk(users: UserStore.UserState, groups: GroupStore.Groups, p: IngestPhase) {
    match p
    case Idle => true
    case Resolving(env, left, found) =>
      && Audience(groups, env.to).Ok? && NoDuplicates(found)
      && (forall u | u in left :: u in Audience(groups, env.to).value)
      && AllAddressed(users, Audience(groups, env.to).value, found)
    case Enqueuing(env, done, todo) =>
      && Audience(groups, env.to).Ok? && NoDuplicates(done + todo)
      && AllAddressed(users, Audience(groups, env.to).value, done + todo)
    case Rechecking(env, queued, left, found) =>
      && Audience(groups, env.to).Ok? && NoDuplicates(found)
      && (env.to.Direct? ==> |left| <= 1 && (found == [] || left == []))
      && forall d | d in queued :: d in found || Addressed(users, left, d)
    case Notifying(_, _) => true
  }

  predicate IngestsOk(st: State) {
    UserStore.StateOk(st.users) && forall o | o in st.ingests :: IngestOk(st.users, st.groups, st.ingests[o].phase)
  }

  /** Registered sessions exist, under their own device. */
  predicate HubOk(st: State) {
    forall d | d in st.hub.sessions :: st.hub.sessions[d] in st.sessions && st.sessions[st.hub.sessions[d]].device == d
  }

  /** Between its pull and its next wake-up. */
  predicate Settled(p: SessionPhase) {
    p.Sending? || p.Waiting? || p.Ingesting?
  }

  /** A registered, settled session with mail has a signal pending, or an ingest that owes or was to give one. */
  ghost predicate WakeOk(st: State, d: nat) {
    && d in st.hub.sessions && st.hub.sessions[d] in st.sessions
    && Settled(st.sessions[st.hub.sessions[d]].phase) && At(st.queue, d) != [] ==>
      PendingOf(st.hub, st.hub.sessions[d]) > 0 || Owed(st.ingests, d) || d in st.orphaned
  }

  /** A session has at most one ingest of its own, and only while it says so. */
  predicate SerialOk(st: State) {
    forall s | s in st.sessions ::
      Socket(s) in st.ingests && (st.sessions[s].phase != Ingesting ==> st.ingests[Socket(s)].phase == Idle)
  }

  ghost predicate WakeInv(st: State) {
    IngestsOk(st) && HubOk(st) && SerialOk(st) && forall d :: WakeOk(st, d)
  }

  /** Everything queued for `d` was either handed out or is still there, in order. */
  predicate ConservedFor(st: State, d: nat) {
    At(st.history, d) == At(st.drained, d) + At(st.queue, d)
  }

  ghost predicate Conserved(st: State) {
    forall d :: ConservedFor(st, d)
  }

  /** What a session has put on its socket, in order, against what it took from the queue. */
  predicate SocketOk(ses: Session) {
    match ses.phase
    case Sending(batch) => ses.sent + batch == ses.taken && ses.lost == []
    case Leaving => ses.sent + ses.lost == ses.taken
    case Gone => ses.sent + ses.lost == ses.taken
    case _ => ses.sent == ses.taken && ses.lost == []
  }

  predicate SocketsOk(st: State) {
    forall s | s in st.sessions :: SocketOk(st.sessions[s])
  }

  /** Copies of one origin appear in strictly increasing envelope number. */
  predicate Ordered(h: seq<Copy>) {
    forall i, j | 0 <= i < j < |h| && h[i].origin == h[j].origin :: h[i].nth < h[j].nth
  }

  /** An ingest in progress works on the last envelope it accepted. */
  predicate OnLast(i: Ingest) {
    i.phase == Idle || (i.asked != [] && i.phase.env == i.asked[|i.asked| - 1])
  }

  /** The devices an ingest has queued its current envelope for are exactly those it says it has done. */
  predicate Served(h: seq<Copy>, d: nat, o: Origin, i: Ingest) {
    match i.phase
    case Resolving(env, _, _) => Copy(env, o, |i.asked|) !in h
    case Enqueuing(env, done, _) => d in done <==> Copy(env, o, |i.asked|) in h
    case Rechecking(env, queued, _, _) => d in queued <==> Copy(env, o, |i.asked|) in h
    case _ => true
  }

  /** The copies of one ingest are of the envelopes it accepted. */
  predicate InStep(h: seq<Copy>, d: nat, o: Origin, i: Ingest) {
    && OnLast(i) && Served(h, d, o, i)
    && forall k | 0 <= k < |h| && h[k].origin == o :: 1 <= h[k].nth <= |i.asked| && h[k].env == i.asked[h[k].nth - 1]
  }

  predicate OrderFor(st: State, d: nat) {
    && Ordered(At(st.history, d))
    && (forall k | 0 <= k < |At(st.history, d)| :: At(st.history, d)[k].origin in st.ingests)
    && (forall o | o in st.ingests :: InStep(At(st.history, d), d, o, st.ingests[o]))
  }

  ghost predicate OrderInv(st: State) {
    IngestsOk(st) && SerialOk(st) && forall d :: OrderFor(st, d)
  }
}
