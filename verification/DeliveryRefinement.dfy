/**
The steps of the delivery protocol against the sequential code: an ingest nobody interrupts does what
`ingest` and `notify_recipients` do, and a session that is woken does what `deliver_pending` does.
*/
module DeliveryRefinement {
  import opened Prelude
  import opened Messaging
  import opened Hub
  import opened Delivery
  import Runs
  import UserStore
  import GroupStore

  // ---------------------------------------------------------------------------
  // An ingest alone
  // ---------------------------------------------------------------------------

  /** `n` steps of one ingest in a row. */
  function Spin(st: State, o: Origin, n: nat): State {
    Runs.Run(Do, st, Advances(o, n))
  }

  function Advances(o: Origin, n: nat): seq<Step> {
    seq(n, _ => Advance(o))
  }

  lemma SpinStep(st: State, o: Origin, n: nat)
    ensures Spin(st, o, n + 1) == Spin(Do(st, Advance(o)), o, n)
    ensures Spin(st, o, 0) == st
  {
    assert Advances(o, n + 1)[0] == Advance(o) && Advances(o, n + 1)[1..] == Advances(o, n);
  }

  lemma SpinAdds(st: State, o: Origin, m: nat, n: nat)
    ensures Spin(st, o, m + n) == Spin(Spin(st, o, m), o, n)
  {
    assert Advances(o, m) + Advances(o, n) == Advances(o, m + n);
    Runs.RunInParts(Do, st, Advances(o, m), Advances(o, n));
  }

  lemma SpinInThree(st: State, o: Origin, k: nat, m: nat, n: nat)
    ensures Spin(st, o, k + (m + n)) == Spin(Spin(Spin(st, o, k), o, m), o, n)
  {
    SpinAdds(st, o, k, m + n);
    SpinAdds(Spin(st, o, k), o, m, n);
  }

  /** The devices found when the users in `left` are asked one by one. */
  function ResolveFrom(users: UserStore.UserState, env: Envelope, left: seq<nat>, found: seq<nat>): seq<nat>
    decreases |left|
  {
    if left == [] then found else ResolveFrom(users, env, left[1..], Found(users, env, found, left[0]))
  }

  lemma {:induction false} GathersGroup(users: UserStore.UserState, env: Envelope, left: seq<nat>, found: seq<nat>)
    requires env.to.Group?
    ensures ResolveFrom(users, env, left, found) == Gather(users, left, found)
    decreases |left|
  {
    if left != [] { GathersGroup(users, env, left[1..], Found(users, env, found, left[0])); }
  }

  lemma ResolvesAlike(users: UserStore.UserState, groups: GroupStore.Groups, env: Envelope)
    requires Audience(groups, env.to).Ok?
    ensures Resolve(users, groups, env.to) == Ok(ResolveFrom(users, env, Audience(groups, env.to).value, []))
  {
    match env.to
    case Direct(u) => assert ResolveFrom(users, env, [u][1..], Ids(UserStore.DevicesOf(users, u)))
        == Ids(UserStore.DevicesOf(users, u));
    case Group(_) => GathersGroup(users, env, Audience(groups, env.to).value, []);
  }

  lemma {:induction false} SpinResolving(st: State, o: Origin, env: Envelope, left: seq<nat>, found: seq<nat>)
    requires o in st.ingests && st.ingests[o].phase == Resolving(env, left, found)
    ensures Spin(st, o, |left| + 1) == WithPhase(st, o, Enqueuing(env, [], ResolveFrom(st.users, env, left, found)))
    decreases |left|
  {
    var st1 := Do(st, Advance(o));
    SpinStep(st, o, |left|);
    if left == [] {
      SpinStep(st1, o, 0);
    } else {
      SpinResolving(st1, o, env, left[1..], Found(st.users, env, found, left[0]));
      PhaseTwice(st, o, st1.ingests[o].phase, Enqueuing(env, [], ResolveFrom(st.users, env, left, found)));
    }
  }

  lemma PhaseTwice(st: State, o: Origin, p: IngestPhase, q: IngestPhase)
    requires o in st.ingests
    ensures WithPhase(WithPhase(st, o, p), o, q) == WithPhase(st, o, q)
  {
    assert st.ingests[o := st.ingests[o].(phase := p)][o := st.ingests[o].(phase := q)]
           == st.ingests[o := st.ingests[o].(phase := q)];
  }

  lemma {:induction false} SpinRechecking(st: State, o: Origin, env: Envelope, queued: seq<nat>, left: seq<nat>,
      found: seq<nat>)
    requires o in st.ingests && st.ingests[o].phase == Rechecking(env, queued, left, found)
    ensures Spin(st, o, |left| + 1) == WithPhase(st, o, Notifying(env, ResolveFrom(st.users, env, left, found)))
    decreases |left|
  {
    var st1 := Do(st, Advance(o));
    SpinStep(st, o, |left|);
    if left == [] {
      SpinStep(st1, o, 0);
    } else {
      SpinRechecking(st1, o, env, queued, left[1..], Found(st.users, env, found, left[0]));
      PhaseTwice(st, o, st1.ingests[o].phase, Notifying(env, ResolveFrom(st.users, env, left, found)));
    }
  }

  /** The queues without the tags. */
  function Plain(queue: map<nat, seq<Copy>>): Queues {
    map d | d in queue :: Envelopes(queue[d])
  }

  function Envelopes(cs: seq<Copy>): seq<Envelope> {
    seq(|cs|, i requires 0 <= i < |cs| => cs[i].env)
  }

  lemma PlainAppends(queue: map<nat, seq<Copy>>, d: nat, c: Copy)
    ensures Plain(queue[d := At(queue, d) + [c]]) == Plain(queue)[d := QueueOf(Plain(queue), d) + [c.env]]
  {
    assert Envelopes(At(queue, d) + [c]) == Envelopes(At(queue, d)) + [c.env];
  }

  /** What changes while an ingest queues its copies. */
  predicate OnlyQueues(st: State, st1: State, o: Origin, phase: IngestPhase, queues: Queues) {
    && o in st.ingests && o in st1.ingests && st1.ingests[o].phase == phase && Plain(st1.queue) == queues
    && st1.ingests[o].asked == st.ingests[o].asked
    && st1.users == st.users && st1.groups == st.groups && st1.hub == st.hub && st1.sessions == st.sessions
       && st1.drained == st.drained
  }

  lemma QueuesOne(st: State, o: Origin, env: Envelope, done: seq<nat>, todo: seq<nat>)
    requires o in st.ingests && st.ingests[o].phase == Enqueuing(env, done, todo) && todo != []
    ensures OnlyQueues(st, Do(st, Advance(o)), o, Enqueuing(env, done + [todo[0]], todo[1..]),
                       Plain(st.queue)[todo[0] := QueueOf(Plain(st.queue), todo[0]) + [env]])
  {
    PlainAppends(st.queue, todo[0], Copy(env, o, |st.ingests[o].asked|));
  }

  lemma QueuesNone(st: State, o: Origin, env: Envelope, us: seq<nat>, done: seq<nat>)
    requires o in st.ingests && st.ingests[o].phase == Enqueuing(env, done, []) && Audience(st.groups, env.to) == Ok(us)
    ensures OnlyQueues(st, Do(st, Advance(o)), o, Rechecking(env, done, us, []), Plain(st.queue))
  {
  }

  lemma OneThenTheRest(st: State, st1: State, st2: State, o: Origin, env: Envelope, us: seq<nat>, done: seq<nat>,
      todo: seq<nat>)
    requires todo != []
    requires OnlyQueues(st, st1, o, Enqueuing(env, done + [todo[0]], todo[1..]),
                 Plain(st.queue)[todo[0] := QueueOf(Plain(st.queue), todo[0]) + [env]])
    requires OnlyQueues(st1, st2, o, Rechecking(env, done + [todo[0]] + todo[1..], us, []),
                 EnqueueAll(Plain(st1.queue), todo[1..], env))
    ensures OnlyQueues(st, st2, o, Rechecking(env, done + todo, us, []), EnqueueAll(Plain(st.queue), todo, env))
  {
    assert done + [todo[0]] + todo[1..] == done + todo;
  }

  lemma {:induction false} SpinEnqueuing(st: State, o: Origin, env: Envelope, us: seq<nat>, done: seq<nat>,
      todo: seq<nat>)
    requires o in st.ingests && st.ingests[o].phase == Enqueuing(env, done, todo)
             && Audience(st.groups, env.to) == Ok(us)
    ensures OnlyQueues(st, Spin(st, o, |todo| + 1), o, Rechecking(env, done + todo, us, []),
            EnqueueAll(Plain(st.queue), todo, env))
    decreases |todo|
  {
    var st1 := Do(st, Advance(o));
    SpinStep(st, o, |todo|);
    if todo == [] {
      assert done + todo == done;
      QueuesNone(st, o, env, us, done);
      SpinStep(st1, o, 0);
    } else {
      QueuesOne(st, o, env, done, todo);
      SpinEnqueuing(st1, o, env, us, done + [todo[0]], todo[1..]);
      OneThenTheRest(st, st1, Spin(st1, o, |todo|), o, env, us, done, todo);
    }
  }

  lemma {:induction false} SpinNotifying(st: State, o: Origin, env: Envelope, toWake: seq<nat>)
    requires o in st.ingests && st.ingests[o].phase == Notifying(env, toWake)
    ensures Spin(st, o, |toWake| + 1) == WithPhase(st, o, Idle).(hub := NotifyEach(st.hub, toWake))
    decreases |toWake|
  {
    var st1 := Do(st, Advance(o));
    SpinStep(st, o, |toWake|);
    if toWake == [] {
      SpinStep(st1, o, 0);
    } else {
      SpinNotifying(st1, o, env, toWake[1..]);
      PhaseTwice(st, o, st1.ingests[o].phase, Idle);
    }
  }

  /** From the first lookup to the last notification. */
  function WholeIngest(users: nat, devices: nat): nat {
    (users + 1) + ((devices + 1) + ((users + 1) + (devices + 1)))
  }

  /** What an uninterrupted ingest of `env` to `devices` does to the server. */
  predicate FannedOut(st: State, st1: State, o: Origin, env: Envelope, devices: seq<nat>) {
    && Plain(st1.queue) == EnqueueAll(Plain(st.queue), devices, env)
    && st1.hub == NotifyEach(st.hub, devices)
    && o in st.ingests && o in st1.ingests && st1.ingests[o] == Ingest(st.ingests[o].asked, Idle)
    && st1.sessions == st.sessions && st1.drained == st.drained
  }

  /**
  An ingest that runs without interruption leaves the queues as the sequential fan-out does and the
  hub as one notification for each of those devices does, and touches no session.
  */
  lemma IngestAlone(st: State, o: Origin, env: Envelope)
    requires o in st.ingests && Audience(st.groups, env.to).Ok?
    requires st.ingests[o].phase == Resolving(env, Audience(st.groups, env.to).value, [])
    ensures var devices := Resolve(st.users, st.groups, env.to).value;
            FannedOut(st, Spin(st, o, WholeIngest(|Audience(st.groups, env.to).value|, |devices|)), o, env, devices)
  {
    var us := Audience(st.groups, env.to).value;
    ResolvesAlike(st.users, st.groups, env);
    var devices := ResolveFrom(st.users, env, us, []);
    var a := WithPhase(st, o, Enqueuing(env, [], devices));
    SpinInThree(st, o, |us| + 1, |devices| + 1, (|us| + 1) + (|devices| + 1));
    SpinResolving(st, o, env, us, []);
    ResolvedAlone(a, Spin(a, o, |devices| + 1), Spin(st, o, WholeIngest(|us|, |devices|)), o, env, us, devices);
  }

  lemma CopiesQueued(a: State, o: Origin, env: Envelope, us: seq<nat>, devices: seq<nat>)
    requires o in a.ingests && a.ingests[o].phase == Enqueuing(env, [], devices)
    requires Audience(a.groups, env.to) == Ok(us)
    ensures OnlyQueues(a, Spin(a, o, |devices| + 1), o, Rechecking(env, devices, us, []),
                EnqueueAll(Plain(a.queue), devices, env))
  {
    SpinEnqueuing(a, o, env, us, [], devices);
    assert [] + devices == devices;
  }

  lemma ResolvedAlone(a: State, b: State, st1: State, o: Origin, env: Envelope, us: seq<nat>, devices: seq<nat>)
    requires o in a.ingests && a.ingests[o].phase == Enqueuing(env, [], devices)
    requires Audience(a.groups, env.to) == Ok(us) && devices == ResolveFrom(a.users, env, us, [])
    requires b == Spin(a, o, |devices| + 1) && st1 == Spin(b, o, (|us| + 1) + (|devices| + 1))
    ensures FannedOut(a, st1, o, env, devices)
  {
    CopiesQueued(a, o, env, us, devices);
    QueuedAlone(a, b, st1, o, env, us, devices);
  }

  lemma QueuedAlone(a: State, b: State, st1: State, o: Origin, env: Envelope, us: seq<nat>, devices: seq<nat>)
    requires OnlyQueues(a, b, o, Rechecking(env, devices, us, []), EnqueueAll(Plain(a.queue), devices, env))
    requires devices == ResolveFrom(a.users, env, us, []) && st1 == Spin(b, o, (|us| + 1) + (|devices| + 1))
    ensures FannedOut(a, st1, o, env, devices)
  {
    var e := WithPhase(b, o, Notifying(env, devices));
    SpinAdds(b, o, |us| + 1, |devices| + 1);
    SpinRechecking(b, o, env, devices, us, []);
    SpinNotifying(e, o, env, devices);
  }

  /** The sequential ingest on the same server. */
  function Sequential(st: State, env: Envelope): (Queues, Result<nat, IngestError>) {
    Ingested(st.users, st.groups, Plain(st.queue), env)
  }

  /** How many steps an accepted ingest of `env` takes after it has begun. */
  function StepsOf(st: State, env: Envelope): nat {
    match (Audience(st.groups, env.to), Resolve(st.users, st.groups, env.to))
    case (Ok(us), Ok(devices)) => WholeIngest(|us|, |devices|)
    case _ => 0
  }

  /**
  The server once an ingest has come to its end: queues as the sequential ingest leaves them, every device it
  queued for notified, the envelope among those accepted. A refused ingest has left no trace.
  */
  predicate Done(st: State, st1: State, o: Origin, env: Envelope, asked: seq<Envelope>) {
    && Plain(st1.queue) == Sequential(st, env).0
    && st1.hub == (if Sequential(st, env).1.Ok? then NotifyEach(st.hub, Resolve(st.users, st.groups, env.to).value)
                   else st.hub)
    && o in st1.ingests && st1.drained == st.drained
    && st1.ingests[o] == Ingest(asked + (if Sequential(st, env).1.Ok? then [env] else []), Idle)
  }

  lemma BegunIsDone(st: State, o: Origin, env: Envelope, before: Ingest)
    requires o in st.ingests && before.phase == Idle && st.ingests[o] == Begin(st, before, env)
    ensures Done(st, Spin(st, o, StepsOf(st, env)), o, env, before.asked)
    ensures Spin(st, o, StepsOf(st, env)).sessions == st.sessions
  {
    if env.ciphertext != [] && Audience(st.groups, env.to).Ok? {
      ResolvesAlike(st.users, st.groups, env);
      IngestAlone(st, o, env);
    } else if env.ciphertext == [] {
      SpinStays(st, o, StepsOf(st, env));
    } else {
      SpinStays(st, o, 0);
    }
  }

  lemma IdleStays(st: State, o: Origin)
    requires o in st.ingests && st.ingests[o].phase == Idle
    ensures Do(st, Advance(o)) == st
  {
    assert st.ingests[o := st.ingests[o].(phase := Idle)] == st.ingests;
  }

  lemma {:induction false} SpinStays(st: State, o: Origin, n: nat)
    requires o in st.ingests && st.ingests[o].phase == Idle
    ensures Spin(st, o, n) == st
  {
    if n == 0 {
      SpinStep(st, o, 0);
    } else {
      SpinStep(st, o, n - 1);
      IdleStays(st, o);
      SpinStays(st, o, n - 1);
    }
  }

  /**
  A new request, from the moment it comes in: if nobody interrupts it, it leaves the queues that the
  sequential ingest leaves, for every envelope, those that are refused included, and notifies the devices it
  queued for. No session is touched.
  */
  lemma RequestAlone(st: State, id: nat, env: Envelope)
    requires Request(id) !in st.ingests
    ensures var st1 := Spin(Do(st, BeginRequest(id, env)), Request(id), StepsOf(st, env));
            Done(st, st1, Request(id), env, []) && st1.sessions == st.sessions
  {
    BegunIsDone(Do(st, BeginRequest(id, env)), Request(id), env, Ingest([], Idle));
  }

  /** The same for an envelope that comes in on a waiting socket; afterwards the session waits again. */
  lemma SocketAlone(st: State, s: nat, env: Envelope)
    requires s in st.sessions && st.sessions[s].phase == Waiting
    requires Socket(s) in st.ingests && st.ingests[Socket(s)].phase == Idle
    ensures var begun := Do(st, BeginOnSocket(s, env));
            var st1 := Do(Spin(begun, Socket(s), StepsOf(st, env)), Act(s, EndIngest));
            Done(st, st1, Socket(s), env, st.ingests[Socket(s)].asked) && st1.sessions == st.sessions
  {
    var begun := Do(st, BeginOnSocket(s, env));
    BegunIsDone(begun, Socket(s), env, st.ingests[Socket(s)]);
    var spun := Spin(begun, Socket(s), StepsOf(st, env));
    EndsIngest(spun, s);
    assert begun.sessions[s := begun.sessions[s].(phase := Waiting)] == st.sessions;
  }

  lemma EndsIngest(st: State, s: nat)
    requires s in st.sessions && st.sessions[s].phase == Ingesting
    requires Socket(s) in st.ingests && st.ingests[Socket(s)].phase == Idle
    ensures Do(st, Act(s, EndIngest)) == st.(sessions := st.sessions[s := st.sessions[s].(phase := Waiting)])
  {
  }

  // ---------------------------------------------------------------------------
  // A session that is woken
  // ---------------------------------------------------------------------------

  function Sends(s: nat, n: nat): seq<Step> {
    seq(n, _ => Act(s, SendOne))
  }

  lemma {:induction false} SendsAll(st: State, s: nat, n: nat)
    requires s in st.sessions && st.sessions[s].phase.Sending? && |st.sessions[s].phase.batch| == n
    ensures var ses := st.sessions[s];
            Runs.Run(Do, st, Sends(s, n)) == st.(sessions :=
                st.sessions[s := ses.(phase := Sending([]), sent := ses.sent + ses.phase.batch)])
    decreases n
  {
    var ses := st.sessions[s];
    var batch := ses.phase.batch;
    if n == 0 {
      assert ses.sent + batch == ses.sent;
      assert st.sessions[s := ses] == st.sessions;
    } else {
      var st1 := Do(st, Act(s, SendOne));
      assert st1 == st.(sessions := st.sessions[s :=
             ses.(phase := Sending(batch[1..]), sent := ses.sent + [batch[0]])]);
      assert Sends(s, n)[0] == Act(s, SendOne) && Sends(s, n)[1..] == Sends(s, n - 1);
      SendsAll(st1, s, n - 1);
      assert ses.sent + [batch[0]] + batch[1..] == ses.sent + batch;
      assert st1.sessions[s := ses.(phase := Sending([]), sent := ses.sent + batch)]
          == st.sessions[s := ses.(phase := Sending([]), sent := ses.sent + batch)];
    }
  }

  lemma Wakes(st: State, s: nat)
    requires s in st.sessions && st.sessions[s].phase == Waiting && PendingOf(st.hub, s) > 0
    ensures var ses := st.sessions[s];
            var mail := At(st.queue, ses.device);
            var st2 := Do(Do(st, Act(s, Recv)), Act(s, Pull));
            && st2.sessions == st.sessions[s := ses.(phase := Sending(mail), taken := ses.taken + mail)]
            && st2.hub.sessions == st.hub.sessions && PendingOf(st2.hub, s) == PendingOf(st.hub, s) - 1
            && st2.queue == st.queue[ses.device := []]
  {
    var ses := st.sessions[s];
    var st1 := Do(st, Act(s, Recv));
    assert st1.sessions == st.sessions[s := ses.(phase := Flushing)] && st1.queue == st.queue;
  }

  /** A session about to flush puts the whole queue of its device on its socket, in order, and then waits. */
  lemma FlushDelivers(st: State, s: nat)
    requires s in st.sessions && st.sessions[s].phase == Flushing
    ensures var ses := st.sessions[s];
            var mail := At(st.queue, ses.device);
            var st1 := Do(Runs.Run(Do, Do(st, Act(s, Pull)), Sends(s, |mail|)), Act(s, SentAll));
            && st1.sessions
               == st.sessions[s := ses.(phase := Waiting, taken := ses.taken + mail, sent := ses.sent + mail)]
            && st1.queue == st.queue[ses.device := []] && st1.hub == st.hub && st1.ingests == st.ingests
  {
    var ses := st.sessions[s];
    var mail := At(st.queue, ses.device);
    var pulled := Do(st, Act(s, Pull));
    assert pulled.sessions == st.sessions[s := ses.(phase := Sending(mail), taken := ses.taken + mail)];
    SendsAll(pulled, s, |mail|);
    SentAllWaits(Runs.Run(Do, pulled, Sends(s, |mail|)), s);
  }

  /** A device that connects gets what is queued for it, owns its device's entry, and waits with an empty channel. */
  lemma ConnectDelivers(st: State, s: nat, d: nat)
    requires s !in st.sessions && Socket(s) !in st.ingests
    ensures var mail := At(st.queue, d);
            var there := Do(st, Connect(s, d));
            var st1 := Do(Runs.Run(Do, Do(there, Act(s, Pull)), Sends(s, |mail|)), Act(s, SentAll));
            && st1.sessions == st.sessions[s := Session(d, Waiting, mail, mail, [])]
            && st1.queue == st.queue[d := []]
            && st1.hub.sessions == st.hub.sessions[d := s] && PendingOf(st1.hub, s) == 0
  {
    var there := Do(st, Connect(s, d));
    FlushDelivers(there, s);
    assert [] + At(st.queue, d) == At(st.queue, d);
    var done := Session(d, Waiting, At(st.queue, d), At(st.queue, d), []);
    assert there.sessions[s := done] == st.sessions[s := done];
  }

  /** The ways out of the waiting loop: the client hangs up, or the channel is closed under the session. */
  lemma SessionEnds(st: State, s: nat)
    requires s in st.sessions && st.sessions[s].phase == Waiting
    ensures var st1 := Do(Do(st, Act(s, Hangup)), Act(s, Deregister));
            && st1.sessions == st.sessions[s := st.sessions[s].(phase := Gone)]
            && st1.hub.sessions == st.hub.sessions - {st.sessions[s].device} && st1.queue == st.queue
    ensures PendingOf(st.hub, s) == 0 && !Owns(st.hub, st.sessions[s].device, s) ==>
              Do(st, Act(s, Recv)) == st.(sessions := st.sessions[s := st.sessions[s].(phase := Gone)])
    ensures PendingOf(st.hub, s) == 0 && Owns(st.hub, st.sessions[s].device, s) ==> Do(st, Act(s, Recv)) == st
  {
    var ses := st.sessions[s];
    assert Do(st, Act(s, Hangup)).sessions == st.sessions[s := ses.(phase := Leaving)];
    assert st.sessions[s := ses] == st.sessions;
  }

  /** An HTTP pull hands over the whole queue and touches no session. */
  lemma PullAlone(st: State, d: nat)
    ensures var st1 := Do(st, HttpPull(d));
            && st1.queue == st.queue[d := []] && At(st1.pulled, d) == At(st.pulled, d) + At(st.queue, d)
            && st1.sessions == st.sessions && st1.hub == st.hub && st1.ingests == st.ingests
  {
  }

  /** A pending signal is enough: the woken session can put the whole queue on its socket, in order, and wait again. */
  lemma SignalDelivers(st: State, s: nat)
    requires s in st.sessions && st.sessions[s].phase == Waiting && PendingOf(st.hub, s) > 0
    ensures var ses := st.sessions[s];
            var mail := At(st.queue, ses.device);
            var woken := Do(Do(st, Act(s, Recv)), Act(s, Pull));
            var st1 := Do(Runs.Run(Do, woken, Sends(s, |mail|)), Act(s, SentAll));
            && s in st1.sessions && st1.sessions[s].phase == Waiting && st1.sessions[s].sent == ses.sent + mail
            && At(st1.queue, ses.device) == [] && PendingOf(st1.hub, s) == PendingOf(st.hub, s) - 1
            && st1.hub.sessions == st.hub.sessions
            && forall t | t in st.sessions && t != s :: t in st1.sessions && st1.sessions[t] == st.sessions[t]
  {
    var ses := st.sessions[s];
    var mail := At(st.queue, ses.device);
    Wakes(st, s);
    var woken := Do(Do(st, Act(s, Recv)), Act(s, Pull));
    SendsAll(woken, s, |mail|);
    SentAllWaits(Runs.Run(Do, woken, Sends(s, |mail|)), s);
  }

  lemma SentAllWaits(st: State, s: nat)
    requires s in st.sessions && st.sessions[s].phase == Sending([])
    ensures Do(st, Act(s, SentAll)) == st.(sessions := st.sessions[s := st.sessions[s].(phase := Waiting)])
  {
  }
}
