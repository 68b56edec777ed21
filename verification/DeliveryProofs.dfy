/** What every step of the delivery protocol keeps. */
module DeliveryProofs {
  import opened Prelude
  import opened Collections
  import opened Messaging
  import opened Hub
  import opened Delivery
  import UserStore
  import GroupStore

  // ---------------------------------------------------------------------------
  // Ingests against a growing roster
  // ---------------------------------------------------------------------------

  ghost predicate Grows(users: UserStore.UserState, more: UserStore.UserState, groups: GroupStore.Groups,
      moreGroups: GroupStore.Groups)
  {
    && (forall u, d :: UserStore.HasDevice(UserStore.DevicesOf(users, u), d) ==>
          UserStore.HasDevice(UserStore.DevicesOf(more, u), d))
    && (forall g | g in groups :: g in moreGroups && moreGroups[g] == groups[g])
  }

  lemma AddressedGrows(users: UserStore.UserState, more: UserStore.UserState, groups: GroupStore.Groups,
      moreGroups: GroupStore.Groups, audience: seq<nat>, d: nat)
    requires Grows(users, more, groups, moreGroups) && Addressed(users, audience, d)
    ensures Addressed(more, audience, d)
  {
    var u :| u in audience && UserStore.HasDevice(UserStore.DevicesOf(users, u), d);
    assert UserStore.HasDevice(UserStore.DevicesOf(more, u), d);
  }

  lemma IngestOkGrows(users: UserStore.UserState, more: UserStore.UserState, groups: GroupStore.Groups,
      moreGroups: GroupStore.Groups, p: IngestPhase)
    requires Grows(users, more, groups, moreGroups) && IngestOk(users, groups, p)
    ensures IngestOk(more, moreGroups, p)
  {
    forall audience, d | Addressed(users, audience, d)
      ensures Addressed(more, audience, d)
    {
      AddressedGrows(users, more, groups, moreGroups, audience, d);
    }
  }

  lemma RegisterGrows(users: UserStore.UserState, device: UserStore.Device, groups: GroupStore.Groups)
    ensures Grows(users, UserStore.Register(users, device).0, groups, groups)
  {
    var more := UserStore.Register(users, device).0;
    forall u, d | UserStore.HasDevice(UserStore.DevicesOf(users, u), d)
      ensures UserStore.HasDevice(UserStore.DevicesOf(more, u), d)
    {
      var ds, ds1 := UserStore.DevicesOf(users, u), UserStore.DevicesOf(more, u);
      var k :| 0 <= k < |ds| && ds[k].id == d;
      assert ds1[k].id == d;
    }
  }

  lemma IngestsOkGrows(st: State, users: UserStore.UserState, groups: GroupStore.Groups)
    requires IngestsOk(st) && UserStore.StateOk(users) && Grows(st.users, users, st.groups, groups)
    ensures IngestsOk(st.(users := users, groups := groups))
  {
    forall o | o in st.ingests
      ensures IngestOk(users, groups, st.ingests[o].phase)
    {
      IngestOkGrows(st.users, users, st.groups, groups, st.ingests[o].phase);
    }
  }

  /** Gathering one more user's devices. */
  lemma FoundExact(users: UserStore.UserState, env: Envelope, found: seq<nat>, user: nat)
    requires UserStore.StateOk(users) && NoDuplicates(found)
    ensures var more := Found(users, env, found, user);
            && NoDuplicates(more)
            && (forall d :: d in more <==>
                  (env.to.Group? && d in found) || UserStore.HasDevice(UserStore.DevicesOf(users, user), d))
  {
    var ds := UserStore.DevicesOf(users, user);
    assert forall k | 0 <= k < |ds| :: Ids(ds)[k] == ds[k].id;
    if env.to.Group? {
      AppendNewExact(found, Ids(ds));
    }
  }

  /** Dropping the first user of a list leaves the rest. */
  lemma AddressedSplits(users: UserStore.UserState, left: seq<nat>, d: nat)
    requires left != []
    ensures Addressed(users, left, d) <==>
              UserStore.HasDevice(UserStore.DevicesOf(users, left[0]), d) || Addressed(users, left[1..], d)
  {
    if Addressed(users, left, d) {
      var u :| u in left && UserStore.HasDevice(UserStore.DevicesOf(users, u), d);
      assert u == left[0] || u in left[1..];
    }
  }

  lemma ResolvingOk(users: UserStore.UserState, groups: GroupStore.Groups, p: IngestPhase)
    requires UserStore.StateOk(users) && p.Resolving? && IngestOk(users, groups, p)
    ensures IngestOk(users, groups, NextPhase(users, groups, p))
  {
    if p.left == [] {
      assert [] + p.found == p.found;
    } else {
      FoundExact(users, p.env, p.found, p.left[0]);
      assert p.left[0] in Audience(groups, p.env.to).value;
    }
  }

  lemma EnqueuingOk(users: UserStore.UserState, groups: GroupStore.Groups, p: IngestPhase)
    requires p.Enqueuing? && IngestOk(users, groups, p)
    ensures IngestOk(users, groups, NextPhase(users, groups, p))
  {
    if p.todo != [] {
      assert p.done + p.todo == (p.done + [p.todo[0]]) + p.todo[1..];
    } else {
      assert forall d | d in p.done :: d in p.done + p.todo;
    }
  }

  lemma RecheckingOk(users: UserStore.UserState, groups: GroupStore.Groups, p: IngestPhase)
    requires UserStore.StateOk(users) && p.Rechecking? && IngestOk(users, groups, p)
    ensures IngestOk(users, groups, NextPhase(users, groups, p))
  {
    if p.left != [] {
      FoundExact(users, p.env, p.found, p.left[0]);
      forall d | d in p.queued
        ensures d in Found(users, p.env, p.found, p.left[0]) || Addressed(users, p.left[1..], d)
      {
        AddressedSplits(users, p.left, d);
      }
    }
  }

  lemma NextPhaseOk(users: UserStore.UserState, groups: GroupStore.Groups, p: IngestPhase)
    requires UserStore.StateOk(users) && IngestOk(users, groups, p)
    ensures IngestOk(users, groups, NextPhase(users, groups, p))
  {
    match p
    case Resolving(_, _, _) => ResolvingOk(users, groups, p);
    case Enqueuing(_, _, _) => EnqueuingOk(users, groups, p);
    case Rechecking(_, _, _, _) => RecheckingOk(users, groups, p);
    case _ =>
  }

  /** An ingest that moves on still owes what it owed, except a notification it is giving now. */
  lemma NextPhaseOwes(users: UserStore.UserState, groups: GroupStore.Groups, p: IngestPhase, d: nat)
    requires IngestOk(users, groups, p) && Owes(p, d)
    ensures Owes(NextPhase(users, groups, p), d) || (p.Notifying? && p.toWake != [] && p.toWake[0] == d)
  {
    if p.Rechecking? && p.left == [] {
      assert !Addressed(users, p.left, d);
    }
  }

  lemma OneIngestChanges(st: State, st1: State, o: Origin, i: Ingest)
    requires IngestsOk(st) && st1.users == st.users && st1.groups == st.groups
    requires st1.ingests == st.ingests[o := i] && IngestOk(st.users, st.groups, i.phase)
    ensures IngestsOk(st1)
  {
  }

  lemma ChangeKeepsIngestsOk(st: State, r: Roster)
    requires IngestsOk(st)
    ensures IngestsOk(ChangeRoster(st, r))
  {
    match r
    case CreateUser(u) =>
      UserStore.CreateKeepsOk(st.users, u);
      IngestsOkGrows(st, UserStore.Create(st.users, u), st.groups);
    case RegisterDevice(d) =>
      UserStore.RegisterKeepsOk(st.users, d);
      RegisterGrows(st.users, d, st.groups);
      IngestsOkGrows(st, UserStore.Register(st.users, d).0, st.groups);
    case CreateGroup(g, members) =>
      if g !in st.groups {
        IngestsOkGrows(st, st.users, st.groups[g := GroupStore.GroupRecord(members, None)]);
      }
  }

  lemma BeginOk(st: State, i: Ingest, env: Envelope)
    requires IngestOk(st.users, st.groups, i.phase)
    ensures IngestOk(st.users, st.groups, Begin(st, i, env).phase)
  {
  }

  lemma CancelKeepsIngestsOk(st: State, id: nat)
    requires IngestsOk(st) && Request(id) in st.ingests
    ensures IngestsOk(Do(st, Cancel(id)))
  {
    OneIngestChanges(st, Do(st, Cancel(id)), Request(id), st.ingests[Request(id)].(phase := Idle));
  }

  lemma AdvanceKeepsIngestsOk(st: State, o: Origin)
    requires IngestsOk(st) && o in st.ingests
    ensures IngestsOk(Do(st, Advance(o)))
  {
    AdvanceFrame(st, o);
    NextPhaseOk(st.users, st.groups, st.ingests[o].phase);
    OneIngestChanges(st, Do(st, Advance(o)), o, AdvanceIngest(st, o).ingests[o]);
  }

  lemma StepKeepsIngestsOk(st: State, step: Step)
    requires IngestsOk(st)
    ensures IngestsOk(Do(st, step))
  {
    match step
    case Change(r) => ChangeKeepsIngestsOk(st, r);
    case BeginRequest(id, env) =>
      if Request(id) !in st.ingests {
        BeginOk(st, Ingest([], Idle), env);
        OneIngestChanges(st, Do(st, step), Request(id), Begin(st, Ingest([], Idle), env));
      }
    case BeginOnSocket(s, env) =>
      if s in st.sessions && st.sessions[s].phase == Waiting && Socket(s) in st.ingests {
        BeginOk(st, st.ingests[Socket(s)], env);
        OneIngestChanges(st, Do(st, step), Socket(s), Begin(st, st.ingests[Socket(s)], env));
      }
    case Connect(s, _) =>
      if s !in st.sessions && Socket(s) !in st.ingests {
        OneIngestChanges(st, Do(st, step), Socket(s), Ingest([], Idle));
      }
    case Advance(o) =>
      if o in st.ingests { AdvanceKeepsIngestsOk(st, o); }
    case Cancel(id) =>
      if Request(id) in st.ingests { CancelKeepsIngestsOk(st, id); }
    case Act(_, _) =>
    case HttpPull(_) =>
  }

  // ---------------------------------------------------------------------------
  // What one step of an ingest, and one move of a session, touch
  // ---------------------------------------------------------------------------

  /** A roster change touches accounts, devices and groups alone. */
  lemma ChangeFrame(st: State, r: Roster)
    ensures var st1 := ChangeRoster(st, r);
            && st1.queue == st.queue && st1.hub == st.hub && st1.sessions == st.sessions
            && st1.ingests == st.ingests && st1.history == st.history && st1.drained == st.drained
            && st1.pulled == st.pulled && st1.orphaned == st.orphaned
  {
  }

  lemma AdvanceToFrame(st: State, o: Origin, next: IngestPhase)
    requires o in st.ingests
    ensures var st1 := AdvanceTo(st, o, next);
            && st1.users == st.users && st1.groups == st.groups
            && st1.sessions == st.sessions && st1.hub.sessions == st.hub.sessions && st1.drained == st.drained
            && st1.pulled == st.pulled && st1.orphaned == st.orphaned
            && st1.ingests == st.ingests[o := st.ingests[o].(phase := next)]
  {
  }

  lemma AdvanceFrame(st: State, o: Origin)
    requires o in st.ingests
    ensures var st1 := AdvanceIngest(st, o);
            && st1.users == st.users && st1.groups == st.groups
            && st1.sessions == st.sessions && st1.hub.sessions == st.hub.sessions && st1.drained == st.drained
            && st1.pulled == st.pulled && st1.orphaned == st.orphaned
            && st1.ingests == st.ingests[o :=
                 st.ingests[o].(phase := NextPhase(st.users, st.groups, st.ingests[o].phase))]
  {
    AdvanceToFrame(st, o, NextPhase(st.users, st.groups, st.ingests[o].phase));
  }

  lemma AdvanceToQueues(st: State, o: Origin, next: IngestPhase)
    requires o in st.ingests
    ensures var st1 := AdvanceTo(st, o, next);
            var p := st.ingests[o].phase;
            if p.Enqueuing? && p.todo != [] then
              var c := Copy(p.env, o, |st.ingests[o].asked|);
              && st1.queue == st.queue[p.todo[0] := At(st.queue, p.todo[0]) + [c]]
              && st1.history == st.history[p.todo[0] := At(st.history, p.todo[0]) + [c]]
            else st1.queue == st.queue && st1.history == st.history
  {
  }

  lemma AdvanceQueues(st: State, o: Origin)
    requires o in st.ingests
    ensures var st1 := AdvanceIngest(st, o);
            var p := st.ingests[o].phase;
            if p.Enqueuing? && p.todo != [] then
              var c := Copy(p.env, o, |st.ingests[o].asked|);
              && st1.queue == st.queue[p.todo[0] := At(st.queue, p.todo[0]) + [c]]
              && st1.history == st.history[p.todo[0] := At(st.history, p.todo[0]) + [c]]
            else st1.queue == st.queue && st1.history == st.history
  {
    AdvanceToQueues(st, o, NextPhase(st.users, st.groups, st.ingests[o].phase));
  }

  /** A move keeps the session's device and socket record, and can only take entries out of the hub. */
  lemma MoveFrame(hub: HubState, mail: seq<Copy>, ingest: IngestPhase, s: nat, ses: Session, move: Move)
    ensures var m := MoveOf(hub, mail, ingest, s, ses, move);
            && m.ses.device == ses.device
            && (m.hub.sessions == hub.sessions || m.hub.sessions == hub.sessions - {ses.device})
            && (SocketOk(ses) ==> SocketOk(m.ses))
            && (m.ses.phase == Ingesting ==> ses.phase == Ingesting)
            && (ses.phase == Ingesting && m.ses.phase != Ingesting ==> ingest == Idle)
            && (m.drains <==> move == Pull && ses.phase == Flushing)
  {
    if move == SendOne && ses.phase.Sending? && ses.phase.batch != [] {
      assert ses.sent + [ses.phase.batch[0]] + ses.phase.batch[1..] == ses.sent + ses.phase.batch;
    }
  }

  // ---------------------------------------------------------------------------
  // No lost wake-up
  // ---------------------------------------------------------------------------

  /** Debts survive when one ingest moves to a phase that still owes them. */
  lemma OwedStays(ingests: map<Origin, Ingest>, o: Origin, i: Ingest, d: nat)
    requires Owed(ingests, d) && (o in ingests && Owes(ingests[o].phase, d) ==> Owes(i.phase, d))
    ensures Owed(ingests[o := i], d)
  {
    var p :| p in ingests && Owes(ingests[p].phase, d);
    assert Owes(ingests[o := i][p].phase, d);
  }

  /** Steps of an ingest: queueing creates the debt, notifying pays it. */
  lemma AdvanceToKeepsWake(st: State, o: Origin, next: IngestPhase, d: nat)
    requires HubOk(st) && o in st.ingests && WakeOk(st, d)
    requires var p := st.ingests[o].phase;
             && (Owes(p, d) ==> Owes(next, d) || (p.Notifying? && p.toWake != [] && p.toWake[0] == d))
             && (p.Enqueuing? && p.todo != [] && p.todo[0] == d ==> Owes(next, d))
    ensures WakeOk(AdvanceTo(st, o, next), d)
  {
    var st1 := AdvanceTo(st, o, next);
    var p := st.ingests[o].phase;
    AdvanceToFrame(st, o, next);
    AdvanceToQueues(st, o, next);
    if d in st1.hub.sessions && At(st1.queue, d) != [] {
      if p.Enqueuing? && p.todo != [] && p.todo[0] == d {
        assert Owes(st1.ingests[o].phase, d);
      } else if p.Notifying? && p.toWake != [] && p.toWake[0] == d {
      } else if Owed(st.ingests, d) {
        OwedStays(st.ingests, o, st1.ingests[o], d);
      }
    }
  }

  lemma AdvanceKeepsWake(st: State, o: Origin, d: nat)
    requires IngestsOk(st) && HubOk(st) && o in st.ingests && WakeOk(st, d)
    ensures WakeOk(Do(st, Advance(o)), d)
  {
    var p := st.ingests[o].phase;
    var next := NextPhase(st.users, st.groups, p);
    if Owes(p, d) { NextPhaseOwes(st.users, st.groups, p, d); }
    AdvanceToKeepsWake(st, o, next, d);
  }

  lemma LeavingKeepsWake(st: State, s: nat, d: nat)
    requires HubOk(st) && s in st.sessions && WakeOk(st, d)
    ensures WakeOk(Do(st, Act(s, Deregister)), d)
  {
  }

  lemma RecvKeepsWake(st: State, s: nat, d: nat)
    requires HubOk(st) && s in st.sessions && WakeOk(st, d)
    ensures WakeOk(Do(st, Act(s, Recv)), d)
  {
  }

  lemma PullingKeepsWake(st: State, s: nat, d: nat)
    requires HubOk(st) && s in st.sessions && WakeOk(st, d)
    ensures WakeOk(Do(st, Act(s, Pull)), d)
  {
  }

  lemma StayingKeepsWake(st: State, s: nat, move: Move, d: nat)
    requires HubOk(st) && s in st.sessions && WakeOk(st, d) && move !in {Pull, Recv, Deregister}
    ensures WakeOk(Do(st, Act(s, move)), d)
  {
  }

  /** A move of session `s`: a signal is only spent by going back to the queue. */
  lemma ActKeepsWake(st: State, s: nat, move: Move, d: nat)
    requires HubOk(st) && s in st.sessions && WakeOk(st, d)
    ensures WakeOk(Do(st, Act(s, move)), d)
  {
    if move == Pull {
      PullingKeepsWake(st, s, d);
    } else if move == Recv {
      RecvKeepsWake(st, s, d);
    } else if move == Deregister {
      LeavingKeepsWake(st, s, d);
    } else {
      StayingKeepsWake(st, s, move, d);
    }
  }

  lemma ConnectKeepsWake(st: State, s: nat, device: nat, d: nat)
    requires HubOk(st) && WakeOk(st, d)
    ensures WakeOk(Do(st, Connect(s, device)), d)
  {
    if s !in st.sessions && Socket(s) !in st.ingests && d != device && Owed(st.ingests, d) {
      OwedStays(st.ingests, Socket(s), Ingest([], Idle), d);
    }
  }

  lemma RequestKeepsWake(st: State, id: nat, env: Envelope, d: nat)
    requires WakeOk(st, d)
    ensures WakeOk(Do(st, BeginRequest(id, env)), d)
  {
    if Owed(st.ingests, d) && Request(id) !in st.ingests {
      OwedStays(st.ingests, Request(id), Begin(st, Ingest([], Idle), env), d);
    }
  }

  /** A session that starts an ingest of its own stays settled. */
  lemma SocketKeepsWake(st: State, s: nat, env: Envelope, d: nat)
    requires SerialOk(st) && WakeOk(st, d)
    ensures WakeOk(Do(st, BeginOnSocket(s, env)), d)
  {
    if Owed(st.ingests, d) && s in st.sessions && st.sessions[s].phase == Waiting {
      OwedStays(st.ingests, Socket(s), Begin(st, st.ingests[Socket(s)], env), d);
    }
  }

  lemma ChangeKeepsWake(st: State, r: Roster, d: nat)
    requires WakeOk(st, d)
    ensures WakeOk(Do(st, Change(r)), d)
  {
    ChangeFrame(st, r);
  }

  /** A dropped request leaves its debts behind as orphans. */
  /** A dropped request's debt is recorded; other debts stay. */
  lemma DropKeepsDebt(st: State, o: Origin, d: nat)
    requires o in st.ingests && Owed(st.ingests, d)
    ensures Owed(Dropped(st, o).ingests, d) || d in Dropped(st, o).orphaned
  {
    if !Owes(st.ingests[o].phase, d) {
      OwedStays(st.ingests, o, st.ingests[o].(phase := Idle), d);
    }
  }

  lemma CancelKeepsWake(st: State, id: nat, d: nat)
    requires WakeOk(st, d)
    ensures WakeOk(Do(st, Cancel(id)), d)
  {
    if Request(id) in st.ingests && Owed(st.ingests, d) {
      DropKeepsDebt(st, Request(id), d);
    }
  }

  lemma PullKeepsWake(st: State, device: nat, d: nat)
    requires WakeOk(st, d)
    ensures WakeOk(Do(st, HttpPull(device)), d)
  {
  }

  lemma StepKeepsWake(st: State, step: Step, d: nat)
    requires IngestsOk(st) && HubOk(st) && SerialOk(st) && WakeOk(st, d)
    ensures WakeOk(Do(st, step), d)
  {
    match step
    case Change(r) => ChangeKeepsWake(st, r, d);
    case BeginRequest(id, env) => RequestKeepsWake(st, id, env, d);
    case BeginOnSocket(s, env) => SocketKeepsWake(st, s, env, d);
    case Connect(s, device) => ConnectKeepsWake(st, s, device, d);
    case Advance(o) => if o in st.ingests { AdvanceKeepsWake(st, o, d); }
    case Act(s, move) => if s in st.sessions { ActKeepsWake(st, s, move, d); }
    case Cancel(id) => CancelKeepsWake(st, id, d);
    case HttpPull(device) => PullKeepsWake(st, device, d);
  }

  /** What a move of session `s` does to the sessions and to the hub's entries. */
  lemma ActSessions(st: State, s: nat, move: Move)
    requires s in st.sessions
    ensures var ses, st1 := st.sessions[s], Do(st, Act(s, move));
            && s in st1.sessions && st1.sessions == st.sessions[s := st1.sessions[s]] && st1.ingests == st.ingests
            && st1.sessions[s].device == ses.device
            && (st1.hub.sessions == st.hub.sessions || st1.hub.sessions == st.hub.sessions - {ses.device})
            && (SocketOk(ses) ==> SocketOk(st1.sessions[s]))
            && (st1.sessions[s].phase == Ingesting ==> ses.phase == Ingesting)
            && (ses.phase == Ingesting && st1.sessions[s].phase != Ingesting ==> PhaseOf(st, Socket(s)) == Idle)
  {
    MoveFrame(st.hub, At(st.queue, st.sessions[s].device), PhaseOf(st, Socket(s)), s, st.sessions[s], move);
  }

  lemma ActKeepsHubOk(st: State, s: nat, move: Move)
    requires HubOk(st) && s in st.sessions
    ensures HubOk(Do(st, Act(s, move)))
  {
    ActSessions(st, s, move);
  }

  lemma AdvanceKeepsHubOk(st: State, o: Origin)
    requires HubOk(st) && o in st.ingests
    ensures HubOk(Do(st, Advance(o)))
  {
    AdvanceFrame(st, o);
  }

  lemma ConnectKeepsHubOk(st: State, s: nat, device: nat)
    requires HubOk(st)
    ensures HubOk(Do(st, Connect(s, device)))
  {
  }

  lemma OthersKeepHubOk(st: State, step: Step)
    requires HubOk(st) && !step.Act? && !step.Advance? && !step.Connect?
    ensures HubOk(Do(st, step))
  {
    match step
    case Change(r) => ChangeFrame(st, r);
    case BeginRequest(_, _) =>
    case BeginOnSocket(_, _) =>
    case Cancel(_) =>
    case HttpPull(_) =>
  }

  lemma StepKeepsHubOk(st: State, step: Step)
    requires HubOk(st)
    ensures HubOk(Do(st, step))
  {
    match step
    case Advance(o) => if o in st.ingests { AdvanceKeepsHubOk(st, o); }
    case Act(s, move) => if s in st.sessions { ActKeepsHubOk(st, s, move); }
    case Connect(s, device) => ConnectKeepsHubOk(st, s, device);
    case _ => OthersKeepHubOk(st, step);
  }

  lemma ActKeepsSerialOk(st: State, s: nat, move: Move)
    requires SerialOk(st) && s in st.sessions
    ensures SerialOk(Do(st, Act(s, move)))
  {
    ActSessions(st, s, move);
  }

  lemma NextOfIdle(users: UserStore.UserState, groups: GroupStore.Groups)
    ensures NextPhase(users, groups, Idle) == Idle
  {
  }

  lemma AdvanceKeepsSerialOk(st: State, o: Origin)
    requires SerialOk(st) && o in st.ingests
    ensures SerialOk(Do(st, Advance(o)))
  {
    AdvanceFrame(st, o);
    NextOfIdle(st.users, st.groups);
  }

  lemma OthersKeepSerialOk(st: State, step: Step)
    requires SerialOk(st) && !step.Act? && !step.Advance?
    ensures SerialOk(Do(st, step))
  {
    match step
    case Change(r) => ChangeFrame(st, r);
    case BeginRequest(_, _) =>
    case BeginOnSocket(_, _) =>
    case Connect(_, _) =>
    case Cancel(_) =>
    case HttpPull(_) =>
  }

  lemma StepKeepsSerialOk(st: State, step: Step)
    requires SerialOk(st)
    ensures SerialOk(Do(st, step))
  {
    match step
    case Advance(o) => if o in st.ingests { AdvanceKeepsSerialOk(st, o); }
    case Act(s, move) => if s in st.sessions { ActKeepsSerialOk(st, s, move); }
    case _ => OthersKeepSerialOk(st, step);
  }

  lemma StepKeepsWakeInv(st: State, step: Step)
    requires WakeInv(st)
    ensures WakeInv(Do(st, step))
  {
    StepKeepsIngestsOk(st, step);
    StepKeepsHubOk(st, step);
    StepKeepsSerialOk(st, step);
    forall d
      ensures WakeOk(Do(st, step), d)
    {
      StepKeepsWake(st, step, d);
    }
  }

  // ---------------------------------------------------------------------------
  // Conservation and order
  // ---------------------------------------------------------------------------

  lemma DrainKeepsConserved(st: State, device: nat, d: nat)
    requires ConservedFor(st, d)
    ensures ConservedFor(Drained(st, device), d)
  {
  }

  lemma ActKeepsConserved(st: State, s: nat, move: Move, d: nat)
    requires s in st.sessions && ConservedFor(st, d)
    ensures ConservedFor(ActOn(st, s, move), d)
  {
    DrainKeepsConserved(st, st.sessions[s].device, d);
  }

  lemma AdvanceKeepsConserved(st: State, o: Origin, d: nat)
    requires o in st.ingests && ConservedFor(st, d)
    ensures ConservedFor(AdvanceIngest(st, o), d)
  {
    AdvanceFrame(st, o);
    AdvanceQueues(st, o);
    var p := st.ingests[o].phase;
    if p.Enqueuing? && p.todo != [] && p.todo[0] == d {
      var c := Copy(p.env, o, |st.ingests[o].asked|);
      assert At(st.drained, d) + At(st.queue, d) + [c] == At(st.drained, d) + (At(st.queue, d) + [c]);
    }
  }

  lemma OthersKeepConserved(st: State, step: Step, d: nat)
    requires !step.Act? && !step.Advance? && !step.HttpPull? && ConservedFor(st, d)
    ensures ConservedFor(Do(st, step), d)
  {
    if step.Change? { ChangeFrame(st, step.roster); }
  }

  lemma StepKeepsConserved(st: State, step: Step, d: nat)
    requires ConservedFor(st, d)
    ensures ConservedFor(Do(st, step), d)
  {
    match step
    case Advance(o) => if o in st.ingests { AdvanceKeepsConserved(st, o, d); }
    case Act(s, move) => if s in st.sessions { ActKeepsConserved(st, s, move, d); }
    case HttpPull(device) => DrainKeepsConserved(st, device, d);
    case _ => OthersKeepConserved(st, step, d);
  }

  lemma ActKeepsSocketsOk(st: State, s: nat, move: Move)
    requires SocketsOk(st) && s in st.sessions
    ensures SocketsOk(Do(st, Act(s, move)))
  {
    ActSessions(st, s, move);
  }

  lemma AdvanceKeepsSocketsOk(st: State, o: Origin)
    requires SocketsOk(st) && o in st.ingests
    ensures SocketsOk(Do(st, Advance(o)))
  {
    AdvanceFrame(st, o);
  }

  lemma OthersKeepSocketsOk(st: State, step: Step)
    requires SocketsOk(st) && !step.Act? && !step.Advance?
    ensures SocketsOk(Do(st, step))
  {
    match step
    case Change(r) => ChangeFrame(st, r);
    case BeginRequest(_, _) =>
    case BeginOnSocket(_, _) =>
    case Connect(_, _) =>
    case Cancel(_) =>
    case HttpPull(_) =>
  }

  lemma StepKeepsSocketsOk(st: State, step: Step)
    requires SocketsOk(st)
    ensures SocketsOk(Do(st, step))
  {
    match step
    case Advance(o) => if o in st.ingests { AdvanceKeepsSocketsOk(st, o); }
    case Act(s, move) => if s in st.sessions { ActKeepsSocketsOk(st, s, move); }
    case _ => OthersKeepSocketsOk(st, step);
  }

  /** A copy joins the history: it is the newest of its origin. */
  lemma OrderedAppend(h: seq<Copy>, c: Copy)
    requires Ordered(h) && forall k | 0 <= k < |h| && h[k].origin == c.origin :: h[k].nth < c.nth
    ensures Ordered(h + [c])
  {
  }

  /** The history of `d` after the ingest's next step. */
  function HistoryNext(h: seq<Copy>, d: nat, o: Origin, i: Ingest): seq<Copy> {
    if i.phase.Enqueuing? && i.phase.todo != [] && i.phase.todo[0] == d then h + [Copy(i.phase.env, o, |i.asked|)]
    else h
  }

  /** A device not done yet has no copy of the current envelope, so its copies are all of earlier ones. */
  lemma NotDoneYet(h: seq<Copy>, d: nat, o: Origin, i: Ingest)
    requires InStep(h, d, o, i) && i.phase.Enqueuing? && NoDuplicates(i.phase.done + i.phase.todo)
    requires i.phase.todo != [] && i.phase.todo[0] == d
    ensures forall k | 0 <= k < |h| && h[k].origin == o :: h[k].nth < |i.asked|
  {
    var done, todo := i.phase.done, i.phase.todo;
    assert (done + todo)[|done|] == d;
    assert forall k | 0 <= k < |done| :: (done + todo)[k] == done[k];
    assert d !in done;
    assert forall k | 0 <= k < |h| && h[k].origin == o :: h[k] in h;
  }

  /** Queueing the current envelope for a device not done yet keeps numbers increasing. */
  lemma NextInStep(users: UserStore.UserState, groups: GroupStore.Groups, h: seq<Copy>, d: nat, o: Origin, i: Ingest)
    requires IngestOk(users, groups, i.phase) && Ordered(h) && InStep(h, d, o, i)
    ensures var h1 := HistoryNext(h, d, o, i);
            Ordered(h1) && InStep(h1, d, o, i.(phase := NextPhase(users, groups, i.phase)))
  {
    if i.phase.Enqueuing? && i.phase.todo != [] && i.phase.todo[0] == d {
      var c := Copy(i.phase.env, o, |i.asked|);
      NotDoneYet(h, d, o, i);
      OrderedAppend(h, c);
      assert (h + [c])[|h|] == c;
    }
  }

  /** One ingest changes, and the history of `d` gains at most one copy, from that ingest. */
  lemma OrderForChanges(st: State, st1: State, d: nat, o: Origin, i: Ingest)
    requires OrderFor(st, d) && st1.ingests == st.ingests[o := i]
    requires var h, h1 := At(st.history, d), At(st1.history, d);
             && (h1 == h || (|h1| == |h| + 1 && h1[..|h|] == h && h1[|h|].origin == o))
             && Ordered(h1) && InStep(h1, d, o, i)
    ensures OrderFor(st1, d)
  {
    var h, h1 := At(st.history, d), At(st1.history, d);
    assert forall k | 0 <= k < |h| :: h1[k] == h[k];
    forall o2 | o2 in st1.ingests
      ensures InStep(h1, d, o2, st1.ingests[o2])
    {
      if o2 != o { assert InStep(h, d, o2, st.ingests[o2]); }
    }
  }

  lemma AdvanceKeepsOrder(st: State, o: Origin, d: nat)
    requires IngestsOk(st) && o in st.ingests && OrderFor(st, d)
    ensures OrderFor(AdvanceIngest(st, o), d)
  {
    var st1 := AdvanceIngest(st, o);
    AdvanceFrame(st, o);
    AdvanceQueues(st, o);
    assert InStep(At(st.history, d), d, o, st.ingests[o]);
    NextInStep(st.users, st.groups, At(st.history, d), d, o, st.ingests[o]);
    OrderForChanges(st, st1, d, o, st1.ingests[o]);
  }

  /** An ingest that begins an envelope has none of its copies in any history yet. */
  lemma BeginInStep(st: State, h: seq<Copy>, d: nat, o: Origin, i: Ingest, env: Envelope)
    requires i.phase == Idle && InStep(h, d, o, i)
    ensures InStep(h, d, o, Begin(st, i, env))
  {
  }

  /** Nothing of an origin without an ingest is in the history. */
  lemma NewOriginInStep(st: State, d: nat, o: Origin, i: Ingest)
    requires OrderFor(st, d) && o !in st.ingests && i.phase == Idle
    ensures InStep(At(st.history, d), d, o, i)
  {
  }

  lemma BeginKeepsOrder(st: State, st1: State, d: nat, o: Origin, env: Envelope)
    requires OrderFor(st, d) && st1.history == st.history
    requires var i := if o in st.ingests then st.ingests[o] else Ingest([], Idle);
             i.phase == Idle && (st1.ingests == st.ingests[o := Begin(st, i, env)] || st1.ingests == st.ingests[o := i])
    ensures OrderFor(st1, d)
  {
    var h := At(st.history, d);
    var i := if o in st.ingests then st.ingests[o] else Ingest([], Idle);
    if o !in st.ingests { NewOriginInStep(st, d, o, i); }
    assert InStep(h, d, o, i);
    BeginInStep(st, h, d, o, i, env);
    OrderForChanges(st, st1, d, o, st1.ingests[o]);
  }

  lemma OrderForFrame(st: State, st1: State, d: nat)
    requires OrderFor(st, d) && st1.history == st.history && st1.ingests == st.ingests
    ensures OrderFor(st1, d)
  {
  }

  lemma ActFrame(st: State, s: nat, move: Move)
    requires s in st.sessions
    ensures var st1 := ActOn(st, s, move);
            && st1.history == st.history && st1.ingests == st.ingests && st1.users == st.users
               && st1.groups == st.groups
  {
  }

  lemma RequestKeepsOrder(st: State, id: nat, env: Envelope, d: nat)
    requires OrderFor(st, d)
    ensures OrderFor(Do(st, BeginRequest(id, env)), d)
  {
    if Request(id) !in st.ingests { BeginKeepsOrder(st, Do(st, BeginRequest(id, env)), d, Request(id), env); }
  }

  lemma SocketKeepsOrder(st: State, s: nat, env: Envelope, d: nat)
    requires SerialOk(st) && OrderFor(st, d)
    ensures OrderFor(Do(st, BeginOnSocket(s, env)), d)
  {
    if s in st.sessions && st.sessions[s].phase == Waiting {
      BeginKeepsOrder(st, Do(st, BeginOnSocket(s, env)), d, Socket(s), env);
    }
  }

  /** What a dropped request has queued stays queued; it has no current envelope any more. */
  lemma CancelKeepsOrder(st: State, id: nat, d: nat)
    requires OrderFor(st, d)
    ensures OrderFor(Do(st, Cancel(id)), d)
  {
    if Request(id) in st.ingests {
      assert InStep(At(st.history, d), d, Request(id), st.ingests[Request(id)]);
      OrderForChanges(st, Do(st, Cancel(id)), d, Request(id), st.ingests[Request(id)].(phase := Idle));
    }
  }

  lemma ConnectKeepsOrder(st: State, s: nat, device: nat, d: nat)
    requires OrderFor(st, d)
    ensures OrderFor(Do(st, Connect(s, device)), d)
  {
    if s !in st.sessions && Socket(s) !in st.ingests {
      NewOriginInStep(st, d, Socket(s), Ingest([], Idle));
      OrderForChanges(st, Do(st, Connect(s, device)), d, Socket(s), Ingest([], Idle));
    }
  }

  /** The remaining steps leave every history and every ingest alone. */
  lemma QuietFrame(st: State, step: Step)
    requires step.Change? || step.Act? || step.HttpPull?
    ensures Do(st, step).history == st.history && Do(st, step).ingests == st.ingests
  {
    match step
    case Change(r) => ChangeFrame(st, r);
    case Act(s, move) => if s in st.sessions { ActFrame(st, s, move); }
    case HttpPull(_) =>
  }

  lemma StepKeepsOrder(st: State, step: Step, d: nat)
    requires IngestsOk(st) && SerialOk(st) && OrderFor(st, d)
    ensures OrderFor(Do(st, step), d)
  {
    match step
    case BeginRequest(id, env) => RequestKeepsOrder(st, id, env, d);
    case BeginOnSocket(s, env) => SocketKeepsOrder(st, s, env, d);
    case Connect(s, device) => ConnectKeepsOrder(st, s, device, d);
    case Advance(o) => if o in st.ingests { AdvanceKeepsOrder(st, o, d); }
    case Cancel(id) => CancelKeepsOrder(st, id, d);
    case _ =>
      QuietFrame(st, step);
      OrderForFrame(st, Do(st, step), d);
  }

  lemma StepKeepsOrderInv(st: State, step: Step)
    requires OrderInv(st)
    ensures OrderInv(Do(st, step))
  {
    StepKeepsIngestsOk(st, step);
    StepKeepsSerialOk(st, step);
    forall d
      ensures OrderFor(Do(st, step), d)
    {
      StepKeepsOrder(st, step, d);
    }
  }
}
