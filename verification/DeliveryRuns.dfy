/** The delivery protocol over whole runs: every sequence of steps from an empty server. */
module DeliveryRuns {
  import opened Prelude
  import opened Collections
  import opened Messaging
  import opened Hub
  import opened Delivery
  import opened DeliveryProofs
  import Runs
  import UserStore

  // ---------------------------------------------------------------------------
  // Who took which copy
  // ---------------------------------------------------------------------------

  predicate Apart(a: seq<Copy>, b: seq<Copy>) {
    forall c | c in a :: c !in b
  }

  /** A session took what it took from its device's queue, in order. */
  predicate TookInOrder(st: State, ses: Session) {
    Ordered(ses.taken) && forall c | c in ses.taken :: c in At(st.drained, ses.device)
  }

  /** Over HTTP, too, copies went out in order, and none that a session took. */
  predicate PulledInOrder(st: State, d: nat) {
    && Ordered(At(st.pulled, d)) && (forall c | c in At(st.pulled, d) :: c in At(st.drained, d))
    && (forall s | s in st.sessions && st.sessions[s].device == d :: Apart(st.sessions[s].taken, At(st.pulled, d)))
  }

  predicate TakenBySession(st: State, d: nat, c: Copy) {
    exists s | s in st.sessions :: st.sessions[s].device == d && c in st.sessions[s].taken
  }

  /** Whatever was handed out went to a session or over HTTP. */
  predicate Accounted(st: State, d: nat) {
    forall c | c in At(st.drained, d) :: c in At(st.pulled, d) || TakenBySession(st, d, c)
  }

  predicate SessionsTookOk(st: State) {
    && (forall s | s in st.sessions :: TookInOrder(st, st.sessions[s]))
    && (forall s, t |
          s in st.sessions && t in st.sessions && s != t && st.sessions[s].device == st.sessions[t].device ::
          Apart(st.sessions[s].taken, st.sessions[t].taken))
  }

  ghost predicate TakingsOk(st: State) {
    SessionsTookOk(st) && forall d :: PulledInOrder(st, d) && Accounted(st, d)
  }

  /** Nothing is handed out. */
  predicate KeepsTakings(st: State, st1: State) {
    && st1.drained == st.drained && st1.pulled == st.pulled
    && (forall s | s in st1.sessions :: st1.sessions[s].taken == [] || s in st.sessions)
    && (forall s | s in st.sessions ::
          && s in st1.sessions && st1.sessions[s].taken == st.sessions[s].taken
          && st1.sessions[s].device == st.sessions[s].device)
  }

  lemma KeptTakings(st: State, st1: State)
    requires TakingsOk(st) && KeepsTakings(st, st1)
    ensures TakingsOk(st1)
  {
    forall d
      ensures PulledInOrder(st1, d) && Accounted(st1, d)
    {
      assert PulledInOrder(st, d) && Accounted(st, d);
      forall c | c in At(st.drained, d) && TakenBySession(st, d, c)
        ensures TakenBySession(st1, d, c)
      {
        var s :| s in st.sessions && st.sessions[s].device == d && c in st.sessions[s].taken;
        assert s in st1.sessions && c in st1.sessions[s].taken;
      }
    }
  }

  /** The queue is apart from all that was handed out, and comes after it. */
  lemma PullExtends(drained: seq<Copy>, mail: seq<Copy>, taken: seq<Copy>)
    requires Ordered(drained + mail) && Ordered(taken) && forall c | c in taken :: c in drained
    ensures Ordered(taken + mail) && Apart(mail, drained)
  {
    var h := drained + mail;
    assert forall j | 0 <= j < |mail| :: h[|drained| + j] == mail[j];
    assert forall i | 0 <= i < |drained| :: h[i] == drained[i];
    forall i, j | 0 <= i < |drained| && 0 <= j < |mail| && drained[i].origin == mail[j].origin
      ensures drained[i].nth < mail[j].nth
    {
      assert h[i].nth < h[|drained| + j].nth;
    }
    var all := taken + mail;
    forall i, j | 0 <= i < j < |all| && all[i].origin == all[j].origin
      ensures all[i].nth < all[j].nth
    {
      if j < |taken| {
      } else if i < |taken| {
        assert taken[i] in taken;
        var k :| 0 <= k < |drained| && drained[k] == taken[i];
        assert all[j] == mail[j - |taken|];
      } else {
        assert h[|drained| + i - |taken|].nth < h[|drained| + j - |taken|].nth;
      }
    }
  }

  lemma PullKeepsTook(st: State, s: nat)
    requires SessionsTookOk(st) && s in st.sessions && st.sessions[s].phase == Flushing
    requires Ordered(At(st.drained, st.sessions[s].device) + At(st.queue, st.sessions[s].device))
    ensures SessionsTookOk(ActOn(st, s, Pull))
  {
    var ses := st.sessions[s];
    var d := ses.device;
    var st1 := ActOn(st, s, Pull);
    var mail := At(st.queue, d);
    PullExtends(At(st.drained, d), mail, ses.taken);
    assert st1.sessions == st.sessions[s := ses.(phase := Sending(mail), taken := ses.taken + mail)];
    assert At(st1.drained, d) == At(st.drained, d) + mail;
    forall t | t in st.sessions && t != s && st.sessions[t].device == d
      ensures Apart(st1.sessions[s].taken, st.sessions[t].taken) && Apart(st.sessions[t].taken, st1.sessions[s].taken)
    {
      assert Apart(ses.taken, st.sessions[t].taken);
      assert TookInOrder(st, st.sessions[t]);
    }
    forall t | t in st.sessions && t != s
      ensures TookInOrder(st1, st.sessions[t])
    {
      assert TookInOrder(st, st.sessions[t]);
    }
  }

  /** Session `s` takes `mail` from its queue. */
  predicate Takes(st: State, st1: State, s: nat, mail: seq<Copy>) {
    && s in st.sessions && st1.pulled == st.pulled
    && st1.sessions == st.sessions[s := st.sessions[s].(phase := Sending(mail), taken := st.sessions[s].taken + mail)]
    && st1.drained == st.drained[st.sessions[s].device := At(st.drained, st.sessions[s].device) + mail]
  }

  lemma PullTakes(st: State, s: nat)
    requires s in st.sessions && st.sessions[s].phase == Flushing
    ensures Takes(st, ActOn(st, s, Pull), s, At(st.queue, st.sessions[s].device))
  {
  }

  lemma TakingKeepsPulled(st: State, st1: State, s: nat, mail: seq<Copy>, d: nat)
    requires Takes(st, st1, s, mail) && PulledInOrder(st, d) && TookInOrder(st, st.sessions[s])
    requires d == st.sessions[s].device ==> Ordered(At(st.drained, d) + mail)
    ensures PulledInOrder(st1, d)
  {
    if d == st.sessions[s].device {
      PullExtends(At(st.drained, d), mail, st.sessions[s].taken);
      assert At(st1.drained, d) == At(st.drained, d) + mail;
    }
  }

  lemma TakingKeepsAccounted(st: State, st1: State, s: nat, mail: seq<Copy>, d: nat)
    requires Takes(st, st1, s, mail) && Accounted(st, d)
    ensures Accounted(st1, d)
  {
    forall c | c in At(st1.drained, d) && c !in At(st.pulled, d)
      ensures TakenBySession(st1, d, c)
    {
      if c in At(st.drained, d) {
        var t :| t in st.sessions && st.sessions[t].device == d && c in st.sessions[t].taken;
        assert c in st1.sessions[t].taken;
      } else {
        assert c in st1.sessions[s].taken;
      }
    }
  }

  lemma PullKeepsPulled(st: State, s: nat, d: nat)
    requires s in st.sessions && st.sessions[s].phase == Flushing && PulledInOrder(st, d) && Accounted(st, d)
    requires Ordered(At(st.drained, d) + At(st.queue, d)) && TookInOrder(st, st.sessions[s])
    ensures PulledInOrder(ActOn(st, s, Pull), d) && Accounted(ActOn(st, s, Pull), d)
  {
    var mail := At(st.queue, st.sessions[s].device);
    PullTakes(st, s);
    TakingKeepsPulled(st, ActOn(st, s, Pull), s, mail, d);
    TakingKeepsAccounted(st, ActOn(st, s, Pull), s, mail, d);
  }

  lemma PullKeepsTakings(st: State, s: nat)
    requires TakingsOk(st) && s in st.sessions && st.sessions[s].phase == Flushing
    requires forall d :: Ordered(At(st.drained, d) + At(st.queue, d))
    ensures TakingsOk(ActOn(st, s, Pull))
  {
    PullKeepsTook(st, s);
    forall d
      ensures PulledInOrder(ActOn(st, s, Pull), d) && Accounted(ActOn(st, s, Pull), d)
    {
      PullKeepsPulled(st, s, d);
    }
  }

  lemma HttpKeepsPulled(st: State, device: nat, d: nat)
    requires PulledInOrder(st, d) && Accounted(st, d) && Ordered(At(st.drained, d) + At(st.queue, d))
    requires forall s | s in st.sessions :: TookInOrder(st, st.sessions[s])
    ensures PulledInOrder(PulledOver(st, device), d) && Accounted(PulledOver(st, device), d)
  {
    var st1 := PulledOver(st, device);
    assert st1.sessions == st.sessions;
    forall c | TakenBySession(st, d, c)
      ensures TakenBySession(st1, d, c)
    {
      var t :| t in st.sessions && st.sessions[t].device == d && c in st.sessions[t].taken;
      assert t in st1.sessions && c in st1.sessions[t].taken;
    }
    if d == device {
      PullExtends(At(st.drained, d), At(st.queue, d), At(st.pulled, d));
      forall s | s in st.sessions && st.sessions[s].device == d
        ensures Apart(st.sessions[s].taken, At(st1.pulled, d))
      {
        assert TookInOrder(st, st.sessions[s]);
      }
    }
  }

  lemma HttpKeepsTakings(st: State, device: nat)
    requires TakingsOk(st) && forall d :: Ordered(At(st.drained, d) + At(st.queue, d))
    ensures TakingsOk(PulledOver(st, device))
  {
    var st1 := PulledOver(st, device);
    forall s | s in st1.sessions
      ensures TookInOrder(st1, st1.sessions[s])
    {
      assert TookInOrder(st, st.sessions[s]);
    }
    forall d
      ensures PulledInOrder(st1, d) && Accounted(st1, d)
    {
      HttpKeepsPulled(st, device, d);
    }
  }

  lemma OtherMovesKeepTakings(st: State, s: nat, move: Move)
    requires s in st.sessions && !(move == Pull && st.sessions[s].phase == Flushing)
    ensures KeepsTakings(st, ActOn(st, s, move))
  {
  }

  lemma AdvanceKeepsTakings(st: State, o: Origin)
    requires o in st.ingests
    ensures KeepsTakings(st, Do(st, Advance(o)))
  {
    AdvanceFrame(st, o);
  }

  lemma ConnectKeepsTakings(st: State, s: nat, device: nat)
    ensures KeepsTakings(st, Do(st, Connect(s, device)))
  {
  }

  lemma SocketKeepsTakings(st: State, s: nat, env: Envelope)
    ensures KeepsTakings(st, Do(st, BeginOnSocket(s, env)))
  {
  }

  lemma OtherStepsKeepTakings(st: State, step: Step)
    requires !step.Act? && !step.Advance? && !step.HttpPull?
    ensures KeepsTakings(st, Do(st, step))
  {
    match step
    case Change(r) => ChangeFrame(st, r);
    case BeginRequest(_, _) =>
    case BeginOnSocket(s, env) => SocketKeepsTakings(st, s, env);
    case Connect(s, device) => ConnectKeepsTakings(st, s, device);
    case Cancel(_) =>
  }

  lemma StepKeepsTakings(st: State, step: Step)
    requires TakingsOk(st) && Conserved(st) && forall d :: OrderFor(st, d)
    ensures TakingsOk(Do(st, step))
  {
    forall d
      ensures Ordered(At(st.drained, d) + At(st.queue, d))
    {
      assert OrderFor(st, d) && ConservedFor(st, d);
    }
    match step
    case Advance(o) =>
      if o in st.ingests {
        AdvanceKeepsTakings(st, o);
        KeptTakings(st, Do(st, step));
      }
    case Act(s, move) =>
      if s in st.sessions {
        if move == Pull && st.sessions[s].phase == Flushing {
          PullKeepsTakings(st, s);
        } else {
          OtherMovesKeepTakings(st, s, move);
          KeptTakings(st, Do(st, step));
        }
      }
    case HttpPull(device) => HttpKeepsTakings(st, device);
    case _ =>
      OtherStepsKeepTakings(st, step);
      KeptTakings(st, Do(st, step));
  }

  // ---------------------------------------------------------------------------
  // Every reachable state
  // ---------------------------------------------------------------------------

  function Reach(steps: seq<Step>): State {
    Runs.Run(Do, Fresh, steps)
  }

  ghost predicate DeliveryInv(st: State) {
    WakeInv(st) && (forall d :: OrderFor(st, d)) && Conserved(st) && SocketsOk(st) && TakingsOk(st)
  }

  lemma StepKeepsDeliveryInv(st: State, step: Step)
    requires DeliveryInv(st)
    ensures DeliveryInv(Do(st, step))
  {
    StepKeepsWakeInv(st, step);
    StepKeepsOrderInv(st, step);
    StepKeepsSocketsOk(st, step);
    StepKeepsTakings(st, step);
    forall d
      ensures ConservedFor(Do(st, step), d)
    {
      StepKeepsConserved(st, step, d);
    }
  }

  predicate Anything(st: State, step: Step) {
    true
  }

  lemma {:induction false} AnythingAllowed(st: State, steps: seq<Step>)
    ensures Runs.Allowed(Do, Anything, st, steps)
    decreases |steps|
  {
    if steps != [] { AnythingAllowed(Do(st, steps[0]), steps[1..]); }
  }

  lemma ReachableInv(steps: seq<Step>)
    ensures DeliveryInv(Reach(steps))
  {
    forall st, step | DeliveryInv(st)
      ensures DeliveryInv(Do(st, step))
    {
      StepKeepsDeliveryInv(st, step);
    }
    AnythingAllowed(Fresh, steps);
    Runs.InvariantOfRun(Do, Anything, DeliveryInv, Fresh, steps);
  }

  lemma ReachStep(steps: seq<Step>)
    requires steps != []
    ensures Reach(steps) == Do(Reach(steps[..|steps| - 1]), steps[|steps| - 1])
  {
    var init, last := steps[..|steps| - 1], steps[|steps| - 1];
    assert steps == init + [last];
    Runs.RunInParts(Do, Fresh, init, [last]);
    Runs.RunOfOne(Do, Reach(init), last);
  }

  // ---------------------------------------------------------------------------
  // No lost wake-up
  // ---------------------------------------------------------------------------

  /** A request is dropped that has queued a copy for `d` and has yet to notify `d`. */
  predicate DropsInDebt(st: State, step: Step, d: nat) {
    step.Cancel? && Request(step.id) in st.ingests && Owes(st.ingests[Request(step.id)].phase, d)
  }

  /** The queue of `d` is emptied. */
  predicate Drains(st: State, step: Step, d: nat) {
    || (step.HttpPull? && step.device == d)
    || (step.Act? && step.move == Pull && step.s in st.sessions && st.sessions[step.s].device == d
        && st.sessions[step.s].phase == Flushing)
  }

  /** A request was dropped in debt to `d`, and the queue of `d` has not been emptied since. */
  predicate DroppedInDebt(steps: seq<Step>, d: nat) {
    exists k | 0 <= k < |steps| ::
      && DropsInDebt(Reach(steps[..k]), steps[k], d)
      && forall j | k < j < |steps| :: !Drains(Reach(steps[..j]), steps[j], d)
  }

  lemma OrphanedAfter(st: State, step: Step, d: nat)
    ensures d in Do(st, step).orphaned <==> DropsInDebt(st, step, d) || (d in st.orphaned && !Drains(st, step, d))
  {
    match step
    case Change(r) => ChangeFrame(st, r);
    case Advance(o) => if o in st.ingests { AdvanceFrame(st, o); }
    case Act(s, move) =>
    case _ =>
  }

  /** The debt at the end of a run, from the debt before the last step. */
  lemma DebtAfter(init: seq<Step>, last: Step, d: nat)
    ensures DroppedInDebt(init + [last], d)
            <==> DropsInDebt(Reach(init), last, d) || (DroppedInDebt(init, d) && !Drains(Reach(init), last, d))
  {
    var steps := init + [last];
    forall k | 0 <= k < |steps|
      ensures steps[..k] == if k < |init| then init[..k] else init
    {
    }
    if DroppedInDebt(init, d) && !Drains(Reach(init), last, d) {
      DebtStays(init, last, d);
    }
    if DropsInDebt(Reach(init), last, d) {
      assert DropsInDebt(Reach(steps[..|init|]), steps[|init|], d);
    } else if DroppedInDebt(steps, d) {
      DebtWasThere(init, last, d);
    }
  }

  lemma DebtStays(init: seq<Step>, last: Step, d: nat)
    requires DroppedInDebt(init, d) && !Drains(Reach(init), last, d)
    ensures DroppedInDebt(init + [last], d)
  {
    var steps := init + [last];
    var k :| 0 <= k < |init| && DropsInDebt(Reach(init[..k]), init[k], d)
             && forall j | k < j < |init| :: !Drains(Reach(init[..j]), init[j], d);
    assert steps[..k] == init[..k];
    assert DropsInDebt(Reach(steps[..k]), steps[k], d);
    forall j | k < j < |steps|
      ensures !Drains(Reach(steps[..j]), steps[j], d)
    {
      assert steps[..j] == if j < |init| then init[..j] else init;
    }
  }

  lemma DebtWasThere(init: seq<Step>, last: Step, d: nat)
    requires DroppedInDebt(init + [last], d) && !DropsInDebt(Reach(init), last, d)
    ensures DroppedInDebt(init, d) && !Drains(Reach(init), last, d)
  {
    var steps := init + [last];
    var k :| 0 <= k < |steps| && DropsInDebt(Reach(steps[..k]), steps[k], d)
             && forall j | k < j < |steps| :: !Drains(Reach(steps[..j]), steps[j], d);
    assert steps[..|init|] == init && steps[|init|] == last;
    assert k < |init| && steps[..k] == init[..k] && DropsInDebt(Reach(init[..k]), init[k], d);
    forall j | k < j < |init|
      ensures !Drains(Reach(init[..j]), init[j], d)
    {
      assert steps[..j] == init[..j] && !Drains(Reach(steps[..j]), steps[j], d);
    }
  }

  lemma {:induction false} OrphanedIff(steps: seq<Step>, d: nat)
    ensures d in Reach(steps).orphaned <==> DroppedInDebt(steps, d)
    decreases |steps|
  {
    if steps != [] {
      var init, last := steps[..|steps| - 1], steps[|steps| - 1];
      assert steps == init + [last];
      OrphanedIff(init, d);
      ReachStep(steps);
      OrphanedAfter(Reach(init), last, d);
      DebtAfter(init, last, d);
    }
  }

  /**
  In every run: a session waiting in its loop while its device has mail, and no ingest still owes a
  notification or was dropped owing one since the queue was last drained, is not asleep. If it holds the
  hub's entry a signal is pending; if it has lost the entry its channel yields at once, a signal or the end.
  */
  lemma NoLostWakeUp(steps: seq<Step>, s: nat)
    ensures var st := Reach(steps);
            s in st.sessions && st.sessions[s].phase == Waiting && At(st.queue, st.sessions[s].device) != []
            && !Owed(st.ingests, st.sessions[s].device) && !DroppedInDebt(steps, st.sessions[s].device) ==>
              && (Owns(st.hub, st.sessions[s].device, s) ==> PendingOf(st.hub, s) > 0)
              && Receive(st.hub, st.sessions[s].device, s).1 != Blocked
  {
    ReachableInv(steps);
    var st := Reach(steps);
    if s in st.sessions {
      OrphanedIff(steps, st.sessions[s].device);
      assert WakeOk(st, st.sessions[s].device);
    }
  }

  /**
  When all ingests are idle, none was dropped in debt, and the registered session waits without a signal,
  the queue is empty.
  */
  lemma QuietMeansDelivered(steps: seq<Step>, d: nat)
    requires var st := Reach(steps);
             && (forall o | o in st.ingests :: st.ingests[o].phase == Idle) && !DroppedInDebt(steps, d)
             && d in st.hub.sessions && st.hub.sessions[d] in st.sessions
             && st.sessions[st.hub.sessions[d]].phase == Waiting && PendingOf(st.hub, st.hub.sessions[d]) == 0
    ensures At(Reach(steps).queue, d) == [] && At(Reach(steps).drained, d) == At(Reach(steps).history, d)
  {
    ReachableInv(steps);
    var st := Reach(steps);
    OrphanedIff(steps, d);
    assert WakeOk(st, d) && ConservedFor(st, d) && !Owed(st.ingests, d);
    assert At(st.drained, d) + [] == At(st.drained, d);
  }

  // ---------------------------------------------------------------------------
  // At most once, in order
  // ---------------------------------------------------------------------------

  lemma OrderedDistinct(h: seq<Copy>)
    requires Ordered(h)
    ensures NoDuplicates(h)
  {
    forall i, j | 0 <= i < j < |h|
      ensures h[i] != h[j]
    {
      if h[i].origin == h[j].origin { assert h[i].nth < h[j].nth; }
    }
  }

  /** In every run: handed out and still queued make up the history, in order, and no copy occurs twice in it. */
  lemma QueueConserved(steps: seq<Step>, d: nat)
    ensures var st := Reach(steps);
            && At(st.history, d) == At(st.drained, d) + At(st.queue, d)
            && NoDuplicates(At(st.history, d))
  {
    ReachableInv(steps);
    var st := Reach(steps);
    assert OrderFor(st, d) && ConservedFor(st, d);
    OrderedDistinct(At(st.history, d));
  }

  /** Each copy handed out went either over HTTP or to one session, once. */
  ghost predicate HandedOutOnce(st: State, d: nat) {
    && NoDuplicates(At(st.pulled, d))
    && (forall s | s in st.sessions :: NoDuplicates(st.sessions[s].taken))
    && (forall c :: c in At(st.drained, d) <==> c in At(st.pulled, d) || TakenBySession(st, d, c))
    && (forall s | s in st.sessions && st.sessions[s].device == d :: Apart(st.sessions[s].taken, At(st.pulled, d)))
    && (forall s, t |
          s in st.sessions && t in st.sessions && s != t && st.sessions[s].device == d == st.sessions[t].device ::
          Apart(st.sessions[s].taken, st.sessions[t].taken))
  }

  /** In every run: what was handed out is split, without overlap, among HTTP pulls and the device's sessions. */
  lemma EachCopyHandedOutOnce(steps: seq<Step>, d: nat)
    ensures HandedOutOnce(Reach(steps), d)
  {
    ReachableInv(steps);
    var st := Reach(steps);
    assert PulledInOrder(st, d) && Accounted(st, d);
    OrderedDistinct(At(st.pulled, d));
    forall s | s in st.sessions
      ensures NoDuplicates(st.sessions[s].taken) && forall c | c in st.sessions[s].taken ::
              c in At(st.drained, st.sessions[s].device)
    {
      assert TookInOrder(st, st.sessions[s]);
      OrderedDistinct(st.sessions[s].taken);
    }
  }

  /** The frames a session has drained and not yet offered to its socket. */
  function InHand(ses: Session): seq<Copy> {
    if ses.phase.Sending? then ses.phase.batch else []
  }

  /** The socket of `s` fails on a frame. */
  predicate SocketFails(st: State, step: Step, s: nat) {
    step == Act(s, SendFails) && s in st.sessions && st.sessions[s].phase.Sending? && st.sessions[s].phase.batch != []
  }

  predicate SocketFailed(steps: seq<Step>, s: nat) {
    exists k | 0 <= k < |steps| :: SocketFails(Reach(steps[..k]), steps[k], s)
  }

  function LostOf(st: State, s: nat): seq<Copy> {
    if s in st.sessions then st.sessions[s].lost else []
  }

  lemma LostAfter(st: State, step: Step, s: nat)
    ensures LostOf(Do(st, step), s) == if SocketFails(st, step, s) then st.sessions[s].phase.batch else LostOf(st, s)
  {
    match step
    case Change(r) => ChangeFrame(st, r);
    case Advance(o) => if o in st.ingests { AdvanceFrame(st, o); }
    case _ =>
  }

  lemma {:induction false} LostIff(steps: seq<Step>, s: nat)
    ensures LostOf(Reach(steps), s) != [] <==> SocketFailed(steps, s)
    decreases |steps|
  {
    if steps != [] {
      var init, last := steps[..|steps| - 1], steps[|steps| - 1];
      LostIff(init, s);
      ReachStep(steps);
      LostAfter(Reach(init), last, s);
      assert forall k | 0 <= k < |init| :: init[..k] == steps[..k] && init[k] == steps[k];
      if SocketFailed(init, s) {
        var k :| 0 <= k < |init| && SocketFails(Reach(init[..k]), init[k], s);
        assert SocketFails(Reach(steps[..k]), steps[k], s);
      }
      if SocketFails(Reach(init), last, s) {
        assert SocketFails(Reach(steps[..|init|]), steps[|init|], s);
      }
    }
  }

  /**
  In every run: what a session took is what its socket accepted, then what it has in hand, then what was
  lost; and something was lost exactly if its socket failed on a frame. A session that waits, or that
  the client or a replacement ended while it waited, has put all it took on its socket.
  */
  lemma LostOnlyWithSocket(steps: seq<Step>, s: nat)
    requires s in Reach(steps).sessions
    ensures var ses := Reach(steps).sessions[s];
            && ses.taken == ses.sent + InHand(ses) + ses.lost
            && (ses.lost != [] <==> SocketFailed(steps, s))
            && (!SocketFailed(steps, s) && !ses.phase.Sending? ==> ses.sent == ses.taken)
  {
    ReachableInv(steps);
    var ses := Reach(steps).sessions[s];
    assert SocketOk(ses);
    LostIff(steps, s);
    assert ses.sent + [] == ses.sent && ses.sent + InHand(ses) + [] == ses.sent + InHand(ses);
  }

  lemma SentWasTaken(ses: Session)
    requires SocketOk(ses)
    ensures ses.sent <= ses.taken && forall c | c in ses.sent :: c in ses.taken
  {
    assert ses.sent <= ses.taken;
    assert forall i | 0 <= i < |ses.sent| :: ses.sent[i] == ses.taken[i];
  }

  /**
  In every run: what a session has put on its socket is a beginning of what it took, without
  repetition, all of it handed out for its device, and shared with no other session and no HTTP pull.
  */
  lemma SentAtMostOnce(steps: seq<Step>, s: nat)
    requires s in Reach(steps).sessions
    ensures var st := Reach(steps);
            var ses := st.sessions[s];
            && ses.sent <= ses.taken && NoDuplicates(ses.taken)
            && (forall c | c in ses.sent :: c in At(st.drained, ses.device) && c !in At(st.pulled, ses.device))
            && forall t | t in st.sessions && t != s && st.sessions[t].device == ses.device ::
               Apart(ses.sent, st.sessions[t].sent)
  {
    ReachableInv(steps);
    var st := Reach(steps);
    var ses := st.sessions[s];
    assert SocketOk(ses) && TookInOrder(st, ses) && PulledInOrder(st, ses.device);
    SentWasTaken(ses);
    OrderedDistinct(ses.taken);
    forall t | t in st.sessions && t != s && st.sessions[t].device == ses.device
      ensures Apart(ses.sent, st.sessions[t].sent)
    {
      assert SocketOk(st.sessions[t]) && Apart(ses.taken, st.sessions[t].taken);
      SentWasTaken(ses);
      SentWasTaken(st.sessions[t]);
    }
  }

  /** The numbers of the envelopes of origin `o`, in the order in which `h` has their copies. */
  function NumbersFrom(h: seq<Copy>, o: Origin): seq<nat> {
    if h == [] then []
    else NumbersFrom(h[..|h| - 1], o) + if h[|h| - 1].origin == o then [h[|h| - 1].nth] else []
  }

  predicate Increasing(ns: seq<nat>) {
    forall i, j | 0 <= i < j < |ns| :: ns[i] < ns[j]
  }

  lemma {:induction false} OrderedNumbers(h: seq<Copy>, o: Origin)
    requires Ordered(h)
    ensures Increasing(NumbersFrom(h, o))
    ensures forall n | n in NumbersFrom(h, o) :: exists k | 0 <= k < |h| :: h[k].origin == o && h[k].nth == n
  {
    if h != [] {
      OrderedNumbers(h[..|h| - 1], o);
      var ns := NumbersFrom(h[..|h| - 1], o);
      forall n | n in ns
        ensures exists k | 0 <= k < |h| - 1 :: h[k].origin == o && h[k].nth == n
      {
        var k :| 0 <= k < |h| - 1 && h[..|h| - 1][k].origin == o && h[..|h| - 1][k].nth == n;
        assert h[k].origin == o && h[k].nth == n;
      }
      assert forall i | 0 <= i < |ns| :: ns[i] in ns;
      if h[|h| - 1].origin == o { assert h[|h| - 1].nth in NumbersFrom(h, o); }
    }
  }

  /**
  In every run, on every device: the copies of the envelopes accepted from one socket or request are
  queued, and put on any one socket, in the order in which they were accepted, each copy being of the
  envelope its number names.
  */
  lemma FirstInFirstOut(steps: seq<Step>, o: Origin, d: nat)
    ensures var st := Reach(steps);
            && Increasing(NumbersFrom(At(st.history, d), o))
            && (forall s | s in st.sessions && st.sessions[s].device == d ::
               Increasing(NumbersFrom(st.sessions[s].sent, o)))
            && (forall c | c in At(st.history, d) && c.origin == o ::
                  o in st.ingests && 1 <= c.nth <= |st.ingests[o].asked| && c.env == st.ingests[o].asked[c.nth - 1])
  {
    ReachableInv(steps);
    var st := Reach(steps);
    HistoryInOrder(st, o, d);
    forall s | s in st.sessions && st.sessions[s].device == d
      ensures Increasing(NumbersFrom(st.sessions[s].sent, o))
    {
      assert SocketOk(st.sessions[s]) && TookInOrder(st, st.sessions[s]);
      SentInOrder(st.sessions[s], o);
    }
  }

  lemma SentInOrder(ses: Session, o: Origin)
    requires SocketOk(ses) && Ordered(ses.taken)
    ensures Increasing(NumbersFrom(ses.sent, o))
  {
    SentWasTaken(ses);
    assert forall i | 0 <= i < |ses.sent| :: ses.sent[i] == ses.taken[i];
    OrderedNumbers(ses.sent, o);
  }

  lemma HistoryInOrder(st: State, o: Origin, d: nat)
    requires forall e :: OrderFor(st, e)
    ensures Increasing(NumbersFrom(At(st.history, d), o))
    ensures forall c | c in At(st.history, d) && c.origin == o ::
              o in st.ingests && 1 <= c.nth <= |st.ingests[o].asked| && c.env == st.ingests[o].asked[c.nth - 1]
  {
    var h := At(st.history, d);
    assert OrderFor(st, d);
    OrderedNumbers(h, o);
    forall c | c in h && c.origin == o
      ensures o in st.ingests && 1 <= c.nth <= |st.ingests[o].asked| && c.env == st.ingests[o].asked[c.nth - 1]
    {
      var k :| 0 <= k < |h| && h[k] == c;
      assert InStep(h, d, o, st.ingests[o]);
    }
  }

  // ---------------------------------------------------------------------------
  // Losing the hub's entry
  // ---------------------------------------------------------------------------

  /** Exactly what takes the entry from a session: a newer connection, or any session of the device leaving. */
  lemma LosesEntryIff(st: State, step: Step, d: nat, t: nat)
    requires HubOk(st) && Owns(st.hub, d, t)
    ensures !Owns(Do(st, step).hub, d, t) <==>
              || (step.Connect? && step.device == d && step.s !in st.sessions && Socket(step.s) !in st.ingests)
              || (step.Act? && step.move == Deregister && step.s in st.sessions && st.sessions[step.s].device == d
                  && st.sessions[step.s].phase == Leaving)
  {
    match step
    case Advance(o) => if o in st.ingests { AdvanceFrame(st, o); }
    case Act(s, move) =>
      if s in st.sessions {
        if move == Deregister {
          LeaverTakesEntryIff(st, s, d, t);
        } else {
          HubEntriesStay(st.hub, At(st.queue, st.sessions[s].device), PhaseOf(st, Socket(s)), s, st.sessions[s], move);
        }
      }
    case _ =>
  }

  lemma LeaverTakesEntryIff(st: State, s: nat, d: nat, t: nat)
    requires Owns(st.hub, d, t) && s in st.sessions
    ensures !Owns(Do(st, Act(s, Deregister)).hub, d, t)
            <==> st.sessions[s].device == d && st.sessions[s].phase == Leaving
  {
  }

  lemma HubEntriesStay(hub: HubState, mail: seq<Copy>, ingest: IngestPhase, s: nat, ses: Session, move: Move)
    requires move != Deregister
    ensures MoveOf(hub, mail, ingest, s, ses, move).hub.sessions == hub.sessions
  {
  }

  function Settles(s: nat, d: nat): seq<Step> {
    [Connect(s, d), Act(s, Pull), Act(s, SentAll)]
  }

  lemma PullsNothing(st: State, s: nat)
    requires s in st.sessions && st.sessions[s].phase == Flushing && At(st.queue, st.sessions[s].device) == []
    ensures var st1 := Do(st, Act(s, Pull));
            && st1.sessions == st.sessions[s := st.sessions[s].(phase := Sending([]))]
            && st1.ingests == st.ingests && st1.hub == st.hub && At(st1.queue, st.sessions[s].device) == []
  {
    assert st.sessions[s].taken + [] == st.sessions[s].taken;
  }

  lemma NothingLeftToSend(st: State, s: nat)
    requires s in st.sessions && st.sessions[s].phase == Sending([])
    ensures Do(st, Act(s, SentAll)) == st.(sessions := st.sessions[s := st.sessions[s].(phase := Waiting)])
  {
  }

  /** Connecting to an empty queue ends in the waiting loop, registered. */
  lemma Settled3(st: State, s: nat, d: nat)
    requires s !in st.sessions && Socket(s) !in st.ingests && At(st.queue, d) == []
    ensures var st1 := Runs.Run(Do, st, Settles(s, d));
            && st1.sessions == st.sessions[s := Session(d, Waiting, [], [], [])]
            && st1.ingests == st.ingests[Socket(s) := Ingest([], Idle)]
            && st1.hub == Register(st.hub, d, s) && At(st1.queue, d) == []
  {
    var st1 := Do(st, Connect(s, d));
    assert st1.sessions[s] == NewSession(d) && At(st1.queue, d) == [];
    var st2 := Do(st1, Act(s, Pull));
    PullsNothing(st1, s);
    NothingLeftToSend(st2, s);
    Runs.RunOfThree(Do, st, Connect(s, d), Act(s, Pull), Act(s, SentAll));
  }

  /** Session 0 connects, session 1 replaces it, and then session 0 hangs up. */
  const OldSessionLeaves: seq<Step> := Settles(0, 7) + (Settles(1, 7) + [Act(0, Hangup)])

  /**
  The last session to connect loses its entry to an older one that leaves: the entry is dropped by
  device. Its channel then ends and it stops as if it had been replaced, with nobody registered.
  */
  lemma OlderSessionEvictsNewer()
    ensures Evicted(Reach(OldSessionLeaves), 7, 0, 1)
  {
    var a := Runs.Run(Do, Fresh, Settles(0, 7));
    Settled3(Fresh, 0, 7);
    var b := Runs.Run(Do, a, Settles(1, 7));
    Settled3(a, 1, 7);
    Runs.RunInParts(Do, Fresh, Settles(0, 7), Settles(1, 7) + [Act(0, Hangup)]);
    Runs.RunInParts(Do, a, Settles(1, 7), [Act(0, Hangup)]);
    Runs.RunOfOne(Do, b, Act(0, Hangup));
    LeavingEvicts(b, 7, 0, 1);
  }

  /** The newer session `t` is registered and asleep; once `s` has left, it is closed and nobody is registered. */
  predicate Evicted(st: State, d: nat, s: nat, t: nat) {
    && Owns(st.hub, d, t) && t in st.sessions && st.sessions[t].phase == Waiting && Receive(st.hub, d, t).1 == Blocked
    && var st1 := Do(st, Act(s, Deregister));
       && d !in st1.hub.sessions && Receive(st1.hub, d, t).1 == Closed
       && t in st1.sessions && Do(st1, Act(t, Recv)).sessions[t].phase == Gone
  }

  lemma LeavingEvicts(b: State, d: nat, s: nat, t: nat)
    requires s != t && s in b.sessions && b.sessions[s] == Session(d, Waiting, [], [], [])
    requires t in b.sessions && b.sessions[t] == Session(d, Waiting, [], [], []) && Owns(b.hub, d, t)
             && PendingOf(b.hub, t) == 0
    ensures Evicted(Do(b, Act(s, Hangup)), d, s, t)
  {
    var st := Do(b, Act(s, Hangup));
    assert st.hub == b.hub && st.sessions == b.sessions[s := Session(d, Leaving, [], [], [])];
    var st1 := Do(st, Act(s, Deregister));
    assert st1.hub == Unregister(st.hub, d) && st1.sessions[t] == st.sessions[t];
  }

  // ---------------------------------------------------------------------------
  // A dropped request
  // ---------------------------------------------------------------------------

  /** Session `s` holds the entry of `d` and waits, with mail in the queue, no signal, and nobody to send one. */
  ghost predicate Stranded(st: State, s: nat, d: nat) {
    && s in st.sessions && st.sessions[s].phase == Waiting && Owns(st.hub, d, s)
    && At(st.queue, d) != [] && Receive(st.hub, d, s).1 == Blocked && !Owed(st.ingests, d)
  }

  const Someone: UserStore.User := UserStore.User(0, "", None, None, None, false, None, None, None)
  const Note: Envelope := Envelope(0, 0, Direct(0), Chat, [1], 1)

  /** A request resolves its one recipient, queues one copy, and is dropped before it notifies. */
  const QueueAndDrop: seq<Step> :=
    [BeginRequest(0, Note), Advance(Request(0)), Advance(Request(0)), Advance(Request(0)), Cancel(0)]

  const DropRun: seq<Step> :=
    [Change(CreateUser(Someone)), Change(RegisterDevice(UserStore.Device(7, 0, [])))] + (Settles(0, 7) + QueueAndDrop)

  /** `d` is the only device of the user the note is for, and session `s` waits for mail of `d`. */
  predicate ReadyFor(st: State, s: nat, d: nat) {
    && Ids(UserStore.DevicesOf(st.users, 0)) == [d] && st.ingests == map[Socket(s) := Ingest([], Idle)]
    && s in st.sessions && st.sessions[s].phase == Waiting && Owns(st.hub, d, s)
    && At(st.queue, d) == [] && PendingOf(st.hub, s) == 0
  }

  /** Where the note's request stands, with sessions, hub and accounts as they were. */
  predicate NoteAt(st: State, st1: State, p: IngestPhase) {
    && st1.sessions == st.sessions && st1.hub == st.hub && st1.users == st.users && st1.groups == st.groups
    && st1.ingests == st.ingests[Request(0) := Ingest([Note], p)]
  }

  lemma NoteBegins(st: State, s: nat, d: nat)
    requires ReadyFor(st, s, d)
    ensures NoteAt(st, Do(st, BeginRequest(0, Note)), Resolving(Note, [0], []))
  {
    assert Note.ciphertext != [] && Audience(st.groups, Note.to) == Ok([0]) && [] + [Note] == [Note];
    assert Request(0) !in st.ingests;
  }

  lemma NoteMoves(st: State, a: State, p: IngestPhase, q: IngestPhase)
    requires NoteAt(st, a, p) && !p.Notifying? && q == NextPhase(a.users, a.groups, p)
    ensures NoteAt(st, Do(a, Advance(Request(0))), q)
  {
    AdvanceFrame(a, Request(0));
    assert Perform(a, Request(0)).hub == a.hub;
  }

  lemma NoteResolved(st: State, s: nat, d: nat)
    requires ReadyFor(st, s, d)
    ensures NoteAt(st, Do(Do(st, BeginRequest(0, Note)), Advance(Request(0))), Resolving(Note, [], [d]))
  {
    NoteBegins(st, s, d);
    assert Found(st.users, Note, [], 0) == [d] && [0][1..] == [];
    NoteMoves(st, Do(st, BeginRequest(0, Note)), Resolving(Note, [0], []), Resolving(Note, [], [d]));
  }

  lemma NoteCopied(st: State, b: State, d: nat)
    requires NoteAt(st, b, Resolving(Note, [], [d]))
    ensures var st1 := Do(Do(b, Advance(Request(0))), Advance(Request(0)));
            NoteAt(st, st1, Enqueuing(Note, [d], [])) && At(st1.queue, d) != []
  {
    assert [] + [d] == [d] && [d][1..] == [];
    NoteMoves(st, b, Resolving(Note, [], [d]), Enqueuing(Note, [], [d]));
    var c := Do(b, Advance(Request(0)));
    NoteMoves(st, c, Enqueuing(Note, [], [d]), Enqueuing(Note, [d], []));
    AdvanceQueues(c, Request(0));
  }

  lemma DropStrands(st: State, c: State, s: nat, d: nat)
    requires ReadyFor(st, s, d) && NoteAt(st, c, Enqueuing(Note, [d], [])) && At(c.queue, d) != []
    ensures Stranded(Do(c, Cancel(0)), s, d)
  {
    var c1 := Do(c, Cancel(0));
    assert c1.ingests == st.ingests[Request(0) := Ingest([Note], Idle)];
    assert c1.sessions == c.sessions && c1.hub == c.hub && c1.queue == c.queue;
  }

  lemma DroppedNoteStrands(st: State, s: nat, d: nat)
    requires ReadyFor(st, s, d)
    ensures Stranded(Runs.Run(Do, st, QueueAndDrop), s, d)
  {
    NoteResolved(st, s, d);
    NoteCopied(st, Do(Do(st, BeginRequest(0, Note)), Advance(Request(0))), d);
    Runs.RunOfFive(Do, st, BeginRequest(0, Note), Advance(Request(0)), Advance(Request(0)), Advance(Request(0)),
        Cancel(0));
    DropStrands(st, Do(Do(Do(Do(st, BeginRequest(0, Note)), Advance(Request(0))), Advance(Request(0))),
        Advance(Request(0))), s, d);
  }

  /** A request dropped between queueing and notifying can leave mail behind that nobody is told of. */
  lemma DroppedRequestStrandsMail()
    ensures Stranded(Reach(DropRun), 0, 7)
  {
    var setup := [Change(CreateUser(Someone)), Change(RegisterDevice(UserStore.Device(7, 0, [])))];
    var a := Do(Fresh, Change(CreateUser(Someone)));
    assert a == Fresh.(users := UserStore.UserState(map[0 := Someone], map[]));
    var b := Do(a, Change(RegisterDevice(UserStore.Device(7, 0, []))));
    assert UserStore.DevicesOf(b.users, 0) == [UserStore.Device(7, 0, [])];
    Runs.RunInParts(Do, Fresh, setup[..1], setup[1..]);
    Runs.RunOfOne(Do, Fresh, setup[0]);
    Runs.RunOfOne(Do, a, setup[1]);
    assert setup[..1] == [setup[0]] && setup[1..] == [setup[1]] && setup[..1] + setup[1..] == setup;
    assert Runs.Run(Do, Fresh, setup) == b;
    Settled3(b, 0, 7);
    var c := Runs.Run(Do, b, Settles(0, 7));
    SettlesKeepsUsers(b, 0, 7);
    DroppedNoteStrands(c, 0, 7);
    Runs.RunInParts(Do, Fresh, setup, Settles(0, 7) + QueueAndDrop);
    Runs.RunInParts(Do, b, Settles(0, 7), QueueAndDrop);
  }

  lemma SettlesKeepsUsers(st: State, s: nat, d: nat)
    ensures Runs.Run(Do, st, Settles(s, d)).users == st.users
  {
    var a := Do(st, Connect(s, d));
    assert a.users == st.users;
    ActKeepsUsers(a, s, Pull);
    ActKeepsUsers(Do(a, Act(s, Pull)), s, SentAll);
    Runs.RunOfThree(Do, st, Connect(s, d), Act(s, Pull), Act(s, SentAll));
  }

  lemma ActKeepsUsers(st: State, s: nat, move: Move)
    ensures Do(st, Act(s, move)).users == st.users
  {
    if s in st.sessions { ActFrame(st, s, move); }
  }
}
