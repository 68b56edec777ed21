/** Envelope ingest: resolve the recipient to devices, queue one copy for each. */
module Messaging {
  import opened Prelude
  import opened Collections
  import UserStore
  import GroupStore

  datatype Recipient = Direct(user: nat) | Group(group: nat)

  datatype MessageKind = Chat | Control | GroupHandshake

  datatype Envelope = Envelope(id: nat, from: nat, to: Recipient, kind: MessageKind, ciphertext: Bytes, ts: int)

  datatype IngestError = EmptyCiphertext | UnknownGroup

  // ---------------------------------------------------------------------------
  // Queue
  // ---------------------------------------------------------------------------

  type Queues = map<nat, seq<Envelope>>

  function QueueOf(q: Queues, device: nat): seq<Envelope> {
    if device in q then q[device] else []
  }

  class InMemoryMessageQueue {
    var inner: Queues

    constructor ()
      ensures inner == map[]
    {
      inner := map[];
    }

    method Enqueue(device: nat, envelope: Envelope)
      modifies this
      ensures inner == old(inner)[device := QueueOf(old(inner), device) + [envelope]]
    {
      var q := if device in inner then inner[device] else [];
      inner := inner[device := q + [envelope]];
    }

    method Drain(device: nat) returns (batch: seq<Envelope>)
      modifies this
      ensures batch == QueueOf(old(inner), device)
      ensures QueueOf(inner, device) == []
      ensures forall d | d != device :: QueueOf(inner, d) == QueueOf(old(inner), d)
    {
      if device !in inner { return []; }
      batch := inner[device];
      inner := inner[device := []];
    }

    method PurgeDevice(device: nat)
      modifies this
      ensures inner == old(inner) - {device}
    {
      inner := inner - {device};
    }
  }

  // ---------------------------------------------------------------------------
  // Recipients
  // ---------------------------------------------------------------------------

  function Ids(ds: seq<UserStore.Device>): (ids: seq<nat>)
    ensures |ids| == |ds| && forall i | 0 <= i < |ds| :: ids[i] == ds[i].id
  {
    seq(|ds|, i requires 0 <= i < |ds| => ds[i].id)
  }

  /** The users an envelope is for; a group lists its members as they were given, repeats included. */
  function Audience(groups: GroupStore.Groups, to: Recipient): Result<seq<nat>, IngestError> {
    match to
    case Direct(u) => Ok([u])
    case Group(g) =>
      match GroupStore.Members(groups, g)
      case Ok(ms) => Ok(ms)
      case Err(_) => Err(UnknownGroup)
  }

  /** Appends the identifiers not seen yet, in order. */
  function AppendNew(out: seq<nat>, ids: seq<nat>): seq<nat>
    decreases |ids|
  {
    if ids == [] then out
    else AppendNew(if ids[0] in out then out else out + [ids[0]], ids[1..])
  }

  function Gather(st: UserStore.UserState, members: seq<nat>, out: seq<nat>): seq<nat> {
    if members == [] then out
    else Gather(st, members[1..], AppendNew(out, Ids(UserStore.DevicesOf(st, members[0]))))
  }

  /** `resolve_devices`: a direct message takes the user's list as it is, a group message drops repeats. */
  function Resolve(st: UserStore.UserState, groups: GroupStore.Groups, to: Recipient): Result<seq<nat>, IngestError> {
    match to
    case Direct(u) => Ok(Ids(UserStore.DevicesOf(st, u)))
    case Group(g) =>
      match Audience(groups, to)
      case Ok(ms) => Ok(Gather(st, ms, []))
      case Err(e) => Err(e)
  }

  /** `d` is a device of some user the envelope is for. */
  predicate Addressed(st: UserStore.UserState, audience: seq<nat>, d: nat) {
    exists u | u in audience :: UserStore.HasDevice(UserStore.DevicesOf(st, u), d)
  }

  lemma {:induction false} AppendNewExact(out: seq<nat>, ids: seq<nat>)
    requires NoDuplicates(out)
    ensures NoDuplicates(AppendNew(out, ids))
    ensures forall d :: d in AppendNew(out, ids) <==> d in out || d in ids
    decreases |ids|
  {
    if ids != [] {
      AppendNewExact(if ids[0] in out then out else out + [ids[0]], ids[1..]);
    }
  }

  lemma {:induction false} GatherExact(st: UserStore.UserState, members: seq<nat>, out: seq<nat>)
    requires NoDuplicates(out)
    ensures NoDuplicates(Gather(st, members, out))
    ensures forall d :: d in Gather(st, members, out) <==> d in out || Addressed(st, members, d)
  {
    if members != [] {
      var ids := Ids(UserStore.DevicesOf(st, members[0]));
      AppendNewExact(out, ids);
      GatherExact(st, members[1..], AppendNew(out, ids));
      forall d
        ensures Addressed(st, members, d) <==> d in ids || Addressed(st, members[1..], d)
      {
        if Addressed(st, members, d) {
          var u :| u in members && UserStore.HasDevice(UserStore.DevicesOf(st, u), d);
          if u == members[0] {
            var i :| 0 <= i < |UserStore.DevicesOf(st, u)| && UserStore.DevicesOf(st, u)[i].id == d;
            assert ids[i] == d;
          } else {
            assert u in members[1..];
          }
        }
      }
    }
  }

  /**
  In a store without repeated devices, an envelope resolves to each device of its audience exactly
  once: the direct case leans on the store's invariant, the group case on the filter.
  */
  lemma ResolveExact(st: UserStore.UserState, groups: GroupStore.Groups, to: Recipient)
    requires UserStore.StateOk(st)
    ensures Resolve(st, groups, to).Ok? <==> Audience(groups, to).Ok?
    ensures Resolve(st, groups, to).Ok? ==>
              && NoDuplicates(Resolve(st, groups, to).value)
              && forall d :: d in Resolve(st, groups, to).value <==> Addressed(st, Audience(groups, to).value, d)
  {
    match to
    case Direct(u) =>
      var ds := UserStore.DevicesOf(st, u);
      assert forall i | 0 <= i < |ds| :: Ids(ds)[i] == ds[i].id;
      assert u in [u];
    case Group(g) =>
      if Audience(groups, to).Ok? {
        GatherExact(st, Audience(groups, to).value, []);
      }
  }

  // ---------------------------------------------------------------------------
  // Fan-out
  // ---------------------------------------------------------------------------

  function EnqueueAll(q: Queues, devices: seq<nat>, env: Envelope): Queues
    decreases |devices|
  {
    if devices == [] then q
    else EnqueueAll(q[devices[0] := QueueOf(q, devices[0]) + [env]], devices[1..], env)
  }

  /** A sender that left the timestamp at zero gets the server's. */
  function Stamped(env: Envelope, now: int): Envelope {
    if env.ts == 0 then env.(ts := now) else env
  }

  /** A copy as the server queues it: the envelope as it came in, but stamped `now` if it had no timestamp. */
  predicate CopyOf(copy: Envelope, env: Envelope, now: int) {
    && copy.id == env.id && copy.from == env.from && copy.to == env.to && copy.kind == env.kind
    && copy.ciphertext == env.ciphertext && copy.ts == (if env.ts == 0 then now else env.ts)
  }

  lemma StampedIsCopy(env: Envelope, now: int)
    ensures CopyOf(Stamped(env, now), env, now)
    ensures forall c | CopyOf(c, env, now) :: c == Stamped(env, now)
  {
  }

  /** The result of an ingest and the queues after it; `env` has its timestamp. */
  function Ingested(users: UserStore.UserState, groups: GroupStore.Groups, q: Queues, env: Envelope)
    : (Queues, Result<nat, IngestError>)
  {
    if env.ciphertext == [] then (q, Err(EmptyCiphertext))
    else match Resolve(users, groups, env.to)
      case Err(e) => (q, Err(e))
      case Ok(ds) => (EnqueueAll(q, ds, env), Ok(|ds|))
  }

  /** One more copy at the back of the queue of each device of the audience, and no other queue changed. */
  predicate OneCopyEach(users: UserStore.UserState, audience: seq<nat>, q: Queues, q1: Queues, env: Envelope, now: int,
                        d: nat)
  {
    var before, after := QueueOf(q, d), QueueOf(q1, d);
    if Addressed(users, audience, d) then
      |after| == |before| + 1 && after[..|before|] == before && CopyOf(after[|before|], env, now)
    else after == before
  }

  /** Whose devices an envelope is for, where that is known. */
  function MeantFor(groups: GroupStore.Groups, to: Recipient): seq<nat>
    requires to.Group? ==> to.group in groups
  {
    if to.Direct? then [to.user] else groups[to.group].members
  }

  lemma AudienceIff(groups: GroupStore.Groups, to: Recipient)
    ensures Audience(groups, to)
            == if to.Group? && to.group !in groups then Err(UnknownGroup) else Ok(MeantFor(groups, to))
  {
  }

  lemma FansOutCopies(users: UserStore.UserState, groups: GroupStore.Groups, q: Queues, env: Envelope, now: int)
    requires UserStore.StateOk(users) && Audience(groups, env.to).Ok? && Resolve(users, groups, env.to).Ok?
    ensures var audience, ds := Audience(groups, env.to).value, Resolve(users, groups, env.to).value;
            && (forall d :: OneCopyEach(users, audience, q, EnqueueAll(q, ds, Stamped(env, now)), env, now, d))
            && |ToSet(ds)| == |ds| && forall d :: d in ToSet(ds) <==> Addressed(users, audience, d)
  {
    var audience, ds := Audience(groups, env.to).value, Resolve(users, groups, env.to).value;
    var q1 := EnqueueAll(q, ds, Stamped(env, now));
    FanOutExact(users, groups, q, Stamped(env, now));
    forall d
      ensures OneCopyEach(users, audience, q, q1, env, now, d)
    {
      OneMoreIsCopy(users, audience, q, q1, env, now, d);
    }
  }

  lemma OneMoreIsCopy(users: UserStore.UserState, audience: seq<nat>, q: Queues, q1: Queues, env: Envelope, now: int,
                      d: nat)
    requires QueueOf(q1, d) == QueueOf(q, d) + (if Addressed(users, audience, d) then [Stamped(env, now)] else [])
    ensures OneCopyEach(users, audience, q, q1, env, now, d)
  {
    StampedIsCopy(env, now);
  }

  /** An ingest, exactly: who refuses what, what arrives where, and how many copies are reported. */
  lemma IngestExact(users: UserStore.UserState, groups: GroupStore.Groups, q: Queues, env: Envelope, now: int)
    requires UserStore.StateOk(users)
    ensures var (q1, r) := Ingested(users, groups, q, Stamped(env, now));
            && (r == Err(EmptyCiphertext) <==> env.ciphertext == [])
            && (r == Err(UnknownGroup) <==> env.ciphertext != [] && env.to.Group? && env.to.group !in groups)
            && (r.Err? ==> q1 == q)
            && (r.Ok? ==>
                  && (forall d :: OneCopyEach(users, MeantFor(groups, env.to), q, q1, env, now, d))
                  && exists ds: set<nat> ::
                       |ds| == r.value && forall d :: d in ds <==> Addressed(users, MeantFor(groups, env.to), d))
  {
    StampedIsCopy(env, now);
    AudienceIff(groups, env.to);
    ResolveExact(users, groups, env.to);
    if Audience(groups, env.to).Ok? {
      FansOutCopies(users, groups, q, env, now);
    }
  }

  lemma {:induction false} EnqueueAllExact(q: Queues, devices: seq<nat>, env: Envelope, d: nat)
    requires NoDuplicates(devices)
    ensures QueueOf(EnqueueAll(q, devices, env), d) == QueueOf(q, d) + (if d in devices then [env] else [])
    decreases |devices|
  {
    if devices != [] {
      EnqueueAllExact(q[devices[0] := QueueOf(q, devices[0]) + [env]], devices[1..], env, d);
      assert d in devices <==> d == devices[0] || d in devices[1..];
    }
  }

  /**
  Fan-out: exactly one copy on the queue of each device of the audience, every other queue untouched,
  and the number returned is the number of those devices.
  */
  lemma FanOutExact(st: UserStore.UserState, groups: GroupStore.Groups, q: Queues, env: Envelope)
    requires UserStore.StateOk(st) && Resolve(st, groups, env.to).Ok?
    ensures var devices := Resolve(st, groups, env.to).value;
            && |ToSet(devices)| == |devices|
            && forall d ::
                 && (d in ToSet(devices) <==> Addressed(st, Audience(groups, env.to).value, d))
                 && QueueOf(EnqueueAll(q, devices, env), d)
                    == QueueOf(q, d) + (if Addressed(st, Audience(groups, env.to).value, d) then [env] else [])
  {
    var devices := Resolve(st, groups, env.to).value;
    ResolveExact(st, groups, env.to);
    NoDuplicatesCardinality(devices);
    forall d
      ensures QueueOf(EnqueueAll(q, devices, env), d) == QueueOf(q, d) + (if d in devices then [env] else [])
    {
      EnqueueAllExact(q, devices, env, d);
    }
  }

  class MessagingService {
    const users: UserStore.InMemoryUserStore
    const groups: GroupStore.InMemoryGroupStore
    const queue: InMemoryMessageQueue

    constructor (users: UserStore.InMemoryUserStore, groups: GroupStore.InMemoryGroupStore, queue: InMemoryMessageQueue)
      ensures this.users == users && this.groups == groups && this.queue == queue
    {
      this.users, this.groups, this.queue := users, groups, queue;
    }

    method ResolveDevices(to: Recipient) returns (r: Result<seq<nat>, IngestError>)
      ensures r == Resolve(users.View(), groups.inner, to)
    {
      match to {
        case Direct(u) =>
          var devices := users.ListDevices(u);
          return Ok(Ids(devices));
        case Group(g) =>
          var members := groups.ListMembers(g);
          if members.Err? { return Err(UnknownGroup); }
          var seen: set<nat> := {};
          var out := [];
          var i := 0;
          assert members.value[0..] == members.value;
          while i < |members.value|
            invariant 0 <= i <= |members.value|
            invariant forall d :: d in seen <==> d in out
            invariant Gather(users.View(), members.value, []) == Gather(users.View(), members.value[i..], out)
          {
            var devices := users.ListDevices(members.value[i]);
            var ids := Ids(devices);
            ghost var start := out;
            var j := 0;
            assert ids[0..] == ids;
            while j < |devices|
              invariant 0 <= j <= |devices|
              invariant forall d :: d in seen <==> d in out
              invariant AppendNew(start, ids) == AppendNew(out, ids[j..])
            {
              if devices[j].id !in seen {
                seen := seen + {devices[j].id};
                out := out + [devices[j].id];
              }
              j := j + 1;
            }
            i := i + 1;
          }
          return Ok(out);
      }
    }

    method Ingest(envelope: Envelope, now: int) returns (r: Result<nat, IngestError>)
      modifies queue
      ensures (queue.inner, r) == Ingested(users.View(), groups.inner, old(queue.inner), Stamped(envelope, now))
    {
      if envelope.ciphertext == [] { return Err(EmptyCiphertext); }
      var env := envelope;
      if env.ts == 0 { env := env.(ts := now); }
      var devices := ResolveDevices(env.to);
      if devices.Err? { return Err(devices.error); }
      var delivered := 0;
      assert devices.value[0..] == devices.value;
      while delivered < |devices.value|
        invariant 0 <= delivered <= |devices.value|
        invariant EnqueueAll(old(queue.inner), devices.value, env)
                  == EnqueueAll(queue.inner, devices.value[delivered..], env)
      {
        queue.Enqueue(devices.value[delivered], env);
        delivered := delivered + 1;
      }
      return Ok(delivered);
    }

    method Pull(device: nat) returns (batch: seq<Envelope>)
      modifies queue
      ensures batch == QueueOf(old(queue.inner), device) && QueueOf(queue.inner, device) == []
      ensures forall d | d != device :: QueueOf(queue.inner, d) == QueueOf(old(queue.inner), d)
    {
      batch := queue.Drain(device);
    }
  }
}
