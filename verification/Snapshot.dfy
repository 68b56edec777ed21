/** Capturing the durable stores and applying the capture to a fresh process. */
module Snapshot {
  import opened Prelude
  import opened Collections
  import opened Identity
  import UserStore
  import PreKeyStore
  import GroupStore

  datatype Snapshot = Snapshot(
    users: seq<UserStore.User>,
    devices: seq<UserStore.Device>,
    prekeys: seq<PreKeyBundle>,
    groups: seq<GroupStore.Exported>)

  datatype Durable = Durable(users: UserStore.UserState, prekeys: PreKeyStore.PreKeys, groups: GroupStore.Groups)

  /** The iteration orders the four hash maps happen to use. */
  datatype Orders = Orders(users: seq<nat>, devices: seq<nat>, prekeys: seq<nat>, groups: seq<nat>)

  predicate OrdersFor(o: Orders, s: Durable) {
    && Enumerates(o.users, s.users.users.Keys)
    && Enumerates(o.devices, s.users.devices.Keys)
    && Enumerates(o.prekeys, s.prekeys.Keys)
    && Enumerates(o.groups, s.groups.Keys)
  }

  function CaptureOf(s: Durable, o: Orders): Snapshot
    requires OrdersFor(o, s)
  {
    Snapshot(UserStore.UsersIn(s.users, o.users), UserStore.DevicesIn(s.users, o.devices),
             PreKeyStore.ExportIn(s.prekeys, o.prekeys), GroupStore.ExportIn(s.groups, o.groups))
  }

  function Restored(snap: Snapshot): Durable {
    Durable(UserStore.UserState(UserStore.ImportUsers(snap.users), UserStore.ImportDevices(snap.devices)),
            PreKeyStore.ImportAll(snap.prekeys),
            GroupStore.ImportAll(snap.groups))
  }

  method Capture(users: UserStore.InMemoryUserStore, prekeys: PreKeyStore.InMemoryPreKeyStore,
                 groups: GroupStore.InMemoryGroupStore, o: Orders)
    returns (snap: Snapshot)
    requires OrdersFor(o, Durable(users.View(), prekeys.inner, groups.inner))
    ensures snap == CaptureOf(Durable(users.View(), prekeys.inner, groups.inner), o)
  {
    var us, ds := users.Export(o.users, o.devices);
    var bs := prekeys.Export(o.prekeys);
    var gs := groups.Export(o.groups);
    return Snapshot(us, ds, bs, gs);
  }

  method Apply(snap: Snapshot, users: UserStore.InMemoryUserStore, prekeys: PreKeyStore.InMemoryPreKeyStore,
               groups: GroupStore.InMemoryGroupStore)
    modifies users, prekeys, groups
    ensures Durable(users.View(), prekeys.inner, groups.inner) == Restored(snap)
  {
    users.Import(snap.users, snap.devices);
    prekeys.Import(snap.prekeys);
    groups.Import(snap.groups);
  }

  // ---------------------------------------------------------------------------
  // Reachable stores
  // ---------------------------------------------------------------------------

  datatype Change =
    | CreateUser(user: UserStore.User) | RegisterDevice(device: UserStore.Device) | DeleteUser(id: nat)
    | EditProfile(who: nat, name: Option<string>, status: Option<string>, avatar: Option<string>)
    | EditPassword(whose: nat, hash: Option<string>, mustChange: bool)
    | PreKey(op: PreKeyStore.Op)
    | CreateGroup(group: nat, members: seq<nat>) | SaveState(saved: nat, state: Bytes)
    | Restart(orders: Orders)              // capture, then apply in a fresh process

  function Step(s: Durable, c: Change): Durable {
    match c
    case CreateUser(u) => s.(users := UserStore.Create(s.users, u))
    case RegisterDevice(d) => s.(users := UserStore.Register(s.users, d).0)
    case DeleteUser(id) => s.(users := UserStore.Delete(s.users, id))
    case EditProfile(id, name, status, avatar) => s.(users := UserStore.SetProfile(s.users, id, name, status, avatar))
    case EditPassword(id, hash, must) => s.(users := UserStore.SetPassword(s.users, id, hash, must))
    case PreKey(op) => s.(prekeys := PreKeyStore.Apply(s.prekeys, op))
    case CreateGroup(g, members) =>
      if g in s.groups then s else s.(groups := s.groups[g := GroupStore.GroupRecord(members, None)])
    case SaveState(g, state) =>
      if g !in s.groups then s else s.(groups := s.groups[g := s.groups[g].(state := Some(state))])
    case Restart(o) => if OrdersFor(o, s) then Restored(CaptureOf(s, o)) else s
  }

  function After(changes: seq<Change>): Durable {
    if changes == [] then Durable(UserStore.UserState(map[], map[]), map[], map[])
    else Step(After(changes[..|changes|-1]), changes[|changes|-1])
  }

  predicate DurableOk(s: Durable) {
    UserStore.StateOk(s.users) && PreKeyStore.Filed(s.prekeys)
  }

  /** Applying a capture restores the stores, whatever the iteration orders. */
  lemma CaptureThenApply(s: Durable, o: Orders)
    requires DurableOk(s) && OrdersFor(o, s)
    ensures Restored(CaptureOf(s, o)) == s
  {
    UserStore.ExportImport(s.users, o.users, o.devices);
    PreKeyStore.ExportImport(s.prekeys, o.prekeys);
    GroupStore.ExportImport(s.groups, o.groups);
  }

  lemma StepKeepsOk(s: Durable, c: Change)
    requires DurableOk(s)
    ensures DurableOk(Step(s, c))
  {
    match c
    case CreateUser(u) => UserStore.CreateKeepsOk(s.users, u);
    case RegisterDevice(d) => UserStore.RegisterKeepsOk(s.users, d);
    case DeleteUser(id) => UserStore.DeleteKeepsOk(s.users, id);
    case EditProfile(id, a, b, c) => UserStore.SetProfileKeepsOk(s.users, id, a, b, c);
    case EditPassword(id, h, must) => UserStore.SetPasswordKeepsOk(s.users, id, h, must);
    case PreKey(_) =>
    case CreateGroup(_, _) =>
    case SaveState(_, _) =>
    case Restart(o) => if OrdersFor(o, s) { CaptureThenApply(s, o); }
  }

  /**
  Over every history of creations, deletions, edits, publications and restarts: identifiers stay
  pairwise unique and lookups ignore iteration order, and a further restart changes nothing.
  */
  lemma {:induction false} ReachableStores(changes: seq<Change>)
    ensures var s := After(changes);
            && DurableOk(s)
            && (forall o | OrdersFor(o, s) :: Restored(CaptureOf(s, o)) == s)
            && (forall o1, o2, f, key | Enumerates(o1, s.users.users.Keys) && Enumerates(o2, s.users.users.Keys) ::
                  UserStore.FindFirst(s.users, o1, UserStore.Matches(f, key))
                      == UserStore.FindFirst(s.users, o2, UserStore.Matches(f, key)))
  {
    var s := After(changes);
    if changes != [] {
      ReachableStores(changes[..|changes|-1]);
      StepKeepsOk(After(changes[..|changes|-1]), changes[|changes|-1]);
    }
    forall o | OrdersFor(o, s)
      ensures Restored(CaptureOf(s, o)) == s
    {
      CaptureThenApply(s, o);
    }
    forall o1, o2, f, key | Enumerates(o1, s.users.users.Keys) && Enumerates(o2, s.users.users.Keys)
      ensures UserStore.FindFirst(s.users, o1, UserStore.Matches(f, key))
              == UserStore.FindFirst(s.users, o2, UserStore.Matches(f, key))
    {
      UserStore.LookupsIgnoreOrder(s.users, o1, o2, f, key);
    }
  }
}
