/** In-memory user store: accounts by id, devices by owner in registration order. */
module UserStore {
  import opened Prelude
  import opened Collections

  datatype User = User(
    id: nat, username: string, email: Option<string>, phone: Option<string>,
    passwordHash: Option<string>, mustChangePassword: bool,
    displayName: Option<string>, status: Option<string>, avatar: Option<string>)

  datatype Device = Device(id: nat, userId: nat, identityKey: Bytes)

  datatype UserError = IdTaken | UsernameTaken | EmailTaken | PhoneTaken | NoUser | DeviceTaken

  datatype UserState = UserState(users: map<nat, User>, devices: map<nat, seq<Device>>)

  predicate SharesEmail(a: User, b: User) {
    a.email.Some? && a.email == b.email
  }

  predicate SharesPhone(a: User, b: User) {
    a.phone.Some? && a.phone == b.phone
  }

  /** Two accounts that may not coexist. */
  predicate Clashes(a: User, b: User) {
    a.username == b.username || SharesEmail(a, b) || SharesPhone(a, b)
  }

  /** The error names something the new account shares with one that is there. */
  predicate ClashNamed(st: UserState, user: User, e: UserError) {
    match e
    case IdTaken => user.id in st.users
    case UsernameTaken => exists id | id in st.users :: st.users[id].username == user.username
    case EmailTaken => user.email.Some? && exists id | id in st.users :: st.users[id].email == user.email
    case PhoneTaken => user.phone.Some? && exists id | id in st.users :: st.users[id].phone == user.phone
    case _ => false
  }

  predicate AnyClash(st: UserState, user: User) {
    exists id | id in st.users :: Clashes(st.users[id], user)
  }

  function DevicesOf(st: UserState, user: nat): seq<Device> {
    if user in st.devices then st.devices[user] else []
  }

  predicate HasDevice(ds: seq<Device>, id: nat) {
    exists i | 0 <= i < |ds| :: ds[i].id == id
  }

  // ---------------------------------------------------------------------------
  // Operations on the state
  // ---------------------------------------------------------------------------

  function Create(st: UserState, user: User): UserState {
    if user.id in st.users || AnyClash(st, user) then st
    else st.(users := st.users[user.id := user])
  }

  function Register(st: UserState, device: Device): (UserState, Result<(), UserError>) {
    if device.userId !in st.users then (st, Err(NoUser))
    else if HasDevice(DevicesOf(st, device.userId), device.id) then (st, Err(DeviceTaken))
    else (st.(devices := st.devices[device.userId := DevicesOf(st, device.userId) + [device]]), Ok(()))
  }

  function Delete(st: UserState, id: nat): UserState {
    UserState(st.users - {id}, st.devices - {id})
  }

  function SetProfile(st: UserState, id: nat, name: Option<string>, status: Option<string>, avatar: Option<string>)
    : UserState
  {
    if id !in st.users then st
    else st.(users := st.users[id := st.users[id].(displayName := name, status := status, avatar := avatar)])
  }

  function SetPassword(st: UserState, id: nat, hash: Option<string>, mustChange: bool): UserState {
    if id !in st.users then st
    else st.(users := st.users[id := st.users[id].(passwordHash := hash, mustChangePassword := mustChange)])
  }

  // ---------------------------------------------------------------------------
  // Export, import and lookups, under any iteration order of the hash maps
  // ---------------------------------------------------------------------------

  function UsersIn(st: UserState, order: seq<nat>): seq<User>
    requires forall k | k in order :: k in st.users
  {
    if order == [] then [] else UsersIn(st, order[..|order|-1]) + [st.users[order[|order|-1]]]
  }

  /** `values().flatten()`. */
  function DevicesIn(st: UserState, order: seq<nat>): seq<Device>
    requires forall k | k in order :: k in st.devices
  {
    if order == [] then [] else DevicesIn(st, order[..|order|-1]) + st.devices[order[|order|-1]]
  }

  function ImportUsers(us: seq<User>): map<nat, User> {
    if us == [] then map[] else ImportUsers(us[..|us|-1])[us[|us|-1].id := us[|us|-1]]
  }

  function ImportDevices(ds: seq<Device>): map<nat, seq<Device>> {
    if ds == [] then map[] else
    var m := ImportDevices(ds[..|ds|-1]);
    var d := ds[|ds|-1];
    m[d.userId := (if d.userId in m then m[d.userId] else []) + [d]]
  }

  /** The first user in iteration order that satisfies `test`. */
  function FindFirst(st: UserState, order: seq<nat>, test: User -> bool): Option<User>
    requires forall k | k in order :: k in st.users
  {
    if order == [] then None
    else if test(st.users[order[0]]) then Some(st.users[order[0]])
    else FindFirst(st, order[1..], test)
  }

  // ---------------------------------------------------------------------------
  // Invariant
  // ---------------------------------------------------------------------------

  predicate DeviceListOk(owner: nat, ds: seq<Device>) {
    && ds != []
    && (forall i | 0 <= i < |ds| :: ds[i].userId == owner)
    && (forall i, j | 0 <= i < j < |ds| :: ds[i].id != ds[j].id)
  }

  /** Accounts are filed under their id and pairwise compatible; device lists are non-empty and duplicate-free. */
  predicate StateOk(st: UserState) {
    && (forall id | id in st.users :: st.users[id].id == id)
    && (forall a, b | a in st.users && b in st.users && a != b :: !Clashes(st.users[a], st.users[b]))
    && st.devices.Keys <= st.users.Keys
    && (forall u | u in st.devices :: DeviceListOk(u, st.devices[u]))
  }

  lemma CreateKeepsOk(st: UserState, user: User)
    requires StateOk(st)
    ensures StateOk(Create(st, user))
  {
  }

  lemma RegisterKeepsOk(st: UserState, device: Device)
    requires StateOk(st)
    ensures StateOk(Register(st, device).0)
  {
  }

  lemma DeleteKeepsOk(st: UserState, id: nat)
    requires StateOk(st)
    ensures StateOk(Delete(st, id))
  {
  }

  lemma SetProfileKeepsOk(st: UserState, id: nat, name: Option<string>, status: Option<string>, avatar: Option<string>)
    requires StateOk(st)
    ensures StateOk(SetProfile(st, id, name, status, avatar))
  {
  }

  lemma SetPasswordKeepsOk(st: UserState, id: nat, hash: Option<string>, mustChange: bool)
    requires StateOk(st)
    ensures StateOk(SetPassword(st, id, hash, mustChange))
  {
  }

  /** A lookup by a field that no two accounts share finds the one account, whatever the order. */
  lemma {:induction false} FindsTheOne(st: UserState, order: seq<nat>, test: User -> bool)
    requires forall k | k in order :: k in st.users
    requires forall a, b | a in st.users && b in st.users && test(st.users[a]) && test(st.users[b]) :: a == b
    ensures forall k | k in order && test(st.users[k]) :: FindFirst(st, order, test) == Some(st.users[k])
    ensures (forall k | k in order :: !test(st.users[k])) ==> FindFirst(st, order, test) == None
  {
    if order != [] {
      FindsTheOne(st, order[1..], test);
    }
  }

  datatype Field = Username | Email | Phone

  /** Exact match on one identifying field. */
  function Matches(f: Field, key: string): User -> bool {
    match f
    case Username => (u: User) => u.username == key
    case Email => (u: User) => u.email == Some(key)
    case Phone => (u: User) => u.phone == Some(key)
  }

  /** The account has this username, this email or this phone number. */
  predicate HasField(u: User, f: Field, key: string) {
    (f.Username? && u.username == key) || (f.Email? && u.email == Some(key)) || (f.Phone? && u.phone == Some(key))
  }

  /** What a lookup gives: an account with exactly this identifier, and nothing only if no account has it. */
  lemma {:induction false} FindsExactly(st: UserState, order: seq<nat>, f: Field, key: string)
    requires Enumerates(order, st.users.Keys)
    ensures match FindFirst(st, order, Matches(f, key))
            case Some(u) => exists id | id in st.users :: st.users[id] == u && HasField(u, f, key)
            case None => forall id | id in st.users :: !HasField(st.users[id], f, key)
  {
    FindsAmong(st, order, f, key);
  }

  lemma {:induction false} FindsAmong(st: UserState, order: seq<nat>, f: Field, key: string)
    requires forall k | k in order :: k in st.users
    ensures match FindFirst(st, order, Matches(f, key))
            case Some(u) => exists id | id in order :: st.users[id] == u && HasField(u, f, key)
            case None => forall id | id in order :: !HasField(st.users[id], f, key)
  {
    if order != [] {
      FindsAmong(st, order[1..], f, key);
    }
  }

  /** Two accounts clash exactly when one lookup would have to find both. */
  lemma ClashIff(a: User, b: User)
    ensures Clashes(a, b) <==> exists f, key :: HasField(a, f, key) && HasField(b, f, key)
  {
    if a.username == b.username { assert HasField(a, Username, a.username) && HasField(b, Username, a.username); }
    if SharesEmail(a, b) { assert HasField(a, Email, a.email.value) && HasField(b, Email, a.email.value); }
    if SharesPhone(a, b) { assert HasField(a, Phone, a.phone.value) && HasField(b, Phone, a.phone.value); }
  }

  /** Edits touch the fields they name, of the account they name. */
  lemma EditsOnly(st: UserState, id: nat, name: Option<string>, status: Option<string>, avatar: Option<string>,
                  hash: Option<string>, mustChange: bool)
    requires id in st.users
    ensures var (u, p, q) := (st.users[id], SetProfile(st, id, name, status, avatar), SetPassword(st, id, hash,
            mustChange));
            && p.devices == st.devices && q.devices == st.devices
            && p.users.Keys == st.users.Keys && q.users.Keys == st.users.Keys
            && (forall k | k in st.users && k != id :: p.users[k] == st.users[k] && q.users[k] == st.users[k])
            && p.users[id] == User(u.id, u.username, u.email, u.phone, u.passwordHash, u.mustChangePassword,
                                   name, status, avatar)
            && q.users[id] == User(u.id, u.username, u.email, u.phone, hash, mustChange,
                                   u.displayName, u.status, u.avatar)
  {
  }

  /** Username, email and phone lookups do not depend on the iteration order. */
  lemma LookupsIgnoreOrder(st: UserState, order1: seq<nat>, order2: seq<nat>, f: Field, key: string)
    requires StateOk(st) && Enumerates(order1, st.users.Keys) && Enumerates(order2, st.users.Keys)
    ensures FindFirst(st, order1, Matches(f, key)) == FindFirst(st, order2, Matches(f, key))
    ensures FindFirst(st, order1, Matches(f, key)).None? <==> forall id | id in st.users ::
              !Matches(f, key)(st.users[id])
  {
    FindsTheOne(st, order1, Matches(f, key));
    FindsTheOne(st, order2, Matches(f, key));
  }

  /** After a deletion every lookup gives what it gave before, but for the deleted account; so do the device lists. */
  lemma DeletedIsForgotten(st: UserState, id: nat, before: seq<nat>, after: seq<nat>, f: Field, key: string)
    requires StateOk(st) && Enumerates(before, st.users.Keys) && Enumerates(after, Delete(st, id).users.Keys)
    ensures var found := FindFirst(st, before, Matches(f, key));
            FindFirst(Delete(st, id), after, Matches(f, key)) ==
              if found.Some? && found.value.id == id then None else found
    ensures forall u :: DevicesOf(Delete(st, id), u) == if u == id then [] else DevicesOf(st, u)
  {
    ForgetsOne(st, id, before, after, Matches(f, key));
  }

  lemma ForgetsOne(st: UserState, id: nat, before: seq<nat>, after: seq<nat>, test: User -> bool)
    requires Enumerates(before, st.users.Keys) && Enumerates(after, Delete(st, id).users.Keys)
    requires forall k | k in st.users :: st.users[k].id == k
    requires forall a, b | a in st.users && b in st.users && test(st.users[a]) && test(st.users[b]) :: a == b
    ensures var found := FindFirst(st, before, test);
            FindFirst(Delete(st, id), after, test) == if found.Some? && found.value.id == id then None else found
  {
    FindsTheOne(st, before, test);
    FindsTheOne(Delete(st, id), after, test);
    if k :| k in st.users && test(st.users[k]) {
      assert k in before && FindFirst(st, before, test) == Some(st.users[k]);
      if k != id { assert k in after && Delete(st, id).users[k] == st.users[k]; }
    }
  }

  // ---------------------------------------------------------------------------
  // Restoring an export
  // ---------------------------------------------------------------------------

  lemma {:induction false} ImportsExportedUsers(st: UserState, order: seq<nat>)
    requires (forall id | id in st.users :: st.users[id].id == id) && NoDuplicates(order)
             && (forall k | k in order :: k in st.users)
    ensures ImportUsers(UsersIn(st, order)) == Visited(st.users, order)
  {
    if order != [] {
      var n := |order| - 1;
      ImportsExportedUsers(st, order[..n]);
      var us := UsersIn(st, order);
      assert us[..|us|-1] == UsersIn(st, order[..n]);
      VisitsOneMore(st.users, order);
    }
  }

  /** One owner's non-empty list, imported after other owners' lists. */
  lemma {:induction false} ImportsOneList(before: seq<Device>, owner: nat, ds: seq<Device>)
    requires forall i | 0 <= i < |ds| :: ds[i].userId == owner
    requires owner !in ImportDevices(before)
    ensures ImportDevices(before + ds) == if ds == [] then ImportDevices(before) else ImportDevices(before)[owner := ds]
  {
    if ds == [] {
      assert before + ds == before;
    } else {
      var n := |ds| - 1;
      ImportsOneList(before, owner, ds[..n]);
      assert (before + ds)[..|before + ds| - 1] == before + ds[..n] && (before + ds)[|before + ds| - 1] == ds[n];
      assert ds[..n] + [ds[n]] == ds;
      if n == 0 { assert [ds[0]] == ds; }
    }
  }

  lemma {:induction false} ImportsExportedDevices(st: UserState, order: seq<nat>)
    requires (forall u | u in st.devices :: DeviceListOk(u, st.devices[u])) && NoDuplicates(order)
             && (forall k | k in order :: k in st.devices)
    ensures ImportDevices(DevicesIn(st, order)) == Visited(st.devices, order)
  {
    if order != [] {
      var n := |order| - 1;
      ImportsExportedDevices(st, order[..n]);
      ImportsOneList(DevicesIn(st, order[..n]), order[n], st.devices[order[n]]);
      VisitsOneMore(st.devices, order);
    }
  }

  /** Importing an export restores the accounts and every user's devices in registration order. */
  lemma ExportImport(st: UserState, userOrder: seq<nat>, deviceOrder: seq<nat>)
    requires StateOk(st) && Enumerates(userOrder, st.users.Keys) && Enumerates(deviceOrder, st.devices.Keys)
    ensures UserState(ImportUsers(UsersIn(st, userOrder)), ImportDevices(DevicesIn(st, deviceOrder))) == st
  {
    ImportsExportedUsers(st, userOrder);
    ImportsExportedDevices(st, deviceOrder);
    VisitsAll(st.users, userOrder);
    VisitsAll(st.devices, deviceOrder);
  }

  // ---------------------------------------------------------------------------
  // The store
  // ---------------------------------------------------------------------------

  class InMemoryUserStore {
    var users: map<nat, User>
    var devices: map<nat, seq<Device>>

    function View(): UserState
      reads this
    {
      UserState(users, devices)
    }

    constructor ()
      ensures View() == UserState(map[], map[])
    {
      users, devices := map[], map[];
    }

    /** `order` is the iteration order the hash map happens to use; it decides which clash is reported. */
    method CreateUser(user: User, order: seq<nat>) returns (r: Result<(), UserError>)
      requires Enumerates(order, users.Keys)
      modifies this
      ensures View() == Create(old(View()), user)
      ensures r.Ok? <==> user.id !in old(users) && !AnyClash(old(View()), user)
      ensures devices == old(devices) && users == if r.Ok? then old(users)[user.id := user] else old(users)
      ensures r.Err? ==> ClashNamed(old(View()), user, r.error)
    {
      if user.id in users { return Err(IdTaken); }
      var i := 0;
      while i < |order|
        invariant 0 <= i <= |order|
        invariant forall j | 0 <= j < i :: !Clashes(users[order[j]], user)
      {
        var existing := users[order[i]];
        if existing.username == user.username { return Err(UsernameTaken); }
        if existing.email.Some? && user.email.Some? && existing.email.value == user.email.value {
          return Err(EmailTaken);
        }
        if existing.phone.Some? && user.phone.Some? && existing.phone.value == user.phone.value {
          return Err(PhoneTaken);
        }
        i := i + 1;
      }
      users := users[user.id := user];
      return Ok(());
    }

    method RegisterDevice(device: Device) returns (r: Result<(), UserError>)
      modifies this
      ensures (View(), r) == Register(old(View()), device)
      ensures r == Err(NoUser) <==> device.userId !in old(users)
      ensures r == Err(DeviceTaken) <==>
                && device.userId in old(users)
                && exists d | d in DevicesOf(old(View()), device.userId) :: d.id == device.id
      ensures users == old(users) && (r.Err? ==> devices == old(devices))
      ensures r.Ok? ==> devices == old(devices)[device.userId := DevicesOf(old(View()), device.userId) + [device]]
    {
      if device.userId !in users { return Err(NoUser); }
      var list := if device.userId in devices then devices[device.userId] else [];
      if HasDevice(list, device.id) { return Err(DeviceTaken); }
      devices := devices[device.userId := list + [device]];
      return Ok(());
    }

    method ListDevices(user: nat) returns (ds: seq<Device>)
      ensures ds == DevicesOf(View(), user)
    {
      ds := if user in devices then devices[user] else [];
    }

    method EditProfile(id: nat, name: Option<string>, status: Option<string>, avatar: Option<string>)
      returns (found: bool)
      modifies this
      ensures View() == SetProfile(old(View()), id, name, status, avatar) && found == (id in old(users))
    {
      if id !in users { return false; }
      var u := users[id];
      u := u.(displayName := name);
      u := u.(status := status);
      u := u.(avatar := avatar);
      users := users[id := u];
      return true;
    }

    method EditPassword(id: nat, hash: Option<string>, mustChange: bool) returns (found: bool)
      modifies this
      ensures View() == SetPassword(old(View()), id, hash, mustChange) && found == (id in old(users))
    {
      if id !in users { return false; }
      var u := users[id];
      u := u.(passwordHash := hash);
      u := u.(mustChangePassword := mustChange);
      users := users[id := u];
      return true;
    }

    method DeleteUser(id: nat) returns (removed: seq<nat>)
      modifies this
      ensures View() == Delete(old(View()), id)
      ensures removed == seq(|DevicesOf(old(View()), id)|, i requires 0 <= i < |DevicesOf(old(View()), id)| =>
              DevicesOf(old(View()), id)[i].id)
    {
      var list := if id in devices then devices[id] else [];
      users := users - {id};
      devices := devices - {id};
      removed := seq(|list|, i requires 0 <= i < |list| => list[i].id);
    }

    method Find(f: Field, key: string, order: seq<nat>) returns (r: Option<User>)
      requires Enumerates(order, users.Keys)
      ensures r == FindFirst(View(), order, Matches(f, key))
      ensures r.Some? ==> exists id | id in users :: users[id] == r.value && HasField(r.value, f, key)
      ensures r.None? ==> forall id | id in users :: !HasField(users[id], f, key)
    {
      var i := 0;
      assert order[0..] == order;
      while i < |order|
        invariant 0 <= i <= |order|
        invariant FindFirst(View(), order, Matches(f, key)) == FindFirst(View(), order[i..], Matches(f, key))
        invariant forall j | 0 <= j < i :: !HasField(users[order[j]], f, key)
      {
        if Matches(f, key)(users[order[i]]) { return Some(users[order[i]]); }
        i := i + 1;
      }
      return None;
    }

    method Export(userOrder: seq<nat>, deviceOrder: seq<nat>) returns (us: seq<User>, ds: seq<Device>)
      requires Enumerates(userOrder, users.Keys) && Enumerates(deviceOrder, devices.Keys)
      ensures us == UsersIn(View(), userOrder) && ds == DevicesIn(View(), deviceOrder)
    {
      us, ds := [], [];
      var i := 0;
      while i < |userOrder|
        invariant 0 <= i <= |userOrder| && us == UsersIn(View(), userOrder[..i])
      {
        us := us + [users[userOrder[i]]];
        assert userOrder[..i+1][..i] == userOrder[..i];
        i := i + 1;
      }
      assert userOrder[..i] == userOrder;
      i := 0;
      while i < |deviceOrder|
        invariant 0 <= i <= |deviceOrder| && ds == DevicesIn(View(), deviceOrder[..i])
      {
        ds := ds + devices[deviceOrder[i]];
        assert deviceOrder[..i+1][..i] == deviceOrder[..i];
        i := i + 1;
      }
      assert deviceOrder[..i] == deviceOrder;
    }

    method Import(us: seq<User>, ds: seq<Device>)
      modifies this
      ensures View() == UserState(ImportUsers(us), ImportDevices(ds))
    {
      users, devices := map[], map[];
      var i := 0;
      while i < |us|
        invariant 0 <= i <= |us| && users == ImportUsers(us[..i]) && devices == map[]
      {
        users := users[us[i].id := us[i]];
        assert us[..i+1][..i] == us[..i];
        i := i + 1;
      }
      assert us[..i] == us;
      i := 0;
      while i < |ds|
        invariant 0 <= i <= |ds| && users == ImportUsers(us) && devices == ImportDevices(ds[..i])
      {
        var d := ds[i];
        var list := if d.userId in devices then devices[d.userId] else [];
        devices := devices[d.userId := list + [d]];
        assert ds[..i+1][..i] == ds[..i];
        i := i + 1;
      }
      assert ds[..i] == ds;
    }
  }
}
