/** Online heartbeats and typing indicators with expiry: lazy reads against explicit sweeps. */
module Presence {
  import opened Prelude
  import opened Collections
  import Runs

  datatype Status = Online | Offline

  datatype Peer = User(user: nat) | Group(group: nat)

  datatype Store = Store(online: map<nat, int>, typing: map<Peer, map<nat, int>>)

  const Empty: Store := Store(map[], map[])

  function MembersOf(st: Store, peer: Peer): map<nat, int> {
    if peer in st.typing then st.typing[peer] else map[]
  }

  function PutOnline(st: Store, device: nat, expiresAt: int): Store {
    st.(online := st.online[device := expiresAt])
  }

  predicate IsOnline(st: Store, device: nat, now: int) {
    device in st.online && st.online[device] > now
  }

  function PutTyping(st: Store, peer: Peer, user: nat, expiresAt: int): Store {
    st.(typing := st.typing[peer := MembersOf(st, peer)[user := expiresAt]])
  }

  function Typists(st: Store, peer: Peer, now: int): set<nat> {
    set u | u in MembersOf(st, peer) && MembersOf(st, peer)[u] > now
  }

  /** A conversation nobody types into any more is dropped. */
  function RemoveTyping(st: Store, peer: Peer, user: nat): Store {
    if peer !in st.typing then st
    else
      var members := st.typing[peer] - {user};
      st.(typing := if members == map[] then st.typing - {peer} else st.typing[peer := members])
  }

  function Live(m: map<nat, int>, now: int): map<nat, int> {
    map k | k in m && m[k] > now :: m[k]
  }

  function Swept(st: Store, now: int): Store {
    Store(Live(st.online, now), map p | p in st.typing && Live(st.typing[p], now) != map[] :: Live(st.typing[p], now))
  }

  class MemoryStore {
    var online: map<nat, int>
    var typing: map<Peer, map<nat, int>>

    function View(): Store
      reads this
    {
      Store(online, typing)
    }

    constructor ()
      ensures View() == Empty
    {
      online, typing := map[], map[];
    }

    method Insert(device: nat, expiresAt: int)
      modifies this
      ensures View() == PutOnline(old(View()), device, expiresAt)
    {
      online := online[device := expiresAt];
    }

    method InsertTyping(peer: Peer, user: nat, expiresAt: int)
      modifies this
      ensures View() == PutTyping(old(View()), peer, user, expiresAt)
    {
      var members := if peer in typing then typing[peer] else map[];
      typing := typing[peer := members[user := expiresAt]];
    }

    method Remove(peer: Peer, user: nat)
      modifies this
      ensures View() == RemoveTyping(old(View()), peer, user)
    {
      if peer in typing {
        typing := typing[peer := typing[peer] - {user}];
        if typing[peer] == map[] { typing := typing - {peer}; }
      }
      assert View().typing == RemoveTyping(old(View()), peer, user).typing;
    }

    method Sweep(now: int)
      modifies this
      ensures View() == Swept(old(View()), now)
    {
      online := map k | k in online && online[k] > now :: online[k];
      typing := map p | p in typing && Live(typing[p], now) != map[] :: Live(typing[p], now);
    }
  }

  /** The service; every call reads the clock once. */
  class PresenceService {
    const store: MemoryStore

    constructor ()
      ensures store.View() == Empty && fresh(store)
    {
      store := new MemoryStore();
    }

    method SetOnline(device: nat, ttl: nat, now: int)
      modifies store
      ensures store.View() == Do(old(store.View()), At(now, Heartbeat(device, ttl)))
    {
      store.Insert(device, now + ttl);
    }

    method StatusOf(device: nat, now: int) returns (s: Status)
      ensures s == Online <==> IsOnline(store.View(), device, now)
    {
      s := if device in store.online && store.online[device] > now then Online else Offline;
    }

    method SetTyping(user: nat, peer: Peer, ttl: nat, now: int)
      modifies store
      ensures store.View() == Do(old(store.View()), At(now, StartTyping(user, peer, ttl)))
    {
      store.InsertTyping(peer, user, now + ttl);
    }

    method ClearTyping(user: nat, peer: Peer, now: int)
      modifies store
      ensures store.View() == Do(old(store.View()), At(now, StopTyping(user, peer)))
    {
      store.Remove(peer, user);
    }

    /** The conversation's entries are visited in whatever order the map yields them. */
    method WhoIsTyping(peer: Peer, now: int) returns (users: seq<nat>)
      ensures NoDuplicates(users)
      ensures forall u :: u in users <==> u in Typists(store.View(), peer, now)
    {
      users := [];
      var members := if peer in store.typing then store.typing[peer] else map[];
      var left := members.Keys;
      while left != {}
        invariant left <= members.Keys && NoDuplicates(users)
        invariant forall u :: u in users <==> u in members && u !in left && members[u] > now
        decreases left
      {
        var u :| u in left;
        left := left - {u};
        if members[u] > now { users := users + [u]; }
      }
    }

    method Sweep(now: int)
      modifies store
      ensures store.View() == Do(old(store.View()), At(now, Prune))
    {
      store.Sweep(now);
    }
  }

  // ---------------------------------------------------------------------------
  // Runs
  // ---------------------------------------------------------------------------

  datatype Call =
    | Heartbeat(device: nat, ttl: nat)
    | StartTyping(user: nat, peer: Peer, ttl: nat)
    | StopTyping(user: nat, peer: Peer)
    | Prune

  /** A call, and what the clock said. */
  datatype Event = At(now: int, call: Call)

  function Do(st: Store, e: Event): Store {
    match e.call
    case Heartbeat(device, ttl) => PutOnline(st, device, e.now + ttl)
    case StartTyping(user, peer, ttl) => PutTyping(st, peer, user, e.now + ttl)
    case StopTyping(user, peer) => RemoveTyping(st, peer, user)
    case Prune => Swept(st, e.now)
  }

  function After(es: seq<Event>): Store {
    Runs.Run(Do, Empty, es)
  }

  predicate NonDecreasing(es: seq<Event>) {
    forall i, j | 0 <= i < j < |es| :: es[i].now <= es[j].now
  }

  /** The clock has reached `now` by the end of the run. */
  predicate Reaches(es: seq<Event>, now: int) {
    NonDecreasing(es) && forall e | e in es :: e.now <= now
  }

  // ---------------------------------------------------------------------------
  // The history: last write, not cleared, expiry still to come
  // ---------------------------------------------------------------------------

  /** What an entry is about. */
  datatype Subject = Device(device: nat) | Typist(peer: Peer, user: nat)

  predicate Clears(c: Call, s: Subject) {
    c.StopTyping? && s == Typist(c.peer, c.user)
  }

  predicate Writes(c: Call, s: Subject) {
    (c.Heartbeat? && s == Device(c.device)) || (c.StartTyping? && s == Typist(c.peer, c.user))
  }

  /** The expiry of the last write that was not cleared; sweeps play no part. */
  function LastWrite(es: seq<Event>, s: Subject): Option<int> {
    if es == [] then None
    else
      var e := es[|es| - 1];
      if Writes(e.call, s) then Some(e.now + e.call.ttl)
      else if Clears(e.call, s) then None
      else LastWrite(es[..|es| - 1], s)
  }

  predicate Expected(es: seq<Event>, s: Subject, now: int) {
    LastWrite(es, s).Some? && LastWrite(es, s).value > now
  }

  function Entry(st: Store, s: Subject): Option<int> {
    match s
    case Device(d) => if d in st.online then Some(st.online[d]) else None
    case Typist(p, u) => if u in MembersOf(st, p) then Some(MembersOf(st, p)[u]) else None
  }

  /** The effect of one call on one entry. */
  lemma EntryAfter(st: Store, e: Event, s: Subject)
    ensures Entry(Do(st, e), s)
            == if Writes(e.call, s) then Some(e.now + e.call.ttl)
               else if Clears(e.call, s) then None
               else if e.call == Prune && Entry(st, s).Some? && Entry(st, s).value <= e.now then None
               else Entry(st, s)
  {
    match e.call
    case Heartbeat(_, _) =>
    case StartTyping(_, _, _) =>
    case StopTyping(_, peer) =>
      if s.Typist? && peer in st.typing && s.peer == peer { assert Entry(st, s).Some? <==> s.user in st.typing[peer]; }
    case Prune =>
      if s.Typist? && s.peer in st.typing && s.user in st.typing[s.peer] && st.typing[s.peer][s.user] > e.now {
        assert s.user in Live(st.typing[s.peer], e.now);
      }
  }

  /** The store holds the last write, or has swept it after it expired. */
  predicate Follows(st: Store, es: seq<Event>, s: Subject, clock: int) {
    || Entry(st, s) == LastWrite(es, s)
    || (Entry(st, s) == None && LastWrite(es, s).Some? && LastWrite(es, s).value <= clock)
  }

  lemma Follows1(st: Store, es: seq<Event>, e: Event, s: Subject, clock: int)
    requires Follows(st, es, s, e.now) && e.now <= clock
    ensures Follows(Do(st, e), es + [e], s, clock)
  {
    EntryAfter(st, e, s);
    assert (es + [e])[..|es + [e]| - 1] == es;
  }

  lemma {:induction false} StoreFollowsHistory(es: seq<Event>, s: Subject, clock: int)
    requires Reaches(es, clock)
    ensures Follows(After(es), es, s, clock)
    decreases |es|
  {
    if es != [] {
      var init, e := es[..|es| - 1], es[|es| - 1];
      assert es == init + [e] && e in es;
      assert forall x | x in init :: exists i | 0 <= i < |init| :: es[i] == x;
      StoreFollowsHistory(init, s, e.now);
      Runs.RunInParts(Do, Empty, init, [e]);
      Runs.RunOfOne(Do, After(init), e);
      Follows1(After(init), init, e, s, clock);
    }
  }

  /** Every read agrees with the history, whenever the sweeps came. */
  lemma ReadsFollowHistory(es: seq<Event>, now: int, device: nat, peer: Peer)
    requires Reaches(es, now)
    ensures IsOnline(After(es), device, now) <==> Expected(es, Device(device), now)
    ensures forall u :: u in Typists(After(es), peer, now) <==> Expected(es, Typist(peer, u), now)
  {
    StoreFollowsHistory(es, Device(device), now);
    forall u
      ensures u in Typists(After(es), peer, now) <==> Expected(es, Typist(peer, u), now)
    {
      StoreFollowsHistory(es, Typist(peer, u), now);
    }
  }

  function WithoutSweeps(es: seq<Event>): seq<Event> {
    if es == [] then []
    else WithoutSweeps(es[..|es| - 1]) + if es[|es| - 1].call == Prune then [] else [es[|es| - 1]]
  }

  lemma {:induction false} HistoryIgnoresSweeps(es: seq<Event>, s: Subject)
    ensures LastWrite(WithoutSweeps(es), s) == LastWrite(es, s)
  {
    if es != [] {
      HistoryIgnoresSweeps(es[..|es| - 1], s);
      var w, init := WithoutSweeps(es), WithoutSweeps(es[..|es| - 1]);
      if es[|es| - 1].call == Prune {
        assert w == init;
      } else {
        assert w == init + [es[|es| - 1]] && w[..|w| - 1] == init;
      }
    }
  }

  /** Two runs that differ only in their sweeps answer every read alike. */
  lemma SweepTransparency(es: seq<Event>, fs: seq<Event>, now: int, device: nat, peer: Peer)
    requires Reaches(es, now) && Reaches(fs, now) && WithoutSweeps(es) == WithoutSweeps(fs)
    ensures IsOnline(After(es), device, now) == IsOnline(After(fs), device, now)
    ensures Typists(After(es), peer, now) == Typists(After(fs), peer, now)
  {
    ReadsFollowHistory(es, now, device, peer);
    ReadsFollowHistory(fs, now, device, peer);
    forall s
      ensures LastWrite(es, s) == LastWrite(fs, s)
    {
      HistoryIgnoresSweeps(es, s);
      HistoryIgnoresSweeps(fs, s);
    }
  }

  /** A sweep is invisible to reads at `now`, whatever the store, exactly when it does not come from the future. */
  lemma SweepInvisibleIff(at: int, now: int)
    ensures (forall st: Store, d :: IsOnline(Swept(st, at), d, now) == IsOnline(st, d, now)) <==> at <= now
    ensures (forall st: Store, p :: Typists(Swept(st, at), p, now) == Typists(st, p, now)) <==> at <= now
  {
    if at <= now {
      forall st: Store, p: Peer
        ensures Typists(Swept(st, at), p, now) == Typists(st, p, now)
      {
        forall u { EntryAfter(st, At(at, Prune), Typist(p, u)); }
      }
    } else {
      var st := Store(map[0 := at], map[User(0) := map[0 := at]]);
      assert IsOnline(st, 0, now) && !IsOnline(Swept(st, at), 0, now);
      assert 0 in Typists(st, User(0), now) && 0 !in Typists(Swept(st, at), User(0), now);
    }
  }

  predicate NoneEmpty(st: Store) {
    forall p | p in st.typing :: st.typing[p] != map[]
  }

  lemma DoKeepsNoneEmpty(st: Store, e: Event)
    requires NoneEmpty(st)
    ensures NoneEmpty(Do(st, e))
  {
    if e.call.StartTyping? { assert e.call.user in Do(st, e).typing[e.call.peer]; }
  }

  /** In every run, swept or not, a conversation is kept only while somebody is listed as typing into it. */
  lemma {:induction false} ConversationsHaveTypists(es: seq<Event>)
    ensures NoneEmpty(After(es))
    decreases |es|
  {
    if es != [] {
      var init, e := es[..|es| - 1], es[|es| - 1];
      assert es == init + [e];
      ConversationsHaveTypists(init);
      Runs.RunInParts(Do, Empty, init, [e]);
      Runs.RunOfOne(Do, After(init), e);
      DoKeepsNoneEmpty(After(init), e);
    }
  }

  /** What a sweep leaves is live, and no conversation is kept without typists. */
  lemma SweepReclaims(st: Store, now: int, s: Subject)
    ensures Entry(Swept(st, now), s).Some? ==> Entry(Swept(st, now), s) == Entry(st, s) && Entry(st, s).value > now
    ensures forall p | p in Swept(st, now).typing :: Swept(st, now).typing[p] != map[]
  {
    EntryAfter(st, At(now, Prune), s);
  }
}
