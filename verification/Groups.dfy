/** Group epochs: the membership state, the chain of epoch secrets and the key of each epoch. */
module Groups {
  import opened Prelude
  import opened Text
  import Runs

  /** The key-derivation function over an abstract type of secrets, and key material made from bytes. */
  datatype Kdf<!K> = Kdf(raw: Bytes -> K, hkdf: (K, string) -> K)

  /** Different inputs give different secrets. */
  ghost predicate Injective<K(!new)>(kdf: Kdf<K>) {
    && (forall a, b :: kdf.raw(a) == kdf.raw(b) ==> a == b)
    && (forall k1, i1, k2, i2 :: kdf.hkdf(k1, i1) == kdf.hkdf(k2, i2) ==> k1 == k2 && i1 == i2)
  }

  // ---------------------------------------------------------------------------
  // Info strings
  // ---------------------------------------------------------------------------

  const HKDF_DOMAIN: string := "mx-groups/epoch-ratchet/v1"

  const MESSAGE_KEY: string := "message-key"

  datatype ChangeKind = Create | Add | Remove

  function Label(k: ChangeKind): string {
    match k
    case Create => "create"
    case Add => "add"
    case Remove => "remove"
  }

  function EpochPart(epoch: nat): string {
    "epoch=" + Decimal(epoch)
  }

  function DeviceParts(changed: seq<Uuid>): string {
    if changed == [] then "" else "|" + Hex(changed[0]) + DeviceParts(changed[1..])
  }

  function Info(k: ChangeKind, epoch: nat, changed: seq<Uuid>): string {
    HKDF_DOMAIN + "|" + Label(k) + "|" + EpochPart(epoch) + DeviceParts(changed)
  }

  function KeyInfo(epoch: nat): string {
    HKDF_DOMAIN + "|" + MESSAGE_KEY + "|" + EpochPart(epoch)
  }

  /** What every info string is: a label without a bar, and a remainder. */
  function Labelled(tag: string, rest: string): string {
    HKDF_DOMAIN + ("|" + (tag + ['|'] + rest))
  }

  lemma LabelledInjective(l1: string, r1: string, l2: string, r2: string)
    requires '|' !in l1 && '|' !in l2 && Labelled(l1, r1) == Labelled(l2, r2)
    ensures l1 == l2 && r1 == r2
  {
    var p := HKDF_DOMAIN + "|";
    assert Labelled(l1, r1) == p + (l1 + ['|'] + r1) && Labelled(l2, r2) == p + (l2 + ['|'] + r2);
    assert (p + (l1 + ['|'] + r1))[|p|..] == l1 + ['|'] + r1;
    assert (p + (l2 + ['|'] + r2))[|p|..] == l2 + ['|'] + r2;
    CutUnique(l1, l2, r1, r2, '|');
  }

  lemma InfoIsLabelled(k: ChangeKind, epoch: nat, changed: seq<Uuid>)
    ensures Info(k, epoch, changed) == Labelled(Label(k), EpochPart(epoch) + DeviceParts(changed))
  {
  }

  lemma KeyInfoIsLabelled(epoch: nat)
    ensures KeyInfo(epoch) == Labelled(MESSAGE_KEY, EpochPart(epoch))
  {
  }

  lemma {:induction false} DevicePartsInjective(a: seq<Uuid>, b: seq<Uuid>)
    requires DeviceParts(a) == DeviceParts(b)
    ensures a == b
    decreases |a|
  {
    if a == [] || b == [] {
      assert a == [] && b == [];
    } else {
      var s := DeviceParts(a);
      assert s[1..33] == Hex(a[0]) && s[33..] == DeviceParts(a[1..]);
      assert s[1..33] == Hex(b[0]) && s[33..] == DeviceParts(b[1..]);
      HexInjective(a[0], b[0]);
      DevicePartsInjective(a[1..], b[1..]);
      assert a == [a[0]] + a[1..] && b == [b[0]] + b[1..];
    }
  }

  lemma EpochPartInjective(m: nat, n: nat)
    requires EpochPart(m) == EpochPart(n)
    ensures m == n
  {
    assert EpochPart(m)[6..] == Decimal(m) && EpochPart(n)[6..] == Decimal(n);
    DecimalRoundTrip(m);
    DecimalRoundTrip(n);
  }

  lemma EpochPartPlain(n: nat)
    ensures '|' !in EpochPart(n)
  {
    DecimalPlain(n, '|');
  }

  /** The texts fed to the key derivation, spelt out for one changed device. */
  lemma InfoSpelt(k: ChangeKind, epoch: nat, d: Uuid)
    ensures var tag := match k case Create => "create" case Add => "add" case Remove => "remove";
            Info(k, epoch, [d])
            == "mx-groups/epoch-ratchet/v1" + "|" + tag + "|" + ("epoch=" + Decimal(epoch)) + ("|" + Hex(d))
    ensures KeyInfo(epoch) == "mx-groups/epoch-ratchet/v1" + "|" + "message-key" + "|" + ("epoch=" + Decimal(epoch))
  {
    OneDevicePart(d);
  }

  lemma OneDevicePart(d: Uuid)
    ensures DeviceParts([d]) == "|" + Hex(d)
  {
    assert DeviceParts([d][1..]) == "" && "|" + Hex(d) + "" == "|" + Hex(d);
  }

  /** Either nothing follows the epoch, or a bar does. */
  lemma PartsBegin(a: seq<Uuid>)
    ensures DeviceParts(a) == "" || exists rest :: DeviceParts(a) == ['|'] + rest
  {
    if a != [] { assert DeviceParts(a) == ['|'] + (Hex(a[0]) + DeviceParts(a[1..])); }
  }

  lemma CutAtBar(e1: string, p1: string, e2: string, p2: string)
    requires '|' !in e1 && '|' !in e2 && e1 + p1 == e2 + p2
    requires (p1 == "" || exists rest :: p1 == ['|'] + rest) && (p2 == "" || exists rest :: p2 == ['|'] + rest)
    ensures e1 == e2 && p1 == p2
  {
    var q1, q2 := (p1 + "|")[1..], (p2 + "|")[1..];
    assert p1 + "|" == ['|'] + q1 && p2 + "|" == ['|'] + q2;
    assert e1 + ['|'] + q1 == e1 + p1 + "|" && e2 + ['|'] + q2 == e2 + p2 + "|";
    CutUnique(e1, e2, q1, q2, '|');
    assert p1 == (e1 + p1)[|e1|..] && p2 == (e2 + p2)[|e2|..];
  }

  /** The epoch and the devices are read back from the remainder. */
  lemma RestInjective(m: nat, a: seq<Uuid>, n: nat, b: seq<Uuid>)
    requires EpochPart(m) + DeviceParts(a) == EpochPart(n) + DeviceParts(b)
    ensures m == n && a == b
  {
    EpochPartPlain(m);
    EpochPartPlain(n);
    PartsBegin(a);
    PartsBegin(b);
    CutAtBar(EpochPart(m), DeviceParts(a), EpochPart(n), DeviceParts(b));
    EpochPartInjective(m, n);
    DevicePartsInjective(a, b);
  }

  /** No two changes, whatever their kind, epoch and devices, share an info string. */
  lemma InfoInjective(k1: ChangeKind, m: nat, a: seq<Uuid>, k2: ChangeKind, n: nat, b: seq<Uuid>)
    requires Info(k1, m, a) == Info(k2, n, b)
    ensures k1 == k2 && m == n && a == b
  {
    InfoIsLabelled(k1, m, a);
    InfoIsLabelled(k2, n, b);
    LabelledInjective(Label(k1), EpochPart(m) + DeviceParts(a), Label(k2), EpochPart(n) + DeviceParts(b));
    assert Label(k1)[0] == Label(k2)[0];
    RestInjective(m, a, n, b);
  }

  /** A key label is never a change label. */
  lemma KeyInfoApart(k: ChangeKind, m: nat, a: seq<Uuid>, n: nat)
    ensures Info(k, m, a) != KeyInfo(n)
  {
    if Info(k, m, a) == KeyInfo(n) {
      InfoIsLabelled(k, m, a);
      KeyInfoIsLabelled(n);
      LabelledInjective(Label(k), EpochPart(m) + DeviceParts(a), MESSAGE_KEY, EpochPart(n));
      assert false;
    }
  }

  // ---------------------------------------------------------------------------
  // The group
  // ---------------------------------------------------------------------------

  const U64_SIZE: nat := 0x1_0000_0000_0000_0000

  datatype GroupState<K> = GroupState(id: Uuid, epoch: nat, members: set<Uuid>, secret: K)

  datatype Change = AddMember(device: Uuid) | RemoveMember(device: Uuid)

  datatype GroupError = AlreadyMember | NotMember | LastMember

  function Derive<K>(kdf: Kdf<K>, prev: K, kind: ChangeKind, epoch: nat, changed: seq<Uuid>): K {
    kdf.hkdf(prev, Info(kind, epoch, changed))
  }

  function Created<K>(kdf: Kdf<K>, id: Uuid, creator: Uuid): GroupState<K> {
    GroupState(id, 0, {creator}, Derive(kdf, kdf.raw(id + creator), Create, 0, [creator]))
  }

  function KindOf(c: Change): ChangeKind {
    if c.AddMember? then Add else Remove
  }

  function MembersAfter(members: set<Uuid>, c: Change): set<Uuid> {
    if c.AddMember? then members + {c.device} else members - {c.device}
  }

  function Refused(members: set<Uuid>, c: Change): Option<GroupError> {
    if c.AddMember? then (if c.device in members then Some(AlreadyMember) else None)
    else if c.device !in members then Some(NotMember)
    else if |members| == 1 then Some(LastMember)
    else None
  }

  /** The next epoch; the counter is a `u64`. */
  function Advanced<K>(kdf: Kdf<K>, g: GroupState<K>, c: Change): GroupState<K> {
    var next := (g.epoch + 1) % U64_SIZE;
    GroupState(g.id, next, MembersAfter(g.members, c), Derive(kdf, g.secret, KindOf(c), next, [c.device]))
  }

  /** A change that is refused leaves the group as it was. */
  function Apply<K>(kdf: Kdf<K>, g: GroupState<K>, c: Change): GroupState<K> {
    if Refused(g.members, c).Some? then g else Advanced(kdf, g, c)
  }

  function Applies<K>(kdf: Kdf<K>): (GroupState<K>, Change) -> GroupState<K> {
    (g, c) => Apply(kdf, g, c)
  }

  function EpochKey<K>(kdf: Kdf<K>, g: GroupState<K>): K {
    kdf.hkdf(g.secret, KeyInfo(g.epoch))
  }

  /** The group object: fields updated in place. */
  class Group<K> {
    const kdf: Kdf<K>
    const id: Uuid
    var epoch: nat
    var members: set<Uuid>
    var epochSecret: K

    function View(): GroupState<K>
      reads this
    {
      GroupState(id, epoch, members, epochSecret)
    }

    constructor (kdf: Kdf<K>, id: Uuid, creator: Uuid)
      ensures this.kdf == kdf && View() == Created(kdf, id, creator)
      ensures this.id == id && epoch == 0 && members == {creator}
    {
      var seed: Bytes := [];
      seed := seed + id;
      seed := seed + creator;
      assert seed == id + creator;
      var secret := DeriveSecret(kdf, kdf.raw(seed), Create, 0, [creator]);
      this.kdf, this.id, epoch, members, epochSecret := kdf, id, 0, {creator}, secret;
    }

    method Add(device: Uuid) returns (r: Result<(), GroupError>)
      modifies this
      ensures View() == Apply(kdf, old(View()), AddMember(device))
      ensures r.Err? <==> device in old(members)
      ensures r.Err? ==> r.error == AlreadyMember && View() == old(View())
      ensures r.Ok? ==> members == old(members) + {device} && epoch == (old(epoch) + 1) % U64_SIZE
    {
      if device in members { return Err(AlreadyMember); }
      members := members + {device};
      Advance(ChangeKind.Add, [device]);
      return Ok(());
    }

    method Remove(device: Uuid) returns (r: Result<(), GroupError>)
      modifies this
      ensures View() == Apply(kdf, old(View()), RemoveMember(device))
      ensures r.Err? <==> device !in old(members) || old(|members|) == 1
      ensures r.Err? ==> r.error == (if device in old(members) then LastMember else NotMember) && View() == old(View())
      ensures r.Ok? ==> members == old(members) - {device} && epoch == (old(epoch) + 1) % U64_SIZE
    {
      if device !in members { return Err(NotMember); }
      if |members| == 1 { return Err(LastMember); }
      members := members - {device};
      Advance(ChangeKind.Remove, [device]);
      return Ok(());
    }

    method Advance(kind: ChangeKind, changed: seq<Uuid>)
      modifies this`epoch, this`epochSecret
      ensures epoch == (old(epoch) + 1) % U64_SIZE && epochSecret == Derive(kdf, old(epochSecret), kind, epoch, changed)
    {
      var next := (epoch + 1) % U64_SIZE;
      epochSecret := DeriveSecret(kdf, epochSecret, kind, next, changed);
      epoch := next;
    }

    method CurrentEpochKey() returns (key: K)
      ensures key == EpochKey(kdf, View())
    {
      key := kdf.hkdf(epochSecret, HKDF_DOMAIN + "|message-key|epoch=" + Decimal(epoch));
      assert HKDF_DOMAIN + "|message-key|epoch=" + Decimal(epoch) == KeyInfo(epoch);
    }
  }

  lemma OnePartMore(info: string, changed: seq<Uuid>, i: nat)
    requires i < |changed|
    ensures info + "|" + Hex(changed[i]) + DeviceParts(changed[i + 1..]) == info + DeviceParts(changed[i..])
  {
    assert changed[i..][1..] == changed[i + 1..];
    assert DeviceParts(changed[i..]) == "|" + Hex(changed[i]) + DeviceParts(changed[i + 1..]);
  }

  /** One separator and one device at a time onto the info string. */
  method DeriveSecret<K>(kdf: Kdf<K>, prev: K, kind: ChangeKind, epoch: nat, changed: seq<Uuid>) returns (secret: K)
    ensures secret == Derive(kdf, prev, kind, epoch, changed)
  {
    var info := HKDF_DOMAIN + "|" + Label(kind) + "|epoch=" + Decimal(epoch);
    var i := 0;
    assert changed[0..] == changed && info == HKDF_DOMAIN + "|" + Label(kind) + "|" + EpochPart(epoch);
    while i < |changed|
      invariant 0 <= i <= |changed|
      invariant info + DeviceParts(changed[i..]) == Info(kind, epoch, changed)
    {
      OnePartMore(info, changed, i);
      info := info + "|";
      info := info + Hex(changed[i]);
      i := i + 1;
    }
    assert changed[i..] == [] && info + "" == info;
    return kdf.hkdf(prev, info);
  }

  // ---------------------------------------------------------------------------
  // What a secret says about the past
  // ---------------------------------------------------------------------------

  /** The changes of `cs` that were not refused, in order. */
  function Accepted(members: set<Uuid>, cs: seq<Change>): seq<Change>
    decreases |cs|
  {
    if cs == [] then []
    else if Refused(members, cs[0]).Some? then Accepted(members, cs[1..])
    else [cs[0]] + Accepted(MembersAfter(members, cs[0]), cs[1..])
  }

  /** A group after any sequence of attempted changes. */
  function History<K>(kdf: Kdf<K>, id: Uuid, creator: Uuid, cs: seq<Change>): GroupState<K> {
    Runs.Run(Applies(kdf), Created(kdf, id, creator), cs)
  }

  /** The group a log of accepted changes leads to, read from the end. */
  function FromLog<K>(kdf: Kdf<K>, id: Uuid, creator: Uuid, log: seq<Change>): GroupState<K> {
    if log == [] then Created(kdf, id, creator)
    else Advanced(kdf, FromLog(kdf, id, creator, log[..|log| - 1]), log[|log| - 1])
  }

  lemma LogGrows<K>(kdf: Kdf<K>, id: Uuid, creator: Uuid, log: seq<Change>, c: Change)
    ensures FromLog(kdf, id, creator, log + [c]) == Advanced(kdf, FromLog(kdf, id, creator, log), c)
  {
    assert (log + [c])[..|log + [c]| - 1] == log;
  }

  /** One attempted change from the group of a log leads to the group of the same log, or of the longer one. */
  ghost predicate Tracks<K>(step: (GroupState<K>, Change) -> GroupState<K>, fromLog: seq<Change> -> GroupState<K>) {
    forall log: seq<Change>, c: Change ::
      if Refused(fromLog(log).members, c).Some? then step(fromLog(log), c) == fromLog(log)
      else
        && step(fromLog(log), c) == fromLog(log + [c])
        && fromLog(log + [c]).members == MembersAfter(fromLog(log).members, c)
  }

  lemma {:induction false} RunTracksLog<K>(step: (GroupState<K>, Change) -> GroupState<K>,
      fromLog: seq<Change> -> GroupState<K>, log: seq<Change>, cs: seq<Change>)
    requires Tracks(step, fromLog)
    ensures Runs.Run(step, fromLog(log), cs) == fromLog(log + Accepted(fromLog(log).members, cs))
    decreases |cs|
  {
    var g := fromLog(log);
    if cs == [] {
      assert log + [] == log;
    } else if Refused(g.members, cs[0]).Some? {
      assert step(g, cs[0]) == g;
      RunTracksLog(step, fromLog, log, cs[1..]);
    } else {
      assert step(g, cs[0]) == fromLog(log + [cs[0]]);
      RunTracksLog(step, fromLog, log + [cs[0]], cs[1..]);
      assert log + [cs[0]] + Accepted(MembersAfter(g.members, cs[0]), cs[1..]) == log + Accepted(g.members, cs);
    }
  }

  /** Whatever changes are attempted, the group is the one that the accepted changes alone lead to. */
  lemma HistoryFollowsLog<K>(kdf: Kdf<K>, id: Uuid, creator: Uuid, cs: seq<Change>)
    ensures History(kdf, id, creator, cs) == FromLog(kdf, id, creator, Accepted({creator}, cs))
  {
    var fromLog := (log: seq<Change>) => FromLog(kdf, id, creator, log);
    forall log: seq<Change>, c: Change {
      LogGrows(kdf, id, creator, log, c);
    }
    assert Tracks(Applies(kdf), fromLog);
    RunTracksLog(Applies(kdf), fromLog, [], cs);
    assert [] + Accepted({creator}, cs) == Accepted({creator}, cs);
  }

  /** The inputs of the last derivation of a log. */
  function LastKind(log: seq<Change>): ChangeKind {
    if log == [] then Create else KindOf(log[|log| - 1])
  }

  function LastDevice(creator: Uuid, log: seq<Change>): Uuid {
    if log == [] then creator else log[|log| - 1].device
  }

  function LastInput<K>(kdf: Kdf<K>, id: Uuid, creator: Uuid, log: seq<Change>): K {
    if log == [] then kdf.raw(id + creator) else FromLog(kdf, id, creator, log[..|log| - 1]).secret
  }

  lemma SecretShape<K>(kdf: Kdf<K>, id: Uuid, creator: Uuid, log: seq<Change>)
    ensures var g := FromLog(kdf, id, creator, log);
            g.secret == kdf.hkdf(LastInput(kdf, id, creator, log),
                Info(LastKind(log), g.epoch, [LastDevice(creator, log)]))
  {
  }

  lemma LastDerivation<K(!new)>(kdf: Kdf<K>, id1: Uuid, creator1: Uuid, log1: seq<Change>, id2: Uuid, creator2: Uuid,
      log2: seq<Change>)
    requires Injective(kdf)
    requires FromLog(kdf, id1, creator1, log1).secret == FromLog(kdf, id2, creator2, log2).secret
    ensures LastKind(log1) == LastKind(log2) && LastDevice(creator1, log1) == LastDevice(creator2, log2)
    ensures LastInput(kdf, id1, creator1, log1) == LastInput(kdf, id2, creator2, log2)
  {
    var g1, g2 := FromLog(kdf, id1, creator1, log1), FromLog(kdf, id2, creator2, log2);
    var on1, on2 := [LastDevice(creator1, log1)], [LastDevice(creator2, log2)];
    SecretShape(kdf, id1, creator1, log1);
    SecretShape(kdf, id2, creator2, log2);
    InfoInjective(LastKind(log1), g1.epoch, on1, LastKind(log2), g2.epoch, on2);
    assert on1[0] == on2[0];
  }

  lemma OneStepBack<K>(kdf: Kdf<K>, id1: Uuid, creator1: Uuid, log1: seq<Change>, id2: Uuid, creator2: Uuid,
      log2: seq<Change>)
    requires LastKind(log1) == LastKind(log2)
    requires LastInput(kdf, id1, creator1, log1) == LastInput(kdf, id2, creator2, log2)
    ensures log1 == [] <==> log2 == []
    ensures log1 == [] ==> kdf.raw(id1 + creator1) == kdf.raw(id2 + creator2)
    ensures log1 != [] ==>
              FromLog(kdf, id1, creator1, log1[..|log1| - 1]).secret
              == FromLog(kdf, id2, creator2, log2[..|log2| - 1]).secret
  {
  }

  lemma SeedInjective<K(!new)>(kdf: Kdf<K>, id1: Uuid, creator1: Uuid, id2: Uuid, creator2: Uuid)
    requires Injective(kdf) && kdf.raw(id1 + creator1) == kdf.raw(id2 + creator2)
    ensures id1 == id2 && creator1 == creator2
  {
    assert (id1 + creator1)[..16] == id1 && (id2 + creator2)[..16] == id2;
    assert (id1 + creator1)[16..] == creator1 && (id2 + creator2)[16..] == creator2;
  }

  /** Two chains of changes that end in the same secret are the same chain. */
  lemma {:induction false} SecretBindsLog<K(!new)>(kdf: Kdf<K>, id1: Uuid, creator1: Uuid, log1: seq<Change>, id2: Uuid,
      creator2: Uuid, log2: seq<Change>)
    requires Injective(kdf)
    requires FromLog(kdf, id1, creator1, log1).secret == FromLog(kdf, id2, creator2, log2).secret
    ensures id1 == id2 && creator1 == creator2 && log1 == log2
    decreases |log1|
  {
    LastDerivation(kdf, id1, creator1, log1, id2, creator2, log2);
    OneStepBack(kdf, id1, creator1, log1, id2, creator2, log2);
    if log1 == [] {
      SeedInjective(kdf, id1, creator1, id2, creator2);
    } else {
      SecretBindsLog(kdf, id1, creator1, log1[..|log1| - 1], id2, creator2, log2[..|log2| - 1]);
      assert log1 == log1[..|log1| - 1] + [log1[|log1| - 1]] && log2 == log2[..|log2| - 1] + [log2[|log2| - 1]];
    }
  }

  /**
  Two groups, after any attempted changes, hold the same epoch secret exactly when they have the same
  identifier, creator and accepted changes; then they also agree on the epoch and the members.
  */
  lemma HistoryBinding<K(!new)>(kdf: Kdf<K>, id1: Uuid, creator1: Uuid, cs1: seq<Change>, id2: Uuid, creator2: Uuid,
      cs2: seq<Change>)
    requires Injective(kdf)
    ensures var g1, g2 := History(kdf, id1, creator1, cs1), History(kdf, id2, creator2, cs2);
            && (g1.secret == g2.secret <==>
                  id1 == id2 && creator1 == creator2 && Accepted({creator1}, cs1) == Accepted({creator2}, cs2))
            && (g1.secret == g2.secret ==> g1 == g2)
  {
    HistoryFollowsLog(kdf, id1, creator1, cs1);
    HistoryFollowsLog(kdf, id2, creator2, cs2);
    var log1, log2 := Accepted({creator1}, cs1), Accepted({creator2}, cs2);
    if History(kdf, id1, creator1, cs1).secret == History(kdf, id2, creator2, cs2).secret {
      SecretBindsLog(kdf, id1, creator1, log1, id2, creator2, log2);
    }
  }

  /** Message keys bind the history as epoch secrets do, and no message key is an epoch secret of any group. */
  lemma KeyBinding<K(!new)>(kdf: Kdf<K>, id1: Uuid, creator1: Uuid, cs1: seq<Change>, id2: Uuid, creator2: Uuid,
      cs2: seq<Change>)
    requires Injective(kdf)
    ensures var g1, g2 := History(kdf, id1, creator1, cs1), History(kdf, id2, creator2, cs2);
            && (EpochKey(kdf, g1) == EpochKey(kdf, g2) ==> g1 == g2)
            && EpochKey(kdf, g1) != g2.secret
  {
    var g1, g2 := History(kdf, id1, creator1, cs1), History(kdf, id2, creator2, cs2);
    HistoryBinding(kdf, id1, creator1, cs1, id2, creator2, cs2);
    HistoryFollowsLog(kdf, id2, creator2, cs2);
    var log2 := Accepted({creator2}, cs2);
    SecretShape(kdf, id2, creator2, log2);
    KeyInfoApart(LastKind(log2), g2.epoch, [LastDevice(creator2, log2)], g1.epoch);
  }

  /** Along one group's life: whenever a change was accepted between two moments, their secrets and keys differ. */
  lemma EpochsApart<K(!new)>(kdf: Kdf<K>, id: Uuid, creator: Uuid, cs: seq<Change>, i: nat, j: nat)
    requires Injective(kdf) && i <= j <= |cs|
    requires |Accepted({creator}, cs[..i])| != |Accepted({creator}, cs[..j])|
    ensures var g, h := History(kdf, id, creator, cs[..i]), History(kdf, id, creator, cs[..j]);
            g.secret != h.secret && EpochKey(kdf, g) != EpochKey(kdf, h)
  {
    HistoryBinding(kdf, id, creator, cs[..i], id, creator, cs[..j]);
    KeyBinding(kdf, id, creator, cs[..i], id, creator, cs[..j]);
  }

  lemma CountsOn(n: nat)
    ensures (n % U64_SIZE + 1) % U64_SIZE == (n + 1) % U64_SIZE
  {
  }

  lemma {:induction false} LogEpoch<K>(kdf: Kdf<K>, id: Uuid, creator: Uuid, log: seq<Change>)
    ensures FromLog(kdf, id, creator, log).epoch == |log| % U64_SIZE && FromLog(kdf, id, creator, log).id == id
  {
    if log != [] {
      LogEpoch(kdf, id, creator, log[..|log| - 1]);
      CountsOn(|log| - 1);
    }
  }

  lemma {:induction false} MembersStay<K>(kdf: Kdf<K>, g: GroupState<K>, cs: seq<Change>)
    requires g.members != {}
    ensures Runs.Run(Applies(kdf), g, cs).members != {}
    decreases |cs|
  {
    if cs != [] {
      var c := cs[0];
      if Refused(g.members, c).None? {
        if c.AddMember? {
          assert c.device in MembersAfter(g.members, c);
        } else {
          assert |g.members - {c.device}| == |g.members| - 1;
        }
      }
      MembersStay(kdf, Apply(kdf, g, c), cs[1..]);
    }
  }

  /** A group never loses its last member, and its epoch counts the accepted changes. */
  lemma GroupInvariant<K>(kdf: Kdf<K>, id: Uuid, creator: Uuid, cs: seq<Change>)
    ensures var g := History(kdf, id, creator, cs);
            g.id == id && g.members != {} && g.epoch == |Accepted({creator}, cs)| % U64_SIZE
  {
    HistoryFollowsLog(kdf, id, creator, cs);
    MembersStay(kdf, Created(kdf, id, creator), cs);
    LogEpoch(kdf, id, creator, Accepted({creator}, cs));
  }

  // ---------------------------------------------------------------------------
  // Who is a member
  // ---------------------------------------------------------------------------

  /** What one attempted change does: refused without effect, or the device joins or leaves in a new epoch. */
  lemma ChangeEffect<K>(kdf: Kdf<K>, g: GroupState<K>, c: Change)
    ensures var h := Apply(kdf, g, c);
            var accepted := match c
              case AddMember(d) => d !in g.members
              case RemoveMember(d) => d in g.members && |g.members| != 1;
            && h.id == g.id
            && (!accepted ==> h == g)
            && (accepted ==>
                  && h.epoch == (g.epoch + 1) % U64_SIZE
                  && h.secret == kdf.hkdf(g.secret, Info(if c.AddMember? then Add else Remove, h.epoch, [c.device]))
                  && forall d :: d in h.members <==> if d == c.device then c.AddMember? else d in g.members)
  {
  }

  /** Change `i` asks for `d` to join, or `i` is the creation and `d` the creator. */
  predicate Joins(creator: Uuid, cs: seq<Change>, d: Uuid, i: int) {
    (i == -1 && d == creator) || (0 <= i < |cs| && cs[i] == AddMember(d))
  }

  /** Change `j` asks for `d` to leave while it is a member and not the only one. */
  predicate Leaves<K>(kdf: Kdf<K>, id: Uuid, creator: Uuid, cs: seq<Change>, d: Uuid, j: int)
    requires 0 <= j < |cs|
  {
    var g := History(kdf, id, creator, cs[..j]);
    cs[j] == RemoveMember(d) && d in g.members && |g.members| != 1
  }

  ghost predicate JoinedForGood<K>(kdf: Kdf<K>, id: Uuid, creator: Uuid, cs: seq<Change>, d: Uuid, i: int) {
    Joins(creator, cs, d, i) && forall j | 0 <= j < |cs| && i < j :: !Leaves(kdf, id, creator, cs, d, j)
  }

  lemma HistoryGrows<K>(kdf: Kdf<K>, id: Uuid, creator: Uuid, cs: seq<Change>, c: Change)
    ensures History(kdf, id, creator, cs + [c]) == Apply(kdf, History(kdf, id, creator, cs), c)
  {
    Runs.RunInParts(Applies(kdf), Created(kdf, id, creator), cs, [c]);
    Runs.RunOfOne(Applies(kdf), History(kdf, id, creator, cs), c);
  }

  lemma LeavesAlike<K>(kdf: Kdf<K>, id: Uuid, creator: Uuid, cs: seq<Change>, c: Change, d: Uuid)
    ensures forall j | 0 <= j < |cs| ::
              Leaves(kdf, id, creator, cs + [c], d, j) <==> Leaves(kdf, id, creator, cs, d, j)
    ensures Leaves(kdf, id, creator, cs + [c], d, |cs|) <==>
              var g := History(kdf, id, creator, cs);
              c == RemoveMember(d) && d in g.members && |g.members| != 1
  {
    forall j | 0 <= j <= |cs|
      ensures (cs + [c])[..j] == cs[..j]
    {
    }
    assert cs[..|cs|] == cs;
  }

  lemma JoinedAfter<K>(kdf: Kdf<K>, id: Uuid, creator: Uuid, cs: seq<Change>, c: Change, d: Uuid)
    ensures (exists i :: JoinedForGood(kdf, id, creator, cs + [c], d, i)) <==>
              || c == AddMember(d)
              || ((exists i :: JoinedForGood(kdf, id, creator, cs, d, i))
                  && !Leaves(kdf, id, creator, cs + [c], d, |cs|))
  {
    LeavesAlike(kdf, id, creator, cs, c, d);
    if c == AddMember(d) {
      assert JoinedForGood(kdf, id, creator, cs + [c], d, |cs|);
    }
    if i :| JoinedForGood(kdf, id, creator, cs, d, i) {
      if !Leaves(kdf, id, creator, cs + [c], d, |cs|) {
        assert JoinedForGood(kdf, id, creator, cs + [c], d, i);
      }
    }
    if i :| JoinedForGood(kdf, id, creator, cs + [c], d, i) {
      if c != AddMember(d) {
        assert JoinedForGood(kdf, id, creator, cs, d, i);
      }
    }
  }

  /**
  Over every history of attempted changes, a device is a member exactly when it created the group or asked to
  join, and has not been taken out since by a removal that was not refused.
  */
  lemma {:induction false} MembersFollowHistory<K>(kdf: Kdf<K>, id: Uuid, creator: Uuid, cs: seq<Change>, d: Uuid)
    ensures d in History(kdf, id, creator, cs).members <==> exists i :: JoinedForGood(kdf, id, creator, cs, d, i)
    decreases |cs|
  {
    if cs == [] {
      if d == creator { assert JoinedForGood(kdf, id, creator, cs, d, -1); }
    } else {
      var before, c := cs[..|cs| - 1], cs[|cs| - 1];
      assert cs == before + [c];
      MembersFollowHistory(kdf, id, creator, before, d);
      HistoryGrows(kdf, id, creator, before, c);
      ChangeEffect(kdf, History(kdf, id, creator, before), c);
      JoinedAfter(kdf, id, creator, before, c, d);
      LeavesAlike(kdf, id, creator, before, c, d);
    }
  }

  // ---------------------------------------------------------------------------
  // The assumption can be met
  // ---------------------------------------------------------------------------

  datatype Term = Raw(bytes: Bytes) | Hkdf(key: Term, info: string)

  const FREE: Kdf<Term> := Kdf((b: Bytes) => Raw(b), (k: Term, i: string) => Hkdf(k, i))

  lemma FreeIsInjective()
    ensures Injective(FREE)
  {
  }
}
