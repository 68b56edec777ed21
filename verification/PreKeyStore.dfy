/** The server's pre-key directory: one bundle per device, its one-time key handed out once. */
module PreKeyStore {
  import opened Prelude
  import opened Collections
  import opened Identity

  datatype StoreError = NotFound

  type PreKeys = map<nat, PreKeyBundle>

  /** What a caller of `fetch_and_consume` receives, and the directory it leaves behind. */
  function FetchAndConsume(m: PreKeys, device: nat): (PreKeys, Result<PreKeyBundle, StoreError>) {
    if device in m then (m[device := m[device].(oneTime := None)], Ok(m[device])) else (m, Err(NotFound))
  }

  /** Every bundle is filed under its own device. */
  predicate Filed(m: PreKeys) {
    forall d | d in m :: m[d].deviceId == d
  }

  function ExportIn(m: PreKeys, order: seq<nat>): seq<PreKeyBundle>
    requires forall k | k in order :: k in m
  {
    if order == [] then [] else ExportIn(m, order[..|order|-1]) + [m[order[|order|-1]]]
  }

  function ImportAll(bs: seq<PreKeyBundle>): PreKeys {
    if bs == [] then map[] else ImportAll(bs[..|bs|-1])[bs[|bs|-1].deviceId := bs[|bs|-1]]
  }

  lemma {:induction false} ImportsExported(m: PreKeys, order: seq<nat>)
    requires Filed(m) && NoDuplicates(order) && (forall k | k in order :: k in m)
    ensures ImportAll(ExportIn(m, order)) == Visited(m, order)
  {
    if order != [] {
      var n := |order| - 1;
      ImportsExported(m, order[..n]);
      var bs := ExportIn(m, order);
      assert bs[..|bs|-1] == ExportIn(m, order[..n]);
      VisitsOneMore(m, order);
    }
  }

  lemma ExportImport(m: PreKeys, order: seq<nat>)
    requires Filed(m) && Enumerates(order, m.Keys)
    ensures ImportAll(ExportIn(m, order)) == m
  {
    ImportsExported(m, order);
    VisitsAll(m, order);
  }

  class InMemoryPreKeyStore {
    var inner: PreKeys

    constructor ()
      ensures inner == map[]
    {
      inner := map[];
    }

    method PublishBundle(bundle: PreKeyBundle)
      modifies this
      ensures inner == old(inner)[bundle.deviceId := bundle]
    {
      inner := inner[bundle.deviceId := bundle];
    }

    method Fetch(device: nat) returns (r: Result<PreKeyBundle, StoreError>)
      modifies this
      ensures (inner, r) == FetchAndConsume(old(inner), device)
    {
      if device !in inner { return Err(NotFound); }
      var stored := inner[device];
      var oneTime := stored.oneTime;
      stored := stored.(oneTime := None);
      inner := inner[device := stored];
      var handedOut := stored.(oneTime := oneTime);
      return Ok(handedOut);
    }

    method GetBundle(device: nat) returns (r: Result<PreKeyBundle, StoreError>)
      ensures r == if device in inner then Ok(inner[device]) else Err(NotFound)
    {
      if device in inner { return Ok(inner[device]); }
      return Err(NotFound);
    }

    method Export(order: seq<nat>) returns (bs: seq<PreKeyBundle>)
      requires Enumerates(order, inner.Keys)
      ensures bs == ExportIn(inner, order)
    {
      bs := [];
      var i := 0;
      while i < |order|
        invariant 0 <= i <= |order| && bs == ExportIn(inner, order[..i])
      {
        bs := bs + [inner[order[i]]];
        assert order[..i+1][..i] == order[..i];
        i := i + 1;
      }
      assert order[..i] == order;
    }

    method Import(bs: seq<PreKeyBundle>)
      modifies this
      ensures inner == ImportAll(bs)
    {
      inner := map[];
      var i := 0;
      while i < |bs|
        invariant 0 <= i <= |bs| && inner == ImportAll(bs[..i])
      {
        inner := inner[bs[i].deviceId := bs[i]];
        assert bs[..i+1][..i] == bs[..i];
        i := i + 1;
      }
      assert bs[..i] == bs;
    }

    method RemoveDevice(device: nat)
      modifies this
      ensures inner == old(inner) - {device}
    {
      inner := inner - {device};
    }
  }

  // ---------------------------------------------------------------------------
  // Histories
  // ---------------------------------------------------------------------------

  datatype Op = Publish(bundle: PreKeyBundle) | Fetch(device: nat) | Peek(device: nat) | Remove(device: nat)

  function Apply(m: PreKeys, op: Op): PreKeys {
    match op
    case Publish(b) => m[b.deviceId := b]
    case Fetch(d) => FetchAndConsume(m, d).0
    case Peek(_) => m
    case Remove(d) => m - {d}
  }

  /** The directory after a history, oldest operation first, starting empty. */
  function After(ops: seq<Op>): PreKeys {
    if ops == [] then map[] else Apply(After(ops[..|ops|-1]), ops[|ops|-1])
  }

  lemma {:induction false} DirectoryFiled(ops: seq<Op>)
    ensures Filed(After(ops))
  {
    if ops != [] {
      DirectoryFiled(ops[..|ops|-1]);
    }
  }

  predicate PublishesFor(op: Op, d: nat) {
    op.Publish? && op.bundle.deviceId == d
  }

  /** Operation `i` is the publication now in force for `d`. */
  predicate InForce(ops: seq<Op>, d: nat, i: int) {
    && 0 <= i < |ops| && PublishesFor(ops[i], d)
    && (forall j | i < j < |ops| :: !PublishesFor(ops[j], d) && ops[j] != Remove(d))
  }

  predicate FetchedSince(ops: seq<Op>, d: nat, i: int) {
    exists j | 0 <= j < |ops| :: i < j && ops[j] == Fetch(d)
  }

  /** The bundle the history alone says `d` should have. */
  function Expected(ops: seq<Op>, d: nat, i: int): PreKeyBundle
    requires InForce(ops, d, i)
  {
    if FetchedSince(ops, d, i) then ops[i].bundle.(oneTime := None) else ops[i].bundle
  }

  /**
  The directory is determined by the history: a device is listed exactly when one of its publications
  is in force, and its one-time key is gone exactly when it was fetched since.
  */
  lemma {:induction false} DirectoryFollowsHistory(ops: seq<Op>, d: nat)
    ensures d in After(ops) <==> exists i :: InForce(ops, d, i)
    ensures forall i | InForce(ops, d, i) :: After(ops)[d] == Expected(ops, d, i)
  {
    if ops != [] {
      var n := |ops| - 1;
      var before, op := ops[..n], ops[n];
      DirectoryFollowsHistory(before, d);
      if PublishesFor(op, d) {
        assert InForce(ops, d, n);
        assert forall i | InForce(ops, d, i) :: i == n;
      } else if op == Remove(d) {
        assert forall i :: !InForce(ops, d, i);
      } else {
        assert forall i :: InForce(ops, d, i) <==> InForce(before, d, i);
        forall i | InForce(ops, d, i)
          ensures After(ops)[d] == Expected(ops, d, i)
        {
          if op == Fetch(d) {
            assert ops[n] == Fetch(d) && i < n;
            assert FetchedSince(ops, d, i);
          } else {
            if FetchedSince(before, d, i) {
              var j :| 0 <= j < |before| && i < j && before[j] == Fetch(d);
              assert ops[j] == Fetch(d);
            }
            if FetchedSince(ops, d, i) {
              var j :| 0 <= j < |ops| && i < j && ops[j] == Fetch(d);
              assert before[j] == Fetch(d);
            }
          }
        }
      }
    }
  }

  /** The one-time key handed out by the operation at `j`, if it is a fetch that hands one out. */
  function HandedOut(ops: seq<Op>, j: int): Option<PublicKey>
    requires 0 <= j < |ops|
  {
    match ops[j]
    case Fetch(d) =>
      (match FetchAndConsume(After(ops[..j]), d).1
       case Ok(b) => b.oneTime
       case Err(_) => None)
    case _ => None
  }

  /**
  A fetch hands out a one-time key exactly when the publication in force carries that key and no other
  fetch came in between: once per publication, and always the latest publication's key.
  */
  lemma HandsOutLatestOnce(ops: seq<Op>, j: int, d: nat, key: PublicKey)
    requires 0 <= j < |ops| && ops[j] == Fetch(d)
    ensures HandedOut(ops, j) == Some(key) <==>
              exists i :: InForce(ops[..j], d, i) && ops[i].bundle.oneTime == Some(key) && !FetchedSince(ops[..j], d, i)
  {
    DirectoryFollowsHistory(ops[..j], d);
    if HandedOut(ops, j) == Some(key) {
      var i :| InForce(ops[..j], d, i);
      assert After(ops[..j])[d] == Expected(ops[..j], d, i);
    }
  }

  /**
  What a fetch answers: the bundle in force, as published but for a one-time key that was fetched since, or
  that there is none; and it leaves that bundle behind without a one-time key, and every other as it was.
  */
  lemma FetchAnswersHistory(ops: seq<Op>, d: nat)
    ensures var (m, r) := FetchAndConsume(After(ops), d);
            && (r == Err(NotFound) <==> !exists i :: InForce(ops, d, i))
            && (forall i | InForce(ops, d, i) :: r == Ok(Expected(ops, d, i)))
            && (forall e | e != d :: (e in m <==> e in After(ops)) && (e in m ==> m[e] == After(ops)[e]))
            && (d in m <==> d in After(ops)) && (d in m ==> m[d] == After(ops)[d].(oneTime := None))
  {
    DirectoryFollowsHistory(ops, d);
  }

  function Publications(ops: seq<Op>, d: nat): nat {
    if ops == [] then 0
    else
      var op := ops[|ops|-1];
      Publications(ops[..|ops|-1], d) + if PublishesFor(op, d) && op.bundle.oneTime.Some? then 1 else 0
  }

  function HandOuts(ops: seq<Op>, d: nat): nat {
    if ops == [] then 0
    else
      var n := |ops| - 1;
      HandOuts(ops[..n], d) + if ops[n] == Fetch(d) && HandedOut(ops, n).Some? then 1 else 0
  }

  /** One-time keys handed out, plus the one still in the directory, never exceed those published. */
  lemma {:induction false} OneTimeKeyBudget(ops: seq<Op>, d: nat)
    ensures HandOuts(ops, d) + (if d in After(ops) && After(ops)[d].oneTime.Some? then 1 else 0) <= Publications(ops, d)
  {
    if ops != [] {
      OneTimeKeyBudget(ops[..|ops|-1], d);
    }
  }
}
