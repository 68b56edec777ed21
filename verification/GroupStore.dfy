/** In-memory group store: a member roster and opaque state per group. */
module GroupStore {
  import opened Prelude
  import opened Collections

  datatype GroupRecord = GroupRecord(members: seq<nat>, state: Option<Bytes>)

  datatype GroupError = GroupExists | NoGroup | NoState

  type Groups = map<nat, GroupRecord>

  /** What an export lists for one group. */
  datatype Exported = Exported(id: nat, members: seq<nat>, state: Option<Bytes>)

  function Members(m: Groups, group: nat): Result<seq<nat>, GroupError> {
    if group in m then Ok(m[group].members) else Err(NoGroup)
  }

  function ExportIn(m: Groups, order: seq<nat>): seq<Exported>
    requires forall k | k in order :: k in m
  {
    if order == [] then [] else
    var k := order[|order|-1];
    ExportIn(m, order[..|order|-1]) + [Exported(k, m[k].members, m[k].state)]
  }

  function ImportAll(gs: seq<Exported>): Groups {
    if gs == [] then map[] else
    var g := gs[|gs|-1];
    ImportAll(gs[..|gs|-1])[g.id := GroupRecord(g.members, g.state)]
  }

  lemma {:induction false} ImportsExported(m: Groups, order: seq<nat>)
    requires NoDuplicates(order) && (forall k | k in order :: k in m)
    ensures ImportAll(ExportIn(m, order)) == Visited(m, order)
  {
    if order != [] {
      var n := |order| - 1;
      ImportsExported(m, order[..n]);
      var gs := ExportIn(m, order);
      assert gs[..|gs|-1] == ExportIn(m, order[..n]);
      VisitsOneMore(m, order);
    }
  }

  lemma ExportImport(m: Groups, order: seq<nat>)
    requires Enumerates(order, m.Keys)
    ensures ImportAll(ExportIn(m, order)) == m
  {
    ImportsExported(m, order);
    VisitsAll(m, order);
  }

  class InMemoryGroupStore {
    var inner: Groups

    constructor ()
      ensures inner == map[]
    {
      inner := map[];
    }

    method CreateGroup(group: nat, members: seq<nat>) returns (r: Result<(), GroupError>)
      modifies this
      ensures r == if group in old(inner) then Err(GroupExists) else Ok(())
      ensures inner == if group in old(inner) then old(inner) else old(inner)[group := GroupRecord(members, None)]
    {
      if group in inner { return Err(GroupExists); }
      inner := inner[group := GroupRecord(members, None)];
      return Ok(());
    }

    method SaveState(group: nat, state: Bytes) returns (r: Result<(), GroupError>)
      modifies this
      ensures r == if group in old(inner) then Ok(()) else Err(NoGroup)
      ensures inner == if group in old(inner) then old(inner)[group := old(inner)[group].(state := Some(state))]
              else old(inner)
    {
      if group !in inner { return Err(NoGroup); }
      inner := inner[group := inner[group].(state := Some(state))];
      return Ok(());
    }

    method GetState(group: nat) returns (r: Result<Bytes, GroupError>)
      ensures r == if group !in inner then Err(NoGroup)
                   else if inner[group].state.None? then Err(NoState) else Ok(inner[group].state.value)
    {
      if group !in inner { return Err(NoGroup); }
      match inner[group].state
      case Some(s) => return Ok(s);
      case None => return Err(NoState);
    }

    method ListMembers(group: nat) returns (r: Result<seq<nat>, GroupError>)
      ensures r == Members(inner, group)
    {
      if group !in inner { return Err(NoGroup); }
      return Ok(inner[group].members);
    }

    method Export(order: seq<nat>) returns (gs: seq<Exported>)
      requires Enumerates(order, inner.Keys)
      ensures gs == ExportIn(inner, order)
    {
      gs := [];
      var i := 0;
      while i < |order|
        invariant 0 <= i <= |order| && gs == ExportIn(inner, order[..i])
      {
        gs := gs + [Exported(order[i], inner[order[i]].members, inner[order[i]].state)];
        assert order[..i+1][..i] == order[..i];
        i := i + 1;
      }
      assert order[..i] == order;
    }

    method Import(gs: seq<Exported>)
      modifies this
      ensures inner == ImportAll(gs)
    {
      inner := map[];
      var i := 0;
      while i < |gs|
        invariant 0 <= i <= |gs| && inner == ImportAll(gs[..i])
      {
        inner := inner[gs[i].id := GroupRecord(gs[i].members, gs[i].state)];
        assert gs[..i+1][..i] == gs[..i];
        i := i + 1;
      }
      assert gs[..i] == gs;
    }
  }
}
