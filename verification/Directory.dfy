/** The directory facade: a cache in memory over tables on disk, mutated one committed operation at a time. */
module Directory {
  import opened Core
  import opened Registry
  import O = Ordered

  /** Two loops over the maps as they stand: teams, then nodes. */
  method Collect(s: State, now: int, teamTtl: int, nodeTtl: int, online: set<Uuid>) returns (v: State)
    ensures v == Collected(s, now, teamTtl, nodeTtl, online)
  {
    v := s;
    var teams := s.teams.order;
    for i := 0 to |teams|
      invariant v == CollectTeams(s, teams[..i], now, teamTtl)
    {
      assert teams[..i + 1][..i] == teams[..i];
      v := DoCollectTeam(v, teams[i], now, teamTtl);
    }
    assert teams[..|teams|] == teams;
    var t, nodes := v, v.nodes.order;
    for i := 0 to |nodes|
      invariant v == CollectNodes(t, nodes[..i], now, nodeTtl, online)
    {
      assert nodes[..i + 1][..i] == nodes[..i];
      v := DoCollectNode(v, nodes[i], now, nodeTtl, nodes[i] in online);
    }
    assert nodes[..|nodes|] == nodes;
  }

  /** The newest keys stay. */
  method ShiftKeys(ks: seq<KeyEntry>, max: nat) returns (kept: seq<KeyEntry>)
    ensures kept == Shift(ks, max)
  {
    kept := ks;
    while |kept| > max
      invariant Shift(kept, max) == Shift(ks, max)
      decreases |kept|
    {
      kept := kept[1..];
    }
  }

  /** The loop that rebuilds the token index; mappings of revoked nodes come back too. */
  method BuildIndex(nodes: O.Table<Node>) returns (index: map<Hash, Uuid>)
    ensures index == Index(nodes.rows, nodes.order)
  {
    index := map[];
    for i := 0 to |nodes.order|
      invariant index == Index(nodes.rows, nodes.order[..i])
    {
      assert nodes.order[..i + 1][..i] == nodes.order[..i];
      if nodes.order[i] in nodes.rows {
        var n := nodes.rows[nodes.order[i]];
        index := index[n.token := n.id];
      }
    }
    assert nodes.order[..|nodes.order|] == nodes.order;
  }

  /** Table by table, then the index, then validation. */
  method LoadState(d: Disk) returns (r: Result<State>)
    requires DiskOk(d)
    ensures r == Load(d)
  {
    var teams := O.Recover(d.teams);
    var nodes := O.Recover(d.nodes);
    var enrolls := O.Recover(d.enrolls);
    var grants := O.Recover(d.grants);
    var tasks := O.Recover(d.tasks);
    var index := BuildIndex(nodes);
    var s := State(teams, nodes, enrolls, index, grants, tasks, d.epoch);
    return if Acceptable(s) then Ok(s) else Err("DATABASE_CORRUPT");
  }

  class Facade {
    var cache: State
    var disk: Disk

    /** The tables hold the state in memory, which validation accepts. */
    ghost predicate Valid()
      reads this
    {
      disk == DiskOf(cache) && ValidState(cache)
    }

    constructor ()
      ensures Valid() && cache == EMPTY
    {
      cache, disk := EMPTY, DiskOf(EMPTY);
      new;
      EmptyValid();
    }

    /** Write the difference of each table and the epoch. */
    method Commit(next: State)
      requires TablesOk(cache) && TablesOk(next) && disk == DiskOf(cache)
      modifies this`disk
      ensures disk == Committed(old(disk), next)
    {
      var teams := O.WriteDiff(disk.teams, next.teams);
      var nodes := O.WriteDiff(disk.nodes, next.nodes);
      var enrolls := O.WriteDiff(disk.enrolls, next.enrolls);
      var grants := O.WriteDiff(disk.grants, next.grants);
      var tasks := O.WriteDiff(disk.tasks, next.tasks);
      disk := Disk(teams, nodes, enrolls, grants, tasks, next.epoch);
    }

    /**
     * Run the operation on a draft, check it, commit the difference, then publish. A refused operation or a
     * draft that fails validation changes nothing.
     */
    method Mutate(op: Op) returns (r: Result<()>)
      requires Valid()
      modifies this
      ensures Valid() && Load(disk) == Ok(cache)
      ensures var a := Apply(old(cache), op);
              if a.Ok? && ValidState(a.value) then r.Ok? && cache == a.value else r.Err? && cache == old(cache)
    {
      var draft := Apply(cache, op);
      LoadRebuilds(cache);
      if draft.Err? {
        return Err(draft.error);
      }
      var next := draft.value;
      CommitRoundTrip(cache, op);
      if !Acceptable(next) {
        return Err("DATABASE_CORRUPT");
      }
      Commit(next);
      cache := next;
      return Ok(());
    }

    /** A restart loads exactly the state that was in memory. */
    method Restart() returns (ok: bool)
      requires Valid()
      modifies this`cache
      ensures ok && Valid() && cache == old(cache)
    {
      LoadRebuilds(cache);
      var loaded := LoadState(disk);
      cache := loaded.value;
      return true;
    }
  }
}
