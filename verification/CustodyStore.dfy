/** The custody store as the gateway runs it: rows updated in place, one transaction per call. */
module CustodyStore {
  import opened Core
  import opened CustodyTable

  /** The bounded result of a scan, one row further. */
  lemma PrefixStep(t: seq<Row>, i: nat, to: Uuid, limit: nat)
    requires i < |t|
    ensures var a, b := PendingRows(t[..i], to), PendingRows(t[..i + 1], to);
            b[..Min(limit, |b|)] ==
              if t[i].to == to && t[i].status.Pending? && |a| < limit then a[..Min(limit, |a|)] + [t[i]]
              else a[..Min(limit, |a|)]
  {
    assert t[..i + 1][..i] == t[..i];
  }

  class Store {
    var rows: seq<Row>
    const limits: Limits
    const retention: Option<nat>

    ghost predicate Valid()
      reads this
    {
      ValidTable(rows) && WithinQuota(rows, limits)
    }

    constructor (limits: Limits, retention: Option<nat>)
      requires limits.maxEntries > 0 && limits.maxBytes > 0 && limits.perNode > 0
      ensures Valid() && rows == [] && this.limits == limits && this.retention == retention
    {
      this.rows := [];
      this.limits := limits;
      this.retention := retention;
    }

    /** Update the pending row with this key. */
    method FinishRow(from: Uuid, msgId: Uuid, s: Status)
      modifies this
      ensures rows == Finish(old(rows), from, msgId, s)
    {
      var was := rows;
      var i := 0;
      while i < |rows|
        invariant 0 <= i <= |rows| == |was|
        invariant forall k :: 0 <= k < i ==> rows[k] == Finish(was, from, msgId, s)[k]
        invariant forall k :: i <= k < |rows| ==> rows[k] == was[k]
      {
        if rows[i].from == from && rows[i].msgId == msgId {
          rows := rows[i := Finished(rows[i], s)];
        }
        i := i + 1;
      }
    }

    /** Every row past its expiry gives up its payload. */
    method ExpireRows(now: int)
      requires Valid()
      modifies this
      ensures Valid() && rows == Expire(old(rows), now)
    {
      var was := rows;
      var i := 0;
      while i < |was|
        invariant 0 <= i <= |was| == |rows|
        invariant forall k :: 0 <= k < i ==> rows[k] == Expire(was, now)[k]
        invariant forall k :: i <= k < |rows| ==> rows[k] == was[k]
      {
        if was[i].status.Pending? && was[i].expiresAt <= now {
          FinishRow(was[i].from, was[i].msgId, Lapsed);
        }
        i := i + 1;
      }
      assert rows == Expire(was, now);
      ExpireKeeps(was, now, limits);
    }

    method FindRow(from: Uuid, msgId: Uuid) returns (found: Option<Row>)
      requires Valid()
      ensures found == Lookup(rows, from, msgId)
    {
      LookupIn(rows, from, msgId);
      for i := 0 to |rows|
        invariant forall k :: 0 <= k < i ==> rows[k].from != from || rows[k].msgId != msgId
      {
        if rows[i].from == from && rows[i].msgId == msgId {
          return Some(rows[i]);
        }
      }
      return None;
    }

    method Totals(to: Uuid) returns (bytes: int, recipient: nat)
      ensures bytes == Bytes(rows) && recipient == PendingFor(rows, to)
    {
      bytes, recipient := 0, 0;
      for i := 0 to |rows|
        invariant bytes == Bytes(rows[..i]) && recipient == PendingFor(rows[..i], to)
      {
        assert rows[..i + 1][..i] == rows[..i];
        bytes := bytes + RowBytes(rows[i]);
        if rows[i].to == to && rows[i].status.Pending? {
          recipient := recipient + 1;
        }
      }
      assert rows[..|rows|] == rows;
    }

    /** Stable identity wins over time and quotas. */
    method Offer(p: Packet, now: int) returns (result: OfferResult)
      requires Valid()
      modifies this
      ensures Valid() && (rows, result) == CustodyTable.Offer(old(rows), p, now, limits)
    {
      OfferKeeps(rows, p, now, limits);
      if !ValidPacket(p) || !ValidTime(now) {
        return Invalid;
      }
      var prior := FindRow(p.from, p.msgId);
      if prior.Some? {
        return if prior.value.digest == p then Stored else Conflict;
      }
      if now >= p.expires {
        return TooLate;
      }
      if p.expires - now > MAX_TRANSPORT_LIFETIME_MS {
        return Invalid;
      }
      ExpireRows(now);
      var bytes, recipient := Totals(p.to);
      if |rows| >= limits.maxEntries || p.bytes > limits.maxBytes - bytes || recipient >= limits.perNode {
        return Full;
      }
      rows := rows + [NewRow(p, now)];
      return Stored;
    }

    method Peek(to: Uuid, now: int, limit: int) returns (found: seq<Row>)
      requires Valid()
      modifies this
      ensures Valid() && (rows, found) == CustodyTable.Peek(old(rows), to, now, limit)
    {
      if !ValidTime(now) || limit < 0 {
        return [];
      }
      ExpireRows(now);
      var all := rows;
      found := [];
      for i := 0 to |all|
        invariant rows == all
        invariant found == PendingRows(all[..i], to)[..Min(limit, |PendingRows(all[..i], to)|)]
      {
        PrefixStep(all, i, to, limit);
        if all[i].to == to && all[i].status.Pending? && |found| < limit {
          found := found + [all[i]];
        }
      }
      assert all[..|all|] == all;
    }

    method Acknowledge(to: Uuid, from: Uuid, msgId: Uuid, digest: Digest, now: int) returns (ok: bool)
      requires Valid()
      modifies this
      ensures Valid() && (rows, ok) == CustodyTable.Acknowledge(old(rows), to, from, msgId, digest, now)
    {
      FinishKeeps(rows, from, msgId, Lapsed, limits);
      FinishKeeps(rows, from, msgId, Received, limits);
      if !ValidTime(now) {
        return false;
      }
      var row := FindRow(from, msgId);
      if row.None? || row.value.to != to || row.value.digest != digest || row.value.status.Lapsed? {
        return false;
      }
      if row.value.status.Received? {
        return true;
      }
      if now >= row.value.expiresAt {
        FinishRow(from, msgId, Lapsed);
        return false;
      }
      FinishRow(from, msgId, Received);
      return true;
    }

    /** Retention: only terminal rows of sufficient age are deleted. */
    method Collect(now: int) returns (deleted: nat)
      requires Valid()
      modifies this
      ensures Valid() && rows == CustodyTable.Collect(old(rows), now, retention)
      ensures deleted == |old(rows)| - |rows|
    {
      if retention.None? || !ValidTime(now) {
        return 0;
      }
      var cutoff := now - retention.value;
      PruneKeeps(rows, cutoff, limits);
      var kept: seq<Row> := [];
      for i := 0 to |rows|
        invariant kept == Prune(rows[..i], cutoff)
      {
        assert rows[..i + 1][..i] == rows[..i];
        if rows[i].status.Pending? || rows[i].storedAt > cutoff {
          kept := kept + [rows[i]];
        }
      }
      assert rows[..|rows|] == rows;
      deleted := |rows| - |kept|;
      rows := kept;
    }
  }
}
