/**
 * The cost ledger (part_costs.csv): a list of (timestamp, part, cost)
 * records, read as a whole and rewritten as a whole. A missing file reads
 * as the empty list. The clock is a parameter: a save is given the
 * timestamp it stamps its snapshot with.
 */
module CostStore {
  import LexOrder
  import Retention

  /** One row of the ledger. */
  datatype CostRecord = CostRecord(timestamp: string, part: string, cost: real)

  /** One item of the part-to-cost dictionary handed to a save, in insertion order. */
  datatype CostEntry = CostEntry(part: string, cost: real)

  /** How many distinct snapshot timestamps a save leaves in the ledger. */
  const KeptSnapshots: nat := 5

  /** The distinct timestamps present in `rows`. */
  function Timestamps(rows: seq<CostRecord>): set<string>
  {
    set r | r in rows :: r.timestamp
  }

  /** No row of `rows` carries a timestamp sorting after `t`. */
  predicate IsLatest(rows: seq<CostRecord>, t: string)
  {
    forall j :: 0 <= j < |rows| ==> !LexOrder.Less(t, rows[j].timestamp)
  }

  /** No row after row `i` carries the same timestamp and part as row `i`. */
  predicate NoLaterRow(rows: seq<CostRecord>, i: int)
    requires 0 <= i < |rows|
  {
    forall j :: i < j < |rows| ==> rows[j].timestamp != rows[i].timestamp || rows[j].part != rows[i].part
  }

  /** If `m` is greatest among the first rows, the greater of `m` and the next row's timestamp is greatest among them all. */
  lemma LatestExtends(rows: seq<CostRecord>, m: string)
    requires |rows| > 0 && IsLatest(rows[..|rows| - 1], m)
    ensures var last := rows[|rows| - 1].timestamp;
            IsLatest(rows, if LexOrder.Less(m, last) then last else m)
  {
    var last := rows[|rows| - 1].timestamp;
    LexOrder.Irreflexive(last);
    forall j | 0 <= j < |rows|
      ensures !LexOrder.Less(if LexOrder.Less(m, last) then last else m, rows[j].timestamp)
    {
      if j < |rows| - 1 {
        assert rows[..|rows| - 1][j] == rows[j];
        if LexOrder.Less(m, last) && LexOrder.Less(last, rows[j].timestamp) {
          LexOrder.Transitive(m, last, rows[j].timestamp);
        }
      } else if !LexOrder.Less(m, last) && m != last {
        LexOrder.Total(m, last);
      }
    }
  }

  /** The greatest timestamp of a non-empty ledger (`max` over the rows). */
  function MaxTimestamp(rows: seq<CostRecord>): (t: string)
    requires rows != []
    ensures exists i :: 0 <= i < |rows| && rows[i].timestamp == t
    ensures IsLatest(rows, t)
  {
    if |rows| == 1 then
      LexOrder.Irreflexive(rows[0].timestamp);
      rows[0].timestamp
    else
      var prefix := rows[..|rows| - 1];
      var m := MaxTimestamp(prefix);
      var last := rows[|rows| - 1].timestamp;
      LatestExtends(rows, m);
      assert forall i :: 0 <= i < |prefix| ==> prefix[i] == rows[i];
      if LexOrder.Less(m, last) then last else m
  }

  /** A timestamp that occurs and that no other sorts after is the greatest one. */
  lemma LatestIsUnique(rows: seq<CostRecord>, t: string, u: string)
    requires rows != [] && IsLatest(rows, t) && IsLatest(rows, u)
    requires exists i :: 0 <= i < |rows| && rows[i].timestamp == t
    requires exists i :: 0 <= i < |rows| && rows[i].timestamp == u
    ensures t == u
  {
    if t != u {
      LexOrder.Total(t, u);
    }
  }

  /**
   * The costs recorded under `ts`, read row by row so that a later row for
   * the same part replaces an earlier one (a dictionary comprehension).
   */
  function CostsAt(rows: seq<CostRecord>, ts: string): (m: map<string, real>)
    ensures forall p :: p in m <==> exists i :: 0 <= i < |rows| && rows[i].timestamp == ts && rows[i].part == p
    ensures forall i :: 0 <= i < |rows| && rows[i].timestamp == ts && NoLaterRow(rows, i) ==>
              rows[i].part in m && m[rows[i].part] == rows[i].cost
  {
    if rows == [] then map[]
    else
      var prefix := rows[..|rows| - 1];
      var last := rows[|rows| - 1];
      var before := CostsAt(prefix, ts);
      assert forall i :: 0 <= i < |prefix| ==> prefix[i] == rows[i];
      assert forall i :: 0 <= i < |prefix| && NoLaterRow(rows, i) ==> NoLaterRow(prefix, i);
      if last.timestamp == ts then before[last.part := last.cost] else before
  }

  /**
   * load_latest_costs: the costs of the latest snapshot, keyed by part; the
   * empty mapping for an empty (or missing) ledger.
   */
  function LoadLatestCosts(rows: seq<CostRecord>): (m: map<string, real>)
    ensures m == map[] <==> rows == []
    ensures forall p :: p in m <==>
              exists i :: 0 <= i < |rows| && rows[i].part == p && IsLatest(rows, rows[i].timestamp)
    ensures forall i :: 0 <= i < |rows| && IsLatest(rows, rows[i].timestamp) && NoLaterRow(rows, i) ==>
              rows[i].part in m && m[rows[i].part] == rows[i].cost
  {
    if rows == [] then map[]
    else
      var latest := MaxTimestamp(rows);
      assert forall i :: 0 <= i < |rows| && IsLatest(rows, rows[i].timestamp) ==> rows[i].timestamp == latest by {
        forall i | 0 <= i < |rows| && IsLatest(rows, rows[i].timestamp)
          ensures rows[i].timestamp == latest
        {
          LatestIsUnique(rows, rows[i].timestamp, latest);
        }
      }
      var i :| 0 <= i < |rows| && rows[i].timestamp == latest;
      assert rows[i].part in CostsAt(rows, latest);
      CostsAt(rows, latest)
  }

  /** The rows a save appends: one per entry, in order, all stamped `ts`. */
  function Stamp(costs: seq<CostEntry>, ts: string): (rows: seq<CostRecord>)
    ensures |rows| == |costs|
    ensures forall i :: 0 <= i < |costs| ==> rows[i] == CostRecord(ts, costs[i].part, costs[i].cost)
  {
    seq(|costs|, i requires 0 <= i < |costs| => CostRecord(ts, costs[i].part, costs[i].cost))
  }

  /** The rows of `rows` whose timestamp is in `keep`, in their original order. */
  function KeepRows(rows: seq<CostRecord>, keep: set<string>): (kept: seq<CostRecord>)
    ensures |kept| <= |rows|
    ensures forall r :: r in kept <==> r in rows && r.timestamp in keep
  {
    if rows == [] then []
    else
      var prefix := rows[..|rows| - 1];
      var last := rows[|rows| - 1];
      assert rows == prefix + [last];
      KeepRows(prefix, keep) + if last.timestamp in keep then [last] else []
  }

  /** The timestamps a save keeps: the `KeptSnapshots` greatest present. */
  function KeptTimestamps(rows: seq<CostRecord>): set<string>
  {
    Retention.TopN(Timestamps(rows), KeptSnapshots)
  }

  /** The ledger pruned to its `KeptSnapshots` newest snapshots. */
  function Retain(rows: seq<CostRecord>): seq<CostRecord>
  {
    KeepRows(rows, KeptTimestamps(rows))
  }

  /** The ledger a save of `costs` at time `ts` leaves behind. */
  function SavedLedger(rows: seq<CostRecord>, costs: seq<CostEntry>, ts: string): seq<CostRecord>
  {
    Retain(rows + Stamp(costs, ts))
  }

  /** The dictionary a sequence of entries denotes: a later entry for a part replaces an earlier one. */
  function AsMap(costs: seq<CostEntry>): (m: map<string, real>)
    ensures forall p :: p in m <==> exists i :: 0 <= i < |costs| && costs[i].part == p
  {
    if costs == [] then map[]
    else
      var prefix := costs[..|costs| - 1];
      var last := costs[|costs| - 1];
      assert forall i :: 0 <= i < |prefix| ==> prefix[i] == costs[i];
      AsMap(prefix)[last.part := last.cost]
  }

  /**
   * save_costs: append one row per entry stamped `ts` after the existing
   * rows, then keep only the rows of the newest `KeptSnapshots` timestamps.
   */
  method SaveCosts(rows: seq<CostRecord>, costs: seq<CostEntry>, ts: string) returns (saved: seq<CostRecord>)
    ensures saved == SavedLedger(rows, costs, ts)
  {
    var all := rows;
    for i := 0 to |costs|
      invariant |all| == |rows| + i
      invariant all[..|rows|] == rows
      invariant forall k :: 0 <= k < i ==> all[|rows| + k] == CostRecord(ts, costs[k].part, costs[k].cost)
    {
      all := all + [CostRecord(ts, costs[i].part, costs[i].cost)];
    }
    assert all == rows + Stamp(costs, ts);
    var keep := Retention.TopN(Timestamps(all), KeptSnapshots);
    saved := [];
    for i := 0 to |all|
      invariant saved == KeepRows(all[..i], keep)
    {
      assert all[..i + 1][..i] == all[..i];
      if all[i].timestamp in keep {
        saved := saved + [all[i]];
      }
    }
    assert all[..|all|] == all;
  }
}

/** Properties of the cost ledger across load and save. */
module CostStoreProperties {
  import LexOrder
  import Retention
  import opened CostStore

  /** Filtering distributes over concatenation: surviving rows keep their relative order. */
  lemma {:induction false} KeepRowsAppend(a: seq<CostRecord>, b: seq<CostRecord>, keep: set<string>)
    ensures KeepRows(a + b, keep) == KeepRows(a, keep) + KeepRows(b, keep)
    decreases |b|
  {
    if b == [] {
      assert a + b == a;
    } else {
      var prefix := b[..|b| - 1];
      assert (a + b)[..|a + b| - 1] == a + prefix;
      KeepRowsAppend(a, prefix, keep);
    }
  }

  /** A non-empty sequence is its prefix followed by its last element. */
  lemma SplitLast(rows: seq<CostRecord>)
    requires rows != []
    ensures rows == rows[..|rows| - 1] + [rows[|rows| - 1]]
  {
  }

  /** Rows whose timestamps are all kept survive unchanged. */
  lemma {:induction false} KeepRowsAllKept(rows: seq<CostRecord>, keep: set<string>)
    requires forall i :: 0 <= i < |rows| ==> rows[i].timestamp in keep
    ensures KeepRows(rows, keep) == rows
    decreases |rows|
  {
    if rows != [] {
      var prefix := rows[..|rows| - 1];
      var last := rows[|rows| - 1];
      assert forall i :: 0 <= i < |prefix| ==> prefix[i] == rows[i];
      KeepRowsAllKept(prefix, keep);
      assert last.timestamp in keep;
      assert KeepRows(rows, keep) == prefix + [last];
      SplitLast(rows);
    }
  }

  /**
   * Retention: a pruned ledger holds exactly the min(5, n) newest of its n
   * distinct timestamps, no dropped timestamp sorts after a kept one, and
   * every row of a kept timestamp is still there.
   */
  lemma RetainKeepsNewest(rows: seq<CostRecord>)
    ensures Timestamps(Retain(rows)) <= Timestamps(rows)
    ensures |Timestamps(Retain(rows))| ==
              if |Timestamps(rows)| < KeptSnapshots then |Timestamps(rows)| else KeptSnapshots
    ensures forall t, u :: t in Timestamps(Retain(rows)) && u in Timestamps(rows) && LexOrder.Less(t, u) ==>
              u in Timestamps(Retain(rows))
    ensures forall r :: r in Retain(rows) <==> r in rows && r.timestamp in Timestamps(Retain(rows))
  {
    var all := Timestamps(rows);
    var keep := KeptTimestamps(rows);
    assert Timestamps(Retain(rows)) == keep by {
      forall t | t in keep ensures t in Timestamps(Retain(rows)) {
        var r :| r in rows && r.timestamp == t;
        assert r in Retain(rows);
      }
    }
    Retention.TopNSize(all, KeptSnapshots);
    forall t, u | t in keep && u in all && LexOrder.Less(t, u)
      ensures u in keep
    {
      Retention.TopNUpwardClosed(all, KeptSnapshots, t, u);
    }
  }

  /** Retention bound: after any save the ledger holds at most five distinct timestamps. */
  lemma SaveRetentionBound(rows: seq<CostRecord>, costs: seq<CostEntry>, ts: string)
    ensures |Timestamps(SavedLedger(rows, costs, ts))| <= KeptSnapshots
    ensures |Timestamps(rows + Stamp(costs, ts))| <= KeptSnapshots ==>
              SavedLedger(rows, costs, ts) == rows + Stamp(costs, ts)
  {
    var all := rows + Stamp(costs, ts);
    RetainKeepsNewest(all);
    if |Timestamps(all)| <= KeptSnapshots {
      Retention.TopNKeepsAllWhenFew(Timestamps(all), KeptSnapshots);
      KeepRowsAllKept(all, KeptTimestamps(all));
    }
  }

  /**
   * A save whose timestamp no existing row sorts after keeps its whole new
   * snapshot, after the surviving earlier rows in their original order.
   */
  lemma SaveKeepsNewSnapshot(rows: seq<CostRecord>, costs: seq<CostEntry>, ts: string)
    requires IsLatest(rows, ts)
    ensures SavedLedger(rows, costs, ts) ==
              KeepRows(rows, KeptTimestamps(rows + Stamp(costs, ts))) + Stamp(costs, ts)
    ensures ts in KeptTimestamps(rows + Stamp(costs, ts)) || costs == []
  {
    var snapshot := Stamp(costs, ts);
    var all := rows + snapshot;
    var keep := KeptTimestamps(all);
    KeepRowsAppend(rows, snapshot, keep);
    if costs != [] {
      LexOrder.Irreflexive(ts);
      forall j | 0 <= j < |all|
        ensures !LexOrder.Less(ts, all[j].timestamp)
      {
        if j < |rows| {
          assert all[j] == rows[j];
        } else {
          assert all[j] == snapshot[j - |rows|];
        }
      }
      forall u | u in Timestamps(all)
        ensures !LexOrder.Less(ts, u)
      {
        var j :| 0 <= j < |all| && all[j].timestamp == u;
      }
      assert all[|rows|] == snapshot[0];
      Retention.GreatestIsKept(Timestamps(all), KeptSnapshots, ts);
      KeepRowsAllKept(snapshot, keep);
    }
  }

  /** The costs under `ts` of a concatenation: the second part's rows win. */
  lemma {:induction false} CostsAtAppend(a: seq<CostRecord>, b: seq<CostRecord>, ts: string)
    ensures CostsAt(a + b, ts) == CostsAt(a, ts) + CostsAt(b, ts)
    decreases |b|
  {
    if b == [] {
      assert a + b == a;
    } else {
      var prefix := b[..|b| - 1];
      var last := b[|b| - 1];
      SplitLast(b);
      assert a + b == (a + prefix) + [last];
      CostsAtAppend(a, prefix, ts);
      CostsAtSnoc(a + prefix, last, ts);
      CostsAtSnoc(prefix, last, ts);
      if last.timestamp == ts {
        UnionUpdate(CostsAt(a, ts), CostsAt(prefix, ts), last.part, last.cost);
      }
    }
  }

  /** Updating a union updates its right operand. */
  lemma UnionUpdate(left: map<string, real>, right: map<string, real>, k: string, v: real)
    ensures (left + right)[k := v] == left + right[k := v]
  {
  }

  /** Reading one more row under `ts` records its cost for its part. */
  lemma CostsAtSnoc(rows: seq<CostRecord>, r: CostRecord, ts: string)
    ensures CostsAt(rows + [r], ts) ==
              if r.timestamp == ts then CostsAt(rows, ts)[r.part := r.cost] else CostsAt(rows, ts)
  {
    assert (rows + [r])[..|rows|] == rows;
  }

  /** Pruning other snapshots does not change the costs of a kept one. */
  lemma {:induction false} CostsAtKeep(rows: seq<CostRecord>, keep: set<string>, ts: string)
    requires ts in keep
    ensures CostsAt(KeepRows(rows, keep), ts) == CostsAt(rows, ts)
    decreases |rows|
  {
    if rows != [] {
      var prefix := rows[..|rows| - 1];
      var last := rows[|rows| - 1];
      assert rows == prefix + [last];
      CostsAtKeep(prefix, keep, ts);
      CostsAtSnoc(prefix, last, ts);
      if last.timestamp in keep {
        assert KeepRows(rows, keep) == KeepRows(prefix, keep) + [last];
        CostsAtSnoc(KeepRows(prefix, keep), last, ts);
      } else {
        assert KeepRows(rows, keep) == KeepRows(prefix, keep);
      }
    }
  }

  /** The rows a save appends read back as the dictionary that was saved. */
  lemma {:induction false} CostsAtStamp(costs: seq<CostEntry>, ts: string)
    ensures CostsAt(Stamp(costs, ts), ts) == AsMap(costs)
    decreases |costs|
  {
    if costs != [] {
      var prefix := costs[..|costs| - 1];
      assert Stamp(costs, ts)[..|costs| - 1] == Stamp(prefix, ts);
      CostsAtStamp(prefix, ts);
    }
  }

  /** Loading reads the snapshot of any timestamp that occurs and is latest. */
  lemma LoadReadsLatest(rows: seq<CostRecord>, ts: string)
    requires IsLatest(rows, ts)
    requires exists i :: 0 <= i < |rows| && rows[i].timestamp == ts
    ensures LoadLatestCosts(rows) == CostsAt(rows, ts)
  {
    LatestIsUnique(rows, ts, MaxTimestamp(rows));
  }

  /**
   * Loading right after a save at a timestamp no existing row sorts after
   * gives the saved dictionary, merged over whatever the ledger already held
   * under that same timestamp (two saves within one second).
   */
  lemma SaveThenLoad(rows: seq<CostRecord>, costs: seq<CostEntry>, ts: string)
    requires costs != []
    requires IsLatest(rows, ts)
    ensures LoadLatestCosts(SavedLedger(rows, costs, ts)) == CostsAt(rows, ts) + AsMap(costs)
  {
    var snapshot := Stamp(costs, ts);
    var keep := KeptTimestamps(rows + snapshot);
    var survivors := KeepRows(rows, keep);
    var saved := SavedLedger(rows, costs, ts);
    SaveKeepsNewSnapshot(rows, costs, ts);
    assert saved == survivors + snapshot;
    LexOrder.Irreflexive(ts);
    forall j | 0 <= j < |saved|
      ensures !LexOrder.Less(ts, saved[j].timestamp)
    {
      if j < |survivors| {
        assert saved[j] in survivors;
        var k :| 0 <= k < |rows| && rows[k] == saved[j];
      }
    }
    assert saved[|survivors|] == snapshot[0];
    LoadReadsLatest(saved, ts);
    CostsAtAppend(survivors, snapshot, ts);
    CostsAtKeep(rows, keep, ts);
    CostsAtStamp(costs, ts);
  }

  /**
   * Round trip: when the new timestamp sorts after every existing one,
   * loading right after a save returns exactly the saved dictionary.
   */
  lemma SaveThenLoadFresh(rows: seq<CostRecord>, costs: seq<CostEntry>, ts: string)
    requires costs != []
    requires forall j :: 0 <= j < |rows| ==> LexOrder.Less(rows[j].timestamp, ts)
    ensures LoadLatestCosts(SavedLedger(rows, costs, ts)) == AsMap(costs)
  {
    forall j | 0 <= j < |rows|
      ensures !LexOrder.Less(ts, rows[j].timestamp) && rows[j].timestamp != ts
    {
      LexOrder.Asymmetric(rows[j].timestamp, ts);
      LexOrder.Irreflexive(ts);
    }
    CostsAtAbsent(rows, ts);
    var saved := AsMap(costs);
    assert map[] + saved == saved;
    SaveThenLoad(rows, costs, ts);
  }

  /** A timestamp no row carries has no costs. */
  lemma CostsAtAbsent(rows: seq<CostRecord>, ts: string)
    requires forall j :: 0 <= j < |rows| ==> rows[j].timestamp != ts
    ensures CostsAt(rows, ts) == map[]
  {
    assert CostsAt(rows, ts).Keys == {};
  }

  /** Entries naming pairwise different parts: each part maps to its own entry's cost. */
  lemma {:induction false} AsMapLookup(costs: seq<CostEntry>, i: nat)
    requires i < |costs|
    requires forall j, k :: 0 <= j < k < |costs| ==> costs[j].part != costs[k].part
    ensures costs[i].part in AsMap(costs) && AsMap(costs)[costs[i].part] == costs[i].cost
    decreases |costs|
  {
    var n := |costs|;
    if i < n - 1 {
      var prefix := costs[..n - 1];
      assert prefix[i] == costs[i];
      AsMapLookup(prefix, i);
      assert costs[n - 1].part != costs[i].part;
    }
  }
}
