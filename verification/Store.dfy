/** Replicated rows, changes and logs of changes, without any node or network:
    what applying a log of whole-row changes means, row by row. */
module Store {
  import opened Basics

  datatype Value = Null | Integer(i: int) | String(s: Name) | Blob(b: seq<byte>) | Time(millis: int)

  type Row = map<Name, Value>

  /** A row of the replicated database: its table and its primary-key columns. */
  datatype RowKey = RowKey(table: Name, pk: map<Name, Value>)

  type Database = map<RowKey, Row>

  /** A captured change: the whole new row, or None for a delete. */
  datatype Change = Change(key: RowKey, effect: Option<Row>)

  type Log = seq<Change>

  function Get<K, V>(m: map<K, V>, k: K): Option<V> {
    if k in m then Some(m[k]) else None
  }

  function Apply(db: Database, c: Change): Database {
    match c.effect
    case Some(row) => db[c.key := row]
    case None => db - {c.key}
  }

  function ApplyAll(db: Database, log: Log): Database {
    if log == [] then db else Apply(ApplyAll(db, log[..|log| - 1]), log[|log| - 1])
  }

  /** A change applied again changes nothing. */
  lemma ApplyTwice(db: Database, c: Change)
    ensures Apply(Apply(db, c), c) == Apply(db, c)
  {
  }

  predicate Mentions(log: Log, k: RowKey) {
    exists i :: 0 <= i < |log| && log[i].key == k
  }

  /** Last writer wins: the row at `k` after `log`, having been `before`. */
  function Latest(before: Option<Row>, log: Log, k: RowKey): Option<Row> {
    if log == [] then before
    else if log[|log| - 1].key == k then log[|log| - 1].effect
    else Latest(before, log[..|log| - 1], k)
  }

  lemma {:induction false} ApplyAllAt(db: Database, log: Log, k: RowKey)
    ensures Get(ApplyAll(db, log), k) == Latest(Get(db, k), log, k)
  {
    if log != [] {
      ApplyAllAt(db, log[..|log| - 1], k);
    }
  }

  lemma {:induction false} LatestUnmentioned(before: Option<Row>, log: Log, k: RowKey)
    requires !Mentions(log, k)
    ensures Latest(before, log, k) == before
  {
    if log != [] {
      var init := log[..|log| - 1];
      assert forall i :: 0 <= i < |init| ==> init[i] == log[i];
      LatestUnmentioned(before, init, k);
    }
  }

  lemma {:induction false} LatestConcat(before: Option<Row>, a: Log, b: Log, k: RowKey)
    ensures Latest(before, a + b, k) == Latest(Latest(before, a, k), b, k)
  {
    if b == [] {
      assert a + b == a;
    } else {
      assert (a + b)[..|a + b| - 1] == a + b[..|b| - 1];
      LatestConcat(before, a, b[..|b| - 1], k);
    }
  }

  /** A log that mentions a row decides it, whatever was there before. */
  lemma {:induction false} LatestForgets(x: Option<Row>, y: Option<Row>, log: Log, k: RowKey)
    requires Mentions(log, k)
    ensures Latest(x, log, k) == Latest(y, log, k)
  {
    var init := log[..|log| - 1];
    if log[|log| - 1].key != k {
      var i :| 0 <= i < |log| && log[i].key == k;
      assert init[i].key == k;
      LatestForgets(x, y, init, k);
    }
  }

  /** A tail that does not mention a row leaves the row as the prefix left it. */
  lemma LatestPrefix(before: Option<Row>, log: Log, p: nat, k: RowKey)
    requires p <= |log| && !Mentions(log[p..], k)
    ensures Latest(before, log, k) == Latest(before, log[..p], k)
  {
    assert log == log[..p] + log[p..];
    LatestConcat(before, log[..p], log[p..], k);
    LatestUnmentioned(Latest(before, log[..p], k), log[p..], k);
  }

  lemma SameRows(a: Database, b: Database)
    requires forall k :: Get(a, k) == Get(b, k)
    ensures a == b
  {
    forall k ensures k in a <==> k in b {
      assert Get(a, k) == Get(b, k);
    }
    forall k | k in a ensures a[k] == b[k] {
      assert Get(a, k) == Get(b, k);
    }
  }

  /** Re-reading what a snapshot already holds is harmless: for every log, every
      snapshot position and every resume point at or before it. */
  lemma OverlappingReplay(initial: Database, log: Log, resume: nat, position: nat)
    requires resume <= position <= |log|
    ensures ApplyAll(ApplyAll(initial, log[..position]), log[resume..]) == ApplyAll(initial, log)
  {
    forall k ensures Get(ApplyAll(ApplyAll(initial, log[..position]), log[resume..]), k)
                  == Get(ApplyAll(initial, log), k)
    {
      ApplyAllAt(ApplyAll(initial, log[..position]), log[resume..], k);
      ApplyAllAt(initial, log[..position], k);
      ApplyAllAt(initial, log, k);
      OverlapAt(Get(initial, k), log, resume, position, k);
    }
    SameRows(ApplyAll(ApplyAll(initial, log[..position]), log[resume..]), ApplyAll(initial, log));
  }

  lemma OverlapAt(before: Option<Row>, log: Log, resume: nat, position: nat, k: RowKey)
    requires resume <= position <= |log|
    ensures Latest(Latest(before, log[..position], k), log[resume..], k) == Latest(before, log, k)
  {
    OverlapSurvives(before, log, resume, position, k);
    RowSurvives(before, log, resume, position, k);
  }

  /** A row that holds x when a log is read from `resume` on ends up right exactly
      when the rest of the log mentions it, or x was right at `resume`. */
  lemma TailDecides(x: Option<Row>, before: Option<Row>, log: Log, resume: nat, k: RowKey)
    requires resume <= |log|
    ensures Latest(x, log[resume..], k) == Latest(before, log, k) <==>
              Mentions(log[resume..], k) || x == Latest(before, log[..resume], k)
  {
    assert log == log[..resume] + log[resume..];
    LatestConcat(before, log[..resume], log[resume..], k);
    if Mentions(log[resume..], k) {
      LatestForgets(x, Latest(before, log[..resume], k), log[resume..], k);
    } else {
      LatestUnmentioned(x, log[resume..], k);
      LatestUnmentioned(Latest(before, log[..resume], k), log[resume..], k);
    }
  }

  /** What decides a row when a snapshot stands at `position` and replay starts
      at `resume`, before or after it: the rest of the log has it, or nothing
      between the two points changed it. */
  predicate Survives(before: Option<Row>, log: Log, resume: nat, position: nat, k: RowKey)
    requires resume <= |log| && position <= |log|
  {
    Mentions(log[resume..], k) || Latest(before, log[..position], k) == Latest(before, log[..resume], k)
  }

  lemma RowSurvives(before: Option<Row>, log: Log, resume: nat, position: nat, k: RowKey)
    requires resume <= |log| && position <= |log|
    ensures Latest(Latest(before, log[..position], k), log[resume..], k) == Latest(before, log, k) <==>
              Survives(before, log, resume, position, k)
  {
    TailDecides(Latest(before, log[..position], k), before, log, resume, k);
  }

  /** With an overlap every row survives. */
  lemma OverlapSurvives(before: Option<Row>, log: Log, resume: nat, position: nat, k: RowKey)
    requires resume <= position <= |log|
    ensures Survives(before, log, resume, position, k)
  {
    if !Mentions(log[resume..], k) {
      forall i | 0 <= i < |log[position..]| ensures log[position..][i].key != k {
        assert log[position..][i] == log[resume..][position - resume + i];
      }
      LatestPrefix(before, log, position, k);
      LatestPrefix(before, log, resume, k);
    }
  }

  /******* Sharded logs *******/

  type Route = RowKey -> nat

  function OnShard(route: Route, run: Log, s: nat): Log {
    if run == [] then []
    else
      var c := run[|run| - 1];
      OnShard(route, run[..|run| - 1], s) + if route(c.key) == s then [c] else []
  }

  predicate Routed(route: Route, logs: seq<Log>) {
    forall s, i :: 0 <= s < |logs| && 0 <= i < |logs[s]| ==> route(logs[s][i].key) == s
  }

  /** `run` merges the shard logs, keeping each shard's own order. */
  predicate Interleaves(route: Route, run: Log, logs: seq<Log>) {
    (forall i :: 0 <= i < |run| ==> route(run[i].key) < |logs|) &&
    (forall s :: 0 <= s < |logs| ==> OnShard(route, run, s) == logs[s])
  }

  /** The row a set of shard logs decides for `k`. */
  function Decided(route: Route, initial: Database, logs: seq<Log>, k: RowKey): Option<Row> {
    if route(k) < |logs| then Latest(Get(initial, k), logs[route(k)], k) else Get(initial, k)
  }

  lemma {:induction false} LatestOnShard(route: Route, before: Option<Row>, run: Log, k: RowKey)
    ensures Latest(before, run, k) == Latest(before, OnShard(route, run, route(k)), k)
  {
    if run != [] {
      var init, c := run[..|run| - 1], run[|run| - 1];
      LatestOnShard(route, before, init, k);
      var prefix := OnShard(route, init, route(k));
      if route(c.key) == route(k) {
        assert (prefix + [c])[..|prefix + [c]| - 1] == prefix;
      } else {
        assert prefix + [] == prefix;
      }
    }
  }

  /** Every interleaving of the shard logs ends in the rows those logs decide;
      so any two interleavings end in the same database. */
  lemma InterleavingDecides(route: Route, initial: Database, logs: seq<Log>, run: Log, k: RowKey)
    requires Interleaves(route, run, logs)
    ensures Get(ApplyAll(initial, run), k) == Decided(route, initial, logs, k)
  {
    ApplyAllAt(initial, run, k);
    if route(k) < |logs| {
      LatestOnShard(route, Get(initial, k), run, k);
    } else {
      LatestUnmentioned(Get(initial, k), run, k);
    }
  }

  lemma InterleavingIndependence(route: Route, initial: Database, logs: seq<Log>, run: Log, run': Log)
    requires Interleaves(route, run, logs) && Interleaves(route, run', logs)
    ensures ApplyAll(initial, run) == ApplyAll(initial, run')
  {
    forall k ensures Get(ApplyAll(initial, run), k) == Get(ApplyAll(initial, run'), k) {
      InterleavingDecides(route, initial, logs, run, k);
      InterleavingDecides(route, initial, logs, run', k);
    }
    SameRows(ApplyAll(initial, run), ApplyAll(initial, run'));
  }

  function Flatten(logs: seq<Log>): Log {
    if logs == [] then [] else Flatten(logs[..|logs| - 1]) + logs[|logs| - 1]
  }

  /** The fold of the shard logs over the initial database, one shard after another. */
  function Fold(initial: Database, logs: seq<Log>): Database {
    ApplyAll(initial, Flatten(logs))
  }

  lemma {:induction false} FlattenAt(route: Route, before: Option<Row>, logs: seq<Log>, k: RowKey)
    requires Routed(route, logs)
    ensures Latest(before, Flatten(logs), k) ==
            if route(k) < |logs| then Latest(before, logs[route(k)], k) else before
  {
    if logs != [] {
      var init: seq<Log>, last: Log := logs[..|logs| - 1], logs[|logs| - 1];
      forall s: nat, i: nat | s < |init| && i < |init[s]| ensures route(init[s][i].key) == s {
        assert init[s] == logs[s];
      }
      FlattenAt(route, before, init, k);
      LatestConcat(before, Flatten(init), last, k);
      if route(k) == |init| {
        assert Latest(before, Flatten(init), k) == before;
      } else {
        assert !Mentions(last, k);
        LatestUnmentioned(Latest(before, Flatten(init), k), last, k);
      }
    }
  }

  lemma {:induction false} OnShardConcat(route: Route, a: Log, b: Log, s: nat)
    ensures OnShard(route, a + b, s) == OnShard(route, a, s) + OnShard(route, b, s)
  {
    if b == [] {
      assert a + b == a;
    } else {
      assert (a + b)[..|a + b| - 1] == a + b[..|b| - 1];
      OnShardConcat(route, a, b[..|b| - 1], s);
    }
  }

  /** A log of one shard is all of that shard's and nothing of another's. */
  lemma {:induction false} OnShardOf(route: Route, log: Log, t: nat, s: nat)
    requires forall i :: 0 <= i < |log| ==> route(log[i].key) == t
    ensures OnShard(route, log, s) == if s == t then log else []
  {
    if log != [] {
      var init, last := log[..|log| - 1], log[|log| - 1];
      forall i | 0 <= i < |init| ensures route(init[i].key) == t {
        assert init[i] == log[i];
      }
      OnShardOf(route, init, t, s);
      assert log == init + [last] && route(last.key) == t;
      assert OnShard(route, log, s) == OnShard(route, init, s) + if t == s then [last] else [];
    }
  }

  lemma {:induction false} FlattenOnShard(route: Route, logs: seq<Log>, s: nat)
    requires Routed(route, logs)
    ensures OnShard(route, Flatten(logs), s) == if s < |logs| then logs[s] else []
  {
    if logs != [] {
      var init: seq<Log>, last: Log := logs[..|logs| - 1], logs[|logs| - 1];
      forall t: nat, i: nat | t < |init| && i < |init[t]| ensures route(init[t][i].key) == t {
        assert init[t] == logs[t];
      }
      FlattenOnShard(route, init, s);
      OnShardConcat(route, Flatten(init), last, s);
      OnShardOf(route, last, |init|, s);
    }
  }

  lemma {:induction false} FlattenRoutes(route: Route, logs: seq<Log>, i: nat)
    requires Routed(route, logs) && i < |Flatten(logs)|
    ensures route(Flatten(logs)[i].key) < |logs|
  {
    var init: seq<Log> := logs[..|logs| - 1];
    forall t: nat, j: nat | t < |init| && j < |init[t]| ensures route(init[t][j].key) == t {
      assert init[t] == logs[t];
    }
    if i < |Flatten(init)| {
      FlattenRoutes(route, init, i);
    } else {
      assert Flatten(logs)[i] == logs[|logs| - 1][i - |Flatten(init)|];
    }
  }

  /** One shard after another is itself an order-keeping merge, so every merge ends
      in the fold. */
  lemma EveryMergeIsFold(route: Route, initial: Database, logs: seq<Log>, run: Log)
    requires Routed(route, logs) && Interleaves(route, run, logs)
    ensures Interleaves(route, Flatten(logs), logs) && ApplyAll(initial, run) == Fold(initial, logs)
  {
    forall s | 0 <= s < |logs| ensures OnShard(route, Flatten(logs), s) == logs[s] {
      FlattenOnShard(route, logs, s);
    }
    forall i | 0 <= i < |Flatten(logs)| ensures route(Flatten(logs)[i].key) < |logs| {
      FlattenRoutes(route, logs, i);
    }
    InterleavingIndependence(route, initial, logs, run, Flatten(logs));
  }

  lemma FoldDecides(route: Route, initial: Database, logs: seq<Log>, k: RowKey)
    requires Routed(route, logs)
    ensures Get(Fold(initial, logs), k) == Decided(route, initial, logs, k)
  {
    ApplyAllAt(initial, Flatten(logs), k);
    FlattenAt(route, Get(initial, k), logs, k);
  }

  /** Positions in each of the shard logs. */
  predicate Points(logs: seq<Log>, points: seq<nat>) {
    |points| == |logs| && forall s :: 0 <= s < |logs| ==> points[s] <= |logs[s]|
  }

  function Prefixes(logs: seq<Log>, points: seq<nat>): seq<Log>
    requires Points(logs, points)
  {
    seq(|logs|, s requires 0 <= s < |logs| => logs[s][..points[s]])
  }

  function Tails(logs: seq<Log>, points: seq<nat>): seq<Log>
    requires Points(logs, points)
  {
    seq(|logs|, s requires 0 <= s < |logs| => logs[s][points[s]..])
  }

  /** The row of its own shard's log survives. */
  predicate Kept(route: Route, initial: Database, logs: seq<Log>, position: seq<nat>, resume: seq<nat>, k: RowKey)
    requires Points(logs, position) && Points(logs, resume)
  {
    var s := route(k);
    s < |logs| ==> Survives(Get(initial, k), logs[s], resume[s], position[s], k)
  }

  /** A snapshot that stands at position[s] in every shard, replayed from any
      resume points in any interleaving, is right about exactly the rows that
      survive in their shard. */
  lemma RestoredRow(route: Route, initial: Database, logs: seq<Log>, snapshot: Database,
                    position: seq<nat>, resume: seq<nat>, run: Log, k: RowKey)
    requires Routed(route, logs) && Points(logs, position) && Points(logs, resume)
    requires snapshot == Fold(initial, Prefixes(logs, position))
    requires Interleaves(route, run, Tails(logs, resume))
    ensures Get(ApplyAll(snapshot, run), k) == Get(Fold(initial, logs), k) <==>
              Kept(route, initial, logs, position, resume, k)
  {
    InterleavingDecides(route, snapshot, Tails(logs, resume), run, k);
    FoldDecides(route, initial, Prefixes(logs, position), k);
    FoldDecides(route, initial, logs, k);
    if route(k) < |logs| {
      RowSurvives(Get(initial, k), logs[route(k)], resume[route(k)], position[route(k)], k);
    }
  }

  /** So it ends in the fold of the whole logs exactly when every row survives,
      which is certain when no resume point is past the snapshot. */
  lemma RestoreThenReplay(route: Route, initial: Database, logs: seq<Log>, snapshot: Database,
                          position: seq<nat>, resume: seq<nat>, run: Log)
    requires Routed(route, logs) && Points(logs, position) && Points(logs, resume)
    requires snapshot == Fold(initial, Prefixes(logs, position))
    requires Interleaves(route, run, Tails(logs, resume))
    ensures ApplyAll(snapshot, run) == Fold(initial, logs) <==>
              forall k :: Kept(route, initial, logs, position, resume, k)
    ensures (forall s :: 0 <= s < |logs| ==> resume[s] <= position[s]) ==>
              ApplyAll(snapshot, run) == Fold(initial, logs)
  {
    forall k
      ensures Get(ApplyAll(snapshot, run), k) == Get(Fold(initial, logs), k) <==>
                Kept(route, initial, logs, position, resume, k)
    {
      RestoredRow(route, initial, logs, snapshot, position, resume, run, k);
    }
    if forall k :: Kept(route, initial, logs, position, resume, k) {
      SameRows(ApplyAll(snapshot, run), Fold(initial, logs));
    }
    if forall s :: 0 <= s < |logs| ==> resume[s] <= position[s] {
      forall k ensures Kept(route, initial, logs, position, resume, k) {
        if route(k) < |logs| {
          OverlapSurvives(Get(initial, k), logs[route(k)], resume[route(k)], position[route(k)], k);
        }
      }
    }
  }
}
