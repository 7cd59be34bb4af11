/** Runs of the code as it stands in which a caught-up node differs from the
    logs, for every configuration that allows them. Module Gaps says row by row
    what such runs cost. */
module Anomalies {
  import opened Basics
  import opened Store
  import opened Cluster
  import opened Convergence
  import opened Replicas
  import opened Schedules

  /******* One sequence map for Publish and Listen *******/

  /** Two changes of a row; the first is published, and delivered back; the second
      is published before the listener saves the first. */
  function LosingRun(n: nat, s: nat, k: RowKey, first: Row, second: Row): seq<Action> {
    HalfRun(n, s, k, first, second) + Takes(n) + [SaveSeq(n, s)]
  }

  function HalfRun(n: nat, s: nat, k: RowKey, first: Row, second: Row): seq<Action> {
    TwoWrites(n, k, first, second) + Takes(n) + [Deliver(n, s, 1)]
  }

  predicate Shares(cfg: Config, n: nat) {
    n < |cfg.nodes| && cfg.nodes[n] == NodeConfig(true, true, true)
  }

  function TwoWrites(n: nat, k: RowKey, first: Row, second: Row): seq<Action> {
    [Write(n, Put(k, first))] + [Write(n, Put(k, second))]
  }

  lemma TwoWritten(cfg: Config, n: nat, k: RowKey, first: Row, second: Row)
    requires ValidConfig(cfg) && n < |cfg.nodes| && cfg.nodes[n].publish
    ensures var acts := TwoWrites(n, k, first, second);
            var st := Execute(cfg, acts);
            && st.logs == Initial(cfg).logs && PlainRun(cfg, acts, n) && CanTake(cfg, st, n, 0)
            && var node := st.nodes[n];
            && node.outbox == [Pending(Change(k, Some(first)), false), Pending(Change(k, Some(second)), false)]
            && node.saved == node.cursor == node.unsaved == Zeros(cfg.shards) && Get(node.db, k) == Some(second)
  {
    WriteOne(cfg, [], n, Put(k, first));
    assert [] + [Write(n, Put(k, first))] == [Write(n, Put(k, first))];
    WriteOne(cfg, [Write(n, Put(k, first))], n, Put(k, second));
  }

  /** What HalfRun leaves of node n and the logs, before and after the delivery. */
  predicate HalfDone(cfg: Config, acts: seq<Action>, n: nat, k: RowKey, first: Row, second: Row)
    requires n < |cfg.nodes| && cfg.route(k) < cfg.shards
  {
    var st, s := Execute(cfg, acts), cfg.route(k);
    && st.logs == Initial(cfg).logs[s := [Change(k, Some(first))]]
    && PlainRun(cfg, acts, n) && CanTake(cfg, st, n, 0)
    && st.nodes[n].outbox == [Pending(Change(k, Some(second)), false)]
    && st.nodes[n].saved == Zeros(cfg.shards)[s := 1] && st.nodes[n].cursor == Zeros(cfg.shards)
  }

  lemma HalfTaken(cfg: Config, acts: seq<Action>, n: nat, k: RowKey, first: Row, second: Row)
    requires ValidConfig(cfg) && Shares(cfg, n) && PlainRun(cfg, acts, n)
    requires var st := Execute(cfg, acts);
             && st.logs == Initial(cfg).logs && CanTake(cfg, st, n, 0)
             && st.nodes[n].outbox == [Pending(Change(k, Some(first)), false), Pending(Change(k, Some(second)), false)]
             && st.nodes[n].saved == st.nodes[n].cursor == st.nodes[n].unsaved == Zeros(cfg.shards)
    ensures HalfDone(cfg, acts + Takes(n), n, k, first, second)
    ensures Execute(cfg, acts + Takes(n)).nodes[n].unsaved == Zeros(cfg.shards)
  {
    TakeOne(cfg, acts, n);
    TurnPlain(cfg, acts, n, 0, true, n);
    assert [] + [Change(k, Some(first))] == [Change(k, Some(first))];
  }

  lemma HalfDelivered(cfg: Config, acts: seq<Action>, n: nat, k: RowKey, first: Row, second: Row)
    requires ValidConfig(cfg) && Shares(cfg, n) && HalfDone(cfg, acts, n, k, first, second)
    requires Execute(cfg, acts).nodes[n].unsaved == Zeros(cfg.shards)
    ensures HalfDone(cfg, acts + [Deliver(n, cfg.route(k), 1)], n, k, first, second)
    ensures var node := Execute(cfg, acts + [Deliver(n, cfg.route(k), 1)]).nodes[n];
            Get(node.db, k) == Some(first) && node.unsaved == Zeros(cfg.shards)[cfg.route(k) := 1]
  {
    var st, s := Execute(cfg, acts), cfg.route(k);
    PlainSnoc(cfg, acts, Deliver(n, s, 1), n);
    ExecuteSnoc(cfg, acts, Deliver(n, s, 1));
    assert Step(cfg, st, Deliver(n, s, 1)) ==
           st.(nodes := st.nodes[n := DeliverStep(cfg, true, st.nodes[n], st.logs[s], s, 1)]);
  }

  lemma HalfWay(cfg: Config, n: nat, k: RowKey, first: Row, second: Row)
    requires ValidConfig(cfg) && Shares(cfg, n)
    ensures var acts := HalfRun(n, cfg.route(k), k, first, second);
            && HalfDone(cfg, acts, n, k, first, second)
            && var node := Execute(cfg, acts).nodes[n];
            Get(node.db, k) == Some(first) && node.unsaved == Zeros(cfg.shards)[cfg.route(k) := 1]
  {
    TwoWritten(cfg, n, k, first, second);
    HalfTaken(cfg, TwoWrites(n, k, first, second), n, k, first, second);
    HalfDelivered(cfg, TwoWrites(n, k, first, second) + Takes(n), n, k, first, second);
  }

  /** Everything captured was sent, and every stream read to its end. */
  predicate Ended(cfg: Config, acts: seq<Action>, n: nat)
    requires n < |cfg.nodes|
  {
    var st := Execute(cfg, acts);
    CaughtUp(cfg, st, n) && forall i :: 0 <= i < |st.nodes[n].outbox| ==> st.nodes[n].outbox[i].sent
  }

  /** With one sequence map for Publish and Listen, every row has a run that loses
      its last update: nothing fails, nothing is lost or reordered, no restore
      happens, the change log is empty and the listeners are at the end, and
      still the row holds the older value. For every such node, shard count,
      stream bound and row, and any two values. */
  lemma SharedMapLosesUpdate(cfg: Config, n: nat, k: RowKey, first: Row, second: Row)
    requires ValidConfig(cfg) && Shares(cfg, n) && first != second
    ensures var acts := LosingRun(n, cfg.route(k), k, first, second);
            var st := Execute(cfg, acts);
            && PlainRun(cfg, acts, n) && Ended(cfg, acts, n) && st.nodes[n].outbox == []
            && Get(st.nodes[n].db, k) == Some(first) && Get(Fold(cfg.initial, st.logs), k) == Some(second)
  {
    var s, half := cfg.route(k), HalfRun(n, cfg.route(k), k, first, second);
    HalfWay(cfg, n, k, first, second);
    TakeOne(cfg, half, n);
    TurnPlain(cfg, half, n, 0, true, n);
    var acts := half + Takes(n);
    var st := Execute(cfg, acts);
    assert st.logs[s] == [Change(k, Some(first)), Change(k, Some(second))];
    PlainSnoc(cfg, acts, SaveSeq(n, s), n);
    ExecuteSnoc(cfg, acts, SaveSeq(n, s));
    assert Execute(cfg, acts + [SaveSeq(n, s)]) == st.(nodes := st.nodes[n := SaveStep(cfg, st.nodes[n], s)]);
    RunKeepsInv(cfg, acts);
    FoldDecides(cfg.route, cfg.initial, st.logs, k);
  }

  /** The run ends, and ends right. */
  predicate EndsInFold(cfg: Config, acts: seq<Action>, n: nat)
    requires n < |cfg.nodes|
  {
    PlainRun(cfg, acts, n) && Ended(cfg, acts, n) ==>
      Execute(cfg, acts).nodes[n].db == Fold(cfg.initial, Execute(cfg, acts).logs)
  }

  /** Which settings give eventual consistency: a replicating node has it in
      every run without losses or restores if and only if it does not both
      publish and take snapshots. An operator can tell before starting it. */
  lemma SoundExactly(cfg: Config, n: nat)
    requires ValidConfig(cfg) && n < |cfg.nodes| && cfg.nodes[n].replicate
    ensures Sound(cfg, n) <==> forall acts :: EndsInFold(cfg, acts, n)
  {
    if Sound(cfg, n) {
      forall acts ensures EndsInFold(cfg, acts, n) {
        if PlainRun(cfg, acts, n) && Ended(cfg, acts, n) {
          EventualConsistency(cfg, acts, n);
        }
      }
    } else {
      var k, empty: Row, filled: Row := RowKey([], map[]), map[], map[[] := Null];
      assert [] in filled;
      SharedMapLosesUpdate(cfg, n, k, empty, filled);
      assert !EndsInFold(cfg, LosingRun(n, cfg.route(k), k, empty, filled), n);
    }
  }

  /******* A change that no shard accepted *******/

  /** No shard accepts, and the error is not a retryable one. */
  const UNSENT := Call(false, false, true)

  lemma DropSteps(cfg: Config, st: State, n: nat)
    requires Shape(cfg, st) && n < |st.nodes| && |st.nodes[n].outbox| == 1 && st.nodes[n].inflight == None
    ensures var st' := Step(cfg, Step(cfg, st, Consume(n, 0, UNSENT)), Mark(n, true));
            && st'.logs == st.logs && st'.nodes[n].db == st.nodes[n].db && st'.nodes[n].outbox == []
            && st'.nodes[n].cursor == st.nodes[n].cursor
  {
    var mid := Step(cfg, st, Consume(n, 0, UNSENT));
    assert mid == ConsumeStep(cfg, st, n, 0, UNSENT);
    assert Step(cfg, mid, Mark(n, true)).nodes[n] == MarkStep(mid.nodes[n], true);
  }

  lemma DropOne(cfg: Config, acts: seq<Action>, n: nat)
    requires n < |cfg.nodes|
    requires |Execute(cfg, acts).nodes[n].outbox| == 1 && Execute(cfg, acts).nodes[n].inflight == None
    ensures var st, st' := Execute(cfg, acts), Execute(cfg, acts + [Consume(n, 0, UNSENT)] + [Mark(n, true)]);
            && st'.logs == st.logs && st'.nodes[n].db == st.nodes[n].db && st'.nodes[n].outbox == []
            && st'.nodes[n].cursor == st.nodes[n].cursor
  {
    ExecuteSnoc(cfg, acts, Consume(n, 0, UNSENT));
    ExecuteSnoc(cfg, acts + [Consume(n, 0, UNSENT)], Mark(n, true));
    DropSteps(cfg, Execute(cfg, acts), n);
  }

  /** A change that is marked though no shard accepted it (publishing is off, or
      the error was not a retryable one) leaves its node caught up, drained and
      different from the logs: for every configuration, node and new row. */
  lemma DroppedChangeDiverges(cfg: Config, n: nat, k: RowKey, row: Row)
    requires ValidConfig(cfg) && n < |cfg.nodes| && Get(cfg.initial, k) != Some(row)
    ensures var acts := [Write(n, Put(k, row))] + [Consume(n, 0, UNSENT)] + [Mark(n, true)];
            var st := Execute(cfg, acts);
            && Ended(cfg, acts, n) && st.nodes[n].outbox == []
            && Get(st.nodes[n].db, k) == Some(row) && Get(Fold(cfg.initial, st.logs), k) == Get(cfg.initial, k)
  {
    WriteOne(cfg, [], n, Put(k, row));
    assert [] + [Write(n, Put(k, row))] == [Write(n, Put(k, row))];
    DropOne(cfg, [Write(n, Put(k, row))], n);
    FoldDecides(cfg.route, cfg.initial, Initial(cfg).logs, k);
  }

  /******* A mark that fails with a change queued behind it *******/

  /** Two changes of a row are published in one pass, but the first one's mark
      fails, so the next pass publishes it again. */
  function FailedMarkRun(n: nat, k: RowKey, first: Row, second: Row): seq<Action> {
    TwoWrites(n, k, first, second) + Turn(n, 0, false) + Turn(n, 1, true) + Turn(n, 0, true)
  }

  /** After a turn: the run is plain, and the row's log and the outbox are these. */
  predicate AfterTurn(cfg: Config, acts: seq<Action>, n: nat, k: RowKey, row: Row, log: Log, outbox: seq<Pending>)
    requires n < |cfg.nodes| && cfg.route(k) < cfg.shards
  {
    var st := Execute(cfg, acts);
    && PlainRun(cfg, acts, n) && st.logs[cfg.route(k)] == log && Get(st.nodes[n].db, k) == Some(row)
    && st.nodes[n].outbox == outbox && st.nodes[n].inflight == None
  }

  lemma OneTurn(cfg: Config, acts: seq<Action>, n: nat, k: RowKey, row: Row, log: Log, outbox: seq<Pending>,
                i: nat, committed: bool)
    requires n < |cfg.nodes| && cfg.nodes[n].publish && cfg.route(k) < cfg.shards
    requires AfterTurn(cfg, acts, n, k, row, log, outbox) && i < |outbox| && outbox[i].change.key == k
    ensures AfterTurn(cfg, acts + Turn(n, i, committed), n, k, row, log + [outbox[i].change],
                      if committed then Without(outbox, i) else outbox[i := Pending(outbox[i].change, true)])
  {
    TakeTurn(cfg, acts, n, i, committed);
    TurnPlain(cfg, acts, n, i, committed, n);
  }

  lemma ThreeTurns(cfg: Config, acts: seq<Action>, n: nat, k: RowKey, row: Row, a: Change, b: Change)
    requires n < |cfg.nodes| && cfg.nodes[n].publish && cfg.route(k) < cfg.shards && a.key == b.key == k
    requires AfterTurn(cfg, acts, n, k, row, [], [Pending(a, false), Pending(b, false)])
    ensures AfterTurn(cfg, acts + Turn(n, 0, false) + Turn(n, 1, true) + Turn(n, 0, true), n, k, row, [a, b, a], [])
  {
    OneTurn(cfg, acts, n, k, row, [], [Pending(a, false), Pending(b, false)], 0, false);
    assert [Pending(a, false), Pending(b, false)][0 := Pending(a, true)] == [Pending(a, true), Pending(b, false)];
    assert [] + [a] == [a];
    LastTurns(cfg, acts + Turn(n, 0, false), n, k, row, a, b);
  }

  lemma LastTurns(cfg: Config, acts: seq<Action>, n: nat, k: RowKey, row: Row, a: Change, b: Change)
    requires n < |cfg.nodes| && cfg.nodes[n].publish && cfg.route(k) < cfg.shards && a.key == b.key == k
    requires AfterTurn(cfg, acts, n, k, row, [a], [Pending(a, true), Pending(b, false)])
    ensures AfterTurn(cfg, acts + Turn(n, 1, true) + Turn(n, 0, true), n, k, row, [a, b, a], [])
  {
    OneTurn(cfg, acts, n, k, row, [a], [Pending(a, true), Pending(b, false)], 1, true);
    assert Without([Pending(a, true), Pending(b, false)], 1) == [Pending(a, true)] && [a] + [b] == [a, b];
    OneTurn(cfg, acts + Turn(n, 1, true), n, k, row, [a, b], [Pending(a, true)], 0, true);
    assert Without([Pending(a, true)], 0) == [] && [a, b] + [a] == [a, b, a];
  }

  lemma FailedMarkTurns(cfg: Config, n: nat, k: RowKey, first: Row, second: Row)
    requires ValidConfig(cfg) && n < |cfg.nodes| && cfg.nodes[n].publish
    ensures var a, b := Change(k, Some(first)), Change(k, Some(second));
            AfterTurn(cfg, FailedMarkRun(n, k, first, second), n, k, second, [a, b, a], [])
  {
    TwoWritten(cfg, n, k, first, second);
    ThreeTurns(cfg, TwoWrites(n, k, first, second), n, k, second, Change(k, Some(first)), Change(k, Some(second)));
  }

  /** A node that does not replicate changes its tables only by its own writes. */
  lemma {:induction false} OnlyOwnWrites(cfg: Config, run: seq<Action>, since: nat, n: nat)
    requires n < |cfg.nodes| && !cfg.nodes[n].replicate && since <= |run|
    requires forall i :: since <= i < |run| && run[i].Write? ==> run[i].n != n
    ensures Execute(cfg, run).nodes[n].db == Execute(cfg, run[..since]).nodes[n].db
    decreases |run|
  {
    if since == |run| {
      assert run[..since] == run;
    } else {
      var init := run[..|run| - 1];
      assert init[..since] == run[..since];
      OnlyOwnWrites(cfg, init, since, n);
      TablesStand(cfg, Execute(cfg, init), run[|run| - 1], n);
    }
  }

  lemma TablesStand(cfg: Config, st: State, a: Action, n: nat)
    requires Shape(cfg, st) && n < |st.nodes| && !cfg.nodes[n].replicate && !(a.Write? && a.n == n)
    ensures Step(cfg, st, a).nodes[n].db == st.nodes[n].db
  {
    if a.n != n {
      OthersStand(cfg, st, a, n);
    }
  }

  /** What a failed mark costs when a change of the same row is queued behind: the
      log gets the older value last, so every replica will hold it, while the
      primary keeps the newer one for good, whatever happens short of another
      write of its own. Nothing is lost, and the change log is drained. For
      every publisher that does not replicate, every row and any two values. */
  lemma FailedMarkDiverges(cfg: Config, n: nat, k: RowKey, first: Row, second: Row, more: seq<Action>)
    requires ValidConfig(cfg) && n < |cfg.nodes| && cfg.nodes[n].publish && !cfg.nodes[n].replicate
    requires forall i :: 0 <= i < |more| && more[i].Write? ==> more[i].n != n
    ensures var acts := FailedMarkRun(n, k, first, second);
            var st := Execute(cfg, acts);
            && PlainRun(cfg, acts, n) && st.nodes[n].outbox == []
            && Get(Fold(cfg.initial, st.logs), k) == Some(first)
            && Get(st.nodes[n].db, k) == Get(Execute(cfg, acts + more).nodes[n].db, k) == Some(second)
  {
    var acts := FailedMarkRun(n, k, first, second);
    FailedMarkTurns(cfg, n, k, first, second);
    assert (acts + more)[..|acts|] == acts;
    OnlyOwnWrites(cfg, acts + more, |acts|, n);
    RunKeepsInv(cfg, acts);
    FoldDecides(cfg.route, cfg.initial, Execute(cfg, acts).logs, k);
  }

  /******* An update of a primary key *******/

  function MoveRun(n: nat, m: nat, s: nat, op: WriteOp): seq<Action> {
    [Write(n, op)] + Takes(n) + [Deliver(n, s, 1)] + [SaveSeq(n, s)] + [Deliver(m, s, 1)] + [SaveSeq(m, s)]
  }

  predicate CanMove(cfg: Config, n: nat, m: nat, from: RowKey, to: RowKey) {
    && n < |cfg.nodes| && m < |cfg.nodes| && n != m && cfg.nodes[n].publish && cfg.nodes[m].replicate
    && from in cfg.initial && to !in cfg.initial && cfg.route(to) < cfg.shards
  }

  /** Node n has moved the row; each listener has read the log or nothing. */
  predicate Moved(cfg: Config, st: State, n: nat, m: nat, from: RowKey, to: RowKey, row: Row, readers: set<nat>)
    requires CanMove(cfg, n, m, from, to) && Shape(cfg, st)
  {
    var s := cfg.route(to);
    && st.logs == Initial(cfg).logs[s := [Change(to, Some(row))]]
    && st.nodes[n].outbox == st.nodes[m].outbox == []
    && from !in st.nodes[n].db && from in st.nodes[m].db
    && forall i :: i in {n, m} ==>
         && st.nodes[i].saved[s] <= 1 && st.nodes[i].unsaved == Zeros(cfg.shards)
         && st.nodes[i].cursor == if i in readers then Zeros(cfg.shards)[s := 1] else Zeros(cfg.shards)
  }

  lemma MoveTaken(cfg: Config, acts: seq<Action>, n: nat, m: nat, from: RowKey, to: RowKey, row: Row)
    requires CanMove(cfg, n, m, from, to)
    requires var st := Execute(cfg, acts);
             && st.logs == Initial(cfg).logs && st.nodes[n].outbox == [Pending(Change(to, Some(row)), false)]
             && st.nodes[n].inflight == None && st.nodes[m].outbox == []
             && from !in st.nodes[n].db && from in st.nodes[m].db
             && forall i :: i in {n, m} ==>
                  st.nodes[i].saved == st.nodes[i].cursor == st.nodes[i].unsaved == Zeros(cfg.shards)
    ensures Moved(cfg, Execute(cfg, acts + Takes(n)), n, m, from, to, row, {})
  {
    TakeOne(cfg, acts, n);
    assert [] + [Change(to, Some(row))] == [Change(to, Some(row))];
  }

  lemma MovePublished(cfg: Config, n: nat, m: nat, from: RowKey, to: RowKey, row: Row)
    requires CanMove(cfg, n, m, from, to)
    ensures Moved(cfg, Execute(cfg, [Write(n, Move(from, to, row))] + Takes(n)), n, m, from, to, row, {})
  {
    var op := Move(from, to, row);
    WriteOne(cfg, [], n, op);
    assert [] + [Write(n, op)] == [Write(n, op)];
    MoveTaken(cfg, [Write(n, op)], n, m, from, to, row);
  }

  lemma MoverReads(cfg: Config, acts: seq<Action>, n: nat, m: nat, from: RowKey, to: RowKey, row: Row)
    requires CanMove(cfg, n, m, from, to) && Moved(cfg, Execute(cfg, acts), n, m, from, to, row, {})
    ensures Moved(cfg, Execute(cfg, acts + [Deliver(n, cfg.route(to), 1)] + [SaveSeq(n, cfg.route(to))]),
                  n, m, from, to, row, {n})
  {
    ReadOne(cfg, acts, n, cfg.route(to), 1);
  }

  lemma OtherReads(cfg: Config, acts: seq<Action>, n: nat, m: nat, from: RowKey, to: RowKey, row: Row)
    requires CanMove(cfg, n, m, from, to) && Moved(cfg, Execute(cfg, acts), n, m, from, to, row, {n})
    ensures Moved(cfg, Execute(cfg, acts + [Deliver(m, cfg.route(to), 1)] + [SaveSeq(m, cfg.route(to))]),
                  n, m, from, to, row, {n, m})
  {
    ReadOne(cfg, acts, m, cfg.route(to), 1);
  }

  lemma MovedFold(cfg: Config, st: State, n: nat, m: nat, from: RowKey, to: RowKey, row: Row)
    requires ValidConfig(cfg) && CanMove(cfg, n, m, from, to) && Shape(cfg, st)
    requires Moved(cfg, st, n, m, from, to, row, {n, m})
    ensures CaughtUp(cfg, st, n) && CaughtUp(cfg, st, m)
    ensures Get(Fold(cfg.initial, st.logs), from) == Get(cfg.initial, from)
  {
    FoldDecides(cfg.route, cfg.initial, st.logs, from);
    assert !Mentions(st.logs[cfg.route(from)], from);
    LatestUnmentioned(Get(cfg.initial, from), st.logs[cfg.route(from)], from);
  }

  /** The trigger of an update records only the new row, so an update that moves
      a row to another key leaves the old key behind on every other node: both
      nodes end caught up and drained, and they differ. */
  lemma MovedKeyStaysBehind(cfg: Config, n: nat, m: nat, from: RowKey, to: RowKey, row: Row)
    requires ValidConfig(cfg) && CanMove(cfg, n, m, from, to)
    ensures var acts := MoveRun(n, m, cfg.route(to), Move(from, to, row));
            var st := Execute(cfg, acts);
            && Ended(cfg, acts, n) && Ended(cfg, acts, m)
            && from in st.nodes[m].db && from !in st.nodes[n].db
            && Get(Fold(cfg.initial, st.logs), from) == Get(cfg.initial, from)
  {
    var s, op := cfg.route(to), Move(from, to, row);
    var acts := [Write(n, op)] + Takes(n);
    MovePublished(cfg, n, m, from, to, row);
    MoverReads(cfg, acts, n, m, from, to, row);
    OtherReads(cfg, acts + [Deliver(n, s, 1)] + [SaveSeq(n, s)], n, m, from, to, row);
    MovedFold(cfg, Execute(cfg, MoveRun(n, m, s, op)), n, m, from, to, row);
  }

  /******* A restore that is behind in one shard *******/

  /** Node n publishes and saves snapshots, m restores them, and two rows live in
      different shards. */
  predicate CanFallBehind(cfg: Config, n: nat, m: nat, k: RowKey, other: RowKey) {
    && n < |cfg.nodes| && m < |cfg.nodes| && n != m && cfg.nodes[n].publish
    && cfg.nodes[m].replicate && cfg.nodes[m].snapshots
    && cfg.route(k) < cfg.shards && cfg.route(other) < cfg.shards && cfg.route(k) != cfg.route(other)
  }

  /** The snapshot is the initial one, n is drained, and m has read up to `at`. */
  predicate Behind(cfg: Config, st: State, n: nat, m: nat, logs: seq<Log>, at: seq<nat>)
    requires Shape(cfg, st) && n < |cfg.nodes| && m < |cfg.nodes|
  {
    && st.logs == logs && st.snapshot.Some? && st.snapshot.value.db == cfg.initial
    && st.nodes[n].outbox == [] && st.nodes[n].inflight == None
    && st.nodes[m].saved == st.nodes[m].cursor == at && st.nodes[m].unsaved == Zeros(cfg.shards)
    && st.nodes[m].outbox == []
  }

  function Publishes(n: nat, k: RowKey, row: Row): seq<Action> {
    [Write(n, Put(k, row))] + Takes(n)
  }

  lemma PublishOne(cfg: Config, acts: seq<Action>, n: nat, m: nat, logs: seq<Log>, at: seq<nat>, k: RowKey, row: Row)
    requires n < |cfg.nodes| && m < |cfg.nodes| && n != m && cfg.nodes[n].publish && cfg.route(k) < cfg.shards
    requires Behind(cfg, Execute(cfg, acts), n, m, logs, at)
    ensures Behind(cfg, Execute(cfg, acts + Publishes(n, k, row)), n, m,
                   logs[cfg.route(k) := logs[cfg.route(k)] + [Change(k, Some(row))]], at)
  {
    WriteOne(cfg, acts, n, Put(k, row));
    assert Execute(cfg, acts + [Write(n, Put(k, row))]).nodes[n].outbox == [Pending(Change(k, Some(row)), false)];
    TakeOne(cfg, acts + [Write(n, Put(k, row))], n);
    assert acts + Publishes(n, k, row) == acts + [Write(n, Put(k, row))] + Takes(n);
  }

  /** The first message of a shard, read by m. */
  lemma ReadFirst(cfg: Config, acts: seq<Action>, n: nat, m: nat, logs: seq<Log>, at: seq<nat>, s: nat)
    requires n < |cfg.nodes| && m < |cfg.nodes| && n != m && cfg.nodes[m].replicate && s < cfg.shards
    requires Behind(cfg, Execute(cfg, acts), n, m, logs, at) && at[s] == 0 && |logs[s]| == 1
    ensures var st, st' := Execute(cfg, acts), Execute(cfg, acts + [Deliver(m, s, 1)] + [SaveSeq(m, s)]);
            Behind(cfg, st', n, m, logs, at[s := 1]) && st'.nodes[m].db == Apply(st.nodes[m].db, logs[s][0])
  {
    ReadOne(cfg, acts, m, s, 1);
  }

  function StaleRestoreRun(cfg: Config, n: nat, m: nat, k: RowKey, row: Row, other: RowKey, second: Row): seq<Action> {
    FallBehindRun(cfg, n, m, k, row, other, second) + [Restart(m)]
    + [Deliver(m, cfg.route(other), 1)] + [SaveSeq(m, cfg.route(other))]
  }

  function FallBehindRun(cfg: Config, n: nat, m: nat, k: RowKey, row: Row, other: RowKey, second: Row): seq<Action> {
    [TakeSnapshot(n)] + Publishes(n, k, row) + [Deliver(m, cfg.route(k), 1)] + [SaveSeq(m, cfg.route(k))]
    + Publishes(n, other, second)
  }

  function TwoLogs(cfg: Config, k: RowKey, row: Row, other: RowKey, second: Row): seq<Log>
    requires cfg.route(k) < cfg.shards && cfg.route(other) < cfg.shards
  {
    Initial(cfg).logs[cfg.route(k) := [Change(k, Some(row))]][cfg.route(other) := [Change(other, Some(second))]]
  }

  lemma ReadK(cfg: Config, n: nat, m: nat, k: RowKey, row: Row, acts: seq<Action>)
    requires n < |cfg.nodes| && m < |cfg.nodes| && n != m && cfg.nodes[n].publish && cfg.nodes[m].replicate
    requires cfg.route(k) < cfg.shards
    requires var s := cfg.route(k);
             acts == [TakeSnapshot(n)] + Publishes(n, k, row) + [Deliver(m, s, 1)] + [SaveSeq(m, s)]
    ensures Behind(cfg, Execute(cfg, acts), n, m, Initial(cfg).logs[cfg.route(k) := [Change(k, Some(row))]],
                   Zeros(cfg.shards)[cfg.route(k) := 1])
  {
    var s, start, logs := cfg.route(k), [TakeSnapshot(n)], Initial(cfg).logs;
    ExecuteSnoc(cfg, [], TakeSnapshot(n));
    assert [] + start == start;
    assert Behind(cfg, Execute(cfg, start), n, m, logs, Zeros(cfg.shards));
    PublishOne(cfg, start, n, m, logs, Zeros(cfg.shards), k, row);
    assert logs[s] + [Change(k, Some(row))] == [Change(k, Some(row))];
    ReadFirst(cfg, start + Publishes(n, k, row), n, m, logs[s := [Change(k, Some(row))]], Zeros(cfg.shards), s);
  }

  /** m has read the shard of k and not yet the other one. */
  lemma FellBehind(cfg: Config, n: nat, m: nat, k: RowKey, row: Row, other: RowKey, second: Row)
    requires CanFallBehind(cfg, n, m, k, other)
    ensures Behind(cfg, Execute(cfg, FallBehindRun(cfg, n, m, k, row, other, second)), n, m,
                   TwoLogs(cfg, k, row, other, second), Zeros(cfg.shards)[cfg.route(k) := 1])
  {
    var s := cfg.route(k);
    var acts := [TakeSnapshot(n)] + Publishes(n, k, row) + [Deliver(m, s, 1)] + [SaveSeq(m, s)];
    var logs := Initial(cfg).logs[s := [Change(k, Some(row))]];
    ReadK(cfg, n, m, k, row, acts);
    PublishOne(cfg, acts, n, m, logs, Zeros(cfg.shards)[s := 1], other, second);
    assert logs[cfg.route(other)] + [Change(other, Some(second))] == [Change(other, Some(second))];
  }

  /** The boot check restores, since the other shard has a message m never saved. */
  lemma BehindRestores(cfg: Config, acts: seq<Action>, n: nat, m: nat, logs: seq<Log>, at: seq<nat>, s: nat)
    requires n < |cfg.nodes| && m < |cfg.nodes| && n != m && cfg.nodes[m].replicate && cfg.nodes[m].snapshots
    requires s < cfg.shards && Behind(cfg, Execute(cfg, acts), n, m, logs, at) && at[s] == 0 && |logs[s]| == 1
    ensures Behind(cfg, Execute(cfg, acts + [Restart(m)]), n, m, logs, at)
    ensures Execute(cfg, acts + [Restart(m)]).nodes[m].db == cfg.initial
  {
    var st := Execute(cfg, acts);
    ExecuteSnoc(cfg, acts, Restart(m));
    assert st.nodes[m].saved[s] < FirstSeq(cfg, |st.logs[s]|);
    assert Restores(cfg, st, m);
    assert Step(cfg, st, Restart(m)) == st.(nodes := st.nodes[m := RestartStep(cfg, st, m)]);
  }

  /** A replica that has read the shard of k falls behind in another shard; the
      snapshot is older than both. Restoring it takes k back, and the kept
      sequence of k's shard means it is never read again: the replica ends
      caught up without it. For every configuration with two shards in use, any
      stream bound, and every row that differs from the initial one. */
  lemma StaleRestoreLosesRow(cfg: Config, n: nat, m: nat, k: RowKey, row: Row, other: RowKey, second: Row)
    requires ValidConfig(cfg) && CanFallBehind(cfg, n, m, k, other) && Get(cfg.initial, k) != Some(row)
    ensures var acts := StaleRestoreRun(cfg, n, m, k, row, other, second);
            var st := Execute(cfg, acts);
            && Ended(cfg, acts, m) && st.nodes[n].outbox == st.nodes[m].outbox == []
            && Get(st.nodes[m].db, k) == Get(cfg.initial, k) && Get(Fold(cfg.initial, st.logs), k) == Some(row)
  {
    var at := Zeros(cfg.shards)[cfg.route(k) := 1];
    FellBehind(cfg, n, m, k, row, other, second);
    RestoredWithout(cfg, FallBehindRun(cfg, n, m, k, row, other, second), n, m, k, row, other, second, at);
    TwoLogsFold(cfg, k, row, other, second);
  }

  lemma RestoredWithout(cfg: Config, acts: seq<Action>, n: nat, m: nat, k: RowKey, row: Row,
                        other: RowKey, second: Row, at: seq<nat>)
    requires CanFallBehind(cfg, n, m, k, other) && at == Zeros(cfg.shards)[cfg.route(k) := 1]
    requires Behind(cfg, Execute(cfg, acts), n, m, TwoLogs(cfg, k, row, other, second), at)
    ensures var s := cfg.route(other);
            var st := Execute(cfg, acts + [Restart(m)] + [Deliver(m, s, 1)] + [SaveSeq(m, s)]);
            && Behind(cfg, st, n, m, TwoLogs(cfg, k, row, other, second), at[s := 1]) && CaughtUp(cfg, st, m)
            && Get(st.nodes[m].db, k) == Get(cfg.initial, k)
  {
    var logs := TwoLogs(cfg, k, row, other, second);
    BehindRestores(cfg, acts, n, m, logs, at, cfg.route(other));
    ReadFirst(cfg, acts + [Restart(m)], n, m, logs, at, cfg.route(other));
    assert logs[cfg.route(other)] == [Change(other, Some(second))];
  }

  lemma TwoLogsFold(cfg: Config, k: RowKey, row: Row, other: RowKey, second: Row)
    requires ValidConfig(cfg) && cfg.route(k) != cfg.route(other)
    ensures Get(Fold(cfg.initial, TwoLogs(cfg, k, row, other, second)), k) == Some(row)
  {
    FoldDecides(cfg.route, cfg.initial, TwoLogs(cfg, k, row, other, second), k);
  }
}
