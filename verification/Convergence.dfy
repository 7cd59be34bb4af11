/** Convergence of the cluster: the invariant of module Cluster holds in every
    run, and what follows for tables once listeners have caught up. */
module Convergence {
  import opened Basics
  import opened Store
  import opened Cluster

  /******* Every step lets logs and unsettled rows evolve *******/

  lemma MarkEvolves(node: Node, committed: bool, k: RowKey)
    requires Unsettled(node, k)
    ensures Unsettled(MarkStep(node, committed), k)
  {
    var node' := MarkStep(node, committed);
    if k !in node'.track.lost && node'.outbox != node.outbox {
      var i := node.inflight.value;
      var j :| 0 <= j < |node.outbox| && node.outbox[j].change.key == k && !node.outbox[j].sent;
      assert j != i;
      assert node'.outbox[if j < i then j else j - 1] == node.outbox[j];
    }
  }

  lemma ConsumeEvolves(cfg: Config, st: State, n: nat, i: nat, call: Call)
    requires ValidConfig(cfg) && Shape(cfg, st) && n < |st.nodes| && i < |st.nodes[n].outbox|
    ensures Evolves(cfg, st, ConsumeStep(cfg, st, n, i, call))
  {
    var st' := ConsumeStep(cfg, st, n, i, call);
    var c := st.nodes[n].outbox[i].change;
    forall m: nat, k | m < |st.nodes| && Unsettled(st.nodes[m], k)
      ensures Unsettled(st'.nodes[m], k) || Mentions(st'.logs[cfg.route(k)][|st.logs[cfg.route(k)]|..], k)
    {
      var s := cfg.route(k);
      if st'.logs != st.logs && k == c.key {
        assert st'.logs[s][|st.logs[s]|..] == [c];
        assert [c][0].key == k;
      } else if k !in st.nodes[m].track.lost {
        var j :| 0 <= j < |st.nodes[m].outbox| && st.nodes[m].outbox[j].change.key == k && !st.nodes[m].outbox[j].sent;
        assert st'.nodes[m].outbox[j] == st.nodes[m].outbox[j];
      }
    }
  }

  lemma NodeStepEvolves(cfg: Config, st: State, n: nat, node': Node)
    requires ValidConfig(cfg) && Shape(cfg, st) && n < |st.nodes| && NodeShape(cfg, node')
    requires forall k :: Unsettled(st.nodes[n], k) ==> Unsettled(node', k)
    ensures Evolves(cfg, st, st.(nodes := st.nodes[n := node']))
  {
  }

  lemma WriteEvolves(cfg: Config, st: State, n: nat, op: WriteOp)
    requires ValidConfig(cfg) && Shape(cfg, st) && n < |st.nodes|
    ensures Evolves(cfg, st, st.(nodes := st.nodes[n := WriteStep(st.nodes[n], op)]))
  {
    var node, node' := st.nodes[n], WriteStep(st.nodes[n], op);
    forall k | Unsettled(node, k) ensures Unsettled(node', k) {
      if k !in node.track.lost {
        var j :| 0 <= j < |node.outbox| && node.outbox[j].change.key == k && !node.outbox[j].sent;
        assert node'.outbox[j] == node.outbox[j];
      }
    }
    NodeStepEvolves(cfg, st, n, node');
  }

  lemma StepEvolves(cfg: Config, st: State, a: Action)
    requires ValidConfig(cfg) && Shape(cfg, st)
    ensures Evolves(cfg, st, Step(cfg, st, a))
  {
    if Enabled(cfg, st, a) {
      var node := st.nodes[a.n];
      match a
      case Write(n, op) => WriteEvolves(cfg, st, n, op);
      case Consume(n, i, call) => ConsumeEvolves(cfg, st, n, i, call);
      case Mark(n, committed) =>
        forall k | Unsettled(node, k) ensures Unsettled(MarkStep(node, committed), k) {
          MarkEvolves(node, committed, k);
        }
        NodeStepEvolves(cfg, st, n, MarkStep(node, committed));
      case Deliver(n, s, d) =>
      case SaveSeq(n, s) =>
      case Restart(n) =>
        var node' := RestartStep(cfg, st, n);
        assert forall k :: Unsettled(node, k) ==> Unsettled(node', k);
        NodeStepEvolves(cfg, st, n, node');
      case TakeSnapshot(n) =>
    }
  }

  /** A step of one node leaves the others alone, but for rows it heals there. */
  lemma OthersStand(cfg: Config, st: State, a: Action, n: nat)
    requires Shape(cfg, st) && n < |st.nodes| && a.n != n
    ensures var node, node' := st.nodes[n], Step(cfg, st, a).nodes[n];
            node' == node.(track := node.track.(lost := node'.track.lost)) && node'.track.lost <= node.track.lost
  {
  }

  lemma LogsGrow(cfg: Config, st: State, a: Action, s: nat)
    requires Shape(cfg, st) && s < cfg.shards
    ensures st.logs[s] <= Step(cfg, st, a).logs[s]
  {
  }

  /******* Each step keeps its own node right *******/

  lemma WriteKeepsRow(cfg: Config, st: State, n: nat, op: WriteOp, pos: seq<nat>, k: RowKey)
    requires ValidConfig(cfg) && Shape(cfg, st) && n < |st.nodes| && Within(pos, st.logs)
    requires n in st.nodes[n].track.origins
    requires RowOk(cfg, st.nodes, st.logs, st.nodes[n].db, pos, st.nodes[n].track.origins, k)
    ensures var node' := WriteStep(st.nodes[n], op);
            RowOk(cfg, st.nodes[n := node'], st.logs, node'.db, pos, node'.track.origins, k)
  {
    var node := st.nodes[n];
    var node' := WriteStep(node, op);
    var st' := st.(nodes := st.nodes[n := node']);
    WriteEvolves(cfg, st, n, op);
    if k == op.key {
      assert node'.outbox[|node.outbox|] == Pending(Captured(op), false);
      assert Unsettled(st'.nodes[n], k);
    } else if k in Uncaptured(op) {
      assert Unsettled(st'.nodes[n], k);
    } else {
      assert Get(node'.db, k) == Get(node.db, k);
      RowFrame(cfg, st, st', node.db, pos, node.track.origins, k);
    }
  }

  /** The last entry of a log that mentions a row decides it. */
  lemma LastEntryDecides(cfg: Config, logs: seq<Log>, s: nat, d: nat)
    requires s < |logs| && Routed(cfg.route, logs) && 1 <= d <= |logs[s]|
    requires !Mentions(logs[s][d..], logs[s][d - 1].key)
    ensures Decided(cfg.route, cfg.initial, logs, logs[s][d - 1].key) == logs[s][d - 1].effect
  {
    var log, k := logs[s], logs[s][d - 1].key;
    LatestPrefix(Get(cfg.initial, k), log, d, k);
    assert log[..d][|log[..d]| - 1] == log[d - 1];
  }

  /** Entries still to be read stay so when one of another row is read. */
  lemma StillMentioned(log: Log, p: nat, d: nat, k: RowKey)
    requires p <= |log| && 1 <= d <= |log| && d <= p + 1 && log[d - 1].key != k
    requires Mentions(log[p..], k)
    ensures Mentions(log[d..], k)
  {
    var i :| 0 <= i < |log[p..]| && log[p..][i].key == k;
    assert log[p + i] != log[d - 1];
    assert log[d..][p + i - d] == log[p + i];
  }

  lemma DeliverKeepsRow(cfg: Config, st: State, n: nat, s: nat, d: nat, k: RowKey)
    requires ValidConfig(cfg) && Shape(cfg, st) && n < |st.nodes| && s < cfg.shards && Routed(cfg.route, st.logs)
    requires 1 <= d <= |st.logs[s]| && Within(st.nodes[n].track.pos, st.logs)
    requires d <= st.nodes[n].track.pos[s] + 1
    requires RowOk(cfg, st.nodes, st.logs, st.nodes[n].db, st.nodes[n].track.pos, st.nodes[n].track.origins, k)
    ensures var node' := DeliverStep(cfg, true, st.nodes[n], st.logs[s], s, d);
            RowOk(cfg, st.nodes[n := node'], st.logs, node'.db, node'.track.pos, node'.track.origins, k)
  {
    var node := st.nodes[n];
    var node' := DeliverStep(cfg, true, node, st.logs[s], s, d);
    var log, e := st.logs[s], st.logs[s][d - 1];
    if node' == node {
      assert st.nodes[n := node'] == st.nodes;
    } else if k == e.key {
      if !Mentions(log[d..], k) {
        LastEntryDecides(cfg, st.logs, s, d);
      }
    } else {
      assert Get(node'.db, k) == Get(node.db, k);
      if cfg.route(k) == s && Mentions(log[node.track.pos[s]..], k) {
        StillMentioned(log, node.track.pos[s], d, k);
      } else if SomeUnsettled(st.nodes, node.track.origins, k) {
        var m :| m in node.track.origins && m < |st.nodes| && Unsettled(st.nodes[m], k);
        assert Unsettled(st.nodes[n := node'][m], k);
      }
    }
  }

  /******* Every step keeps the invariant *******/

  lemma NodeUntouched(cfg: Config, st: State, st': State, n: nat)
    requires Inv(cfg, st) && Shape(cfg, st') && Evolves(cfg, st, st') && n < |st.nodes|
    requires st'.nodes[n].db == st.nodes[n].db && st'.nodes[n].cursor == st.nodes[n].cursor
    requires st'.nodes[n].track.pos == st.nodes[n].track.pos && st'.nodes[n].track.gapped == st.nodes[n].track.gapped
    requires st'.nodes[n].track.origins == st.nodes[n].track.origins
    ensures NodeOk(cfg, st', n)
  {
    var node := st.nodes[n];
    assert NodeOk(cfg, st, n);
    if !node.track.gapped {
      ReplicaFrame(cfg, st, st', node.db, node.track.pos, node.track.origins);
    }
  }

  lemma WriteKept(cfg: Config, st: State, n: nat, op: WriteOp)
    requires Inv(cfg, st) && n < |st.nodes|
    ensures NodeOk(cfg, st.(nodes := st.nodes[n := WriteStep(st.nodes[n], op)]), n)
  {
    var node, node' := st.nodes[n], WriteStep(st.nodes[n], op);
    var nodes' := st.nodes[n := node'];
    assert NodeOk(cfg, st, n);
    if !node.track.gapped {
      forall k ensures RowOk(cfg, nodes', st.logs, node'.db, node'.track.pos, node'.track.origins, k) {
        WriteKeepsRow(cfg, st, n, op, node.track.pos, k);
      }
    }
  }

  lemma DeliverKept(cfg: Config, st: State, n: nat, s: nat, d: nat)
    requires Inv(cfg, st) && n < |st.nodes| && s < cfg.shards && 1 <= d <= |st.logs[s]|
    ensures NodeOk(cfg, st.(nodes := st.nodes[n := DeliverStep(cfg, true, st.nodes[n], st.logs[s], s, d)]), n)
  {
    var node, node' := st.nodes[n], DeliverStep(cfg, true, st.nodes[n], st.logs[s], s, d);
    var nodes' := st.nodes[n := node'];
    assert NodeOk(cfg, st, n);
    if node' == node {
      assert nodes' == st.nodes;
    } else if !node'.track.gapped {
      forall k ensures RowOk(cfg, nodes', st.logs, node'.db, node'.track.pos, node'.track.origins, k) {
        DeliverKeepsRow(cfg, st, n, s, d, k);
      }
    }
  }

  lemma SaveKept(cfg: Config, st: State, n: nat, s: nat)
    requires Inv(cfg, st) && n < |st.nodes| && s < cfg.shards
    ensures NodeOk(cfg, st.(nodes := st.nodes[n := SaveStep(cfg, st.nodes[n], s)]), n)
  {
    var node, node' := st.nodes[n], SaveStep(cfg, st.nodes[n], s);
    var st' := st.(nodes := st.nodes[n := node']);
    assert NodeOk(cfg, st, n);
    assert Evolves(cfg, st, st');
    if !node'.track.gapped {
      ReplicaFrame(cfg, st, st', node.db, node.track.pos, node.track.origins);
    }
  }

  lemma NodeKept(cfg: Config, st: State, a: Action, n: nat)
    requires Inv(cfg, st) && n < |st.nodes|
    ensures NodeOk(cfg, Step(cfg, st, a), n)
  {
    var st' := Step(cfg, st, a);
    if Enabled(cfg, st, a) && n == a.n && a.Write? {
      WriteKept(cfg, st, n, a.op);
    } else if Enabled(cfg, st, a) && n == a.n && a.Deliver? && cfg.nodes[n].replicate {
      DeliverKept(cfg, st, n, a.s, a.d);
    } else if Enabled(cfg, st, a) && n == a.n && a.SaveSeq? {
      SaveKept(cfg, st, n, a.s);
    } else if Enabled(cfg, st, a) && n == a.n && a.Restart? {
      RestartKept(cfg, st, n);
    } else {
      StepEvolves(cfg, st, a);
      NodeUntouched(cfg, st, st', n);
    }
  }

  lemma RestartKept(cfg: Config, st: State, n: nat)
    requires Inv(cfg, st) && n < |st.nodes|
    ensures NodeOk(cfg, st.(nodes := st.nodes[n := RestartStep(cfg, st, n)]), n)
  {
    var node, node' := st.nodes[n], RestartStep(cfg, st, n);
    var st' := Step(cfg, st, Restart(n));
    assert NodeOk(cfg, st, n);
    StepEvolves(cfg, st, Restart(n));
    if node'.track.gapped {
    } else if Restores(cfg, st, n) {
      var snap := st.snapshot.value;
      ReplicaFrame(cfg, st, st', snap.db, snap.pos, snap.origins);
      ReplicaWiden(cfg, st', snap.db, snap.pos, snap.origins, {n} + snap.origins);
    } else {
      ReplicaFrame(cfg, st, st', node.db, node.track.pos, node.track.origins);
    }
  }

  lemma ReplicaWiden(cfg: Config, st: State, db: Database, pos: seq<nat>, origins: set<nat>, origins': set<nat>)
    requires ValidConfig(cfg) && Shape(cfg, st) && origins <= origins'
    requires ReplicaOk(cfg, st.nodes, st.logs, db, pos, origins)
    ensures ReplicaOk(cfg, st.nodes, st.logs, db, pos, origins')
  {
    forall k ensures RowOk(cfg, st.nodes, st.logs, db, pos, origins', k) {
      assert RowOk(cfg, st.nodes, st.logs, db, pos, origins, k);
    }
  }

  /******* The primary of a single-primary cluster *******/

  lemma {:induction false} NewestAt(outbox: seq<Pending>, k: RowKey)
    ensures NewestFor(outbox, k).None? <==> forall i :: 0 <= i < |outbox| ==> outbox[i].change.key != k
    ensures NewestFor(outbox, k).Some? ==> exists i ::
              && 0 <= i < |outbox| && outbox[i].change == NewestFor(outbox, k).value && outbox[i].change.key == k
              && forall j :: i < j < |outbox| ==> outbox[j].change.key != k
  {
    if outbox != [] {
      var init := outbox[..|outbox| - 1];
      NewestAt(init, k);
      if outbox[|outbox| - 1].change.key != k && NewestFor(init, k).Some? {
        var i :| && 0 <= i < |init| && init[i].change == NewestFor(init, k).value && init[i].change.key == k
                 && forall j :: i < j < |init| ==> init[j].change.key != k;
        assert outbox[i] == init[i];
        forall j | i < j < |outbox| ensures outbox[j].change.key != k {
          assert j < |init| ==> init[j] == outbox[j];
        }
      }
      assert forall i :: 0 <= i < |init| ==> init[i] == outbox[i];
    }
  }

  lemma NewestTail(outbox: seq<Pending>, k: RowKey)
    requires outbox != [] && NewestFor(outbox[1..], k).Some?
    ensures NewestFor(outbox, k) == NewestFor(outbox[1..], k)
    decreases |outbox|
  {
    if outbox[|outbox| - 1].change.key != k {
      var init := outbox[..|outbox| - 1];
      assert |outbox| > 1;
      assert outbox[1..][..|outbox[1..]| - 1] == init[1..];
      NewestTail(init, k);
    }
  }

  lemma {:induction false} NewestIgnoresSent(outbox: seq<Pending>, i: nat, k: RowKey)
    requires i < |outbox|
    ensures NewestFor(outbox[i := Pending(outbox[i].change, true)], k) == NewestFor(outbox, k)
  {
    var outbox' := outbox[i := Pending(outbox[i].change, true)];
    var init, init' := outbox[..|outbox| - 1], outbox'[..|outbox| - 1];
    if i < |init| {
      assert init' == init[i := Pending(init[i].change, true)];
      NewestIgnoresSent(init, i, k);
    } else {
      assert init' == init;
    }
  }

  lemma PrimaryConsumeRow(cfg: Config, st: State, n: nat, call: Call, k: RowKey)
    requires ValidConfig(cfg) && Shape(cfg, st) && n < |st.nodes| && PrimaryOk(cfg, st, n)
    requires n in st.nodes[n].track.origins
    requires Primary(cfg, n) && |st.nodes[n].outbox| > 0 && call.accepted
    ensures var st' := ConsumeStep(cfg, st, n, 0, call);
            RowOk(cfg, st'.nodes, st'.logs, st'.nodes[n].db, Lengths(st'.logs), st'.nodes[n].track.origins, k)
  {
    var st' := ConsumeStep(cfg, st, n, 0, call);
    var node, node', c := st.nodes[n], st'.nodes[n], st.nodes[n].outbox[0].change;
    var s := cfg.route(k);
    assert RowOk(cfg, st.nodes, st.logs, node.db, Lengths(st.logs), node.track.origins, k);
    if k != c.key {
      ConsumeEvolves(cfg, st, n, 0, call);
      if SomeUnsettled(st.nodes, node.track.origins, k) {
        var m :| m in node.track.origins && m < |st.nodes| && Unsettled(st.nodes[m], k);
        assert !Mentions(st'.logs[s][|st.logs[s]|..], k);
        assert Unsettled(st'.nodes[m], k);
      } else {
        assert !Mentions(st.logs[s][|st.logs[s]|..], k);
        assert !Mentions(st'.logs[s][|st.logs[s]|..], k);
        assert st'.logs[s][..|st.logs[s]|] == st.logs[s];
        LatestPrefix(Get(cfg.initial, k), st'.logs[s], |st.logs[s]|, k);
      }
    } else if j :| 1 <= j < |node.outbox| && node.outbox[j].change.key == k {
      assert node'.outbox[j] == node.outbox[j];
      assert Unsettled(st'.nodes[n], k);
    } else {
      NewestAt(node.outbox, k);
      assert node.outbox[0].change.key == k;
      assert NewestFor(node.outbox, k) == Some(c);
      assert st'.logs[s] == st.logs[s] + [c];
    }
  }

  /** The rows of a primary after any step that moves neither its tables nor the logs. */
  lemma PrimaryFrame(cfg: Config, st: State, st': State, n: nat)
    requires Inv(cfg, st) && Shape(cfg, st') && Evolves(cfg, st, st') && n < |st.nodes|
    requires PrimaryOk(cfg, st, n) && st'.logs == st.logs && st'.nodes[n].db == st.nodes[n].db
    requires st'.nodes[n].track.origins == st.nodes[n].track.origins
    ensures ReplicaOk(cfg, st'.nodes, st'.logs, st'.nodes[n].db, Lengths(st'.logs), st'.nodes[n].track.origins)
  {
    ReplicaFrame(cfg, st, st', st.nodes[n].db, Lengths(st.logs), st.nodes[n].track.origins);
  }

  lemma PrimaryWrite(cfg: Config, st: State, n: nat, op: WriteOp)
    requires Inv(cfg, st) && n < |st.nodes| && PrimaryOk(cfg, st, n) && Uncaptured(op) == {}
    ensures PrimaryOk(cfg, st.(nodes := st.nodes[n := WriteStep(st.nodes[n], op)]), n)
  {
    var node, node' := st.nodes[n], WriteStep(st.nodes[n], op);
    var st' := st.(nodes := st.nodes[n := node']);
    assert NodeOk(cfg, st, n);
    assert node'.outbox[..|node'.outbox| - 1] == node.outbox;
    forall k ensures RowOk(cfg, st'.nodes, st'.logs, node'.db, Lengths(st'.logs), node'.track.origins, k) {
      WriteKeepsRow(cfg, st, n, op, Lengths(st.logs), k);
    }
  }

  lemma PrimaryConsume(cfg: Config, st: State, n: nat, call: Call)
    requires Inv(cfg, st) && n < |st.nodes| && Primary(cfg, n) && PrimaryOk(cfg, st, n)
    requires |st.nodes[n].outbox| > 0
    ensures PrimaryOk(cfg, ConsumeStep(cfg, st, n, 0, call), n)
  {
    var st' := ConsumeStep(cfg, st, n, 0, call);
    var node, node' := st.nodes[n], st'.nodes[n];
    assert NodeOk(cfg, st, n);
    if call.accepted {
      forall k ensures RowOk(cfg, st'.nodes, st'.logs, node'.db, Lengths(st'.logs), node'.track.origins, k) {
        PrimaryConsumeRow(cfg, st, n, call, k);
      }
      forall k | NewestFor(node'.outbox, k).Some?
        ensures Get(node'.db, k) == NewestFor(node'.outbox, k).value.effect
      {
        NewestIgnoresSent(node.outbox, 0, k);
      }
    } else {
      ConsumeEvolves(cfg, st, n, 0, call);
      PrimaryFrame(cfg, st, st', n);
    }
  }

  lemma PrimaryMark(cfg: Config, st: State, n: nat, committed: bool)
    requires Inv(cfg, st) && n < |st.nodes| && PrimaryOk(cfg, st, n)
    ensures PrimaryOk(cfg, Step(cfg, st, Mark(n, committed)), n)
  {
    var st' := Step(cfg, st, Mark(n, committed));
    var node, node' := st.nodes[n], st'.nodes[n];
    StepEvolves(cfg, st, Mark(n, committed));
    PrimaryFrame(cfg, st, st', n);
    if node'.outbox != node.outbox {
      assert node'.outbox == node.outbox[1..];
      forall k | NewestFor(node'.outbox, k).Some?
        ensures Get(node'.db, k) == NewestFor(node'.outbox, k).value.effect
      {
        NewestTail(node.outbox, k);
      }
    }
  }

  /** Other steps move neither the logs nor the tables and change log of the primary. */
  lemma PrimaryIdle(cfg: Config, st: State, a: Action, n: nat)
    requires Shape(cfg, st) && n < |st.nodes| && Primary(cfg, n)
    requires Enabled(cfg, st, a) && a.n == n ==> !a.Write? && !a.Consume? && !a.Mark?
    ensures var st' := Step(cfg, st, a);
            && st'.logs == st.logs && st'.nodes[n].db == st.nodes[n].db && st'.nodes[n].outbox == st.nodes[n].outbox
            && st'.nodes[n].track.origins == st.nodes[n].track.origins
            && (st'.nodes[n].inflight == st.nodes[n].inflight || st'.nodes[n].inflight == None)
  {
  }

  lemma PrimaryKept(cfg: Config, st: State, a: Action, n: nat)
    requires Inv(cfg, st) && n < |st.nodes| && Primary(cfg, n)
    requires Step(cfg, st, a).nodes[n].track.ordered
    ensures PrimaryOk(cfg, Step(cfg, st, a), n)
  {
    var st' := Step(cfg, st, a);
    assert st.nodes[n].track.ordered;
    assert PrimaryOk(cfg, st, n);
    if Enabled(cfg, st, a) && a.n == n && a.Write? {
      PrimaryWrite(cfg, st, n, a.op);
    } else if Enabled(cfg, st, a) && a.n == n && a.Consume? {
      PrimaryConsume(cfg, st, n, a.call);
    } else if Enabled(cfg, st, a) && a.n == n && a.Mark? {
      PrimaryMark(cfg, st, n, a.committed);
    } else {
      PrimaryIdle(cfg, st, a, n);
      StepEvolves(cfg, st, a);
      PrimaryFrame(cfg, st, st', n);
    }
  }

  /******* Every run keeps the invariant *******/

  lemma SnapshotKept(cfg: Config, st: State, a: Action)
    requires Inv(cfg, st)
    ensures var st' := Step(cfg, st, a);
            st'.snapshot.Some? ==>
              var snap := st'.snapshot.value;
              && Within(snap.pos, st'.logs)
              && (snap.trusted ==> ReplicaOk(cfg, st'.nodes, st'.logs, snap.db, snap.pos, snap.origins))
  {
    var st' := Step(cfg, st, a);
    StepEvolves(cfg, st, a);
    if Enabled(cfg, st, a) && a.TakeSnapshot? {
      assert NodeOk(cfg, st, a.n);
    } else if st.snapshot.Some? && st.snapshot.value.trusted {
      var snap := st.snapshot.value;
      ReplicaFrame(cfg, st, st', snap.db, snap.pos, snap.origins);
    }
  }

  lemma StepKeepsInv(cfg: Config, st: State, a: Action)
    requires Inv(cfg, st)
    ensures Inv(cfg, Step(cfg, st, a))
  {
    var st' := Step(cfg, st, a);
    forall n | 0 <= n < |st'.nodes| ensures NodeOk(cfg, st', n) {
      NodeKept(cfg, st, a, n);
    }
    forall n | 0 <= n < |st'.nodes| && Primary(cfg, n) && st'.nodes[n].track.ordered ensures PrimaryOk(cfg, st', n) {
      PrimaryKept(cfg, st, a, n);
    }
    SnapshotKept(cfg, st, a);
    assert Routed(cfg.route, st'.logs);
  }

  lemma {:induction false} RunKeepsInv(cfg: Config, acts: seq<Action>)
    requires ValidConfig(cfg)
    ensures Inv(cfg, Execute(cfg, acts))
  {
    if acts == [] {
      var st := Initial(cfg);
      forall n | 0 <= n < |st.nodes|
        ensures ReplicaOk(cfg, st.nodes, st.logs, st.nodes[n].db, st.nodes[n].track.pos, st.nodes[n].track.origins)
        ensures ReplicaOk(cfg, st.nodes, st.logs, st.nodes[n].db, Lengths(st.logs), st.nodes[n].track.origins)
      {
        assert forall k :: Get(cfg.initial, k) == Decided(cfg.route, cfg.initial, st.logs, k);
        assert Lengths(st.logs) == st.nodes[n].track.pos;
      }
    } else {
      RunKeepsInv(cfg, acts[..|acts| - 1]);
      StepKeepsInv(cfg, Execute(cfg, acts[..|acts| - 1]), acts[|acts| - 1]);
    }
  }

  /******* Convergence *******/

  predicate CaughtUp(cfg: Config, st: State, n: nat)
    requires Shape(cfg, st) && n < |st.nodes|
  {
    forall s :: 0 <= s < cfg.shards ==> st.nodes[n].cursor[s] == |st.logs[s]|
  }

  /** Nothing that the tables of node n may hold is still on its way to a log. */
  predicate Settled(node: Node) {
    node.track.lost == {} && forall i :: 0 <= i < |node.outbox| ==> node.outbox[i].sent
  }

  predicate OriginsSettled(st: State, origins: set<nat>) {
    forall m :: m in origins && m < |st.nodes| ==> Settled(st.nodes[m])
  }

  lemma SettledRows(st: State, origins: set<nat>, k: RowKey)
    requires OriginsSettled(st, origins)
    ensures !SomeUnsettled(st.nodes, origins, k)
  {
  }

  /** In every run of any cluster: a node whose listeners have read everything
      without a gap holds what the shard logs say about every row that is not
      still unsettled where its tables came from. A change that was lost or not
      yet sent can make that row differ, and no other. */
  lemma CaughtUpRow(cfg: Config, acts: seq<Action>, n: nat, k: RowKey)
    requires ValidConfig(cfg) && n < |cfg.nodes|
    requires var st := Execute(cfg, acts);
             && !st.nodes[n].track.gapped && CaughtUp(cfg, st, n)
             && !SomeUnsettled(st.nodes, st.nodes[n].track.origins, k)
    ensures var st := Execute(cfg, acts);
            Get(st.nodes[n].db, k) == Get(Fold(cfg.initial, st.logs), k)
  {
    var st := Execute(cfg, acts);
    RunKeepsInv(cfg, acts);
    assert NodeOk(cfg, st, n);
    assert RowOk(cfg, st.nodes, st.logs, st.nodes[n].db, st.nodes[n].track.pos, st.nodes[n].track.origins, k);
    FoldDecides(cfg.route, cfg.initial, st.logs, k);
  }

  /** So with nothing unsettled its tables are exactly the fold of the logs. */
  lemma CaughtUpIsFold(cfg: Config, acts: seq<Action>, n: nat)
    requires ValidConfig(cfg) && n < |cfg.nodes|
    requires var st := Execute(cfg, acts);
             && !st.nodes[n].track.gapped && CaughtUp(cfg, st, n)
             && OriginsSettled(st, st.nodes[n].track.origins)
    ensures Execute(cfg, acts).nodes[n].db == Fold(cfg.initial, Execute(cfg, acts).logs)
  {
    var st := Execute(cfg, acts);
    forall k ensures Get(st.nodes[n].db, k) == Get(Fold(cfg.initial, st.logs), k) {
      SettledRows(st, st.nodes[n].track.origins, k);
      CaughtUpRow(cfg, acts, n, k);
    }
    SameRows(st.nodes[n].db, Fold(cfg.initial, st.logs));
  }

  /** A primary that consumed its changes oldest first is right about every row
      that is not unsettled, at every moment and without listening at all. */
  lemma PrimaryRow(cfg: Config, acts: seq<Action>, n: nat, k: RowKey)
    requires ValidConfig(cfg) && Primary(cfg, n)
    requires var st := Execute(cfg, acts);
             st.nodes[n].track.ordered && !SomeUnsettled(st.nodes, st.nodes[n].track.origins, k)
    ensures var st := Execute(cfg, acts);
            Get(st.nodes[n].db, k) == Get(Fold(cfg.initial, st.logs), k)
  {
    var st := Execute(cfg, acts);
    RunKeepsInv(cfg, acts);
    assert PrimaryOk(cfg, st, n);
    assert RowOk(cfg, st.nodes, st.logs, st.nodes[n].db, Lengths(st.logs), st.nodes[n].track.origins, k);
    FoldDecides(cfg.route, cfg.initial, st.logs, k);
  }

  /** So it holds the fold of the logs as soon as its changes have been sent. */
  lemma PrimaryIsFold(cfg: Config, acts: seq<Action>, n: nat)
    requires ValidConfig(cfg) && Primary(cfg, n)
    requires var st := Execute(cfg, acts);
             st.nodes[n].track.ordered && OriginsSettled(st, st.nodes[n].track.origins)
    ensures Execute(cfg, acts).nodes[n].db == Fold(cfg.initial, Execute(cfg, acts).logs)
  {
    var st := Execute(cfg, acts);
    forall k ensures Get(st.nodes[n].db, k) == Get(Fold(cfg.initial, st.logs), k) {
      SettledRows(st, st.nodes[n].track.origins, k);
      PrimaryRow(cfg, acts, n, k);
    }
    SameRows(st.nodes[n].db, Fold(cfg.initial, st.logs));
  }
}
