/** Where everything in a run comes from: each log entry from the write that
    captured it, each saved sequence from a publish or a listener, the stored
    snapshot from the tables of the node that took it. */
module Provenance {
  import opened Basics
  import opened Store
  import opened Cluster
  import opened Convergence
  import opened Replicas

  /******* Log entries *******/

  /** What the trigger records is the row as the write left it. */
  lemma CapturedIsWritten(db: Database, op: WriteOp)
    ensures Captured(op).key == op.key && Get(LocalWrite(db, op), op.key) == Captured(op).effect
    ensures forall k :: k != op.key && k !in Uncaptured(op) ==> Get(LocalWrite(db, op), k) == Get(db, k)
    ensures forall k :: k in Uncaptured(op) ==> Get(LocalWrite(db, op), k) == None
  {
  }

  function Dropped(s: seq<nat>, i: nat): seq<nat> {
    if i < |s| then s[..i] + s[i + 1..] else s
  }

  /** The change log of node n after step t, which is action a, in terms of the
      actions that captured its entries. */
  function NoteMade(cfg: Config, st: State, made: seq<nat>, a: Action, t: nat): seq<nat>
    requires Shape(cfg, st) && a.n < |st.nodes|
  {
    var node := st.nodes[a.n];
    match a
    case Write(_, _) => if Enabled(cfg, st, a) then made + [t] else made
    case Mark(_, committed) =>
      if committed && node.inflight.Some? && node.inflight.value < |node.outbox| then Dropped(made, node.inflight.value)
      else made
    case Restart(_) => if Restores(cfg, st, a.n) then [] else made
    case _ => made
  }

  /** Whether a publishes entry i of its node's change log to shard s. */
  predicate Publishes(cfg: Config, st: State, a: Action, s: nat)
    requires Shape(cfg, st)
  {
    && a.Consume? && Enabled(cfg, st, a) && cfg.nodes[a.n].publish && a.call.accepted
    && cfg.route(st.nodes[a.n].outbox[a.i].change.key) == s < cfg.shards
  }

  function MadeAt(cfg: Config, run: seq<Action>, m: nat, n: nat): seq<nat>
    requires m <= |run| && n < |cfg.nodes|
  {
    if m == 0 then []
    else
      var made := MadeAt(cfg, run, m - 1, n);
      if run[m - 1].n == n then NoteMade(cfg, Execute(cfg, run[..m - 1]), made, run[m - 1], m - 1) else made
  }

  /** The actions that captured the entries of the log of shard s after m steps: a
      publish adds the one that captured the entry it was told to publish. */
  function SourcesAt(cfg: Config, run: seq<Action>, m: nat, s: nat): seq<nat>
    requires m <= |run|
  {
    if m == 0 then []
    else
      var sources, a := SourcesAt(cfg, run, m - 1, s), run[m - 1];
      if Publishes(cfg, Execute(cfg, run[..m - 1]), a, s)
      then var made := MadeAt(cfg, run, m - 1, a.n); sources + if a.i < |made| then [made[a.i]] else []
      else sources
  }

  /** Step t of the run is a write of node n that captured c. */
  predicate Captures(cfg: Config, run: seq<Action>, t: nat, n: nat, c: Change)
    requires t < |run|
  {
    run[t].Write? && run[t].n == n && Enabled(cfg, Execute(cfg, run[..t]), run[t]) && c == Captured(run[t].op)
  }

  /** The change log holds, in the order of the writes, what these writes captured. */
  predicate MadeOf(cfg: Config, run: seq<Action>, m: nat, made: seq<nat>, outbox: seq<Pending>, n: nat)
    requires m <= |run|
  {
    && |made| == |outbox|
    && (forall i :: 0 <= i < |made| ==> made[i] < m && Captures(cfg, run, made[i], n, outbox[i].change))
    && (forall i, k :: 0 <= i < k < |made| ==> made[i] < made[k])
  }

  predicate SourcesOf(cfg: Config, run: seq<Action>, m: nat, sources: seq<nat>, log: Log)
    requires m <= |run|
  {
    && |sources| == |log|
    && forall j :: 0 <= j < |sources| ==>
         sources[j] < m && Captures(cfg, run, sources[j], run[sources[j]].n, log[j])
  }

  lemma MadeLonger(cfg: Config, run: seq<Action>, m: nat, made: seq<nat>, outbox: seq<Pending>, n: nat, c: Change)
    requires m < |run| && MadeOf(cfg, run, m, made, outbox, n) && Captures(cfg, run, m, n, c)
    ensures MadeOf(cfg, run, m + 1, made + [m], outbox + [Pending(c, false)], n)
  {
  }

  lemma MadeShorter(cfg: Config, run: seq<Action>, m: nat, made: seq<nat>, outbox: seq<Pending>, n: nat, i: nat)
    requires m < |run| && MadeOf(cfg, run, m, made, outbox, n) && i < |outbox|
    ensures MadeOf(cfg, run, m + 1, Dropped(made, i), outbox[..i] + outbox[i + 1..], n)
  {
    var less, rest := Dropped(made, i), outbox[..i] + outbox[i + 1..];
    assert |less| == |rest|;
    forall j | 0 <= j < |less| ensures less[j] < m && Captures(cfg, run, less[j], n, rest[j].change) {
      DroppedAt(made, i, j);
      DroppedAt(outbox, i, j);
    }
    forall j, k | 0 <= j < k < |less| ensures less[j] < less[k] {
      DroppedAt(made, i, j);
      DroppedAt(made, i, k);
    }
  }

  lemma MadeSame(cfg: Config, run: seq<Action>, m: nat, made: seq<nat>,
                 outbox: seq<Pending>, outbox': seq<Pending>, n: nat)
    requires m < |run| && MadeOf(cfg, run, m, made, outbox, n) && |outbox'| == |outbox|
    requires forall i :: 0 <= i < |outbox| ==> outbox'[i].change == outbox[i].change
    ensures MadeOf(cfg, run, m + 1, made, outbox', n)
  {
  }

  /** What a step other than a write, a mark or a restore leaves of a change log. */
  lemma OutboxStands(cfg: Config, st: State, a: Action, n: nat)
    requires Shape(cfg, st) && n < |st.nodes|
    requires a.n == n ==> !(a.Write? && Enabled(cfg, st, a)) && !a.Mark? && !(a.Restart? && Restores(cfg, st, n))
    ensures var outbox, outbox' := st.nodes[n].outbox, Step(cfg, st, a).nodes[n].outbox;
            |outbox'| == |outbox| && forall i :: 0 <= i < |outbox| ==> outbox'[i].change == outbox[i].change
  {
    if a.n != n {
      OthersStand(cfg, st, a, n);
    } else if Enabled(cfg, st, a) && a.Consume? {
      assert Step(cfg, st, a) == ConsumeStep(cfg, st, n, a.i, a.call);
    }
  }

  lemma MarkMade(cfg: Config, run: seq<Action>, m: nat, made: seq<nat>, node: Node, n: nat, committed: bool)
    requires m < |run| && MadeOf(cfg, run, m, made, node.outbox, n)
    ensures var marks := committed && node.inflight.Some? && node.inflight.value < |node.outbox|;
            MadeOf(cfg, run, m + 1, if marks then Dropped(made, node.inflight.value) else made,
                   MarkStep(node, committed).outbox, n)
  {
    if committed && node.inflight.Some? && node.inflight.value < |node.outbox| {
      MadeShorter(cfg, run, m, made, node.outbox, n, node.inflight.value);
    } else {
      MadeSame(cfg, run, m, made, node.outbox, node.outbox, n);
    }
  }

  /** One step of node n or of another, from the state st it meets. */
  lemma MadeNext(cfg: Config, run: seq<Action>, m: nat, made: seq<nat>, st: State, n: nat)
    requires m < |run| && n < |cfg.nodes| && st == Execute(cfg, run[..m])
    requires MadeOf(cfg, run, m, made, st.nodes[n].outbox, n)
    ensures MadeOf(cfg, run, m + 1, if run[m].n == n then NoteMade(cfg, st, made, run[m], m) else made,
                   Step(cfg, st, run[m]).nodes[n].outbox, n)
  {
    var a, node := run[m], st.nodes[n];
    var node' := Step(cfg, st, a).nodes[n];
    if a.n == n && a.Write? && Enabled(cfg, st, a) {
      assert node' == WriteStep(node, a.op);
      MadeLonger(cfg, run, m, made, node.outbox, n, Captured(a.op));
    } else if a.n == n && a.Mark? {
      assert node' == MarkStep(node, a.committed);
      MarkMade(cfg, run, m, made, node, n, a.committed);
    } else if a.n == n && a.Restart? && Restores(cfg, st, n) {
      assert node' == RestartStep(cfg, st, n);
    } else {
      OutboxStands(cfg, st, a, n);
      MadeSame(cfg, run, m, made, node.outbox, node'.outbox, n);
    }
  }

  lemma RunSnoc(cfg: Config, run: seq<Action>, m: nat)
    requires m < |run|
    ensures Execute(cfg, run[..m + 1]) == Step(cfg, Execute(cfg, run[..m]), run[m])
  {
    assert run[..m + 1][..m] == run[..m];
  }

  lemma MadeStep(cfg: Config, run: seq<Action>, m: nat, n: nat)
    requires m < |run| && n < |cfg.nodes|
    requires MadeOf(cfg, run, m, MadeAt(cfg, run, m, n), Execute(cfg, run[..m]).nodes[n].outbox, n)
    ensures MadeOf(cfg, run, m + 1, MadeAt(cfg, run, m + 1, n), Execute(cfg, run[..m + 1]).nodes[n].outbox, n)
  {
    RunSnoc(cfg, run, m);
    MadeNext(cfg, run, m, MadeAt(cfg, run, m, n), Execute(cfg, run[..m]), n);
  }

  lemma {:induction false} ChangeLogFrom(cfg: Config, run: seq<Action>, m: nat, n: nat)
    requires m <= |run| && n < |cfg.nodes|
    ensures MadeOf(cfg, run, m, MadeAt(cfg, run, m, n), Execute(cfg, run[..m]).nodes[n].outbox, n)
  {
    if m > 0 {
      ChangeLogFrom(cfg, run, m - 1, n);
      MadeStep(cfg, run, m - 1, n);
    }
  }

  /** An accepted publish appends exactly the recorded change, to its row's shard
      and no other, however the call ends; no other step touches a log. */
  lemma LogsStep(cfg: Config, st: State, a: Action, s: nat)
    requires Shape(cfg, st) && s < cfg.shards
    ensures Step(cfg, st, a).logs[s] ==
            if Publishes(cfg, st, a, s) then st.logs[s] + [st.nodes[a.n].outbox[a.i].change] else st.logs[s]
  {
    if a.Consume? && Enabled(cfg, st, a) {
      assert Step(cfg, st, a) == ConsumeStep(cfg, st, a.n, a.i, a.call);
    }
  }

  lemma SourcesLonger(cfg: Config, run: seq<Action>, m: nat, sources: seq<nat>, log: Log, t: nat, c: Change)
    requires m < |run| && SourcesOf(cfg, run, m, sources, log) && t < m && Captures(cfg, run, t, run[t].n, c)
    ensures SourcesOf(cfg, run, m + 1, sources + [t], log + [c])
  {
  }

  lemma LogNext(cfg: Config, run: seq<Action>, m: nat, s: nat, st: State)
    requires m < |run| && s < cfg.shards && st == Execute(cfg, run[..m])
    requires SourcesOf(cfg, run, m, SourcesAt(cfg, run, m, s), st.logs[s])
    ensures SourcesOf(cfg, run, m + 1, SourcesAt(cfg, run, m + 1, s), Step(cfg, st, run[m]).logs[s])
  {
    var a := run[m];
    LogsStep(cfg, st, a, s);
    if Publishes(cfg, st, a, s) {
      var made := MadeAt(cfg, run, m, a.n);
      ChangeLogFrom(cfg, run, m, a.n);
      SourcesLonger(cfg, run, m, SourcesAt(cfg, run, m, s), st.logs[s], made[a.i], st.nodes[a.n].outbox[a.i].change);
    }
  }

  lemma LogStep(cfg: Config, run: seq<Action>, m: nat, s: nat)
    requires m < |run| && s < cfg.shards
    requires SourcesOf(cfg, run, m, SourcesAt(cfg, run, m, s), Execute(cfg, run[..m]).logs[s])
    ensures SourcesOf(cfg, run, m + 1, SourcesAt(cfg, run, m + 1, s), Execute(cfg, run[..m + 1]).logs[s])
  {
    RunSnoc(cfg, run, m);
    LogNext(cfg, run, m, s, Execute(cfg, run[..m]));
  }

  /** Provenance: in every run, for every call, each shard log is exactly what the
      writes captured whose change-log entries were published to it, in the
      order of the publishes. */
  lemma {:induction false} LogFrom(cfg: Config, run: seq<Action>, m: nat, s: nat)
    requires m <= |run| && s < cfg.shards
    ensures SourcesOf(cfg, run, m, SourcesAt(cfg, run, m, s), Execute(cfg, run[..m]).logs[s])
  {
    if m > 0 {
      LogFrom(cfg, run, m - 1, s);
      LogStep(cfg, run, m - 1, s);
    }
  }

  /** So every log entry is a row as a write of some node left it. */
  lemma EntryWritten(cfg: Config, run: seq<Action>, s: nat, j: nat) returns (t: nat)
    requires s < cfg.shards && j < |Execute(cfg, run).logs[s]|
    ensures t < |run| && run[t].Write? && run[t].n < |cfg.nodes|
    ensures var c := Execute(cfg, run).logs[s][j];
            c == Captured(run[t].op) && Get(Execute(cfg, run[..t + 1]).nodes[run[t].n].db, c.key) == c.effect
  {
    assert run[..|run|] == run;
    LogFrom(cfg, run, |run|, s);
    t := SourcesAt(cfg, run, |run|, s)[j];
    var st := Execute(cfg, run[..t]);
    RunSnoc(cfg, run, t);
    assert Step(cfg, st, run[t]).nodes[run[t].n] == WriteStep(st.nodes[run[t].n], run[t].op);
    CapturedIsWritten(st.nodes[run[t].n].db, run[t].op);
  }

  /******* Saved sequences *******/

  /** The largest sequence of shard s that node n has recorded: acknowledged to
      its publisher, when it takes snapshots, or saved by its listener. */
  function Recorded(cfg: Config, run: seq<Action>, m: nat, n: nat, s: nat): nat
    requires m <= |run| && n < |cfg.nodes| && s < cfg.shards
  {
    if m == 0 then 0
    else
      var before, st, a := Recorded(cfg, run, m - 1, n, s), Execute(cfg, run[..m - 1]), run[m - 1];
      if a.n != n then before
      else if Publishes(cfg, st, a, s) && a.call.recorded && cfg.nodes[n].snapshots then Max(before, |st.logs[s]| + 1)
      else if a == SaveSeq(n, s) then Max(before, st.nodes[n].unsaved[s])
      else before
  }

  lemma SavedStep(cfg: Config, st: State, a: Action, n: nat, s: nat)
    requires Shape(cfg, st) && n < |st.nodes| && s < cfg.shards
    ensures Step(cfg, st, a).nodes[n].saved[s] ==
            if a.n == n && Publishes(cfg, st, a, s) && a.call.recorded && cfg.nodes[n].snapshots
            then Max(st.nodes[n].saved[s], |st.logs[s]| + 1)
            else if a == SaveSeq(n, s) then Max(st.nodes[n].saved[s], st.nodes[n].unsaved[s])
            else st.nodes[n].saved[s]
  {
    if a.n != n {
      OthersStand(cfg, st, a, n);
    } else if Enabled(cfg, st, a) && a.Consume? {
      assert Step(cfg, st, a) == ConsumeStep(cfg, st, n, a.i, a.call);
    } else {
      SavedIdle(cfg, st, a, s);
    }
  }

  lemma SavedIdle(cfg: Config, st: State, a: Action, s: nat)
    requires Shape(cfg, st) && a.n < |st.nodes| && s < cfg.shards && !(Enabled(cfg, st, a) && a.Consume?)
    ensures Step(cfg, st, a).nodes[a.n].saved[s] ==
            if a == SaveSeq(a.n, s) then Max(st.nodes[a.n].saved[s], st.nodes[a.n].unsaved[s])
            else st.nodes[a.n].saved[s]
  {
    var node, node' := st.nodes[a.n], Step(cfg, st, a).nodes[a.n];
    if Enabled(cfg, st, a) {
      match a
      case Write(_, op) => assert node' == WriteStep(node, op);
      case Mark(_, committed) => assert node' == MarkStep(node, committed);
      case Deliver(_, t, d) => assert node' == DeliverStep(cfg, cfg.nodes[a.n].replicate, node, st.logs[t], t, d);
      case SaveSeq(_, t) => assert node' == SaveStep(cfg, node, t);
      case Restart(_) => assert node' == RestartStep(cfg, st, a.n);
      case TakeSnapshot(_) =>
    }
  }

  /** In every run a saved sequence is the largest one recorded by either path;
      crashes and restores leave it. */
  lemma {:induction false} SavedIsRecorded(cfg: Config, run: seq<Action>, m: nat, n: nat, s: nat)
    requires m <= |run| && n < |cfg.nodes| && s < cfg.shards
    ensures Execute(cfg, run[..m]).nodes[n].saved[s] == Recorded(cfg, run, m, n, s)
  {
    if m > 0 {
      SavedIsRecorded(cfg, run, m - 1, n, s);
      RunSnoc(cfg, run, m - 1);
      SavedStep(cfg, Execute(cfg, run[..m - 1]), run[m - 1], n, s);
    }
  }

  /******* Snapshots and boots *******/

  predicate TakesAt(cfg: Config, run: seq<Action>, t: nat)
    requires t < |run|
  {
    run[t].TakeSnapshot? && run[t].n < |cfg.nodes|
  }

  lemma SnapshotStep(cfg: Config, st: State, a: Action)
    requires Shape(cfg, st)
    ensures Step(cfg, st, a).snapshot ==
            if a.TakeSnapshot? && a.n < |st.nodes| then Some(SnapshotOf(cfg, st, a.n)) else st.snapshot
  {
  }

  lemma SnapshotAfter(cfg: Config, run: seq<Action>, m: nat)
    requires m < |run|
    ensures Execute(cfg, run[..m + 1]).snapshot ==
            if TakesAt(cfg, run, m) then Some(SnapshotOf(cfg, Execute(cfg, run[..m]), run[m].n))
            else Execute(cfg, run[..m]).snapshot
  {
    RunSnoc(cfg, run, m);
    SnapshotStep(cfg, Execute(cfg, run[..m]), run[m]);
  }

  /** Step t took the snapshot that is in store after m steps. */
  predicate StoredBy(cfg: Config, run: seq<Action>, t: nat, m: nat)
    requires m <= |run|
  {
    t < m && TakesAt(cfg, run, t) && forall u :: t < u < m ==> !TakesAt(cfg, run, u)
  }

  lemma {:induction false} SnapshotStays(cfg: Config, run: seq<Action>, t: nat, m: nat)
    requires m <= |run| && StoredBy(cfg, run, t, m)
    ensures Execute(cfg, run[..m]).snapshot == Some(SnapshotOf(cfg, Execute(cfg, run[..t]), run[t].n))
  {
    SnapshotAfter(cfg, run, m - 1);
    if m - 1 > t {
      SnapshotStays(cfg, run, t, m - 1);
    }
  }

  lemma {:induction false} NoneStored(cfg: Config, run: seq<Action>, m: nat)
    requires m <= |run| && forall u :: 0 <= u < m ==> !TakesAt(cfg, run, u)
    ensures Execute(cfg, run[..m]).snapshot == None
  {
    if m > 0 {
      SnapshotAfter(cfg, run, m - 1);
      NoneStored(cfg, run, m - 1);
    }
  }

  lemma {:induction false} LastTaken(cfg: Config, run: seq<Action>, m: nat) returns (t: nat)
    requires m <= |run|
    ensures StoredBy(cfg, run, t, m) || forall u :: 0 <= u < m ==> !TakesAt(cfg, run, u)
  {
    t := 0;
    if m > 0 {
      if TakesAt(cfg, run, m - 1) {
        t := m - 1;
      } else {
        t := LastTaken(cfg, run, m - 1);
      }
    }
  }

  /** In every run the stored snapshot is the tables of the node that took it last,
      as they were at that moment; none is stored before the first is taken. */
  lemma SnapshotIsTables(cfg: Config, run: seq<Action>, m: nat) returns (t: nat)
    requires m <= |run|
    ensures Execute(cfg, run[..m]).snapshot.None? <==> forall u :: 0 <= u < m ==> !TakesAt(cfg, run, u)
    ensures Execute(cfg, run[..m]).snapshot.Some? ==>
              && StoredBy(cfg, run, t, m)
              && Execute(cfg, run[..m]).snapshot.value.db == Execute(cfg, run[..t]).nodes[run[t].n].db
  {
    t := LastTaken(cfg, run, m);
    if StoredBy(cfg, run, t, m) {
      SnapshotStays(cfg, run, t, m);
    } else {
      NoneStored(cfg, run, m);
    }
  }

  /** How many of a stream's entries are still there. */
  function Kept(cfg: Config, length: nat): nat {
    if cfg.maxEntries != 0 && cfg.maxEntries < length then cfg.maxEntries else length
  }

  /** A bounded stream keeps exactly its last entries, as many as the bound. */
  lemma KeepsLast(cfg: Config, st: State, n: nat, s: nat, d: nat)
    requires Shape(cfg, st) && n < |st.nodes| && s < cfg.shards
    ensures Enabled(cfg, st, Deliver(n, s, d)) <==> |st.logs[s]| - Kept(cfg, |st.logs[s]|) < d <= |st.logs[s]|
  {
  }

  /** What a boot does: the node takes the snapshot, tables and change log, if and
      only if it replicates, has snapshots on, one is stored, and in some shard
      its saved sequence is before the first entry the stream still keeps. Its
      sequence map stays in any case, and its listeners resume there. */
  lemma BootExactly(cfg: Config, st: State, n: nat)
    requires Shape(cfg, st) && n < |st.nodes|
    ensures var behind := exists s :: 0 <= s < cfg.shards && |st.logs[s]| > 0 &&
                            st.nodes[n].saved[s] <= |st.logs[s]| - Kept(cfg, |st.logs[s]|);
            var restores := cfg.nodes[n].snapshots && cfg.nodes[n].replicate && st.snapshot.Some? && behind;
            var node, node' := st.nodes[n], Step(cfg, st, Restart(n)).nodes[n];
            && (restores <==> Restores(cfg, st, n))
            && node'.db == (if restores then st.snapshot.value.db else node.db)
            && node'.outbox == (if restores then [] else node.outbox)
            && node'.saved == node'.cursor == node.saved && node'.unsaved == Zeros(cfg.shards) && node'.inflight == None
  {
    var node := st.nodes[n];
    forall s | 0 <= s < cfg.shards
      ensures node.saved[s] < FirstSeq(cfg, |st.logs[s]|) <==>
              |st.logs[s]| > 0 && node.saved[s] <= |st.logs[s]| - Kept(cfg, |st.logs[s]|)
    {
    }
    assert Step(cfg, st, Restart(n)).nodes[n] == RestartStep(cfg, st, n);
  }
}
