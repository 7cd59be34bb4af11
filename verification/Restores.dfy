/** Restoring what another node stored: when a peer's snapshot is good to restore,
    and where that ends. */
module Restores {
  import opened Basics
  import opened Store
  import opened Cluster
  import opened Convergence
  import opened Replicas
  import opened Provenance

  /** From step `since` on node n goes on healthily, without restoring. */
  predicate HealthyFrom(cfg: Config, run: seq<Action>, since: nat, n: nat)
    requires n < |cfg.nodes|
  {
    forall m :: since <= m < |run| ==> HealthyStep(cfg, run, m, n)
  }

  predicate HealthyStep(cfg: Config, run: seq<Action>, m: nat, n: nat)
    requires n < |cfg.nodes| && m < |run|
  {
    var st := Execute(cfg, run[..m]);
    GoodDelivery(cfg, st, run[m], n) && !(run[m] == Restart(n) && Cluster.Restores(cfg, st, n))
  }

  lemma OriginsStand(cfg: Config, st: State, a: Action, n: nat)
    requires Shape(cfg, st) && n < |st.nodes| && !(a == Restart(n) && Cluster.Restores(cfg, st, n))
    ensures Step(cfg, st, a).nodes[n].track.origins == st.nodes[n].track.origins
  {
    if a.n != n {
      OthersStand(cfg, st, a, n);
    }
  }

  lemma {:induction false} HealthyExtends(cfg: Config, run: seq<Action>, since: nat, n: nat)
    requires n < |cfg.nodes| && since <= |run| && HealthyRun(cfg, run[..since], n) && HealthyFrom(cfg, run, since, n)
    ensures HealthyRun(cfg, run, n)
    ensures Execute(cfg, run).nodes[n].track.origins == Execute(cfg, run[..since]).nodes[n].track.origins
    decreases |run|
  {
    if since == |run| {
      assert run[..since] == run;
    } else {
      var last := |run| - 1;
      var init := run[..last];
      assert init[..since] == run[..since];
      forall m | since <= m < |init| ensures HealthyStep(cfg, init, m, n) {
        assert init[..m] == run[..m] && HealthyStep(cfg, run, m, n);
      }
      HealthyExtends(cfg, init, since, n);
      assert HealthyStep(cfg, run, last, n);
      OriginsStand(cfg, Execute(cfg, init), run[last], n);
    }
  }

  /** The snapshot a healthy replicating node q took at step t, if it is still the
      stored one, is good to restore for every node whose saved sequences are
      not past those q had then. */
  lemma PeerSnapshotGood(cfg: Config, run: seq<Action>, t: nat, b: nat, n: nat)
    requires b <= |run| && StoredBy(cfg, run, t, b) && Sound(cfg, run[t].n) && HealthyRun(cfg, run[..t], run[t].n)
    requires n < |cfg.nodes|
    requires forall s :: 0 <= s < cfg.shards ==>
               Execute(cfg, run[..b]).nodes[n].saved[s] <= Execute(cfg, run[..t]).nodes[run[t].n].saved[s]
    ensures var st, peer := Execute(cfg, run[..b]), Execute(cfg, run[..t]).nodes[run[t].n];
            && GoodRestore(cfg, st, Restart(n), n)
            && st.snapshot.Some? && st.snapshot.value.db == peer.db && st.snapshot.value.origins == peer.track.origins
  {
    HealthyNeverGapped(cfg, run[..t], run[t].n);
    SnapshotStays(cfg, run, t, b);
  }

  lemma RestoredOrigins(cfg: Config, run: seq<Action>, b: nat, n: nat)
    requires b < |run| && run[b] == Restart(n) && n < |cfg.nodes| && Cluster.Restores(cfg, Execute(cfg, run[..b]), n)
    ensures Execute(cfg, run[..b + 1]).nodes[n].track.origins == {n} + Execute(cfg, run[..b]).snapshot.value.origins
  {
    var st := Execute(cfg, run[..b]);
    RunSnoc(cfg, run, b);
    assert Step(cfg, st, Restart(n)).nodes[n] == RestartStep(cfg, st, n);
  }

  lemma BootedHealthy(cfg: Config, run: seq<Action>, b: nat, n: nat)
    requires b < |run| && run[b] == Restart(n) && n < |cfg.nodes| && HealthyRun(cfg, run[..b], n)
    requires GoodRestore(cfg, Execute(cfg, run[..b]), Restart(n), n)
    ensures HealthyRun(cfg, run[..b + 1], n)
  {
    assert run[..b + 1][..b] == run[..b];
  }

  /** The first m steps were healthy for n, and lost no change of n. */
  predicate HealthyTo(cfg: Config, run: seq<Action>, m: nat, n: nat)
    requires n < |cfg.nodes| && m <= |run|
  {
    forall u :: 0 <= u < m ==> HealthyAt(cfg, run, u, n)
  }

  predicate HealthyAt(cfg: Config, run: seq<Action>, u: nat, n: nat)
    requires n < |cfg.nodes| && u < |run|
  {
    GoodDelivery(cfg, Execute(cfg, run[..u]), run[u], n) && GoodRestore(cfg, Execute(cfg, run[..u]), run[u], n)
  }

  predicate LosslessTo(cfg: Config, run: seq<Action>, m: nat, n: nat)
    requires n < |cfg.nodes| && m <= |run|
  {
    forall u :: 0 <= u < m ==> LosslessAt(cfg, run, u, n)
  }

  predicate LosslessAt(cfg: Config, run: seq<Action>, u: nat, n: nat)
    requires n < |cfg.nodes| && u < |run|
  {
    var st := Execute(cfg, run[..u]);
    Lossless(st, run[u], n) && !(run[u] == Restart(n) && Cluster.Restores(cfg, st, n))
  }

  lemma {:induction false} HealthyToRun(cfg: Config, run: seq<Action>, m: nat, n: nat)
    requires n < |cfg.nodes| && m <= |run| && HealthyTo(cfg, run, m, n)
    ensures HealthyRun(cfg, run[..m], n)
  {
    if m > 0 {
      HealthyToRun(cfg, run, m - 1, n);
      assert HealthyAt(cfg, run, m - 1, n);
      assert run[..m][..m - 1] == run[..m - 1];
    }
  }

  lemma {:induction false} LosslessToRun(cfg: Config, run: seq<Action>, m: nat, n: nat)
    requires n < |cfg.nodes| && m <= |run| && LosslessTo(cfg, run, m, n)
    ensures LosslessRun(cfg, run[..m], n)
  {
    if m > 0 {
      LosslessToRun(cfg, run, m - 1, n);
      assert LosslessAt(cfg, run, m - 1, n);
      assert run[..m][..m - 1] == run[..m - 1];
    }
  }

  /** Node n restores at step b what a healthy peer that had lost nothing took at t. */
  predicate RestoresPeer(cfg: Config, run: seq<Action>, t: nat, b: nat, n: nat) {
    && b < |run| && StoredBy(cfg, run, t, b) && run[b] == Restart(n)
    && Sound(cfg, run[t].n) && HealthyTo(cfg, run, t, run[t].n) && LosslessTo(cfg, run, t, run[t].n)
    && Sound(cfg, n) && HealthyTo(cfg, run, b, n) && Cluster.Restores(cfg, Execute(cfg, run[..b]), n)
    && forall s :: 0 <= s < cfg.shards ==>
         Execute(cfg, run[..b]).nodes[n].saved[s] <= Execute(cfg, run[..t]).nodes[run[t].n].saved[s]
  }

  /** Node n has read every stream and sent every change. */
  predicate AtRest(cfg: Config, run: seq<Action>, n: nat)
    requires n < |cfg.nodes|
  {
    CaughtUp(cfg, Execute(cfg, run), n) && Settled(Execute(cfg, run).nodes[n])
  }

  lemma PeerRestored(cfg: Config, run: seq<Action>, t: nat, b: nat, n: nat)
    requires RestoresPeer(cfg, run, t, b, n)
    ensures Sound(cfg, n) && run[t].n < |cfg.nodes| && b + 1 <= |run| && HealthyRun(cfg, run[..b + 1], n)
    ensures Execute(cfg, run[..b + 1]).nodes[n].track.origins == {n, run[t].n}
  {
    HealthyToRun(cfg, run, t, run[t].n);
    LosslessToRun(cfg, run, t, run[t].n);
    HealthyToRun(cfg, run, b, n);
    PeerSnapshotGood(cfg, run, t, b, n);
    LosslessKeeps(cfg, run[..t], run[t].n);
    BootedHealthy(cfg, run, b, n);
    RestoredOrigins(cfg, run, b, n);
  }

  /** Peers can restore each other. Node q, healthy and without losses so far, takes
      a snapshot at step t; node n, with no saved sequence past those of q then,
      restores it at step b. Once n has caught up and both have sent what they
      captured, n holds the fold of the logs, whatever the other nodes do. */
  lemma PeerRestoreConverges(cfg: Config, run: seq<Action>, t: nat, b: nat, n: nat)
    requires ValidConfig(cfg) && RestoresPeer(cfg, run, t, b, n) && HealthyFrom(cfg, run, b + 1, n)
    requires AtRest(cfg, run, n) && Settled(Execute(cfg, run).nodes[run[t].n])
    ensures Execute(cfg, run).nodes[n].db == Fold(cfg.initial, Execute(cfg, run).logs)
  {
    PeerRestored(cfg, run, t, b, n);
    HealthySettles(cfg, run, b + 1, n, run[t].n);
  }

  lemma HealthySettles(cfg: Config, run: seq<Action>, since: nat, n: nat, q: nat)
    requires ValidConfig(cfg) && Sound(cfg, n) && q < |cfg.nodes| && since <= |run|
    requires HealthyRun(cfg, run[..since], n) && HealthyFrom(cfg, run, since, n)
    requires Execute(cfg, run[..since]).nodes[n].track.origins == {n, q}
    requires AtRest(cfg, run, n) && Settled(Execute(cfg, run).nodes[q])
    ensures Execute(cfg, run).nodes[n].db == Fold(cfg.initial, Execute(cfg, run).logs)
  {
    HealthyExtends(cfg, run, since, n);
    assert OriginsSettled(Execute(cfg, run), {n, q});
    ReplicaConverges(cfg, run, n);
  }
}
