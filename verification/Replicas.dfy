/** Which runs never gap a node, what a crash or a restore costs, and what
    follows for replicas, primaries and peers. */
module Replicas {
  import opened Basics
  import opened Store
  import opened Cluster
  import opened Convergence

  /******* Nodes whose listener alone moves their sequence map *******/

  /** A publishing node with snapshots enabled shares its sequence map between
      Publish and Listen; every other replicating node is sound. */
  predicate Sound(cfg: Config, n: nat) {
    n < |cfg.nodes| && cfg.nodes[n].replicate && !(cfg.nodes[n].publish && cfg.nodes[n].snapshots)
  }

  function NextDelivery(cfg: Config, st: State, n: nat, s: nat): nat
    requires Shape(cfg, st) && n < |st.nodes| && s < cfg.shards
  {
    Max(st.nodes[n].cursor[s] + 1, FirstSeq(cfg, |st.logs[s]|))
  }

  /** The stream delivers to n in order (redelivery is allowed) and has not
      discarded an entry beyond what the tables of n reflect. */
  predicate GoodDelivery(cfg: Config, st: State, a: Action, n: nat)
    requires Shape(cfg, st) && n < |st.nodes|
  {
    a.Deliver? && a.n == n && a.s < cfg.shards ==>
      && a.d <= NextDelivery(cfg, st, n, a.s)
      && FirstSeq(cfg, |st.logs[a.s]|) <= st.nodes[n].track.pos[a.s] + 1
  }

  /** If n restores, the snapshot is right and at or past the saved sequence in every shard. */
  predicate GoodRestore(cfg: Config, st: State, a: Action, n: nat)
    requires Shape(cfg, st) && n < |st.nodes|
  {
    a.Restart? && a.n == n && Restores(cfg, st, n) ==>
      && st.snapshot.value.trusted
      && forall s :: 0 <= s < cfg.shards ==> st.nodes[n].saved[s] <= st.snapshot.value.pos[s]
  }

  predicate HealthyRun(cfg: Config, acts: seq<Action>, n: nat)
    requires n < |cfg.nodes|
  {
    acts == [] ||
    (var before := acts[..|acts| - 1];
     && HealthyRun(cfg, before, n)
     && GoodDelivery(cfg, Execute(cfg, before), acts[|acts| - 1], n)
     && GoodRestore(cfg, Execute(cfg, before), acts[|acts| - 1], n))
  }

  predicate InStep(cfg: Config, node: Node)
    requires NodeShape(cfg, node)
  {
    && !node.track.gapped && node.saved == node.cursor
    && forall s :: 0 <= s < cfg.shards ==>
         node.cursor[s] <= node.track.pos[s] && node.unsaved[s] <= node.track.pos[s]
  }

  lemma StepKeepsInStep(cfg: Config, st: State, a: Action, n: nat)
    requires Shape(cfg, st) && Sound(cfg, n) && InStep(cfg, st.nodes[n])
    requires GoodDelivery(cfg, st, a, n) && GoodRestore(cfg, st, a, n)
    ensures InStep(cfg, Step(cfg, st, a).nodes[n])
  {
    var node, node' := st.nodes[n], Step(cfg, st, a).nodes[n];
    if !Enabled(cfg, st, a) || a.n != n || a.Write? || a.Consume? || a.Mark? || a.TakeSnapshot? {
      ListenerIdle(cfg, st, a, n);
    } else if a.Deliver? {
      assert node' == DeliverStep(cfg, true, node, st.logs[a.s], a.s, a.d);
    } else if a.SaveSeq? {
      assert node' == SaveStep(cfg, node, a.s);
    } else {
      assert node' == RestartStep(cfg, st, n);
    }
  }

  /** Steps that leave the listeners of a sound node, and what they account for, alone. */
  lemma ListenerIdle(cfg: Config, st: State, a: Action, n: nat)
    requires Shape(cfg, st) && Sound(cfg, n)
    requires !Enabled(cfg, st, a) || a.n != n || a.Write? || a.Consume? || a.Mark? || a.TakeSnapshot?
    ensures var node, node' := st.nodes[n], Step(cfg, st, a).nodes[n];
            && node'.saved == node.saved && node'.cursor == node.cursor && node'.unsaved == node.unsaved
            && node'.track.pos == node.track.pos && node'.track.gapped == node.track.gapped
  {
  }

  /** On a sound node nothing but a bad delivery or a bad restore opens a gap. */
  lemma {:induction false} HealthyNeverGapped(cfg: Config, acts: seq<Action>, n: nat)
    requires Sound(cfg, n) && HealthyRun(cfg, acts, n)
    ensures InStep(cfg, Execute(cfg, acts).nodes[n])
  {
    if acts != [] {
      HealthyNeverGapped(cfg, acts[..|acts| - 1], n);
      StepKeepsInStep(cfg, Execute(cfg, acts[..|acts| - 1]), acts[|acts| - 1], n);
    }
  }

  /** Replicas converge, restores included. */
  lemma ReplicaConverges(cfg: Config, acts: seq<Action>, n: nat)
    requires ValidConfig(cfg) && Sound(cfg, n) && HealthyRun(cfg, acts, n)
    requires var st := Execute(cfg, acts);
             CaughtUp(cfg, st, n) && OriginsSettled(st, st.nodes[n].track.origins)
    ensures Execute(cfg, acts).nodes[n].db == Fold(cfg.initial, Execute(cfg, acts).logs)
  {
    HealthyNeverGapped(cfg, acts, n);
    CaughtUpIsFold(cfg, acts, n);
  }

  /** So two such nodes agree; also when they come from two different runs, one
      of them without crashes, that left the same logs. */
  lemma ReplicasAgree(cfg: Config, acts: seq<Action>, n: nat, acts': seq<Action>, n': nat)
    requires ValidConfig(cfg) && Sound(cfg, n) && HealthyRun(cfg, acts, n)
    requires Sound(cfg, n') && HealthyRun(cfg, acts', n')
    requires var st := Execute(cfg, acts);
             CaughtUp(cfg, st, n) && OriginsSettled(st, st.nodes[n].track.origins)
    requires var st := Execute(cfg, acts');
             CaughtUp(cfg, st, n') && OriginsSettled(st, st.nodes[n'].track.origins)
    requires Execute(cfg, acts).logs == Execute(cfg, acts').logs
    ensures Execute(cfg, acts).nodes[n].db == Execute(cfg, acts').nodes[n'].db
  {
    ReplicaConverges(cfg, acts, n);
    ReplicaConverges(cfg, acts', n');
  }

  /******* No restore: eventual consistency in terms of the node alone *******/

  /** Nothing node n does here keeps a change from the logs: no mark of a change
      no shard accepted, no update of a primary key. */
  predicate Lossless(st: State, a: Action, n: nat)
    requires n < |st.nodes|
  {
    var node := st.nodes[n];
    && (a.Write? && a.n == n ==> Uncaptured(a.op) == {})
    && (a.Mark? && a.n == n && a.committed && node.inflight.Some? && node.inflight.value < |node.outbox| ==>
          node.outbox[node.inflight.value].sent)
  }

  predicate InOrder(st: State, a: Action, n: nat)
    requires n < |st.nodes|
  {
    a.Deliver? && a.n == n && a.s < |st.nodes[n].cursor| ==> a.d <= st.nodes[n].cursor[a.s] + 1
  }

  /** Runs in which n never restores and none of its changes is kept from the
      logs; with snapshots disabled the former always holds. */
  predicate LosslessRun(cfg: Config, acts: seq<Action>, n: nat)
    requires n < |cfg.nodes|
  {
    acts == [] ||
    (var before := acts[..|acts| - 1];
     && LosslessRun(cfg, before, n)
     && !(acts[|acts| - 1] == Restart(n) && Restores(cfg, Execute(cfg, before), n))
     && Lossless(Execute(cfg, before), acts[|acts| - 1], n))
  }

  /** Runs in which n reads each stream in order; redelivery is allowed. */
  predicate InOrderRun(cfg: Config, acts: seq<Action>, n: nat)
    requires n < |cfg.nodes|
  {
    acts == [] ||
    (var before := acts[..|acts| - 1];
     InOrderRun(cfg, before, n) && InOrder(Execute(cfg, before), acts[|acts| - 1], n))
  }

  predicate PlainRun(cfg: Config, acts: seq<Action>, n: nat)
    requires n < |cfg.nodes|
  {
    LosslessRun(cfg, acts, n) && InOrderRun(cfg, acts, n)
  }

  lemma ExecuteSnoc(cfg: Config, acts: seq<Action>, a: Action)
    ensures Execute(cfg, acts + [a]) == Step(cfg, Execute(cfg, acts), a)
  {
    assert (acts + [a])[..|acts|] == acts;
  }

  lemma PlainSnoc(cfg: Config, acts: seq<Action>, a: Action, n: nat)
    requires n < |cfg.nodes| && PlainRun(cfg, acts, n) && !(a == Restart(n) && Restores(cfg, Execute(cfg, acts), n))
    requires Lossless(Execute(cfg, acts), a, n) && InOrder(Execute(cfg, acts), a, n)
    ensures PlainRun(cfg, acts + [a], n)
  {
    assert (acts + [a])[..|acts|] == acts;
  }

  /** Without losses the tables of n hold nobody else's unsent changes, and no
      change of its own is lost, whatever the settings of n. */
  lemma {:induction false} LosslessKeeps(cfg: Config, acts: seq<Action>, n: nat)
    requires n < |cfg.nodes| && LosslessRun(cfg, acts, n)
    ensures var track := Execute(cfg, acts).nodes[n].track; track.origins == {n} && track.lost == {}
  {
    if acts != [] {
      LosslessKeeps(cfg, acts[..|acts| - 1], n);
      LosslessStep(cfg, Execute(cfg, acts[..|acts| - 1]), acts[|acts| - 1], n);
    }
  }

  lemma LosslessStep(cfg: Config, st: State, a: Action, n: nat)
    requires Shape(cfg, st) && n < |st.nodes| && Lossless(st, a, n) && !(a == Restart(n) && Restores(cfg, st, n))
    ensures var track, track' := st.nodes[n].track, Step(cfg, st, a).nodes[n].track;
            track'.origins == track.origins && track'.lost <= track.lost
  {
    var node, node' := st.nodes[n], Step(cfg, st, a).nodes[n];
    if a.n != n {
      OthersStand(cfg, st, a, n);
    } else if Enabled(cfg, st, a) {
      match a
      case Write(_, op) => assert node' == WriteStep(node, op);
      case Consume(_, i, call) => assert Step(cfg, st, a) == ConsumeStep(cfg, st, n, i, call);
      case Mark(_, committed) => assert node' == MarkStep(node, committed);
      case Deliver(_, s, d) => assert node' == DeliverStep(cfg, cfg.nodes[n].replicate, node, st.logs[s], s, d);
      case SaveSeq(_, s) => assert node' == SaveStep(cfg, node, s);
      case Restart(_) => assert node' == RestartStep(cfg, st, n);
      case TakeSnapshot(_) =>
    }
  }

  /** What reading in order without a restore keeps: the node is in step, and at
      most one message per shard is applied and not saved. */
  predicate Steady(cfg: Config, node: Node)
    requires NodeShape(cfg, node)
  {
    && InStep(cfg, node)
    && (forall s :: 0 <= s < cfg.shards ==>
          && node.track.pos[s] <= node.saved[s] + 1
          && (node.unsaved[s] != 0 ==> node.unsaved[s] == node.track.pos[s]))
  }

  lemma StepKeepsSteady(cfg: Config, st: State, a: Action, n: nat)
    requires Shape(cfg, st) && Sound(cfg, n) && !(a == Restart(n) && Restores(cfg, st, n))
    requires Steady(cfg, st.nodes[n]) && InOrder(st, a, n)
    ensures Steady(cfg, Step(cfg, st, a).nodes[n])
  {
    var node, node' := st.nodes[n], Step(cfg, st, a).nodes[n];
    if !Enabled(cfg, st, a) || a.n != n || a.Write? || a.Consume? || a.Mark? || a.TakeSnapshot? {
      ListenerIdle(cfg, st, a, n);
    } else if a.Deliver? {
      assert node' == DeliverStep(cfg, true, node, st.logs[a.s], a.s, a.d);
    } else if a.SaveSeq? {
      assert node' == SaveStep(cfg, node, a.s);
    } else {
      assert node' == RestartStep(cfg, st, n);
    }
  }

  lemma {:induction false} PlainRunSteady(cfg: Config, acts: seq<Action>, n: nat)
    requires Sound(cfg, n) && PlainRun(cfg, acts, n)
    ensures Steady(cfg, Execute(cfg, acts).nodes[n])
  {
    if acts != [] {
      PlainRunSteady(cfg, acts[..|acts| - 1], n);
      StepKeepsSteady(cfg, Execute(cfg, acts[..|acts| - 1]), acts[|acts| - 1], n);
    }
  }

  /** Eventual consistency. Whatever the other nodes do, and through any crashes
      and failed marks: a sound node whose captured changes have been sent and that
      has read its streams in order to the end holds the fold of the shard logs. */
  lemma EventualConsistency(cfg: Config, acts: seq<Action>, n: nat)
    requires ValidConfig(cfg) && Sound(cfg, n) && PlainRun(cfg, acts, n)
    requires var st := Execute(cfg, acts);
             && CaughtUp(cfg, st, n)
             && forall i :: 0 <= i < |st.nodes[n].outbox| ==> st.nodes[n].outbox[i].sent
    ensures Execute(cfg, acts).nodes[n].db == Fold(cfg.initial, Execute(cfg, acts).logs)
  {
    PlainRunSteady(cfg, acts, n);
    LosslessKeeps(cfg, acts, n);
    CaughtUpIsFold(cfg, acts, n);
  }

  /** A crash costs at most one repeated message per shard: the tables reflect
      each log to the saved sequence or one entry past it, at every moment. */
  lemma CrashRepeatsAtMostOne(cfg: Config, acts: seq<Action>, n: nat, s: nat)
    requires Sound(cfg, n) && s < cfg.shards && PlainRun(cfg, acts + [Restart(n)], n)
    ensures var node := Execute(cfg, acts + [Restart(n)]).nodes[n];
            && node.db == Execute(cfg, acts).nodes[n].db
            && node.cursor[s] <= node.track.pos[s] <= node.cursor[s] + 1
  {
    assert (acts + [Restart(n)])[..|acts|] == acts;
    PlainRunSteady(cfg, acts, n);
  }

  /******* One primary, many replicas *******/

  /** The primary takes its changes oldest first (no mark fails), updates no
      primary key, and is the one that saves snapshots. */
  predicate PrimaryRun(acts: seq<Action>, p: nat) {
    forall i :: 0 <= i < |acts| ==>
      && (acts[i].Consume? && acts[i].n == p ==> acts[i].i == 0)
      && (acts[i].Write? && acts[i].n == p ==> Uncaptured(acts[i].op) == {})
      && (acts[i].TakeSnapshot? ==> acts[i].n == p)
  }

  lemma {:induction false} PrimaryStaysOrdered(cfg: Config, acts: seq<Action>, p: nat)
    requires Primary(cfg, p) && PrimaryRun(acts, p)
    ensures var st := Execute(cfg, acts);
            st.nodes[p].track.ordered && (st.snapshot.Some? ==> st.snapshot.value.trusted)
  {
    if acts != [] {
      var before, a := acts[..|acts| - 1], acts[|acts| - 1];
      assert forall i :: 0 <= i < |before| ==> before[i] == acts[i];
      PrimaryStaysOrdered(cfg, before, p);
      OrderedStep(cfg, Execute(cfg, before), a, p);
    }
  }

  lemma OrderedStep(cfg: Config, st: State, a: Action, p: nat)
    requires Shape(cfg, st) && Primary(cfg, p) && PrimaryRun([a], p) && st.nodes[p].track.ordered
    requires st.snapshot.Some? ==> st.snapshot.value.trusted
    ensures var st' := Step(cfg, st, a);
            st'.nodes[p].track.ordered && (st'.snapshot.Some? ==> st'.snapshot.value.trusted)
  {
    assert [a][0] == a;
  }

  /** The documented deployment: once the primary's changes are sent, the primary
      and every caught-up replica hold the same tables, also through crashes and
      restores of snapshots that are not behind. */
  lemma PrimaryAndReplicaAgree(cfg: Config, acts: seq<Action>, p: nat, n: nat)
    requires ValidConfig(cfg) && Primary(cfg, p) && PrimaryRun(acts, p)
    requires Sound(cfg, n) && HealthyRun(cfg, acts, n)
    requires var st := Execute(cfg, acts);
             && CaughtUp(cfg, st, n)
             && OriginsSettled(st, st.nodes[n].track.origins) && OriginsSettled(st, st.nodes[p].track.origins)
    ensures var st := Execute(cfg, acts);
            st.nodes[p].db == st.nodes[n].db == Fold(cfg.initial, st.logs)
  {
    PrimaryStaysOrdered(cfg, acts, p);
    PrimaryIsFold(cfg, acts, p);
    ReplicaConverges(cfg, acts, n);
  }

  /******* No gap without restore *******/

  /** If the boot check asks for no restore, every entry after the saved sequence
      is retained. The check is cautious by one: it also asks when the first
      missing entry is exactly the first retained one. */
  lemma NoRestoreMeansRetained(cfg: Config, st: State, n: nat)
    requires Shape(cfg, st) && n < |st.nodes|
    ensures !NeedsRestore(cfg, st, st.nodes[n]) ==>
              forall s, d :: 0 <= s < cfg.shards && st.nodes[n].saved[s] < d <= |st.logs[s]| ==>
                Enabled(cfg, st, Deliver(n, s, d))
    ensures NeedsRestore(cfg, st, st.nodes[n]) <==>
              exists s :: 0 <= s < cfg.shards && |st.logs[s]| > 0 &&
                (st.nodes[n].saved[s] + 1 == FirstSeq(cfg, |st.logs[s]|) ||
                 exists d :: st.nodes[n].saved[s] < d <= |st.logs[s]| && !Enabled(cfg, st, Deliver(n, s, d)))
  {
    var node := st.nodes[n];
    if NeedsRestore(cfg, st, node) {
      var s :| 0 <= s < cfg.shards && node.saved[s] < FirstSeq(cfg, |st.logs[s]|);
      if node.saved[s] + 1 < FirstSeq(cfg, |st.logs[s]|) {
        assert !Enabled(cfg, st, Deliver(n, s, node.saved[s] + 1));
      }
    }
  }

  /** Replaying at n leaves logs, change logs, accounts and other nodes alone. */
  predicate ReplayOnly(cfg: Config, st: State, st': State, n: nat)
    requires Shape(cfg, st) && Shape(cfg, st') && n < |cfg.nodes|
  {
    && st'.logs == st.logs && st'.nodes[n].track.origins == st.nodes[n].track.origins
    && st'.nodes[n].outbox == st.nodes[n].outbox && st'.nodes[n].track.lost == st.nodes[n].track.lost
    && forall m :: 0 <= m < |st.nodes| && m != n ==> st'.nodes[m] == st.nodes[m]
  }

  predicate Listening(cfg: Config, st: State, n: nat)
    requires Shape(cfg, st) && n < |cfg.nodes|
  {
    && InStep(cfg, st.nodes[n])
    && forall t :: 0 <= t < cfg.shards ==>
         && st.nodes[n].unsaved[t] == 0
         && FirstSeq(cfg, |st.logs[t]|) - 1 <= st.nodes[n].cursor[t] <= |st.logs[t]|
  }

  /** The next message of a shard, handled and saved. */
  lemma ReplayNext(cfg: Config, st: State, n: nat, s: nat)
    requires Shape(cfg, st) && Sound(cfg, n) && s < cfg.shards && Listening(cfg, st, n)
    requires st.nodes[n].cursor[s] < |st.logs[s]|
    ensures var c := st.nodes[n].cursor;
            var mid := DeliverStep(cfg, true, st.nodes[n], st.logs[s], s, c[s] + 1);
            var st' := st.(nodes := st.nodes[n := SaveStep(cfg, mid, s)]);
            Listening(cfg, st', n) && st'.nodes[n].cursor == c[s := c[s] + 1] && ReplayOnly(cfg, st, st', n)
  {
    var d := st.nodes[n].cursor[s] + 1;
    var mid := DeliverStep(cfg, true, st.nodes[n], st.logs[s], s, d);
    assert mid.unsaved[s] == d && mid.saved[s] == d - 1;
  }

  lemma DeliverRun(cfg: Config, acts: seq<Action>, n: nat, s: nat, d: nat)
    requires n < |cfg.nodes| && s < cfg.shards && Enabled(cfg, Execute(cfg, acts), Deliver(n, s, d))
    ensures var st := Execute(cfg, acts);
            Execute(cfg, acts + [Deliver(n, s, d)]) ==
            st.(nodes := st.nodes[n := DeliverStep(cfg, cfg.nodes[n].replicate, st.nodes[n], st.logs[s], s, d)])
  {
    ExecuteSnoc(cfg, acts, Deliver(n, s, d));
  }

  lemma SaveRun(cfg: Config, acts: seq<Action>, n: nat, s: nat)
    requires n < |cfg.nodes| && s < cfg.shards
    ensures var st := Execute(cfg, acts);
            Execute(cfg, acts + [SaveSeq(n, s)]) == st.(nodes := st.nodes[n := SaveStep(cfg, st.nodes[n], s)])
  {
    ExecuteSnoc(cfg, acts, SaveSeq(n, s));
  }

  predicate OnlyReplays(more: seq<Action>, n: nat) {
    forall i :: 0 <= i < |more| ==> more[i].n == n && (more[i].Deliver? || more[i].SaveSeq?)
  }

  lemma {:induction false} CatchUpFrom(cfg: Config, acts: seq<Action>, n: nat, s: nat) returns (more: seq<Action>)
    requires Sound(cfg, n) && s <= cfg.shards && Listening(cfg, Execute(cfg, acts), n)
    requires forall t :: 0 <= t < s ==> Execute(cfg, acts).nodes[n].cursor[t] == |Execute(cfg, acts).logs[t]|
    ensures OnlyReplays(more, n) && Listening(cfg, Execute(cfg, acts + more), n)
    ensures CaughtUp(cfg, Execute(cfg, acts + more), n)
    ensures ReplayOnly(cfg, Execute(cfg, acts), Execute(cfg, acts + more), n)
    decreases cfg.shards - s,
              (if s < cfg.shards then |Execute(cfg, acts).logs[s]| - Execute(cfg, acts).nodes[n].cursor[s] else 0), 1
  {
    var st := Execute(cfg, acts);
    if s == cfg.shards {
      more := [];
      assert acts + [] == acts;
    } else if st.nodes[n].cursor[s] == |st.logs[s]| {
      more := CatchUpFrom(cfg, acts, n, s + 1);
    } else {
      var two := [Deliver(n, s, st.nodes[n].cursor[s] + 1), SaveSeq(n, s)];
      more := CatchUpStep(cfg, acts, two, n, s);
    }
  }

  lemma {:induction false} CatchUpStep(cfg: Config, acts: seq<Action>, two: seq<Action>, n: nat, s: nat)
    returns (more: seq<Action>)
    requires Sound(cfg, n) && s < cfg.shards && Listening(cfg, Execute(cfg, acts), n)
    requires Execute(cfg, acts).nodes[n].cursor[s] < |Execute(cfg, acts).logs[s]|
    requires two == [Deliver(n, s, Execute(cfg, acts).nodes[n].cursor[s] + 1), SaveSeq(n, s)]
    requires forall t :: 0 <= t < s ==> Execute(cfg, acts).nodes[n].cursor[t] == |Execute(cfg, acts).logs[t]|
    ensures OnlyReplays(more, n) && Listening(cfg, Execute(cfg, acts + more), n)
    ensures CaughtUp(cfg, Execute(cfg, acts + more), n)
    ensures ReplayOnly(cfg, Execute(cfg, acts), Execute(cfg, acts + more), n)
    decreases cfg.shards - s, |Execute(cfg, acts).logs[s]| - Execute(cfg, acts).nodes[n].cursor[s], 0
  {
    TwoMore(cfg, acts, two, n, s);
    var rest := CatchUpFrom(cfg, acts + two, n, s);
    more := two + rest;
    assert acts + more == acts + two + rest;
  }

  lemma TwoMore(cfg: Config, acts: seq<Action>, two: seq<Action>, n: nat, s: nat)
    requires Sound(cfg, n) && s < cfg.shards && Listening(cfg, Execute(cfg, acts), n)
    requires Execute(cfg, acts).nodes[n].cursor[s] < |Execute(cfg, acts).logs[s]|
    requires two == [Deliver(n, s, Execute(cfg, acts).nodes[n].cursor[s] + 1), SaveSeq(n, s)]
    ensures var st, st' := Execute(cfg, acts), Execute(cfg, acts + two);
            && Listening(cfg, st', n) && ReplayOnly(cfg, st, st', n)
            && st'.nodes[n].cursor == st.nodes[n].cursor[s := st.nodes[n].cursor[s] + 1]
  {
    var st := Execute(cfg, acts);
    var d := st.nodes[n].cursor[s] + 1;
    ReplayNext(cfg, st, n, s);
    DeliverRun(cfg, acts, n, s, d);
    SaveRun(cfg, acts + [Deliver(n, s, d)], n, s);
    var mid := DeliverStep(cfg, true, st.nodes[n], st.logs[s], s, d);
    assert st.nodes[n := mid][n := SaveStep(cfg, mid, s)] == st.nodes[n := SaveStep(cfg, mid, s)];
    assert acts + two == acts + [Deliver(n, s, d)] + [SaveSeq(n, s)];
  }

  /** After a boot that needed no restore, reading the retained entries in order
      is always possible and ends in the fold of the whole logs. */
  lemma NoGapWithoutRestore(cfg: Config, acts: seq<Action>, n: nat) returns (more: seq<Action>)
    requires ValidConfig(cfg) && Sound(cfg, n) && HealthyRun(cfg, acts, n)
    requires var st := Execute(cfg, acts);
             !NeedsRestore(cfg, st, st.nodes[n]) && OriginsSettled(st, st.nodes[n].track.origins)
    ensures OnlyReplays(more, n)
    ensures var st, st' := Execute(cfg, acts), Execute(cfg, acts + [Restart(n)] + more);
            && st'.logs == st.logs && CaughtUp(cfg, st', n)
            && st'.nodes[n].db == Fold(cfg.initial, st.logs)
  {
    var st, booted := Execute(cfg, acts), acts + [Restart(n)];
    ExecuteSnoc(cfg, acts, Restart(n));
    HealthyNeverGapped(cfg, acts, n);
    RunKeepsInv(cfg, acts);
    assert NodeOk(cfg, st, n);
    StepKeepsInStep(cfg, st, Restart(n), n);
    more := CatchUpFrom(cfg, booted, n, 0);
    CaughtUpIsFold(cfg, booted + more, n);
  }
}
