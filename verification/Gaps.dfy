/** What a listener that resumes at some position makes of a node's rows: an
    exact law for every row, and what it says about restores and about a
    sequence map that Publish has moved ahead. */
module Gaps {
  import opened Basics
  import opened Store
  import opened Cluster
  import opened Convergence
  import opened Replicas

  /******* Sequences never run past the logs *******/

  predicate SeqsWithin(cfg: Config, st: State, n: nat, s: nat)
    requires Shape(cfg, st) && n < |st.nodes| && s < cfg.shards
  {
    var node, end := st.nodes[n], |st.logs[s]|;
    node.saved[s] <= end && node.cursor[s] <= end && node.unsaved[s] <= end
  }

  lemma StepKeepsWithin(cfg: Config, st: State, a: Action, n: nat, s: nat)
    requires Shape(cfg, st) && n < |st.nodes| && s < cfg.shards && SeqsWithin(cfg, st, n, s)
    ensures SeqsWithin(cfg, Step(cfg, st, a), n, s)
  {
    var node, node' := st.nodes[n], Step(cfg, st, a).nodes[n];
    LogsGrow(cfg, st, a, s);
    if a.n != n {
      OthersStand(cfg, st, a, n);
    } else if Enabled(cfg, st, a) {
      match a
      case Write(_, op) => assert node' == WriteStep(node, op);
      case Consume(_, i, call) => assert Step(cfg, st, a) == ConsumeStep(cfg, st, n, i, call);
      case Mark(_, committed) => assert node' == MarkStep(node, committed);
      case Deliver(_, t, d) => assert node' == DeliverStep(cfg, cfg.nodes[n].replicate, node, st.logs[t], t, d);
      case SaveSeq(_, t) => assert node' == SaveStep(cfg, node, t);
      case Restart(_) => assert node' == RestartStep(cfg, st, n);
      case TakeSnapshot(_) =>
    }
  }

  lemma {:induction false} RunKeepsWithin(cfg: Config, acts: seq<Action>, n: nat, s: nat)
    requires n < |cfg.nodes| && s < cfg.shards
    ensures SeqsWithin(cfg, Execute(cfg, acts), n, s)
  {
    if acts != [] {
      RunKeepsWithin(cfg, acts[..|acts| - 1], n, s);
      StepKeepsWithin(cfg, Execute(cfg, acts[..|acts| - 1]), acts[|acts| - 1], n, s);
    }
  }

  /******* Resuming *******/

  /** Node n only listens, in order; the rest of the cluster does as it likes. */
  predicate Listens(st: State, a: Action, n: nat)
    requires n < |st.nodes|
  {
    (a.n == n ==> a.Deliver? || a.SaveSeq? || a.TakeSnapshot?) && InOrder(st, a, n)
  }

  predicate ListensAfter(cfg: Config, acts: seq<Action>, more: seq<Action>, n: nat)
    requires n < |cfg.nodes|
  {
    more == [] ||
    (var before := more[..|more| - 1];
     ListensAfter(cfg, acts, before, n) && Listens(Execute(cfg, acts + before), more[|more| - 1], n))
  }

  /** The listener of shard s stands at its saved sequence. */
  predicate Resumed(cfg: Config, node: Node, s: nat)
    requires NodeShape(cfg, node) && s < cfg.shards
  {
    node.saved[s] == node.cursor[s] && node.unsaved[s] == 0
  }

  /** Having resumed at `from` with the row at x, the node has applied the log of
      the row's shard from there to its cursor, or one message further. */
  predicate Following(cfg: Config, st: State, n: nat, k: RowKey, from: nat, x: Option<Row>)
    requires Shape(cfg, st) && n < |st.nodes| && cfg.route(k) < cfg.shards
  {
    var node, s := st.nodes[n], cfg.route(k);
    var at := if node.unsaved[s] == 0 then node.cursor[s] else node.unsaved[s];
    && node.saved[s] == node.cursor[s] && at <= node.cursor[s] + 1
    && from <= node.cursor[s] <= at <= |st.logs[s]|
    && Get(node.db, k) == Latest(x, st.logs[s][from..at], k)
  }

  lemma LatestSnoc(x: Option<Row>, log: Log, from: nat, d: nat, k: RowKey)
    requires from < d <= |log|
    ensures Latest(x, log[from..d], k) ==
            if log[d - 1].key == k then log[d - 1].effect else Latest(x, log[from..d - 1], k)
  {
    assert log[from..d][..d - 1 - from] == log[from..d - 1];
  }

  lemma FollowElsewhere(cfg: Config, st: State, a: Action, n: nat, k: RowKey, from: nat, x: Option<Row>)
    requires ValidConfig(cfg) && Shape(cfg, st) && n < |st.nodes| && Following(cfg, st, n, k, from, x)
    requires a.n != n
    ensures Following(cfg, Step(cfg, st, a), n, k, from, x)
  {
    var st', s := Step(cfg, st, a), cfg.route(k);
    var node := st.nodes[n];
    OthersStand(cfg, st, a, n);
    LogsGrow(cfg, st, a, s);
    var at := if node.unsaved[s] == 0 then node.cursor[s] else node.unsaved[s];
    assert st'.logs[s][from..at] == st.logs[s][from..at];
  }

  lemma FollowDeliver(cfg: Config, st: State, n: nat, t: nat, d: nat, k: RowKey, from: nat, x: Option<Row>)
    requires ValidConfig(cfg) && Shape(cfg, st) && n < |st.nodes| && Following(cfg, st, n, k, from, x)
    requires cfg.nodes[n].replicate && Routed(cfg.route, st.logs) && InOrder(st, Deliver(n, t, d), n)
    ensures Following(cfg, Step(cfg, st, Deliver(n, t, d)), n, k, from, x)
  {
    var st', s := Step(cfg, st, Deliver(n, t, d)), cfg.route(k);
    if st' != st {
      assert st'.nodes[n] == DeliverStep(cfg, true, st.nodes[n], st.logs[t], t, d);
      if t == s && st'.nodes[n].unsaved[s] != st.nodes[n].unsaved[s] {
        LatestSnoc(x, st.logs[s], from, d, k);
      }
    }
  }

  lemma FollowStep(cfg: Config, st: State, a: Action, n: nat, k: RowKey, from: nat, x: Option<Row>)
    requires ValidConfig(cfg) && Shape(cfg, st) && n < |st.nodes| && Following(cfg, st, n, k, from, x)
    requires cfg.nodes[n].replicate && Routed(cfg.route, st.logs) && Listens(st, a, n)
    ensures Following(cfg, Step(cfg, st, a), n, k, from, x)
  {
    if a.n != n {
      FollowElsewhere(cfg, st, a, n, k, from, x);
    } else if a.Deliver? {
      FollowDeliver(cfg, st, n, a.s, a.d, k, from, x);
    } else if a.SaveSeq? && Enabled(cfg, st, a) {
      assert Step(cfg, st, a).nodes[n] == SaveStep(cfg, st.nodes[n], a.s);
    }
  }

  lemma FollowNext(cfg: Config, run: seq<Action>, a: Action, n: nat, k: RowKey, from: nat, x: Option<Row>)
    requires ValidConfig(cfg) && n < |cfg.nodes| && cfg.nodes[n].replicate
    requires Following(cfg, Execute(cfg, run), n, k, from, x) && Listens(Execute(cfg, run), a, n)
    ensures Following(cfg, Execute(cfg, run + [a]), n, k, from, x)
  {
    RunKeepsInv(cfg, run);
    FollowStep(cfg, Execute(cfg, run), a, n, k, from, x);
    ExecuteSnoc(cfg, run, a);
  }

  lemma {:induction false} FollowRun(cfg: Config, acts: seq<Action>, more: seq<Action>, n: nat, k: RowKey)
    requires ValidConfig(cfg) && n < |cfg.nodes| && cfg.nodes[n].replicate && ListensAfter(cfg, acts, more, n)
    requires Resumed(cfg, Execute(cfg, acts).nodes[n], cfg.route(k))
    ensures var node := Execute(cfg, acts).nodes[n];
            Following(cfg, Execute(cfg, acts + more), n, k, node.cursor[cfg.route(k)], Get(node.db, k))
  {
    var node, s := Execute(cfg, acts).nodes[n], cfg.route(k);
    if more == [] {
      assert acts + more == acts;
      RunKeepsWithin(cfg, acts, n, s);
    } else {
      var before, a := more[..|more| - 1], more[|more| - 1];
      FollowRun(cfg, acts, before, n, k);
      FollowNext(cfg, acts + before, a, n, k, node.cursor[s], Get(node.db, k));
      assert acts + before + [a] == acts + more;
    }
  }

  predicate ReadToEnd(cfg: Config, st: State, n: nat, s: nat)
    requires Shape(cfg, st) && n < |st.nodes| && s < cfg.shards
  {
    st.nodes[n].cursor[s] == |st.logs[s]|
  }

  lemma FollowedAll(cfg: Config, st: State, n: nat, k: RowKey, from: nat, x: Option<Row>)
    requires ValidConfig(cfg) && Shape(cfg, st) && n < |st.nodes|
    requires Following(cfg, st, n, k, from, x) && ReadToEnd(cfg, st, n, cfg.route(k))
    ensures from <= |st.logs[cfg.route(k)]|
    ensures Get(st.nodes[n].db, k) == Latest(x, st.logs[cfg.route(k)][from..], k)
  {
    var log := st.logs[cfg.route(k)];
    assert log[from..|log|] == log[from..];
  }

  lemma FollowedToEnd(cfg: Config, st: State, n: nat, k: RowKey, from: nat, x: Option<Row>)
    requires ValidConfig(cfg) && Shape(cfg, st) && n < |st.nodes| && Routed(cfg.route, st.logs)
    requires Following(cfg, st, n, k, from, x) && ReadToEnd(cfg, st, n, cfg.route(k))
    ensures var log := st.logs[cfg.route(k)];
            && from <= |log|
            && (Get(st.nodes[n].db, k) == Get(Fold(cfg.initial, st.logs), k) <==>
                  Mentions(log[from..], k) || x == Latest(Get(cfg.initial, k), log[..from], k))
  {
    FollowedAll(cfg, st, n, k, from, x);
    FoldDecides(cfg.route, cfg.initial, st.logs, k);
    TailDecides(x, Get(cfg.initial, k), st.logs[cfg.route(k)], from, k);
  }

  /** A row whose listener resumes at its cursor and reads to the end is right
      then if and only if the entries after the cursor mention it, or it was
      right at the cursor: whatever brought the node there, and whatever the
      rest of the cluster does meanwhile. */
  lemma ResumedRow(cfg: Config, acts: seq<Action>, more: seq<Action>, n: nat, k: RowKey)
    requires ValidConfig(cfg) && n < |cfg.nodes| && cfg.nodes[n].replicate && ListensAfter(cfg, acts, more, n)
    requires Resumed(cfg, Execute(cfg, acts).nodes[n], cfg.route(k))
    requires ReadToEnd(cfg, Execute(cfg, acts + more), n, cfg.route(k))
    ensures var node, st', s := Execute(cfg, acts).nodes[n], Execute(cfg, acts + more), cfg.route(k);
            && node.cursor[s] <= |st'.logs[s]|
            && (Get(st'.nodes[n].db, k) == Get(Fold(cfg.initial, st'.logs), k) <==>
                  || Mentions(st'.logs[s][node.cursor[s]..], k)
                  || Get(node.db, k) == Latest(Get(cfg.initial, k), st'.logs[s][..node.cursor[s]], k))
  {
    var node := Execute(cfg, acts).nodes[n];
    FollowRun(cfg, acts, more, n, k);
    RunKeepsInv(cfg, acts + more);
    FollowedToEnd(cfg, Execute(cfg, acts + more), n, k, node.cursor[cfg.route(k)], Get(node.db, k));
  }

  /** A restored node: a row is right once the listeners have read to the end if
      and only if an entry after the kept sequence mentions it, or the snapshot
      was right about it at that sequence. */
  lemma RestoredNodeRow(cfg: Config, acts: seq<Action>, more: seq<Action>, n: nat, k: RowKey)
    requires ValidConfig(cfg) && n < |cfg.nodes| && Restores(cfg, Execute(cfg, acts), n)
    requires ListensAfter(cfg, acts + [Restart(n)], more, n)
    requires ReadToEnd(cfg, Execute(cfg, acts + [Restart(n)] + more), n, cfg.route(k))
    ensures var st, st', s := Execute(cfg, acts), Execute(cfg, acts + [Restart(n)] + more), cfg.route(k);
            var kept := st.nodes[n].saved[s];
            && kept <= |st'.logs[s]|
            && (Get(st'.nodes[n].db, k) == Get(Fold(cfg.initial, st'.logs), k) <==>
                  || Mentions(st'.logs[s][kept..], k)
                  || Get(st.snapshot.value.db, k) == Latest(Get(cfg.initial, k), st'.logs[s][..kept], k))
  {
    ExecuteSnoc(cfg, acts, Restart(n));
    assert Execute(cfg, acts + [Restart(n)]).nodes[n] == RestartStep(cfg, Execute(cfg, acts), n);
    ResumedRow(cfg, acts + [Restart(n)], more, n, k);
  }

  /** In particular, of a snapshot that stands at some position of the row's
      shard, exactly the rows that survive between there and the kept sequence. */
  lemma StaleRestoreRow(cfg: Config, acts: seq<Action>, more: seq<Action>, n: nat, k: RowKey, position: nat)
    requires ValidConfig(cfg) && n < |cfg.nodes| && Restores(cfg, Execute(cfg, acts), n)
    requires ListensAfter(cfg, acts + [Restart(n)], more, n)
    requires ReadToEnd(cfg, Execute(cfg, acts + [Restart(n)] + more), n, cfg.route(k))
    requires var st', s := Execute(cfg, acts + [Restart(n)] + more), cfg.route(k);
             && position <= |st'.logs[s]|
             && Get(Execute(cfg, acts).snapshot.value.db, k) == Latest(Get(cfg.initial, k), st'.logs[s][..position], k)
    ensures var st, st', s := Execute(cfg, acts), Execute(cfg, acts + [Restart(n)] + more), cfg.route(k);
            && st.nodes[n].saved[s] <= |st'.logs[s]|
            && (Get(st'.nodes[n].db, k) == Get(Fold(cfg.initial, st'.logs), k) <==>
                  Survives(Get(cfg.initial, k), st'.logs[s], st.nodes[n].saved[s], position, k))
  {
    RestoredNodeRow(cfg, acts, more, n, k);
  }

  /** A listener that saves a message after Publish has stored a later sequence
      of the stream resumes there: a row of the stream is right in the end if
      and only if an entry after that sequence mentions it, or the tables
      already had it as it was at that sequence. */
  lemma SkippedRow(cfg: Config, acts: seq<Action>, more: seq<Action>, n: nat, k: RowKey)
    requires ValidConfig(cfg) && n < |cfg.nodes| && cfg.nodes[n].replicate
    requires Execute(cfg, acts).nodes[n].unsaved[cfg.route(k)] != 0
    requires ListensAfter(cfg, acts + [SaveSeq(n, cfg.route(k))], more, n)
    requires ReadToEnd(cfg, Execute(cfg, acts + [SaveSeq(n, cfg.route(k))] + more), n, cfg.route(k))
    ensures var s := cfg.route(k);
            var node, st' := Execute(cfg, acts).nodes[n], Execute(cfg, acts + [SaveSeq(n, s)] + more);
            var skipTo := Max(node.saved[s], node.unsaved[s]);
            && skipTo <= |st'.logs[s]|
            && (Get(st'.nodes[n].db, k) == Get(Fold(cfg.initial, st'.logs), k) <==>
                  || Mentions(st'.logs[s][skipTo..], k)
                  || Get(node.db, k) == Latest(Get(cfg.initial, k), st'.logs[s][..skipTo], k))
  {
    var st, s := Execute(cfg, acts), cfg.route(k);
    ExecuteSnoc(cfg, acts, SaveSeq(n, s));
    assert Execute(cfg, acts + [SaveSeq(n, s)]).nodes[n] == SaveStep(cfg, st.nodes[n], s);
    ResumedRow(cfg, acts + [SaveSeq(n, s)], more, n, k);
  }
}
