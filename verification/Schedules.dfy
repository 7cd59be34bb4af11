/** Steps from which runs are put together, and the schedule that brings a whole
    cluster to one state. */
module Schedules {
  import opened Basics
  import opened Store
  import opened Cluster
  import opened Convergence
  import opened Replicas

  /******* Single steps *******/

  /** The stream accepts and the acknowledgement arrives. */
  const SENT := Call(true, true, true)

  /** Node n publishes its change i, and the mark commits or not. */
  function Turn(n: nat, i: nat, committed: bool): seq<Action> {
    [Consume(n, i, SENT), Mark(n, committed)]
  }

  function Takes(n: nat): seq<Action> {
    Turn(n, 0, true)
  }

  predicate CanTake(cfg: Config, st: State, n: nat, i: nat) {
    && n < |cfg.nodes| && cfg.nodes[n].publish && Shape(cfg, st)
    && i < |st.nodes[n].outbox| && st.nodes[n].inflight == None
    && cfg.route(st.nodes[n].outbox[i].change.key) < cfg.shards
  }

  function Without<T>(s: seq<T>, i: nat): seq<T>
    requires i < |s|
  {
    s[..i] + s[i + 1..]
  }

  /** From st to st' node n has published its change i. */
  predicate Taken(cfg: Config, st: State, st': State, n: nat, i: nat, committed: bool)
    requires CanTake(cfg, st, n, i) && Shape(cfg, st')
  {
    var node, node', c := st.nodes[n], st'.nodes[n], st.nodes[n].outbox[i].change;
    var s := cfg.route(c.key);
    && st'.logs == st.logs[s := st.logs[s] + [c]] && st'.snapshot == st.snapshot
    && node'.outbox == (if committed then Without(node.outbox, i) else node.outbox[i := Pending(c, true)])
    && node'.inflight == None
    && node'.saved == (if cfg.nodes[n].snapshots then node.saved[s := Max(node.saved[s], |st.logs[s]| + 1)]
                       else node.saved)
    && (forall m :: 0 <= m < |st.nodes| ==>
          && st'.nodes[m].db == st.nodes[m].db
          && st'.nodes[m].cursor == st.nodes[m].cursor && st'.nodes[m].unsaved == st.nodes[m].unsaved
          && (m != n ==>
                && st'.nodes[m].saved == st.nodes[m].saved && st'.nodes[m].outbox == st.nodes[m].outbox
                && st'.nodes[m].inflight == st.nodes[m].inflight))
  }

  lemma TurnSteps(cfg: Config, st: State, n: nat, i: nat, committed: bool)
    requires CanTake(cfg, st, n, i)
    ensures Taken(cfg, st, Step(cfg, Step(cfg, st, Consume(n, i, SENT)), Mark(n, committed)), n, i, committed)
  {
    var outbox := st.nodes[n].outbox;
    var mid := Step(cfg, st, Consume(n, i, SENT));
    assert mid == ConsumeStep(cfg, st, n, i, SENT);
    assert mid.nodes[n].outbox == outbox[i := Pending(outbox[i].change, true)];
    assert Step(cfg, mid, Mark(n, committed)).nodes[n] == MarkStep(mid.nodes[n], committed);
    assert Without(mid.nodes[n].outbox, i) == Without(outbox, i);
  }

  lemma TakeTurn(cfg: Config, acts: seq<Action>, n: nat, i: nat, committed: bool)
    requires CanTake(cfg, Execute(cfg, acts), n, i)
    ensures Taken(cfg, Execute(cfg, acts), Execute(cfg, acts + Turn(n, i, committed)), n, i, committed)
  {
    ExecuteSnoc(cfg, acts, Consume(n, i, SENT));
    ExecuteSnoc(cfg, acts + [Consume(n, i, SENT)], Mark(n, committed));
    assert acts + Turn(n, i, committed) == acts + [Consume(n, i, SENT)] + [Mark(n, committed)];
    TurnSteps(cfg, Execute(cfg, acts), n, i, committed);
  }

  /** The oldest change, published and marked. */
  lemma TakeOne(cfg: Config, acts: seq<Action>, n: nat)
    requires CanTake(cfg, Execute(cfg, acts), n, 0)
    ensures Taken(cfg, Execute(cfg, acts), Execute(cfg, acts + Takes(n)), n, 0, true)
    ensures Execute(cfg, acts + Takes(n)).nodes[n].outbox == Execute(cfg, acts).nodes[n].outbox[1..]
  {
    TakeTurn(cfg, acts, n, 0, true);
    var outbox := Execute(cfg, acts).nodes[n].outbox;
    assert Without(outbox, 0) == outbox[1..];
  }

  /** A turn loses nothing, at its own node or another. */
  lemma TurnPlain(cfg: Config, acts: seq<Action>, n: nat, i: nat, committed: bool, m: nat)
    requires CanTake(cfg, Execute(cfg, acts), n, i) && m < |cfg.nodes| && PlainRun(cfg, acts, m)
    ensures PlainRun(cfg, acts + Turn(n, i, committed), m)
  {
    var st, consume := Execute(cfg, acts), Consume(n, i, SENT);
    PlainSnoc(cfg, acts, consume, m);
    ExecuteSnoc(cfg, acts, consume);
    assert Step(cfg, st, consume) == ConsumeStep(cfg, st, n, i, SENT);
    PlainSnoc(cfg, acts + [consume], Mark(n, committed), m);
    assert acts + Turn(n, i, committed) == acts + [consume] + [Mark(n, committed)];
  }

  lemma WriteOne(cfg: Config, acts: seq<Action>, n: nat, op: WriteOp)
    requires n < |cfg.nodes| && Enabled(cfg, Execute(cfg, acts), Write(n, op))
    ensures var st, st' := Execute(cfg, acts), Execute(cfg, acts + [Write(n, op)]);
            && st'.logs == st.logs && st'.snapshot == st.snapshot
            && st'.nodes == st.nodes[n := WriteStep(st.nodes[n], op)]
    ensures PlainRun(cfg, acts, n) && Uncaptured(op) == {} ==> PlainRun(cfg, acts + [Write(n, op)], n)
  {
    ExecuteSnoc(cfg, acts, Write(n, op));
    if PlainRun(cfg, acts, n) && Uncaptured(op) == {} {
      PlainSnoc(cfg, acts, Write(n, op), n);
    }
  }

  /** One message handled and saved by a listener. */
  lemma ReadOne(cfg: Config, acts: seq<Action>, n: nat, s: nat, d: nat)
    requires n < |cfg.nodes| && s < cfg.shards && Enabled(cfg, Execute(cfg, acts), Deliver(n, s, d))
    requires Execute(cfg, acts).nodes[n].cursor[s] < d && Execute(cfg, acts).nodes[n].unsaved[s] == 0
    ensures var st, st' := Execute(cfg, acts), Execute(cfg, acts + [Deliver(n, s, d)] + [SaveSeq(n, s)]);
            var node, node', v := st.nodes[n], st'.nodes[n], Max(st.nodes[n].saved[s], d);
            && st'.logs == st.logs && st'.snapshot == st.snapshot
            && node'.db == (if cfg.nodes[n].replicate then Apply(node.db, st.logs[s][d - 1]) else node.db)
            && node'.saved == node.saved[s := v] && node'.cursor == node.cursor[s := v]
            && node'.unsaved == node.unsaved && node'.outbox == node.outbox && node'.inflight == node.inflight
            && (forall m :: 0 <= m < |st.nodes| && m != n ==> st'.nodes[m] == st.nodes[m])
  {
    var st := Execute(cfg, acts);
    ExecuteSnoc(cfg, acts, Deliver(n, s, d));
    ExecuteSnoc(cfg, acts + [Deliver(n, s, d)], SaveSeq(n, s));
    var mid := DeliverStep(cfg, cfg.nodes[n].replicate, st.nodes[n], st.logs[s], s, d);
    assert Execute(cfg, acts + [Deliver(n, s, d)]) == st.(nodes := st.nodes[n := mid]);
    assert mid.unsaved == st.nodes[n].unsaved[s := d];
    assert st.nodes[n].unsaved[s := d][s := 0] == st.nodes[n].unsaved;
    var last := Step(cfg, st.(nodes := st.nodes[n := mid]), SaveSeq(n, s));
    assert last == st.(nodes := st.nodes[n := mid][n := SaveStep(cfg, mid, s)]);
  }

  /******* Draining every change log *******/

  /** What publishers and listeners do, and nothing else. */
  predicate Machinery(more: seq<Action>) {
    forall i :: 0 <= i < |more| ==> more[i].Consume? || more[i].Mark? || more[i].Deliver? || more[i].SaveSeq?
  }

  /** run goes on from acts by publishing, marking, delivering and saving. */
  predicate Leads(acts: seq<Action>, run: seq<Action>) {
    acts <= run && Machinery(run[|acts|..])
  }

  lemma LeadsBy(acts: seq<Action>, more: seq<Action>)
    requires Machinery(more)
    ensures Leads(acts, acts + more)
  {
    assert (acts + more)[|acts|..] == more;
  }

  lemma LeadsOn(a: seq<Action>, b: seq<Action>, c: seq<Action>)
    requires Leads(a, b) && Leads(b, c)
    ensures Leads(a, c)
  {
    forall i | 0 <= i < |c[|a|..]|
      ensures var x := c[|a|..][i]; x.Consume? || x.Mark? || x.Deliver? || x.SaveSeq?
    {
      if |a| + i < |b| {
        assert c[|a|..][i] == b[|a|..][i];
      } else {
        assert c[|a|..][i] == c[|b|..][|a| + i - |b|];
      }
    }
  }

  predicate AllPlain(cfg: Config, acts: seq<Action>) {
    forall n :: 0 <= n < |cfg.nodes| ==> Sound(cfg, n) && PlainRun(cfg, acts, n)
  }

  /** Who has captured changes publishes them. */
  predicate Publishable(cfg: Config, st: State)
    requires Shape(cfg, st)
  {
    forall n :: 0 <= n < |st.nodes| && !cfg.nodes[n].publish ==> st.nodes[n].outbox == []
  }

  /** From st to st' only the change log of node n has moved. */
  predicate OutboxesBut(st: State, st': State, n: nat)
    requires |st.nodes| == |st'.nodes|
  {
    forall m :: 0 <= m < |st.nodes| && m != n ==> st'.nodes[m].outbox == st.nodes[m].outbox
  }

  /** The oldest change of node n goes out. */
  lemma DrainOne(cfg: Config, acts: seq<Action>, n: nat)
    requires ValidConfig(cfg) && AllPlain(cfg, acts) && CanTake(cfg, Execute(cfg, acts), n, 0)
    ensures AllPlain(cfg, acts + Takes(n)) && OutboxesBut(Execute(cfg, acts), Execute(cfg, acts + Takes(n)), n)
    ensures var node, node' := Execute(cfg, acts).nodes[n], Execute(cfg, acts + Takes(n)).nodes[n];
            node'.outbox == node.outbox[1..] && node'.inflight == None
  {
    TakeOne(cfg, acts, n);
    forall m | 0 <= m < |cfg.nodes| ensures PlainRun(cfg, acts + Takes(n), m) {
      TurnPlain(cfg, acts, n, 0, true, m);
    }
  }

  lemma {:induction false} DrainNode(cfg: Config, acts: seq<Action>, n: nat) returns (run: seq<Action>)
    requires ValidConfig(cfg) && n < |cfg.nodes| && AllPlain(cfg, acts) && Execute(cfg, acts).nodes[n].inflight == None
    requires cfg.nodes[n].publish || Execute(cfg, acts).nodes[n].outbox == []
    ensures Leads(acts, run) && AllPlain(cfg, run)
    ensures Execute(cfg, run).nodes[n].outbox == [] && OutboxesBut(Execute(cfg, acts), Execute(cfg, run), n)
    decreases |Execute(cfg, acts).nodes[n].outbox|
  {
    if Execute(cfg, acts).nodes[n].outbox == [] {
      run := acts;
    } else {
      DrainOne(cfg, acts, n);
      run := DrainNode(cfg, acts + Takes(n), n);
      LeadsBy(acts, Takes(n));
      LeadsOn(acts, acts + Takes(n), run);
    }
  }

  /** A mark that rolls back frees the publisher of a change in flight. */
  lemma FreePublisher(cfg: Config, acts: seq<Action>, n: nat)
    requires n < |cfg.nodes| && AllPlain(cfg, acts)
    ensures AllPlain(cfg, acts + [Mark(n, false)])
    ensures var st, st' := Execute(cfg, acts), Execute(cfg, acts + [Mark(n, false)]);
            && st'.nodes[n].inflight == None && st'.nodes[n].outbox == st.nodes[n].outbox
            && OutboxesBut(st, st', n)
  {
    var st := Execute(cfg, acts);
    ExecuteSnoc(cfg, acts, Mark(n, false));
    forall m | 0 <= m < |cfg.nodes| ensures PlainRun(cfg, acts + [Mark(n, false)], m) {
      PlainSnoc(cfg, acts, Mark(n, false), m);
    }
    assert Step(cfg, st, Mark(n, false)).nodes[n] == MarkStep(st.nodes[n], false);
  }

  predicate DrainedUpTo(st: State, n: nat) {
    forall m :: 0 <= m < n && m < |st.nodes| ==> st.nodes[m].outbox == []
  }

  lemma DrainNext(cfg: Config, acts: seq<Action>, n: nat) returns (run: seq<Action>)
    requires ValidConfig(cfg) && n < |cfg.nodes| && AllPlain(cfg, acts) && Publishable(cfg, Execute(cfg, acts))
    requires DrainedUpTo(Execute(cfg, acts), n)
    ensures Leads(acts, run) && AllPlain(cfg, run)
    ensures Publishable(cfg, Execute(cfg, run)) && DrainedUpTo(Execute(cfg, run), n + 1)
  {
    FreePublisher(cfg, acts, n);
    run := DrainFreed(cfg, acts + [Mark(n, false)], n, Execute(cfg, acts));
    LeadsBy(acts, [Mark(n, false)]);
    LeadsOn(acts, acts + [Mark(n, false)], run);
  }

  lemma DrainFreed(cfg: Config, acts: seq<Action>, n: nat, st: State) returns (run: seq<Action>)
    requires ValidConfig(cfg) && n < |cfg.nodes| && AllPlain(cfg, acts) && Execute(cfg, acts).nodes[n].inflight == None
    requires Shape(cfg, st) && Publishable(cfg, st) && DrainedUpTo(st, n) && OutboxesBut(st, Execute(cfg, acts), n)
    requires Execute(cfg, acts).nodes[n].outbox == st.nodes[n].outbox
    ensures Leads(acts, run) && AllPlain(cfg, run)
    ensures Publishable(cfg, Execute(cfg, run)) && DrainedUpTo(Execute(cfg, run), n + 1)
  {
    run := DrainNode(cfg, acts, n);
    OutboxesSteady(cfg, st, Execute(cfg, acts), Execute(cfg, run), n);
  }

  lemma OutboxesSteady(cfg: Config, st: State, st1: State, st2: State, n: nat)
    requires Shape(cfg, st) && Shape(cfg, st1) && Shape(cfg, st2) && n < |st.nodes|
    requires OutboxesBut(st, st1, n) && OutboxesBut(st1, st2, n) && st2.nodes[n].outbox == []
    requires Publishable(cfg, st) && DrainedUpTo(st, n)
    ensures Publishable(cfg, st2) && DrainedUpTo(st2, n + 1)
  {
  }

  lemma {:induction false} DrainFrom(cfg: Config, acts: seq<Action>, n: nat) returns (run: seq<Action>)
    requires ValidConfig(cfg) && n <= |cfg.nodes| && AllPlain(cfg, acts) && Publishable(cfg, Execute(cfg, acts))
    requires DrainedUpTo(Execute(cfg, acts), n)
    ensures Leads(acts, run) && AllPlain(cfg, run) && DrainedUpTo(Execute(cfg, run), |cfg.nodes|)
    decreases |cfg.nodes| - n
  {
    if n == |cfg.nodes| {
      run := acts;
    } else {
      var one := DrainNext(cfg, acts, n);
      run := DrainFrom(cfg, one, n + 1);
      LeadsOn(acts, one, run);
    }
  }

  /******* Reading every stream *******/

  /** Nothing of node n is on its way: no unsent change, no unsaved message. */
  predicate Quiet(cfg: Config, st: State, n: nat)
    requires Shape(cfg, st) && n < |st.nodes|
  {
    && Listening(cfg, st, n) && st.nodes[n].outbox == []
    && st.nodes[n].track.lost == {} && st.nodes[n].track.origins == {n}
  }

  /** Saving what each listener has applied. */
  lemma {:induction false} SaveFrom(cfg: Config, acts: seq<Action>, n: nat, s: nat) returns (run: seq<Action>)
    requires n < |cfg.nodes| && s <= cfg.shards && AllPlain(cfg, acts)
    requires forall t :: 0 <= t < s ==> Execute(cfg, acts).nodes[n].unsaved[t] == 0
    ensures Leads(acts, run) && AllPlain(cfg, run) && Saved(cfg, Execute(cfg, run).nodes[n])
    ensures Execute(cfg, run).nodes[n].outbox == Execute(cfg, acts).nodes[n].outbox
    ensures OthersSame(Execute(cfg, acts), Execute(cfg, run), n)
    decreases cfg.shards - s
  {
    if s == cfg.shards {
      run := acts;
    } else {
      SaveOne(cfg, acts, n, s);
      run := SaveFrom(cfg, acts + [SaveSeq(n, s)], n, s + 1);
      LeadsBy(acts, [SaveSeq(n, s)]);
      LeadsOn(acts, acts + [SaveSeq(n, s)], run);
    }
  }

  predicate OthersSame(st: State, st': State, n: nat)
    requires |st.nodes| == |st'.nodes|
  {
    forall m :: 0 <= m < |st.nodes| && m != n ==> st'.nodes[m] == st.nodes[m]
  }

  lemma SaveOne(cfg: Config, acts: seq<Action>, n: nat, s: nat)
    requires n < |cfg.nodes| && s < cfg.shards && AllPlain(cfg, acts)
    ensures AllPlain(cfg, acts + [SaveSeq(n, s)])
    ensures var st, st' := Execute(cfg, acts), Execute(cfg, acts + [SaveSeq(n, s)]);
            && st'.nodes[n].unsaved == st.nodes[n].unsaved[s := 0] && st'.nodes[n].outbox == st.nodes[n].outbox
            && OthersSame(st, st', n)
  {
    var st := Execute(cfg, acts);
    ExecuteSnoc(cfg, acts, SaveSeq(n, s));
    forall m | 0 <= m < |cfg.nodes| ensures PlainRun(cfg, acts + [SaveSeq(n, s)], m) {
      PlainSnoc(cfg, acts, SaveSeq(n, s), m);
    }
    assert Step(cfg, st, SaveSeq(n, s)) == st.(nodes := st.nodes[n := SaveStep(cfg, st.nodes[n], s)]);
  }

  predicate Saved(cfg: Config, node: Node)
    requires NodeShape(cfg, node)
  {
    forall t :: 0 <= t < cfg.shards ==> node.unsaved[t] == 0
  }

  /** Every change log is empty, and the first n nodes have nothing left to save. */
  predicate SavedUpTo(cfg: Config, st: State, n: nat)
    requires Shape(cfg, st)
  {
    DrainedUpTo(st, |st.nodes|) && forall m :: 0 <= m < n && m < |st.nodes| ==> Saved(cfg, st.nodes[m])
  }

  lemma SavedFurther(cfg: Config, st: State, st': State, n: nat)
    requires Shape(cfg, st) && Shape(cfg, st') && n < |st.nodes| && SavedUpTo(cfg, st, n) && OthersSame(st, st', n)
    requires st'.nodes[n].outbox == st.nodes[n].outbox && Saved(cfg, st'.nodes[n])
    ensures SavedUpTo(cfg, st', n + 1)
  {
  }

  lemma {:induction false} SaveAllFrom(cfg: Config, acts: seq<Action>, n: nat) returns (run: seq<Action>)
    requires n <= |cfg.nodes| && AllPlain(cfg, acts) && SavedUpTo(cfg, Execute(cfg, acts), n)
    ensures Leads(acts, run) && AllPlain(cfg, run) && SavedUpTo(cfg, Execute(cfg, run), |cfg.nodes|)
    decreases |cfg.nodes| - n
  {
    if n == |cfg.nodes| {
      run := acts;
    } else {
      var one := SaveFrom(cfg, acts, n, 0);
      SavedFurther(cfg, Execute(cfg, acts), Execute(cfg, one), n);
      run := SaveAllFrom(cfg, one, n + 1);
      LeadsOn(acts, one, run);
    }
  }

  /** Over streams that discard nothing, a drained and saved node is quiet. */
  lemma SavedIsQuiet(cfg: Config, acts: seq<Action>, n: nat)
    requires ValidConfig(cfg) && cfg.maxEntries == 0 && n < |cfg.nodes| && Sound(cfg, n) && PlainRun(cfg, acts, n)
    requires Execute(cfg, acts).nodes[n].outbox == [] && Saved(cfg, Execute(cfg, acts).nodes[n])
    ensures Quiet(cfg, Execute(cfg, acts), n)
  {
    PlainRunSteady(cfg, acts, n);
    LosslessKeeps(cfg, acts, n);
    RunKeepsInv(cfg, acts);
    assert NodeOk(cfg, Execute(cfg, acts), n);
  }

  lemma QuietKept(cfg: Config, st: State, st': State, n: nat, m: nat)
    requires Shape(cfg, st) && Shape(cfg, st') && n < |cfg.nodes| && m < |cfg.nodes| && n != m
    requires Quiet(cfg, st, m) && ReplayOnly(cfg, st, st', n)
    ensures Quiet(cfg, st', m) && (CaughtUp(cfg, st, m) ==> CaughtUp(cfg, st', m))
  {
  }

  /** Every node is quiet, and the first n have read everything. */
  predicate ReadUpTo(cfg: Config, st: State, n: nat)
    requires Shape(cfg, st)
  {
    forall m :: 0 <= m < |st.nodes| ==> Quiet(cfg, st, m) && (m < n ==> CaughtUp(cfg, st, m))
  }

  lemma ReadNext(cfg: Config, acts: seq<Action>, n: nat) returns (run: seq<Action>)
    requires Sound(cfg, n) && ReadUpTo(cfg, Execute(cfg, acts), n)
    ensures Leads(acts, run) && ReadUpTo(cfg, Execute(cfg, run), n + 1)
  {
    var st := Execute(cfg, acts);
    assert Quiet(cfg, st, n);
    var more := CatchUpFrom(cfg, acts, n, 0);
    run := acts + more;
    LeadsBy(acts, more);
    ReadFurther(cfg, st, Execute(cfg, run), n);
  }

  lemma ReadFurther(cfg: Config, st: State, st': State, n: nat)
    requires Shape(cfg, st) && Shape(cfg, st') && n < |st.nodes| && ReadUpTo(cfg, st, n)
    requires ReplayOnly(cfg, st, st', n) && Listening(cfg, st', n) && CaughtUp(cfg, st', n)
    ensures ReadUpTo(cfg, st', n + 1)
  {
    assert Quiet(cfg, st, n);
    forall m | 0 <= m < |st.nodes| && m != n ensures Quiet(cfg, st', m) && (m < n ==> CaughtUp(cfg, st', m)) {
      QuietKept(cfg, st, st', n, m);
    }
  }

  lemma {:induction false} ReadFrom(cfg: Config, acts: seq<Action>, n: nat) returns (run: seq<Action>)
    requires n <= |cfg.nodes| && ReadUpTo(cfg, Execute(cfg, acts), n)
    requires forall m :: 0 <= m < |cfg.nodes| ==> Sound(cfg, m)
    ensures Leads(acts, run) && ReadUpTo(cfg, Execute(cfg, run), |cfg.nodes|)
    decreases |cfg.nodes| - n
  {
    if n == |cfg.nodes| {
      run := acts;
    } else {
      var one := ReadNext(cfg, acts, n);
      run := ReadFrom(cfg, one, n + 1);
      LeadsOn(acts, one, run);
    }
  }

  lemma QuietIsFold(cfg: Config, acts: seq<Action>, n: nat)
    requires ValidConfig(cfg) && n < |cfg.nodes|
    requires Quiet(cfg, Execute(cfg, acts), n) && CaughtUp(cfg, Execute(cfg, acts), n)
    ensures var st := Execute(cfg, acts); st.nodes[n].outbox == [] && st.nodes[n].db == Fold(cfg.initial, st.logs)
  {
    CaughtUpIsFold(cfg, acts, n);
  }

  /** Every node is drained and holds the fold of the shard logs. */
  ghost predicate Converged(cfg: Config, st: State) {
    forall n :: 0 <= n < |st.nodes| ==> st.nodes[n].outbox == [] && st.nodes[n].db == Fold(cfg.initial, st.logs)
  }

  lemma ReadConverges(cfg: Config, acts: seq<Action>) returns (run: seq<Action>)
    requires ValidConfig(cfg) && cfg.maxEntries == 0 && AllPlain(cfg, acts)
    requires SavedUpTo(cfg, Execute(cfg, acts), |cfg.nodes|)
    ensures Leads(acts, run) && Converged(cfg, Execute(cfg, run))
  {
    forall n | 0 <= n < |cfg.nodes| ensures Quiet(cfg, Execute(cfg, acts), n) {
      SavedIsQuiet(cfg, acts, n);
    }
    run := ReadFrom(cfg, acts, 0);
    forall n | 0 <= n < |cfg.nodes|
      ensures var st := Execute(cfg, run); st.nodes[n].outbox == [] && st.nodes[n].db == Fold(cfg.initial, st.logs)
    {
      QuietIsFold(cfg, run, n);
    }
  }

  /** A whole cluster converges: from every run of sound nodes that has lost no
      change, however far each of them has come, over streams that discard
      nothing, publishers and listeners alone can bring every node to the same
      tables, the fold of the shard logs. */
  lemma ClusterConverges(cfg: Config, acts: seq<Action>) returns (run: seq<Action>)
    requires ValidConfig(cfg) && cfg.maxEntries == 0 && AllPlain(cfg, acts) && Publishable(cfg, Execute(cfg, acts))
    ensures Leads(acts, run) && Converged(cfg, Execute(cfg, run))
  {
    var drained := DrainFrom(cfg, acts, 0);
    var saved := SaveAllFrom(cfg, drained, 0);
    run := ReadConverges(cfg, saved);
    LeadsOn(acts, drained, saved);
    LeadsOn(acts, saved, run);
  }
}
