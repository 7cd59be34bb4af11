/** A node that runs the publisher of module Publisher over its change log, in
    a cluster whose other parts move as they like. Every such run is a run of
    the cluster model, and convergence carries over to it. */
module Simulation {
  import opened Basics
  import opened Store
  import opened Tables
  import ChangeLog
  import Publisher
  import opened Cluster
  import opened Convergence
  import opened Replicas
  import opened Refinement
  import opened Provenance

  /** Node n of the cluster, with any settings, and the tables it watches. */
  datatype Setting = Setting(cfg: Config, n: nat, schemas: map<Name, Schema>)

  ghost predicate ValidSetting(x: Setting) {
    ValidConfig(x.cfg) && x.n < |x.cfg.nodes|
  }

  /** Steps of node n's change log and publisher, and steps of anything else.
      recorded: an accepted message's sequence was saved by Publish. */
  datatype Joint = Local(local: Publisher.Action, recorded: bool) | Shared(shared: Action)

  datatype Play = Play(p: Publisher.Process, acts: seq<Action>)

  function OpOf(c: Change): WriteOp {
    match c.effect
    case Some(row) => Put(c.key, row)
    case None => Remove(c.key)
  }

  function Front(p: Publisher.Process): nat
    requires p.queue != []
  {
    ChangeLog.Find(p.logs.global, p.queue[0].id, 0)
  }

  /** What a step of the change log is in the cluster model. */
  function Translate(x: Setting, p: Publisher.Process, a: Publisher.Action, recorded: bool): seq<Action> {
    match a
    case Outside(Capture(table, kind, row, _)) =>
      if table in x.schemas && kind != Unknown
      then [Write(x.n, OpOf(ChangeOf(x.schemas[table], Event(kind, table, row))))]
      else []
    case Handle(accepted, verdict, mark) =>
      if p.queue == [] then []
      else [Consume(x.n, Front(p), Call(accepted, recorded, verdict != Publisher.Retry)),
            Mark(x.n, mark == Publisher.Committed)]
    case Crash => [Restart(x.n)]
    case _ => []
  }

  function PlayAll(x: Setting, js: seq<Joint>): Play {
    if js == [] then Play(Publisher.Start(x.schemas.Keys), [])
    else
      var before := PlayAll(x, js[..|js| - 1]);
      match js[|js| - 1]
      case Local(a, recorded) => Play(Publisher.Step(before.p, a), before.acts + Translate(x, before.p, a, recorded))
      case Shared(a) => before.(acts := before.acts + [a])
  }

  /** Triggers fire on rows that exist, nothing is accepted from a node that does
      not publish, and a boot finds no reason to restore. The rest of node n is
      its listeners, which read each stream in order if they apply it. */
  predicate Allowed(x: Setting, st: State, j: Joint)
    requires Shape(x.cfg, st) && x.n < |st.nodes|
  {
    match j
    case Local(Outside(Capture(table, kind, row, _)), _) =>
      table in x.schemas ==>
        && kind != Unknown
        && (kind == Delete ==> RowKey(table, KeyOf(x.schemas[table], row)) in st.nodes[x.n].db)
    case Local(Handle(accepted, _, _), _) => accepted ==> x.cfg.nodes[x.n].publish
    case Local(Crash, _) => !Restores(x.cfg, st, x.n)
    case Shared(a) =>
      && (a.n == x.n ==> a.Deliver? || a.SaveSeq? || a.TakeSnapshot?)
      && (x.cfg.nodes[x.n].replicate ==> InOrder(st, a, x.n))
    case _ => true
  }

  predicate AllowedRun(x: Setting, js: seq<Joint>)
    requires x.n < |x.cfg.nodes|
  {
    js == [] ||
    (var before := js[..|js| - 1];
     AllowedRun(x, before) && Allowed(x, Execute(x.cfg, PlayAll(x, before).acts), js[|js| - 1]))
  }

  /** The outbox of node n is what the change log stands for. */
  ghost predicate OutboxIs(x: Setting, p: Publisher.Process, st: State)
    requires Shape(x.cfg, st) && x.n < |st.nodes|
  {
    && Complete(x.schemas, p.logs)
    && st.nodes[x.n].outbox == Abstract(x.schemas, p) && st.nodes[x.n].inflight == None
  }

  ghost predicate Coupled(x: Setting, p: Publisher.Process, st: State)
    requires Shape(x.cfg, st) && x.n < |st.nodes|
  {
    Publisher.Good(p) && p.logs.nextRow.Keys == x.schemas.Keys && OutboxIs(x, p, st)
  }

  /******* Each step keeps the coupling *******/

  lemma SharedKeeps(x: Setting, p: Publisher.Process, st: State, a: Action)
    requires ValidSetting(x) && Shape(x.cfg, st) && Coupled(x, p, st) && Allowed(x, st, Shared(a))
    ensures Coupled(x, p, Step(x.cfg, st, a))
  {
    var node, node' := st.nodes[x.n], Step(x.cfg, st, a).nodes[x.n];
    assert node'.outbox == node.outbox && node'.inflight == node.inflight;
  }

  lemma CaptureKeeps(x: Setting, p: Publisher.Process, st: State, table: Name, kind: EventType, row: Row, now: int)
    requires ValidSetting(x) && Shape(x.cfg, st) && Coupled(x, p, st) && table in x.schemas
    requires Allowed(x, st, Local(Publisher.Outside(Publisher.Capture(table, kind, row, now)), false))
    ensures Coupled(x, Publisher.Step(p, Publisher.Outside(Publisher.Capture(table, kind, row, now))),
                    Step(x.cfg, st, Write(x.n, OpOf(ChangeOf(x.schemas[table], Event(kind, table, row))))))
  {
    var a := Publisher.Outside(Publisher.Capture(table, kind, row, now));
    var c := ChangeOf(x.schemas[table], Event(kind, table, row));
    Publisher.StepGood(p, a);
    CaptureRefines(x.schemas, p, table, kind, row, now);
    assert Cluster.Captured(OpOf(c)) == c;
    var st' := Step(x.cfg, st, Write(x.n, OpOf(c)));
    assert st'.nodes[x.n] == WriteStep(st.nodes[x.n], OpOf(c));
  }

  lemma CleanupKeepsCoupling(x: Setting, p: Publisher.Process, st: State, before: int)
    requires ValidSetting(x) && Shape(x.cfg, st) && Coupled(x, p, st)
    ensures Coupled(x, Publisher.Step(p, Publisher.Outside(Publisher.Cleanup(before))), st)
  {
    var p' := Publisher.Step(p, Publisher.Outside(Publisher.Cleanup(before)));
    Publisher.StepGood(p, Publisher.Outside(Publisher.Cleanup(before)));
    ChangeLog.CleanupKeeps(x.schemas, p.logs, before);
    ChangeLog.CleanedLinked(p.logs, before);
    forall i | 0 <= i < |p.logs.global|
      ensures ChangeLog.ChangeAt(x.schemas, p'.logs, p.logs.global[i].at) ==
              ChangeLog.ChangeAt(x.schemas, p.logs, p.logs.global[i].at)
    {
      assert ChangeLog.Outbox(x.schemas, p'.logs)[i] == ChangeLog.Outbox(x.schemas, p.logs)[i];
    }
  }

  lemma Position(p: Publisher.Process) returns (i: nat)
    requires Publisher.Good(p) && p.queue != []
    ensures i == Front(p) < |p.logs.global| && p.logs.global[i] == p.queue[0]
  {
    i := Front(p);
    var j := Publisher.QueuedAt(p);
    assert i == j;
  }

  lemma TurnKeepsNextRow(p: Publisher.Process, accepted: bool, verdict: Publisher.Verdict, mark: Publisher.MarkResult)
    requires p.queue != []
    ensures Publisher.HandleNext(p, accepted, verdict, mark).logs.nextRow == p.logs.nextRow
  {
  }

  lemma TurnKeepsOutbox(x: Setting, p: Publisher.Process, st: State, i: nat,
                        call: Call, verdict: Publisher.Verdict, mark: Publisher.MarkResult)
    requires ValidSetting(x) && Shape(x.cfg, st) && Coupled(x, p, st) && p.queue != []
    requires i < |p.logs.global| && p.logs.global[i] == p.queue[0]
    requires call.proceed == (verdict != Publisher.Retry) && (call.accepted ==> x.cfg.nodes[x.n].publish)
    ensures var consumed := Step(x.cfg, st, Consume(x.n, i, call));
            OutboxIs(x, Publisher.HandleNext(p, call.accepted, verdict, mark),
                     Step(x.cfg, consumed, Mark(x.n, mark == Publisher.Committed)))
  {
    ProcessTurn(x.schemas, p, i, call.accepted, verdict, mark);
    ClusterTurn(x.cfg, st, x.n, i, call, mark == Publisher.Committed);
  }

  lemma HandleKeepsOutbox(x: Setting, p: Publisher.Process, acts: seq<Action>, i: nat,
                          call: Call, verdict: Publisher.Verdict, mark: Publisher.MarkResult)
    requires ValidSetting(x) && Coupled(x, p, Execute(x.cfg, acts)) && p.queue != []
    requires i < |p.logs.global| && p.logs.global[i] == p.queue[0]
    requires call.proceed == (verdict != Publisher.Retry) && (call.accepted ==> x.cfg.nodes[x.n].publish)
    ensures OutboxIs(x, Publisher.HandleNext(p, call.accepted, verdict, mark),
                     Execute(x.cfg, acts + [Consume(x.n, i, call)] + [Mark(x.n, mark == Publisher.Committed)]))
  {
    TurnKeepsOutbox(x, p, Execute(x.cfg, acts), i, call, verdict, mark);
    ExecuteSnoc(x.cfg, acts, Consume(x.n, i, call));
    ExecuteSnoc(x.cfg, acts + [Consume(x.n, i, call)], Mark(x.n, mark == Publisher.Committed));
  }

  lemma TurnTranslates(x: Setting, p: Publisher.Process, acts: seq<Action>,
                       accepted: bool, verdict: Publisher.Verdict, mark: Publisher.MarkResult, recorded: bool)
    requires p.queue != []
    ensures acts + Translate(x, p, Publisher.Handle(accepted, verdict, mark), recorded) ==
            acts + [Consume(x.n, Front(p), Call(accepted, recorded, verdict != Publisher.Retry))]
                 + [Mark(x.n, mark == Publisher.Committed)]
  {
  }

  lemma HandleKeeps(x: Setting, p: Publisher.Process, acts: seq<Action>,
                    accepted: bool, verdict: Publisher.Verdict, mark: Publisher.MarkResult, recorded: bool)
    requires ValidSetting(x) && Coupled(x, p, Execute(x.cfg, acts)) && p.queue != []
    requires accepted ==> x.cfg.nodes[x.n].publish
    ensures var a := Publisher.Handle(accepted, verdict, mark);
            Coupled(x, Publisher.Step(p, a), Execute(x.cfg, acts + Translate(x, p, a, recorded)))
  {
    var i := Position(p);
    var call := Call(accepted, recorded, verdict != Publisher.Retry);
    Publisher.HandleGood(p, accepted, verdict, mark);
    TurnKeepsNextRow(p, accepted, verdict, mark);
    HandleKeepsOutbox(x, p, acts, i, call, verdict, mark);
    TurnTranslates(x, p, acts, accepted, verdict, mark, recorded);
  }

  lemma CrashKeeps(x: Setting, p: Publisher.Process, st: State)
    requires ValidSetting(x) && Shape(x.cfg, st) && Coupled(x, p, st) && !Restores(x.cfg, st, x.n)
    ensures Coupled(x, Publisher.Step(p, Publisher.Crash), Step(x.cfg, st, Restart(x.n)))
  {
    Publisher.StepGood(p, Publisher.Crash);
    var node' := RestartStep(x.cfg, st, x.n);
    assert Step(x.cfg, st, Restart(x.n)).nodes[x.n] == node' && node'.outbox == st.nodes[x.n].outbox;
    assert Abstract(x.schemas, Publisher.Step(p, Publisher.Crash)) == Abstract(x.schemas, p);
  }

  lemma LocalKeeps(x: Setting, p: Publisher.Process, acts: seq<Action>, a: Publisher.Action, recorded: bool)
    requires ValidSetting(x) && Coupled(x, p, Execute(x.cfg, acts))
    requires Allowed(x, Execute(x.cfg, acts), Local(a, recorded))
    ensures Coupled(x, Publisher.Step(p, a), Execute(x.cfg, acts + Translate(x, p, a, recorded)))
  {
    var st, more := Execute(x.cfg, acts), Translate(x, p, a, recorded);
    match a
    case Outside(Capture(table, kind, row, now)) =>
      if table in x.schemas {
        CaptureKeeps(x, p, st, table, kind, row, now);
        ExecuteSnoc(x.cfg, acts, more[0]);
      } else {
        assert acts + more == acts && Publisher.Step(p, a) == p;
      }
    case Outside(Cleanup(before)) =>
      assert acts + more == acts;
      CleanupKeepsCoupling(x, p, st, before);
    case Scan(limit) =>
      assert acts + more == acts;
      Publisher.StepGood(p, a);
      assert Abstract(x.schemas, Publisher.Step(p, a)) == Abstract(x.schemas, p);
    case Handle(accepted, verdict, mark) =>
      if p.queue == [] {
        assert acts + more == acts;
      } else {
        HandleKeeps(x, p, acts, accepted, verdict, mark, recorded);
      }
    case Crash =>
      CrashKeeps(x, p, st);
      ExecuteSnoc(x.cfg, acts, Restart(x.n));
  }

  /** Simulation: for every node and whatever its settings, however the publisher,
      the triggers, cleanups, crashes and the rest of the cluster interleave,
      the change log is the outbox of a run of the cluster model. */
  lemma {:induction false} EveryPlayCoupled(x: Setting, js: seq<Joint>)
    requires ValidSetting(x) && AllowedRun(x, js)
    ensures Coupled(x, PlayAll(x, js).p, Execute(x.cfg, PlayAll(x, js).acts))
  {
    if js == [] {
      Publisher.EveryRunGood(x.schemas.Keys, []);
    } else {
      var before := PlayAll(x, js[..|js| - 1]);
      EveryPlayCoupled(x, js[..|js| - 1]);
      match js[|js| - 1]
      case Local(a, recorded) => LocalKeeps(x, before.p, before.acts, a, recorded);
      case Shared(a) =>
        SharedKeeps(x, before.p, Execute(x.cfg, before.acts), a);
        ExecuteSnoc(x.cfg, before.acts, a);
    }
  }

  /** After a crash the listeners of node n stand where its sequence map does. */
  lemma CrashResumes(x: Setting, js: seq<Joint>, recorded: bool)
    requires x.n < |x.cfg.nodes|
    ensures var node := Execute(x.cfg, PlayAll(x, js + [Local(Publisher.Crash, recorded)]).acts).nodes[x.n];
            node.cursor == node.saved && node.unsaved == Zeros(x.cfg.shards) && node.inflight == None
  {
    var after := js + [Local(Publisher.Crash, recorded)];
    assert after[..|js|] == js;
    ExecuteSnoc(x.cfg, PlayAll(x, js).acts, Restart(x.n));
    BootExactly(x.cfg, Execute(x.cfg, PlayAll(x, js).acts), x.n);
  }

  /******* What reaches the logs is what the triggers recorded *******/

  /** A turn publishes the change its log row records, to that row's shard and no
      other, exactly when the stream accepts. */
  lemma TurnPublishes(x: Setting, p: Publisher.Process, acts: seq<Action>,
                      accepted: bool, verdict: Publisher.Verdict, mark: Publisher.MarkResult, recorded: bool)
    requires ValidSetting(x) && Coupled(x, p, Execute(x.cfg, acts)) && p.queue != []
    requires accepted ==> x.cfg.nodes[x.n].publish
    ensures ChangeLog.ChangeAt(x.schemas, p.logs, p.queue[0].at).Some?
    ensures var c := ChangeLog.ChangeAt(x.schemas, p.logs, p.queue[0].at).value;
            var st, s := Execute(x.cfg, acts), x.cfg.route(c.key);
            Execute(x.cfg, acts + Translate(x, p, Publisher.Handle(accepted, verdict, mark), recorded)).logs ==
            if accepted then st.logs[s := st.logs[s] + [c]] else st.logs
  {
    var st := Execute(x.cfg, acts);
    var i := Position(p);
    var call := Call(accepted, recorded, verdict != Publisher.Retry);
    assert st.nodes[x.n].outbox[i] == PendingAt(x.schemas, p, p.logs.global[i]);
    TurnLogsAre(x, acts, i, call, mark == Publisher.Committed);
    TurnTranslates(x, p, acts, accepted, verdict, mark, recorded);
  }

  lemma TurnLogsAre(x: Setting, acts: seq<Action>, i: nat, call: Call, committed: bool)
    requires ValidSetting(x) && (call.accepted ==> x.cfg.nodes[x.n].publish)
    requires var node := Execute(x.cfg, acts).nodes[x.n]; i < |node.outbox| && node.inflight == None
    ensures var st := Execute(x.cfg, acts);
            var c := st.nodes[x.n].outbox[i].change;
            var s := x.cfg.route(c.key);
            Execute(x.cfg, acts + [Consume(x.n, i, call)] + [Mark(x.n, committed)]).logs ==
            if call.accepted then st.logs[s := st.logs[s] + [c]] else st.logs
  {
    ClusterTurn(x.cfg, Execute(x.cfg, acts), x.n, i, call, committed);
    ExecuteSnoc(x.cfg, acts, Consume(x.n, i, call));
    ExecuteSnoc(x.cfg, acts + [Consume(x.n, i, call)], Mark(x.n, committed));
  }

  /** Step j of a play is a trigger of node n that recorded c. */
  predicate Triggered(x: Setting, j: Joint, c: Change) {
    && j.Local? && j.local.Outside? && j.local.o.Capture?
    && var o := j.local.o;
    o.table in x.schemas && o.kind != Unknown && c == ChangeOf(x.schemas[o.table], Event(o.kind, o.table, o.row))
  }

  /** What step j of a play adds to the run of the cluster. */
  function Added(x: Setting, p: Publisher.Process, j: Joint): seq<Action> {
    match j
    case Local(a, recorded) => Translate(x, p, a, recorded)
    case Shared(a) => [a]
  }

  lemma AddedWrites(x: Setting, p: Publisher.Process, st: State, j: Joint, u: nat)
    requires Shape(x.cfg, st) && x.n < |st.nodes| && Allowed(x, st, j) && u < |Added(x, p, j)|
    requires Added(x, p, j)[u].Write? && Added(x, p, j)[u].n == x.n
    ensures Triggered(x, j, Cluster.Captured(Added(x, p, j)[u].op))
  {
  }

  lemma PlayAdds(x: Setting, js: seq<Joint>)
    requires js != []
    ensures var before := PlayAll(x, js[..|js| - 1]);
            PlayAll(x, js).acts == before.acts + Added(x, before.p, js[|js| - 1])
  {
  }

  lemma {:induction false} WritesAreTriggers(x: Setting, js: seq<Joint>, t: nat) returns (i: nat)
    requires x.n < |x.cfg.nodes| && AllowedRun(x, js) && t < |PlayAll(x, js).acts|
    requires PlayAll(x, js).acts[t].Write? && PlayAll(x, js).acts[t].n == x.n
    ensures i < |js| && Triggered(x, js[i], Cluster.Captured(PlayAll(x, js).acts[t].op))
  {
    var init, j := js[..|js| - 1], js[|js| - 1];
    var before := PlayAll(x, init);
    PlayAdds(x, js);
    if t < |before.acts| {
      i := WritesAreTriggers(x, init, t);
    } else {
      i := |js| - 1;
      AddedWrites(x, before.p, Execute(x.cfg, before.acts), j, t - |before.acts|);
    }
  }

  /** In every play each log entry comes from a write of some node, and if that is
      node n, it is what one of its triggers recorded. */
  lemma LogHoldsTriggers(x: Setting, js: seq<Joint>, s: nat, e: nat) returns (t: nat)
    requires ValidSetting(x) && AllowedRun(x, js) && s < x.cfg.shards
    requires e < |Execute(x.cfg, PlayAll(x, js).acts).logs[s]|
    ensures var acts := PlayAll(x, js).acts;
            && t < |acts| && acts[t].Write?
            && Execute(x.cfg, acts).logs[s][e] == Cluster.Captured(acts[t].op)
            && (acts[t].n == x.n ==>
                  exists i :: 0 <= i < |js| && Triggered(x, js[i], Execute(x.cfg, acts).logs[s][e]))
  {
    t := EntryWritten(x.cfg, PlayAll(x, js).acts, s, e);
    if PlayAll(x, js).acts[t].n == x.n {
      var i := WritesAreTriggers(x, js, t);
    }
  }

  /******* Convergence at the level of the change log *******/

  lemma LosslessSnoc(cfg: Config, acts: seq<Action>, a: Action, n: nat)
    requires n < |cfg.nodes| && LosslessRun(cfg, acts, n) && Lossless(Execute(cfg, acts), a, n)
    requires !(a == Restart(n) && Restores(cfg, Execute(cfg, acts), n))
    ensures LosslessRun(cfg, acts + [a], n)
  {
    assert (acts + [a])[..|acts|] == acts;
  }

  lemma InOrderSnoc(cfg: Config, acts: seq<Action>, a: Action, n: nat)
    requires n < |cfg.nodes| && InOrderRun(cfg, acts, n) && InOrder(Execute(cfg, acts), a, n)
    ensures InOrderRun(cfg, acts + [a], n)
  {
    assert (acts + [a])[..|acts|] == acts;
  }

  /** A turn that drops nothing marks only what a shard accepted. */
  lemma MarkLossless(x: Setting, p: Publisher.Process, st: State, i: nat,
                     call: Call, verdict: Publisher.Verdict, mark: Publisher.MarkResult)
    requires ValidSetting(x) && Shape(x.cfg, st) && Coupled(x, p, st) && p.queue != []
    requires i < |p.logs.global| && p.logs.global[i] == p.queue[0]
    requires call.proceed == (verdict != Publisher.Retry) && (call.accepted ==> x.cfg.nodes[x.n].publish)
    requires Publisher.HandleNext(p, call.accepted, verdict, mark).dropped == {}
    ensures Lossless(Step(x.cfg, st, Consume(x.n, i, call)), Mark(x.n, mark == Publisher.Committed), x.n)
  {
    Publisher.HandleAt(p, i, call.accepted, verdict, mark);
    assert st.nodes[x.n].outbox[i] == PendingAt(x.schemas, p, p.logs.global[i]);
    var consumed := Step(x.cfg, st, Consume(x.n, i, call));
    assert consumed == ConsumeStep(x.cfg, st, x.n, i, call);
  }

  lemma TurnLossless(x: Setting, p: Publisher.Process, acts: seq<Action>, i: nat,
                     call: Call, verdict: Publisher.Verdict, mark: Publisher.MarkResult)
    requires ValidSetting(x) && Coupled(x, p, Execute(x.cfg, acts)) && p.queue != [] && LosslessRun(x.cfg, acts, x.n)
    requires i < |p.logs.global| && p.logs.global[i] == p.queue[0]
    requires call.proceed == (verdict != Publisher.Retry) && (call.accepted ==> x.cfg.nodes[x.n].publish)
    requires Publisher.HandleNext(p, call.accepted, verdict, mark).dropped == {}
    ensures LosslessRun(x.cfg, acts + [Consume(x.n, i, call)] + [Mark(x.n, mark == Publisher.Committed)], x.n)
  {
    LosslessSnoc(x.cfg, acts, Consume(x.n, i, call), x.n);
    ExecuteSnoc(x.cfg, acts, Consume(x.n, i, call));
    MarkLossless(x, p, Execute(x.cfg, acts), i, call, verdict, mark);
    LosslessSnoc(x.cfg, acts + [Consume(x.n, i, call)], Mark(x.n, mark == Publisher.Committed), x.n);
  }

  lemma HandleLossless(x: Setting, p: Publisher.Process, acts: seq<Action>,
                       accepted: bool, verdict: Publisher.Verdict, mark: Publisher.MarkResult, recorded: bool)
    requires ValidSetting(x) && Coupled(x, p, Execute(x.cfg, acts)) && p.queue != [] && LosslessRun(x.cfg, acts, x.n)
    requires Publisher.HandleNext(p, accepted, verdict, mark).dropped == {}
    requires accepted ==> x.cfg.nodes[x.n].publish
    ensures LosslessRun(x.cfg, acts + Translate(x, p, Publisher.Handle(accepted, verdict, mark), recorded), x.n)
  {
    var i := Position(p);
    var call := Call(accepted, recorded, verdict != Publisher.Retry);
    TurnLossless(x, p, acts, i, call, verdict, mark);
    TurnTranslates(x, p, acts, accepted, verdict, mark, recorded);
  }

  lemma LocalLossless(x: Setting, p: Publisher.Process, acts: seq<Action>, a: Publisher.Action, recorded: bool)
    requires ValidSetting(x) && Coupled(x, p, Execute(x.cfg, acts))
    requires Allowed(x, Execute(x.cfg, acts), Local(a, recorded))
    requires LosslessRun(x.cfg, acts, x.n) && Publisher.Step(p, a).dropped == {}
    ensures LosslessRun(x.cfg, acts + Translate(x, p, a, recorded), x.n)
  {
    var more := Translate(x, p, a, recorded);
    if a.Handle? && p.queue != [] {
      HandleLossless(x, p, acts, a.accepted, a.verdict, a.mark, recorded);
    } else if more == [] {
      assert acts + more == acts;
    } else {
      LosslessSnoc(x.cfg, acts, more[0], x.n);
    }
  }

  /** If the publisher dropped nothing, the run of the cluster loses nothing. */
  lemma {:induction false} NothingDroppedIsLossless(x: Setting, js: seq<Joint>)
    requires ValidSetting(x) && AllowedRun(x, js) && PlayAll(x, js).p.dropped == {}
    ensures LosslessRun(x.cfg, PlayAll(x, js).acts, x.n)
  {
    if js != [] {
      var init := js[..|js| - 1];
      var before := PlayAll(x, init);
      EveryPlayCoupled(x, init);
      match js[|js| - 1]
      case Local(a, recorded) =>
        Publisher.StepGrows(before.p, a);
        NothingDroppedIsLossless(x, init);
        LocalLossless(x, before.p, before.acts, a, recorded);
      case Shared(a) =>
        NothingDroppedIsLossless(x, init);
        LosslessSnoc(x.cfg, before.acts, a, x.n);
    }
  }

  lemma LocalInOrder(x: Setting, p: Publisher.Process, acts: seq<Action>, a: Publisher.Action, recorded: bool)
    requires ValidSetting(x) && InOrderRun(x.cfg, acts, x.n)
    ensures InOrderRun(x.cfg, acts + Translate(x, p, a, recorded), x.n)
  {
    var more := Translate(x, p, a, recorded);
    if more == [] {
      assert acts + more == acts;
    } else {
      InOrderSnoc(x.cfg, acts, more[0], x.n);
      if |more| == 2 {
        InOrderSnoc(x.cfg, acts + [more[0]], more[1], x.n);
        assert acts + more == acts + [more[0]] + [more[1]];
      } else {
        assert acts + more == acts + [more[0]];
      }
    }
  }

  lemma {:induction false} PlaysInOrder(x: Setting, js: seq<Joint>)
    requires ValidSetting(x) && AllowedRun(x, js) && x.cfg.nodes[x.n].replicate
    ensures InOrderRun(x.cfg, PlayAll(x, js).acts, x.n)
  {
    if js != [] {
      var init := js[..|js| - 1];
      var before := PlayAll(x, init);
      PlaysInOrder(x, init);
      match js[|js| - 1]
      case Local(a, recorded) => LocalInOrder(x, before.p, before.acts, a, recorded);
      case Shared(a) => InOrderSnoc(x.cfg, before.acts, a, x.n);
    }
  }

  /** Nothing was dropped, and all the global change log still holds was accepted. */
  predicate Drained(p: Publisher.Process) {
    p.dropped == {} && forall i :: 0 <= i < |p.logs.global| ==> p.logs.global[i].id in p.sent
  }

  lemma DrainedIsSettled(x: Setting, js: seq<Joint>)
    requires ValidSetting(x) && AllowedRun(x, js) && Drained(PlayAll(x, js).p)
    ensures var node := Execute(x.cfg, PlayAll(x, js).acts).nodes[x.n]; Settled(node) && node.track.origins == {x.n}
  {
    EveryPlayCoupled(x, js);
    NothingDroppedIsLossless(x, js);
    LosslessKeeps(x.cfg, PlayAll(x, js).acts, x.n);
  }

  /** From trigger to tables: if no change was dropped, the global change log has
      been drained and the listeners have read their streams, the tables of a
      sound node are the fold of the shard logs. */
  lemma DrainedNodeConverges(x: Setting, js: seq<Joint>)
    requires ValidSetting(x) && Sound(x.cfg, x.n) && AllowedRun(x, js) && Drained(PlayAll(x, js).p)
    requires CaughtUp(x.cfg, Execute(x.cfg, PlayAll(x, js).acts), x.n)
    ensures var st := Execute(x.cfg, PlayAll(x, js).acts);
            st.nodes[x.n].db == Fold(x.cfg.initial, st.logs)
  {
    DrainedIsSettled(x, js);
    NothingDroppedIsLossless(x, js);
    PlaysInOrder(x, js);
    EventualConsistency(x.cfg, PlayAll(x, js).acts, x.n);
  }

  /******* The primary, down to its triggers *******/

  function Locals(js: seq<Joint>): seq<Publisher.Action> {
    if js == [] then []
    else
      Locals(js[..|js| - 1]) + match js[|js| - 1] case Local(a, _) => [a] case Shared(_) => []
  }

  lemma {:induction false} PlayIsRun(x: Setting, js: seq<Joint>)
    ensures PlayAll(x, js).p == Publisher.Run(Publisher.Start(x.schemas.Keys), Locals(js))
  {
    if js != [] {
      var init, locals := js[..|js| - 1], Locals(js);
      PlayIsRun(x, init);
      match js[|js| - 1]
      case Local(a, _) => assert locals[..|locals| - 1] == Locals(init);
      case Shared(_) => assert locals == Locals(init);
    }
  }

  predicate SnapshotsBy(js: seq<Joint>, n: nat) {
    forall i :: 0 <= i < |js| && js[i].Shared? && js[i].shared.TakeSnapshot? ==> js[i].shared.n == n
  }

  lemma LocalPrimary(x: Setting, p: Publisher.Process, acts: seq<Action>, a: Publisher.Action, recorded: bool)
    requires PrimaryRun(acts, x.n) && Publisher.AtFront(p)
    ensures PrimaryRun(acts + Translate(x, p, a, recorded), x.n)
  {
    var more := Translate(x, p, a, recorded);
    if a.Handle? && p.queue != [] {
      assert p.logs.global[0] == p.queue[0];
      assert Front(p) == 0;
    }
    assert PrimaryRun(more, x.n);
  }

  lemma SharedPrimary(acts: seq<Action>, a: Action, n: nat)
    requires PrimaryRun(acts, n) && !(a.n == n && (a.Consume? || a.Write?)) && (a.TakeSnapshot? ==> a.n == n)
    ensures PrimaryRun(acts + [a], n)
  {
  }

  /** No mark of node n fails with another change queued behind it. */
  predicate OrderlyPlay(x: Setting, js: seq<Joint>) {
    Publisher.OrderlyRun(Publisher.Start(x.schemas.Keys), Locals(js))
  }

  lemma OrderlyPrefix(x: Setting, js: seq<Joint>)
    requires js != [] && OrderlyPlay(x, js)
    ensures OrderlyPlay(x, js[..|js| - 1])
  {
    var init, locals := Locals(js[..|js| - 1]), Locals(js);
    match js[|js| - 1]
    case Local(a, _) => assert locals[..|locals| - 1] == init;
    case Shared(_) => assert locals == init;
  }

  lemma AddedPrimary(x: Setting, p: Publisher.Process, st: State, acts: seq<Action>, j: Joint)
    requires Shape(x.cfg, st) && x.n < |st.nodes| && Allowed(x, st, j) && PrimaryRun(acts, x.n) && Publisher.AtFront(p)
    requires j.Shared? && j.shared.TakeSnapshot? ==> j.shared.n == x.n
    ensures PrimaryRun(acts + Added(x, p, j), x.n)
  {
    match j
    case Local(a, recorded) => LocalPrimary(x, p, acts, a, recorded);
    case Shared(a) => SharedPrimary(acts, a, x.n);
  }

  lemma FrontOfPlay(x: Setting, js: seq<Joint>)
    requires OrderlyPlay(x, js)
    ensures Publisher.AtFront(PlayAll(x, js).p)
  {
    PlayIsRun(x, js);
    Publisher.SentInOrder(x.schemas.Keys, Locals(js));
  }

  /** Then the primary takes its changes oldest first: its queue is always the
      front of the global log. */
  lemma {:induction false} PlaysArePrimary(x: Setting, js: seq<Joint>)
    requires ValidSetting(x) && AllowedRun(x, js) && SnapshotsBy(js, x.n) && OrderlyPlay(x, js)
    ensures PrimaryRun(PlayAll(x, js).acts, x.n)
  {
    if js != [] {
      var init := js[..|js| - 1];
      var before := PlayAll(x, init);
      OrderlyPrefix(x, js);
      assert forall i :: 0 <= i < |init| ==> init[i] == js[i];
      PlaysArePrimary(x, init);
      FrontOfPlay(x, init);
      PlayAdds(x, js);
      AddedPrimary(x, before.p, Execute(x.cfg, before.acts), before.acts, js[|js| - 1]);
    }
  }

  /** The documented deployment, from trigger to tables: if no mark of the primary
      failed with a change queued behind it and nothing was dropped, once its change log is drained the primary
      and every caught-up replica hold the same tables. */
  lemma DrainedPrimaryAgrees(x: Setting, js: seq<Joint>, m: nat)
    requires ValidSetting(x) && Primary(x.cfg, x.n) && AllowedRun(x, js) && SnapshotsBy(js, x.n)
    requires OrderlyPlay(x, js) && Drained(PlayAll(x, js).p)
    requires Sound(x.cfg, m) && HealthyRun(x.cfg, PlayAll(x, js).acts, m)
    requires var st := Execute(x.cfg, PlayAll(x, js).acts);
             CaughtUp(x.cfg, st, m) && OriginsSettled(st, st.nodes[m].track.origins)
    ensures var st := Execute(x.cfg, PlayAll(x, js).acts);
            st.nodes[x.n].db == st.nodes[m].db == Fold(x.cfg.initial, st.logs)
  {
    DrainedIsSettled(x, js);
    PlaysArePrimary(x, js);
    PrimaryAndReplicaAgree(x.cfg, PlayAll(x, js).acts, x.n, m);
  }
}
