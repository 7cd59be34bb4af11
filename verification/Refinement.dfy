/** The publisher over the two-level change log does what a node of the cluster
    model does with its outbox. */
module Refinement {
  import opened Basics
  import opened Store
  import opened Tables
  import ChangeLog
  import Publisher
  import Cluster

  /** Every pending log row stands for a change. */
  ghost predicate Complete(schemas: map<Name, Schema>, l: ChangeLog.Logs) {
    forall i :: 0 <= i < |l.global| ==> ChangeLog.ChangeAt(schemas, l, l.global[i].at).Some?
  }

  ghost function PendingAt(schemas: map<Name, Schema>, p: Publisher.Process, e: ChangeLog.GlobalEntry): Cluster.Pending
    requires ChangeLog.ChangeAt(schemas, p.logs, e.at).Some?
  {
    Cluster.Pending(ChangeLog.ChangeAt(schemas, p.logs, e.at).value, e.id in p.sent)
  }

  /** The outbox a change log stands for. */
  ghost function Abstract(schemas: map<Name, Schema>, p: Publisher.Process): seq<Cluster.Pending>
    requires Complete(schemas, p.logs)
  {
    seq(|p.logs.global|, i requires 0 <= i < |p.logs.global| => PendingAt(schemas, p, p.logs.global[i]))
  }

  /** A captured write is an unsent change at the end of the outbox. */
  lemma CaptureRefines(schemas: map<Name, Schema>, p: Publisher.Process,
                       table: Name, kind: EventType, row: Row, now: int)
    requires Publisher.Good(p) && Complete(schemas, p.logs)
    requires table in p.logs.nextRow && table in schemas && kind != Unknown
    ensures var p' := Publisher.Step(p, Publisher.Outside(Publisher.Capture(table, kind, row, now)));
            && Complete(schemas, p'.logs)
            && Abstract(schemas, p') ==
               Abstract(schemas, p) + [Cluster.Pending(ChangeOf(schemas[table], Event(kind, table, row)), false)]
  {
    var l := p.logs;
    var p' := Publisher.Step(p, Publisher.Outside(Publisher.Capture(table, kind, row, now)));
    var n := |l.global|;
    ChangeLog.CaptureAppends(schemas, l, table, kind, row, now);
    forall i | 0 <= i < n
      ensures ChangeLog.ChangeAt(schemas, p'.logs, p'.logs.global[i].at) ==
              ChangeLog.ChangeAt(schemas, l, l.global[i].at)
    {
      assert ChangeLog.Outbox(schemas, p'.logs)[i] == ChangeLog.Outbox(schemas, l)[i];
    }
    assert ChangeLog.Outbox(schemas, p'.logs)[n] == Some(ChangeOf(schemas[table], Event(kind, table, row)));
    assert p'.logs.global[n].id == l.nextId;
  }

  /** Accepting entry i flags that entry and no other. */
  lemma SendRefines(schemas: map<Name, Schema>, p: Publisher.Process, i: nat)
    requires ChangeLog.Linked(p.logs) && Complete(schemas, p.logs) && i < |p.logs.global|
    ensures var p' := p.(sent := p.sent + [p.logs.global[i].id]);
            Abstract(schemas, p') ==
            Abstract(schemas, p)[i := Cluster.Pending(Abstract(schemas, p)[i].change, true)]
  {
    var p' := p.(sent := p.sent + [p.logs.global[i].id]);
    var before := Abstract(schemas, p);
    forall j | 0 <= j < |p.logs.global|
      ensures Abstract(schemas, p')[j] == before[i := Cluster.Pending(before[i].change, true)][j]
    {
      assert j != i ==> p.logs.global[j].id != p.logs.global[i].id;
    }
  }

  /** Marking an entry changes no recorded change. */
  lemma MarkKeepsChanges(schemas: map<Name, Schema>, l: ChangeLog.Logs, e: ChangeLog.GlobalEntry, k: ChangeLog.LogKey)
    ensures ChangeLog.ChangeAt(schemas, ChangeLog.Marked(l, e), k) == ChangeLog.ChangeAt(schemas, l, k)
  {
  }

  /** Marking entry i removes that entry and no other. */
  lemma MarkRefines(schemas: map<Name, Schema>, p: Publisher.Process, i: nat, p': Publisher.Process)
    requires ChangeLog.Linked(p.logs) && Complete(schemas, p.logs) && i < |p.logs.global|
    requires p'.logs == ChangeLog.Marked(p.logs, p.logs.global[i]) && p'.sent == p.sent
    ensures Complete(schemas, p'.logs)
    ensures Abstract(schemas, p') == Abstract(schemas, p)[..i] + Abstract(schemas, p)[i + 1..]
  {
    ChangeLog.MarkedLinked(p.logs, i);
    forall j | 0 <= j < |p'.logs.global|
      ensures ChangeLog.ChangeAt(schemas, p'.logs, p'.logs.global[j].at).Some?
      ensures PendingAt(schemas, p', p'.logs.global[j]) == Abstract(schemas, p)[if j < i then j else j + 1]
    {
      MarkKeepsChanges(schemas, p.logs, p.logs.global[i], p'.logs.global[j].at);
    }
  }

  /** What one turn does to an outbox: flag entry i if accepted, remove it if marked. */
  function AfterTurn(outbox: seq<Cluster.Pending>, i: nat, accepted: bool, marked: bool): seq<Cluster.Pending>
    requires i < |outbox|
  {
    var flagged := if accepted then outbox[i := Cluster.Pending(outbox[i].change, true)] else outbox;
    if marked then flagged[..i] + flagged[i + 1..] else flagged
  }

  lemma TurnLogs(p: Publisher.Process, i: nat,
                 accepted: bool, verdict: Publisher.Verdict, mark: Publisher.MarkResult)
    requires ChangeLog.Linked(p.logs) && p.queue != [] && i < |p.logs.global| && p.logs.global[i] == p.queue[0]
    ensures var p' := Publisher.HandleNext(p, accepted, verdict, mark);
            && p'.sent == (if accepted then p.sent + [p.logs.global[i].id] else p.sent)
            && p'.logs == (if verdict != Publisher.Retry && mark == Publisher.Committed
                           then ChangeLog.Marked(p.logs, p.logs.global[i]) else p.logs)
  {
    assert p.logs.global[i].at in ChangeLog.Targets(p.logs.global);
  }

  /** A turn of the publisher, on the outbox its change log stands for. */
  lemma ProcessTurn(schemas: map<Name, Schema>, p: Publisher.Process, i: nat,
                    accepted: bool, verdict: Publisher.Verdict, mark: Publisher.MarkResult)
    requires ChangeLog.Linked(p.logs) && Complete(schemas, p.logs)
    requires p.queue != [] && i < |p.logs.global| && p.logs.global[i] == p.queue[0]
    ensures var p' := Publisher.HandleNext(p, accepted, verdict, mark);
            && Complete(schemas, p'.logs)
            && Abstract(schemas, p') == AfterTurn(Abstract(schemas, p), i, accepted,
                                                  verdict != Publisher.Retry && mark == Publisher.Committed)
  {
    TurnLogs(p, i, accepted, verdict, mark);
    TurnOutbox(schemas, p, i, accepted, verdict != Publisher.Retry && mark == Publisher.Committed,
               Publisher.HandleNext(p, accepted, verdict, mark));
  }

  lemma TurnOutbox(schemas: map<Name, Schema>, p: Publisher.Process, i: nat, accepted: bool, marks: bool,
                   p': Publisher.Process)
    requires ChangeLog.Linked(p.logs) && Complete(schemas, p.logs) && i < |p.logs.global|
    requires p'.sent == if accepted then p.sent + [p.logs.global[i].id] else p.sent
    requires p'.logs == if marks then ChangeLog.Marked(p.logs, p.logs.global[i]) else p.logs
    ensures Complete(schemas, p'.logs)
    ensures Abstract(schemas, p') == AfterTurn(Abstract(schemas, p), i, accepted, marks)
  {
    var p1 := if accepted then p.(sent := p.sent + [p.logs.global[i].id]) else p;
    SendRefines(schemas, p, i);
    if marks {
      MarkRefines(schemas, p1, i, p');
    } else {
      assert Abstract(schemas, p') == Abstract(schemas, p1);
    }
  }

  /** A Consume and a Mark of the cluster model do the same to a node's outbox. */
  lemma ClusterTurn(cfg: Cluster.Config, st: Cluster.State, n: nat, i: nat, call: Cluster.Call, committed: bool)
    requires Cluster.ValidConfig(cfg) && Cluster.Shape(cfg, st) && n < |st.nodes|
    requires call.accepted ==> cfg.nodes[n].publish
    requires i < |st.nodes[n].outbox| && st.nodes[n].inflight == None
    ensures var consumed := Cluster.Step(cfg, st, Cluster.Consume(n, i, call));
            var node' := Cluster.Step(cfg, consumed, Cluster.Mark(n, committed)).nodes[n];
            && node'.outbox == AfterTurn(st.nodes[n].outbox, i, call.accepted, call.proceed && committed)
            && node'.inflight == None
    ensures var consumed := Cluster.Step(cfg, st, Cluster.Consume(n, i, call));
            var c := st.nodes[n].outbox[i].change;
            var s := cfg.route(c.key);
            Cluster.Step(cfg, consumed, Cluster.Mark(n, committed)).logs ==
            if call.accepted then st.logs[s := st.logs[s] + [c]] else st.logs
  {
    var consumed := Cluster.Step(cfg, st, Cluster.Consume(n, i, call));
    assert consumed == Cluster.ConsumeStep(cfg, st, n, i, call);
    assert Cluster.Step(cfg, consumed, Cluster.Mark(n, committed)).nodes[n] ==
           Cluster.MarkStep(consumed.nodes[n], committed);
  }
}
