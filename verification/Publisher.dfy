/** The publisher over the change log: passes that scan the global log, hand
    each change to its shard and mark it, while applications keep writing,
    cleanups run, marks roll back and the process dies anywhere. */
module Publisher {
  import opened Basics
  import opened Store
  import opened Tables
  import opened ChangeLog

  /** How consuming a change ended: without error, with one of the two retryable
      errors (or a failed lookup), or with any other error. */
  datatype Verdict = Done | Retry | OtherError

  datatype MarkResult = Committed | RolledBack | Died

  /** Steps of the database's other users: an application write with its trigger,
      and the periodic cleanup. */
  datatype Other = Capture(table: Name, kind: EventType, row: Row, now: int) | Cleanup(before: int)

  datatype Action =
    | Outside(o: Other)
    | Scan(limit: nat)
    | Handle(accepted: bool, verdict: Verdict, mark: MarkResult)
    | Crash

  /** queue: what the running pass has left. History: `sent` are the ids a shard
      accepted, in that order; `dropped` those that left the log unaccepted. */
  datatype Process = Process(logs: Logs, queue: seq<GlobalEntry>, sent: seq<nat>, dropped: set<nat>, panicked: bool)

  function Start(watched: set<Name>): Process {
    Process(Empty(watched), [], [], {}, false)
  }

  function Take(global: seq<GlobalEntry>, limit: nat): seq<GlobalEntry> {
    if limit < |global| then global[..limit] else global
  }

  /** One turn of the pass: look the change up, consume it, mark it. */
  function HandleNext(p: Process, accepted: bool, verdict: Verdict, mark: MarkResult): Process
    requires p.queue != []
  {
    var e := p.queue[0];
    if e.at !in PendingRows(p.logs) then p.(queue := [], panicked := true)
    else
      var p1 := if accepted then p.(sent := p.sent + [e.id]) else p;
      if verdict == Retry || mark == Died then p1.(queue := [])
      else if mark == RolledBack then p1.(queue := p.queue[1..])
      else p1.(logs := Marked(p.logs, e), queue := p.queue[1..],
               dropped := p.dropped + if e.id in p1.sent then {} else {e.id})
  }

  function OtherStep(l: Logs, o: Other): Logs {
    match o
    case Capture(table, kind, row, now) =>
      if table in l.nextRow then ChangeLog.Captured(l, table, kind, row, now) else l
    case Cleanup(before) => Cleaned(l, before)
  }

  function OtherSteps(l: Logs, os: seq<Other>): Logs {
    if os == [] then l else OtherStep(OtherSteps(l, os[..|os| - 1]), os[|os| - 1])
  }

  function Step(p: Process, a: Action): Process {
    match a
    case Outside(o) => p.(logs := OtherStep(p.logs, o))
    case Scan(limit) => if p.queue == [] then p.(queue := Take(p.logs.global, limit)) else p
    case Handle(accepted, verdict, mark) => if p.queue == [] then p else HandleNext(p, accepted, verdict, mark)
    case Crash => p.(queue := [])
  }

  function Run(p: Process, acts: seq<Action>): Process {
    if acts == [] then p else Step(Run(p, acts[..|acts| - 1]), acts[|acts| - 1])
  }

  /******* The log row of a queued change is always there *******/

  /** What is queued is still in the global log, in order. */
  predicate Queued(p: Process) {
    && (forall i :: 0 <= i < |p.queue| ==> p.queue[i] in p.logs.global)
    && (forall i, j :: 0 <= i < j < |p.queue| ==> p.queue[i].id < p.queue[j].id)
  }

  predicate Known(p: Process, id: nat) {
    (exists i :: 0 <= i < |p.logs.global| && p.logs.global[i].id == id) || id in p.sent || id in p.dropped
  }

  ghost predicate Good(p: Process) {
    && Linked(p.logs) && Queued(p) && !p.panicked
    && (forall i :: 0 <= i < |p.sent| ==> p.sent[i] < p.logs.nextId)
    && forall id :: 1 <= id < p.logs.nextId ==> Known(p, id)
  }

  /** What one turn comes to, entry i of the global log being first in the queue. */
  ghost predicate Handled(p: Process, p': Process, i: nat, accepted: bool, marks: bool)
    requires p.queue != [] && i < |p.logs.global|
  {
    var g, id := p.logs.global, p.queue[0].id;
    && Linked(p'.logs) && p'.logs.nextId == p.logs.nextId && p'.panicked == p.panicked
    && p'.logs.global == (if marks then g[..i] + g[i + 1..] else g)
    && p'.sent == (if accepted then p.sent + [id] else p.sent)
    && p'.dropped == (if marks && id !in p'.sent then p.dropped + {id} else p.dropped)
    && (p'.queue == p.queue[1..] || (!marks && p'.queue == []))
  }

  lemma HandleMarks(p: Process, i: nat, accepted: bool, verdict: Verdict)
    requires Linked(p.logs) && p.queue != [] && i < |p.logs.global| && p.logs.global[i] == p.queue[0]
    requires verdict != Retry && p.queue[0].at in PendingRows(p.logs)
    ensures Handled(p, HandleNext(p, accepted, verdict, Committed), i, accepted, true)
  {
    MarkedLinked(p.logs, i);
  }

  lemma HandleLeaves(p: Process, i: nat, accepted: bool, verdict: Verdict, mark: MarkResult)
    requires Linked(p.logs) && p.queue != [] && i < |p.logs.global| && p.logs.global[i] == p.queue[0]
    requires (verdict == Retry || mark != Committed) && p.queue[0].at in PendingRows(p.logs)
    ensures Handled(p, HandleNext(p, accepted, verdict, mark), i, accepted, false)
    ensures mark != RolledBack ==> HandleNext(p, accepted, verdict, mark).queue == []
  {
  }

  lemma HandleAt(p: Process, i: nat, accepted: bool, verdict: Verdict, mark: MarkResult)
    requires Linked(p.logs) && p.queue != [] && i < |p.logs.global| && p.logs.global[i] == p.queue[0]
    ensures var p' := HandleNext(p, accepted, verdict, mark);
            && Handled(p, p', i, accepted, verdict != Retry && mark == Committed)
            && (mark != RolledBack && !(verdict != Retry && mark == Committed) ==> p'.queue == [])
  {
    assert p.queue[0].at in Targets(p.logs.global);
    if verdict != Retry && mark == Committed {
      HandleMarks(p, i, accepted, verdict);
    } else {
      HandleLeaves(p, i, accepted, verdict, mark);
    }
  }

  lemma QueuedAt(p: Process) returns (i: nat)
    requires Queued(p) && p.queue != []
    ensures i < |p.logs.global| && p.logs.global[i] == p.queue[0]
  {
    assert p.queue[0] in p.logs.global;
    i :| 0 <= i < |p.logs.global| && p.logs.global[i] == p.queue[0];
  }

  lemma HandleGood(p: Process, accepted: bool, verdict: Verdict, mark: MarkResult)
    requires Good(p) && p.queue != []
    ensures Good(HandleNext(p, accepted, verdict, mark))
  {
    var i := QueuedAt(p);
    HandleAt(p, i, accepted, verdict, mark);
    HandledGood(p, HandleNext(p, accepted, verdict, mark), i, accepted, verdict != Retry && mark == Committed);
  }

  /** After a turn every other entry, queued or not, is where it was. */
  lemma HandledGood(p: Process, p': Process, i: nat, accepted: bool, marks: bool)
    requires Good(p) && p.queue != [] && i < |p.logs.global| && p.logs.global[i] == p.queue[0]
    requires Handled(p, p', i, accepted, marks)
    ensures Good(p')
  {
    HandledQueued(p, p', i, accepted, marks);
    forall id | 1 <= id < p'.logs.nextId ensures Known(p', id) {
      HandledKnown(p, p', i, accepted, marks, id);
    }
    assert p.logs.global[i].id < p.logs.nextId;
  }

  lemma HandledQueued(p: Process, p': Process, i: nat, accepted: bool, marks: bool)
    requires Queued(p) && p.queue != [] && i < |p.logs.global| && p.logs.global[i] == p.queue[0]
    requires Handled(p, p', i, accepted, marks)
    ensures Queued(p')
  {
    forall q | 0 <= q < |p'.queue| ensures p'.queue[q] in p'.logs.global {
      assert p'.queue[q] == p.queue[q + 1];
      if marks {
        StillIn(p.logs.global, i, p.queue[q + 1]);
      }
    }
  }

  lemma HandledKnown(p: Process, p': Process, i: nat, accepted: bool, marks: bool, id: nat)
    requires Known(p, id) && p.queue != [] && i < |p.logs.global| && p.logs.global[i] == p.queue[0]
    requires Handled(p, p', i, accepted, marks)
    ensures Known(p', id)
  {
    var g, g' := p.logs.global, p'.logs.global;
    if j :| marks && 0 <= j < |g| && g[j].id == id && id != g[i].id {
      StillIn(g, i, g[j]);
      var j' :| 0 <= j' < |g'| && g'[j'] == g[j];
      assert g'[j'].id == id;
    }
  }

  lemma OtherGood(p: Process, o: Other)
    requires Good(p)
    ensures Good(p.(logs := OtherStep(p.logs, o)))
  {
    var l, l' := p.logs, OtherStep(p.logs, o);
    var p' := p.(logs := l');
    match o {
      case Capture(table, kind, row, now) =>
        if table in l.nextRow {
          CapturedLinked(l, table, kind, row, now);
          assert l'.global[|l.global|].id == l.nextId;
        }
      case Cleanup(before) => CleanedLinked(l, before);
    }
    forall id | 1 <= id < l'.nextId ensures Known(p', id) {
      if id < l.nextId {
        assert Known(p, id);
        if j :| 0 <= j < |l.global| && l.global[j].id == id {
          assert l'.global[j] == l.global[j];
        }
      }
    }
  }

  lemma StepGood(p: Process, a: Action)
    requires Good(p)
    ensures Good(Step(p, a))
  {
    var p' := Step(p, a);
    match a
    case Handle(accepted, verdict, mark) =>
      if p.queue != [] {
        HandleGood(p, accepted, verdict, mark);
      }
    case Outside(o) => OtherGood(p, o);
    case _ =>
      forall id | 1 <= id < p'.logs.nextId ensures Known(p', id) {
        assert Known(p, id);
      }
  }

  /** In every run: the logs stay linked, so the publisher never finds a change
      without its pending log row, and every captured change is still in the
      global log, was accepted by a shard, or was dropped. */
  lemma {:induction false} EveryRunGood(watched: set<Name>, acts: seq<Action>)
    ensures Good(Run(Start(watched), acts))
  {
    if acts == [] {
      assert Targets([]) == PendingRows(Empty(watched)) == {};
    } else {
      EveryRunGood(watched, acts[..|acts| - 1]);
      StepGood(Run(Start(watched), acts[..|acts| - 1]), acts[|acts| - 1]);
    }
  }

  /******* Changes that never reach a shard *******/

  /** Captured, no longer in the global log, and accepted by no shard. */
  predicate Gone(p: Process, id: nat) {
    && 1 <= id < p.logs.nextId && id !in p.sent
    && forall i :: 0 <= i < |p.logs.global| ==> p.logs.global[i].id != id
  }

  /** Dropped changes are gone for good. */
  predicate DropsFinal(p: Process) {
    forall id :: id in p.dropped ==> Gone(p, id)
  }

  lemma HandledDropsFinal(p: Process, p': Process, i: nat, accepted: bool, marks: bool)
    requires Good(p) && DropsFinal(p) && p.queue != [] && i < |p.logs.global| && p.logs.global[i] == p.queue[0]
    requires Handled(p, p', i, accepted, marks)
    ensures DropsFinal(p')
  {
    var g, g' := p.logs.global, p'.logs.global;
    forall id | id in p'.dropped ensures Gone(p', id) {
      assert id in p.dropped ==> Gone(p, id);
      forall j | 0 <= j < |g'| ensures g'[j].id != id {
        if marks {
          DroppedAt(g, i, j);
        }
      }
    }
  }

  lemma StepDropsFinal(p: Process, a: Action)
    requires Good(p) && DropsFinal(p)
    ensures DropsFinal(Step(p, a))
  {
    if a.Handle? && p.queue != [] {
      var i := QueuedAt(p);
      HandleAt(p, i, a.accepted, a.verdict, a.mark);
      HandledDropsFinal(p, Step(p, a), i, a.accepted, a.verdict != Retry && a.mark == Committed);
    } else {
      forall id | id in p.dropped ensures Gone(Step(p, a), id) {
        assert Gone(p, id);
      }
    }
  }

  lemma {:induction false} EveryDropFinal(watched: set<Name>, acts: seq<Action>)
    ensures DropsFinal(Run(Start(watched), acts))
  {
    if acts != [] {
      var init, a := acts[..|acts| - 1], acts[|acts| - 1];
      EveryDropFinal(watched, init);
      EveryRunGood(watched, init);
      StepDropsFinal(Run(Start(watched), init), a);
    }
  }

  /** In every run the dropped changes are exactly the captured ones that have
      left the global log though no shard ever accepted them. */
  lemma DroppedExactly(watched: set<Name>, acts: seq<Action>, id: nat)
    ensures var p := Run(Start(watched), acts);
            id in p.dropped <==> Gone(p, id)
  {
    EveryRunGood(watched, acts);
    EveryDropFinal(watched, acts);
    var p := Run(Start(watched), acts);
    assert 1 <= id < p.logs.nextId ==> Known(p, id);
  }

  /** Step i of the run ends without a retryable error and marks change id. */
  predicate MarksAt(watched: set<Name>, acts: seq<Action>, i: nat, id: nat)
    requires i < |acts|
  {
    var p, a := Run(Start(watched), acts[..i]), acts[i];
    a.Handle? && p.queue != [] && p.queue[0].id == id && a.verdict != Retry && a.mark == Committed
  }

  /** What a marking step leaves: the change was accepted at some time, or is dropped. */
  lemma MarkedOrDropped(p: Process, a: Action)
    requires Good(p) && a.Handle? && p.queue != [] && a.verdict != Retry && a.mark == Committed
    ensures var p', id := Step(p, a), p.queue[0].id; id in p'.sent || id in p'.dropped
  {
    var i := QueuedAt(p);
    HandleAt(p, i, a.accepted, a.verdict, a.mark);
  }

  lemma StepGrows(p: Process, a: Action)
    ensures p.sent <= Step(p, a).sent && p.dropped <= Step(p, a).dropped
    ensures forall id :: id in Step(p, a).dropped && id !in p.dropped ==>
              a.Handle? && p.queue != [] && p.queue[0].id == id && a.verdict != Retry && a.mark == Committed
  {
  }

  /** What a shard has accepted, or the publisher has dropped, stays so. */
  lemma {:induction false} HistoryStays(watched: set<Name>, acts: seq<Action>, i: nat, id: nat)
    requires i <= |acts|
    ensures id in Run(Start(watched), acts[..i]).sent ==> id in Run(Start(watched), acts).sent
    ensures id in Run(Start(watched), acts[..i]).dropped ==> id in Run(Start(watched), acts).dropped
    decreases |acts|
  {
    if i == |acts| {
      assert acts[..i] == acts;
    } else {
      var init := acts[..|acts| - 1];
      assert init[..i] == acts[..i];
      HistoryStays(watched, init, i, id);
      StepGrows(Run(Start(watched), init), acts[|acts| - 1]);
    }
  }

  lemma {:induction false} DroppedWasMarked(watched: set<Name>, acts: seq<Action>, id: nat) returns (i: nat)
    requires id in Run(Start(watched), acts).dropped
    ensures i < |acts| && MarksAt(watched, acts, i, id)
  {
    var n := |acts| - 1;
    var init := acts[..n];
    StepGrows(Run(Start(watched), init), acts[n]);
    if id in Run(Start(watched), init).dropped {
      i := DroppedWasMarked(watched, init, id);
      assert init[..i] == acts[..i];
    } else {
      i := n;
    }
  }

  lemma RunNext(p: Process, acts: seq<Action>, i: nat)
    requires i < |acts|
    ensures Run(p, acts[..i + 1]) == Step(Run(p, acts[..i]), acts[i])
  {
    assert acts[..i + 1][..i] == acts[..i];
  }

  lemma MarkedWasDropped(watched: set<Name>, acts: seq<Action>, i: nat, id: nat)
    requires i < |acts| && MarksAt(watched, acts, i, id)
    ensures id in Run(Start(watched), acts).sent || id in Run(Start(watched), acts).dropped
  {
    EveryRunGood(watched, acts[..i]);
    MarkedOrDropped(Run(Start(watched), acts[..i]), acts[i]);
    RunNext(Start(watched), acts, i);
    HistoryStays(watched, acts, i + 1, id);
  }

  /** Why a change is dropped: in every run, exactly when some step marked it and
      no shard accepted it in any step, before or after. */
  lemma DropCause(watched: set<Name>, acts: seq<Action>, id: nat)
    ensures var p := Run(Start(watched), acts);
            id in p.dropped <==> id !in p.sent && exists i :: 0 <= i < |acts| && MarksAt(watched, acts, i, id)
  {
    EveryDropFinal(watched, acts);
    if id in Run(Start(watched), acts).dropped {
      assert Gone(Run(Start(watched), acts), id);
      var i := DroppedWasMarked(watched, acts, id);
    } else if i: nat :| i < |acts| && MarksAt(watched, acts, i, id) {
      MarkedWasDropped(watched, acts, i, id);
    }
  }

  /** With publishing on, a call ends without error only if its shard accepted. */
  predicate PublishingOn(acts: seq<Action>) {
    forall i :: 0 <= i < |acts| && acts[i].Handle? && acts[i].verdict == Done ==> acts[i].accepted
  }

  /** Then a change is dropped only by errors outside the two retryable ones:
      every step that marked it ended in one. */
  lemma DropError(watched: set<Name>, acts: seq<Action>, id: nat, i: nat)
    requires PublishingOn(acts) && id in Run(Start(watched), acts).dropped
    requires i < |acts| && MarksAt(watched, acts, i, id)
    ensures acts[i].verdict == OtherError && !acts[i].accepted
  {
    EveryDropFinal(watched, acts);
    assert Gone(Run(Start(watched), acts), id);
    if acts[i].accepted {
      EveryRunGood(watched, acts[..i]);
      StepAccepts(Run(Start(watched), acts[..i]), acts[i]);
      RunNext(Start(watched), acts, i);
      HistoryStays(watched, acts, i + 1, id);
    }
  }

  lemma StepAccepts(p: Process, a: Action)
    requires Good(p) && a.Handle? && a.accepted && p.queue != []
    ensures p.queue[0].id in Step(p, a).sent
  {
    var i := QueuedAt(p);
    HandleAt(p, i, true, a.verdict, a.mark);
  }

  /******* Order *******/

  predicate NonDecreasing(s: seq<nat>) {
    forall i, j :: 0 <= i < j < |s| ==> s[i] <= s[j]
  }

  /** No mark fails while another change is queued behind the one being marked. */
  predicate Orderly(p: Process, a: Action) {
    a.Handle? && a.mark == RolledBack ==> a.verdict == Retry || |p.queue| <= 1
  }

  predicate OrderlyRun(p: Process, acts: seq<Action>) {
    acts == [] || (OrderlyRun(p, acts[..|acts| - 1]) && Orderly(Run(p, acts[..|acts| - 1]), acts[|acts| - 1]))
  }

  predicate AtFront(p: Process) {
    |p.queue| <= |p.logs.global| && p.queue == p.logs.global[..|p.queue|]
  }

  /** The queue is the front of the global log, and nothing sent is behind it. */
  predicate Oldest(p: Process) {
    AtFront(p) && NonDecreasing(p.sent) && SentBefore(p)
  }

  lemma SentGrows(sent: seq<nat>, id: nat)
    requires NonDecreasing(sent) && (sent != [] ==> sent[|sent| - 1] <= id)
    ensures NonDecreasing(sent + [id])
  {
  }

  lemma FrontShifts(p: Process, p': Process)
    requires AtFront(p) && p.queue != [] && p'.queue == p.queue[1..]
    requires p'.logs.global == p.logs.global[..0] + p.logs.global[1..]
    ensures AtFront(p') && p'.logs.global == p.logs.global[1..]
  {
    assert p.queue[1..] == p.logs.global[1..][..|p.queue| - 1];
  }

  /** Nothing sent is behind the front of the global log. */
  predicate SentBefore(p: Process) {
    && (p.sent != [] ==> p.sent[|p.sent| - 1] < p.logs.nextId)
    && (p.sent != [] && p.logs.global != [] ==> p.sent[|p.sent| - 1] <= p.logs.global[0].id)
  }

  lemma HandledFront(p: Process, p': Process, accepted: bool, marks: bool)
    requires AtFront(p) && p.queue != []
    requires Handled(p, p', 0, accepted, marks) && (marks || p'.queue == [])
    ensures AtFront(p')
  {
    if marks {
      FrontShifts(p, p');
    }
  }

  lemma HandledSentBefore(p: Process, p': Process, accepted: bool, marks: bool)
    requires Linked(p.logs) && SentBefore(p) && p.queue != [] && p.logs.global != []
    requires p.queue[0] == p.logs.global[0] && Handled(p, p', 0, accepted, marks)
    ensures SentBefore(p')
  {
    var g := p.logs.global;
    assert p'.sent != [] ==> p'.sent[|p'.sent| - 1] <= g[0].id;
    assert g[0].id < p.logs.nextId;
    if p'.logs.global != [] {
      FrontOnlyRises(g, p'.logs.global);
    }
  }

  lemma FrontOnlyRises(g: seq<GlobalEntry>, g': seq<GlobalEntry>)
    requires Ordered(g) && g != [] && g' != [] && (g' == g || g' == g[..0] + g[1..])
    ensures g[0].id <= g'[0].id
  {
    if g' != g {
      assert g'[0] == g[1];
    }
  }

  lemma FrontIs(p: Process)
    requires AtFront(p) && p.queue != []
    ensures p.logs.global != [] && p.queue[0] == p.logs.global[0]
  {
  }

  lemma HandledSent(p: Process, p': Process, accepted: bool, marks: bool)
    requires p.queue != [] && p.logs.global != [] && p.queue[0] == p.logs.global[0]
    requires NonDecreasing(p.sent) && SentBefore(p) && Handled(p, p', 0, accepted, marks)
    ensures NonDecreasing(p'.sent)
  {
    SentGrows(p.sent, p.queue[0].id);
  }

  lemma HandledOldest(p: Process, p': Process, accepted: bool, marks: bool)
    requires Linked(p.logs) && Oldest(p) && p.queue != []
    requires Handled(p, p', 0, accepted, marks) && (marks || p'.queue == [])
    ensures Oldest(p')
  {
    FrontIs(p);
    HandledFront(p, p', accepted, marks);
    HandledSentBefore(p, p', accepted, marks);
    HandledSent(p, p', accepted, marks);
  }

  lemma OtherOldest(p: Process, o: Other)
    requires Linked(p.logs) && Oldest(p)
    ensures Oldest(p.(logs := OtherStep(p.logs, o)))
  {
    var g, g' := p.logs.global, OtherStep(p.logs, o).global;
    assert g'[..|p.queue|] == g[..|p.queue|];
  }

  lemma StepOldest(p: Process, a: Action)
    requires Linked(p.logs) && Oldest(p) && Orderly(p, a)
    ensures Oldest(Step(p, a))
  {
    if a.Handle? && p.queue != [] {
      HandleAt(p, 0, a.accepted, a.verdict, a.mark);
      HandledOldest(p, Step(p, a), a.accepted, a.verdict != Retry && a.mark == Committed);
    } else if a.Outside? {
      OtherOldest(p, a.o);
    }
  }

  lemma {:induction false} OrderlyKeeps(p: Process, acts: seq<Action>)
    requires Good(p) && Oldest(p) && OrderlyRun(p, acts)
    ensures Good(Run(p, acts)) && Oldest(Run(p, acts))
  {
    if acts != [] {
      var init := acts[..|acts| - 1];
      OrderlyKeeps(p, init);
      StepGood(Run(p, init), acts[|acts| - 1]);
      StepOldest(Run(p, init), acts[|acts| - 1]);
    }
  }

  /** If no mark fails with a change queued behind it, changes reach the shards in
      the order they were captured; a crash, and a failed mark with nothing
      behind it, can only repeat the change in flight. */
  lemma SentInOrder(watched: set<Name>, acts: seq<Action>)
    requires OrderlyRun(Start(watched), acts)
    ensures Oldest(Run(Start(watched), acts))
  {
    EveryRunGood(watched, []);
    OrderlyKeeps(Start(watched), acts);
  }

  const OK := Handle(true, Done, Committed)

  /** A change is consumed and its mark fails; p1 is what that leaves. */
  lemma FailedMark(p: Process, accepted: bool, verdict: Verdict) returns (p1: Process)
    requires Good(p) && AtFront(p) && p.queue != [] && verdict != Retry
    ensures p1 == Step(p, Handle(accepted, verdict, RolledBack))
    ensures p1.logs == p.logs && p1.queue == p.queue[1..]
    ensures p1.sent == p.sent + if accepted then [p.queue[0].id] else []
  {
    p1 := Step(p, Handle(accepted, verdict, RolledBack));
    assert p.queue[0] == p.logs.global[0];
    assert p.queue[0].at in Targets(p.logs.global);
    assert p.sent + [] == p.sent;
  }

  lemma SuccessorMarked(p: Process, p': Process)
    requires Linked(p.logs) && |p.logs.global| >= 2 && p.queue != [] && p.queue[0] == p.logs.global[1]
    requires p' == Step(p, OK)
    ensures p'.logs.global != [] && p'.logs.global[0] == p.logs.global[0] && Linked(p'.logs)
    ensures p'.sent == p.sent + [p.logs.global[1].id]
  {
    HandleAt(p, 1, true, Done, Committed);
  }

  lemma FrontSentNext(p: Process, limit: nat)
    requires Linked(p.logs) && p.logs.global != [] && limit >= 1
    ensures Step(Step(Step(p, Crash), Scan(limit)), OK).sent == p.sent + [p.logs.global[0].id]
  {
    var p1 := Step(Step(p, Crash), Scan(limit));
    assert p1.queue != [] && p1.queue[0] == p.logs.global[0];
    HandleAt(p1, 0, true, Done, Committed);
  }

  lemma RunFour(p: Process, a: Action, b: Action, c: Action, d: Action)
    ensures Run(p, [a, b, c, d]) == Step(Step(Step(Step(p, a), b), c), d)
  {
    assert [a, b, c, d][..3] == [a, b, c] && [a, b, c][..2] == [a, b] && [a, b][..1] == [a] && [a][..0] == [];
    assert Run(p, [a]) == Step(p, a);
    assert Run(p, [a, b]) == Step(Step(p, a), b);
    assert Run(p, [a, b, c]) == Step(Step(Step(p, a), b), c);
  }

  /** The successor goes out, the process restarts, and the next pass begins. */
  function Resend(limit: nat): seq<Action> {
    [OK, Crash, Scan(limit), OK]
  }

  lemma ResendSends(p: Process, limit: nat)
    requires Linked(p.logs) && |p.logs.global| >= 2 && p.queue != [] && p.queue[0] == p.logs.global[1] && limit >= 1
    ensures Run(p, Resend(limit)).sent == p.sent + [p.logs.global[1].id, p.logs.global[0].id]
  {
    SuccessorMarked(p, Step(p, OK));
    FrontSentNext(Step(p, OK), limit);
    RunFour(p, OK, Crash, Scan(limit), OK);
  }

  /** With a change queued behind it the order is lost: the change stays behind,
      and the next pass sends it after its successor, whatever else is queued or
      logged, and whether or not it was accepted before. */
  lemma FailedMarkReorders(p: Process, accepted: bool, verdict: Verdict, limit: nat)
    requires Good(p) && AtFront(p) && |p.queue| >= 2 && verdict != Retry && limit >= 1
    ensures var first, second := p.queue[0].id, p.queue[1].id;
            var failed := Step(p, Handle(accepted, verdict, RolledBack));
            first < second && Run(failed, Resend(limit)).sent == failed.sent + [second, first]
  {
    var p1 := FailedMark(p, accepted, verdict);
    assert p.queue[1] == p.logs.global[1] && p.queue[0] == p.logs.global[0];
    ResendSends(p1, limit);
  }

  lemma {:induction false} NoFailedMarkOrderly(p: Process, acts: seq<Action>)
    requires forall i :: 0 <= i < |acts| ==> !(acts[i].Handle? && acts[i].mark == RolledBack)
    ensures OrderlyRun(p, acts)
  {
    if acts != [] {
      var init := acts[..|acts| - 1];
      assert forall i :: 0 <= i < |init| ==> init[i] == acts[i];
      NoFailedMarkOrderly(p, init);
    }
  }

  /** Changes enter the logs in capture order in every orderly continuation. */
  ghost predicate KeepsOrder(p: Process) {
    forall acts :: OrderlyRun(p, acts) ==> NonDecreasing(Run(p, acts).sent)
  }

  lemma OldestKeepsOrder(p: Process)
    requires Good(p) && Oldest(p)
    ensures KeepsOrder(p)
  {
    forall acts | OrderlyRun(p, acts) ensures NonDecreasing(Run(p, acts).sent) {
      OrderlyKeeps(p, acts);
    }
  }

  lemma ReorderingBreaks(p: Process, acts: seq<Action>, first: nat, second: nat)
    requires OrderlyRun(p, acts) && Run(p, acts).sent == p.sent + [second, first] && first < second
    ensures !KeepsOrder(p)
  {
    var sent := Run(p, acts).sent;
    assert sent[|p.sent|] > sent[|p.sent| + 1];
  }

  /** When a failed mark costs the order: of a publisher that has kept it so far,
      exactly when another change was queued behind and the pass goes on. A
      failed mark of the last queued change, or one that is not attempted after
      a retryable error, costs nothing. */
  lemma FailedMarkExactly(p: Process, accepted: bool, verdict: Verdict)
    requires Good(p) && Oldest(p) && p.queue != []
    ensures KeepsOrder(Step(p, Handle(accepted, verdict, RolledBack))) <==> verdict == Retry || |p.queue| == 1
  {
    var a := Handle(accepted, verdict, RolledBack);
    if verdict == Retry || |p.queue| == 1 {
      StepGood(p, a);
      StepOldest(p, a);
      OldestKeepsOrder(Step(p, a));
    } else {
      FailedMarkReorders(p, accepted, verdict, 1);
      NoFailedMarkOrderly(Step(p, a), Resend(1));
      ReorderingBreaks(Step(p, a), Resend(1), p.queue[0].id, p.queue[1].id);
    }
  }

  /******* Draining *******/

  /** One turn of a pass, and what others do before its lookup and between the
      consumption and the mark. */
  datatype Turn =
    Turn(before: seq<Other>, accepted: bool, verdict: Verdict, between: seq<Other>, mark: MarkResult)

  /** The turns a pass will meet. */
  type Turns = nat -> Turn

  /** What others do between lookup and mark might as well have come before: they
      neither take the log row away nor see what the shard accepted. */
  function TakeTurn(p: Process, t: Turn): Process
    requires p.queue != []
  {
    HandleNext(p.(logs := OtherSteps(OtherSteps(p.logs, t.before), t.between)), t.accepted, t.verdict, t.mark)
  }

  /** The rest of a pass from turn i on. */
  function Pass(p: Process, turns: Turns, i: nat): Process
    decreases |p.queue|
  {
    if p.queue == [] then p else Pass(TakeTurn(p, turns(i)), turns, i + 1)
  }

  function WholePass(p: Process, limit: nat, turns: Turns): Process {
    Pass(Step(p, Scan(limit)), turns, 0)
  }

  /** A turn in which nobody else acts, the shard accepts and the mark commits. */
  predicate Smooth(t: Turn) {
    t.before == t.between == [] && t.accepted && t.verdict == Done && t.mark == Committed
  }

  ghost predicate AllSmooth(turns: Turns) {
    forall j: nat :: Smooth(turns(j))
  }

  function Ids(global: seq<GlobalEntry>): seq<nat> {
    seq(|global|, i requires 0 <= i < |global| => global[i].id)
  }

  lemma SmoothTurn(p: Process, t: Turn)
    requires Linked(p.logs) && AtFront(p) && p.queue != [] && Smooth(t)
    ensures var p' := TakeTurn(p, t);
            && Linked(p'.logs) && AtFront(p') && p'.queue == p.queue[1..] && p'.logs.global == p.logs.global[1..]
            && p'.sent == p.sent + [p.queue[0].id] && p'.dropped == p.dropped
  {
    var g := p.logs.global;
    assert g[0] == p.queue[0];
    assert g[0].at in Targets(g);
    assert p.(logs := OtherSteps(OtherSteps(p.logs, t.before), t.between)) == p;
    MarkedLinked(p.logs, 0);
    assert Marked(p.logs, g[0]).global == g[1..];
    assert p.queue[1..] == g[1..][..|p.queue| - 1];
  }

  /** From p to p' the k oldest changes were sent and removed, and nothing else. */
  ghost predicate Drained(p: Process, p': Process, k: nat)
    requires k <= |p.logs.global|
  {
    && Linked(p'.logs) && p'.queue == [] && p'.logs.global == p.logs.global[k..]
    && p'.sent == p.sent + Ids(p.logs.global[..k]) && p'.dropped == p.dropped
  }

  lemma DrainedFurther(p: Process, p1: Process, p2: Process, n: nat, k: nat)
    requires n <= |p.logs.global| && p1.logs.global == p.logs.global[n..] && p1.dropped == p.dropped
    requires p1.sent == p.sent + Ids(p.logs.global[..n])
    requires k <= |p1.logs.global| && Drained(p1, p2, k)
    ensures Drained(p, p2, n + k)
  {
    var g := p.logs.global;
    IdsConcat(g[..n], g[n..][..k]);
    assert g[..n] + g[n..][..k] == g[..n + k];
    assert g[n..][k..] == g[n + k..];
  }

  lemma {:induction false} SmoothPass(p: Process, turns: Turns, i: nat)
    requires Linked(p.logs) && AtFront(p) && AllSmooth(turns)
    ensures Drained(p, Pass(p, turns, i), |p.queue|)
    decreases |p.queue|, 1
  {
    if p.queue == [] {
      assert p.sent + Ids(p.logs.global[..0]) == p.sent;
    } else {
      assert Smooth(turns(i));
      SmoothTurn(p, turns(i));
      SmoothRest(p, TakeTurn(p, turns(i)), turns, i + 1);
    }
  }

  lemma {:induction false} SmoothRest(p: Process, p1: Process, turns: Turns, i: nat)
    requires AtFront(p) && p.queue != [] && AllSmooth(turns)
    requires Linked(p1.logs) && AtFront(p1) && p1.queue == p.queue[1..] && p1.logs.global == p.logs.global[1..]
    requires p1.sent == p.sent + [p.queue[0].id] && p1.dropped == p.dropped
    ensures Drained(p, Pass(p1, turns, i), |p.queue|)
    decreases |p.queue|, 0
  {
    SmoothPass(p1, turns, i);
    assert p.queue[0] == p.logs.global[0];
    assert Ids(p.logs.global[..1]) == [p.queue[0].id];
    DrainedFurther(p, p1, Pass(p1, turns, i), 1, |p1.queue|);
  }

  lemma IdsConcat(a: seq<GlobalEntry>, b: seq<GlobalEntry>)
    ensures Ids(a + b) == Ids(a) + Ids(b)
  {
  }

  /** One smooth pass sends and removes exactly the oldest changes, as many as the
      scan limit allows. */
  lemma PassDrainsOldest(p: Process, limit: nat, turns: Turns)
    requires Linked(p.logs) && p.queue == [] && AllSmooth(turns)
    ensures Drained(p, WholePass(p, limit, turns), if limit < |p.logs.global| then limit else |p.logs.global|)
  {
    var n := if limit < |p.logs.global| then limit else |p.logs.global|;
    var p1 := Step(p, Scan(limit));
    assert p.logs.global[..|p.logs.global|] == p.logs.global;
    assert p1.queue == p.logs.global[..n];
    SmoothPass(p1, turns, 0);
  }

  function Passes(p: Process, limit: nat, turns: Turns, count: nat): Process
    decreases count
  {
    if count == 0 then p else Passes(WholePass(p, limit, turns), limit, turns, count - 1)
  }

  /** With a positive limit, as many smooth passes as there are changes leave the
      global log empty, every change having been sent exactly once and in order. */
  lemma {:induction false} PassesDrain(p: Process, limit: nat, turns: Turns, count: nat)
    requires Linked(p.logs) && p.queue == [] && limit > 0 && count >= |p.logs.global|
    requires AllSmooth(turns)
    ensures Drained(p, Passes(p, limit, turns, count), |p.logs.global|)
    decreases count, 0
  {
    if count == 0 {
      assert p.sent + Ids(p.logs.global[..0]) == p.sent;
    } else {
      PassDrainsOldest(p, limit, turns);
      PassesRest(p, WholePass(p, limit, turns), limit, turns, count - 1);
    }
  }

  lemma {:induction false} PassesRest(p: Process, p1: Process, limit: nat, turns: Turns, count: nat)
    requires Linked(p.logs) && limit > 0 && count + 1 >= |p.logs.global| && AllSmooth(turns)
    requires Drained(p, p1, if limit < |p.logs.global| then limit else |p.logs.global|)
    ensures Drained(p, Passes(p1, limit, turns, count), |p.logs.global|)
    decreases count, 1
  {
    var g := p.logs.global;
    var n := if limit < |g| then limit else |g|;
    PassesDrain(p1, limit, turns, count);
    DrainedFurther(p, p1, Passes(p1, limit, turns, count), n, |g| - n);
  }

  /******* The database object *******/

  class StreamDB {
    const schemas: map<Name, Schema>
    var rows: map<LogKey, LogRow>
    var nextRow: map<Name, nat>
    var global: seq<GlobalEntry>
    var nextId: nat
    var sent: seq<nat>               // ids the shards have accepted through OnChange
    ghost var dropped: set<nat>
    var publishing: bool             // publishLock

    ghost function Current(): Logs
      reads this
    {
      Logs(rows, nextRow, global, nextId)
    }

    ghost function State(queue: seq<GlobalEntry>): Process
      reads this
    {
      Process(Current(), queue, sent, dropped, false)
    }

    ghost predicate Valid()
      reads this
    {
      Good(State([]))
    }

    constructor (schemas: map<Name, Schema>)
      ensures Valid() && !publishing && State([]) == Start(schemas.Keys)
    {
      this.schemas := schemas;
      rows, nextRow, global, nextId := map[], map t | t in schemas.Keys :: 1, [], 1;
      sent, dropped, publishing := [], {}, false;
      new;
      EveryRunGood(schemas.Keys, []);
    }

    /** The triggers; a connection that defines marmot_version is Marmot's own,
        and its writes are not captured. */
    method Trigger(table: Name, kind: EventType, row: Row, now: int, ownConnection: bool)
      modifies `rows, `nextRow, `global, `nextId
      ensures Current() == if ownConnection then old(Current())
                           else OtherStep(old(Current()), Capture(table, kind, row, now))
    {
      if ownConnection || table !in nextRow {
        return;
      }
      var k := LogKey(table, nextRow[table]);
      rows := rows[k := LogRow(kind, row, now, Pending)];
      nextRow := nextRow[table := k.rowId + 1];
      global := global + [GlobalEntry(nextId, k)];
      nextId := nextId + 1;
    }

    method CleanupChangeLogs(before: int) returns (total: nat)
      modifies `rows
      ensures Current() == OtherStep(old(Current()), Cleanup(before))
      ensures total == |old(rows)| - |rows|
      ensures forall k :: k in old(rows) ==>
                (k !in rows <==> old(rows)[k].state == Published && old(rows)[k].createdAt <= before)
      ensures forall k :: k in rows ==> k in old(rows) && rows[k] == old(rows)[k]
    {
      var keep := map k | k in rows && !Expired(rows[k], before) :: rows[k];
      assert rows.Keys == keep.Keys + (rows.Keys - keep.Keys);
      total := |rows| - |keep|;
      rows := keep;
    }

    method GetChangeEntry(e: GlobalEntry) returns (found: bool)
      ensures found <==> e.at in PendingRows(Current())
    {
      found := e.at in rows && rows[e.at].state == Pending;
    }

    method MarkChangePublished(e: GlobalEntry)
      modifies `rows, `global
      ensures Current() == Marked(old(Current()), e)
    {
      if e.at in rows {
        rows := rows[e.at := rows[e.at].(state := Published)];
      }
      global := Without(global, e.id);
    }

    /** Writes and cleanups of others between two steps of the publisher. */
    method Others(os: seq<Other>)
      modifies `rows, `nextRow, `global, `nextId
      ensures Current() == OtherSteps(old(Current()), os)
    {
      for i := 0 to |os|
        invariant Current() == OtherSteps(old(Current()), os[..i])
      {
        assert os[..i + 1][..i] == os[..i];
        match os[i]
        case Capture(table, kind, row, now) => Trigger(table, kind, row, now, false);
        case Cleanup(before) => var _ := CleanupChangeLogs(before);
      }
      assert os[..|os|] == os;
    }

    /** One publish pass, whatever the environment does in it. The "row not found"
        panic is unreachable: its branch is asserted away. */
    method PublishChangeLog(limit: nat, turns: Turns)
      requires Valid()
      modifies this
      ensures Valid() && publishing == old(publishing)
      ensures State([]) == if old(publishing) then old(State([])) else WholePass(old(State([])), limit, turns)
    {
      if publishing {
        return;
      }
      publishing := true;
      var changes := Take(global, limit);
      ghost var start := Step(State([]), Scan(limit));
      StepGood(State([]), Scan(limit));
      assert State(changes) == start;
      var i := 0;
      while changes != []
        invariant Good(State(changes)) && publishing
        invariant Pass(start, turns, 0) == Pass(State(changes), turns, i)
        decreases |changes|
      {
        changes := HandleChange(changes, turns(i));
        i := i + 1;
      }
      publishing := false;
    }

    method HandleChange(changes: seq<GlobalEntry>, t: Turn) returns (rest: seq<GlobalEntry>)
      requires changes != [] && Good(State(changes))
      modifies `rows, `nextRow, `global, `nextId, `sent, `dropped
      ensures State(rest) == TakeTurn(old(State(changes)), t) && Good(State(rest)) && |rest| < |changes|
    {
      OthersGood(State(changes), t.before);
      Others(t.before);
      var e := changes[0];
      ghost var at := QueuedAt(State(changes));
      assert e.at in Targets(global);
      var found := GetChangeEntry(e);
      if !found {
        assert false;
      }
      OthersGood(State(changes), t.between);
      ghost var ready := State(changes).(logs := OtherSteps(Current(), t.between));
      HandleGood(ready, t.accepted, t.verdict, t.mark);
      if t.accepted {
        sent := sent + [e.id];
      }
      Others(t.between);
      rest := Finish(changes, t.verdict, t.mark, ready, t.accepted);
    }

    /** The end of a turn: the mark, or the reason to leave it out. */
    method Finish(changes: seq<GlobalEntry>, verdict: Verdict, mark: MarkResult,
                  ghost ready: Process, ghost accepted: bool)
      returns (rest: seq<GlobalEntry>)
      requires changes != [] && Good(ready) && ready.queue == changes && ready.logs == Current()
      requires ready.dropped == dropped && sent == if accepted then ready.sent + [changes[0].id] else ready.sent
      modifies `rows, `global, `dropped
      ensures State(rest) == HandleNext(ready, accepted, verdict, mark) && |rest| < |changes|
    {
      ghost var at := QueuedAt(ready);
      assert changes[0].at in Targets(ready.logs.global);
      if verdict == Retry || mark == Died {
        return [];
      }
      if mark == Committed {
        MarkChangePublished(changes[0]);
        dropped := dropped + if changes[0].id in sent then {} else {changes[0].id};
      }
      rest := changes[1..];
    }
  }

  lemma {:induction false} OthersGood(p: Process, os: seq<Other>)
    requires Good(p)
    ensures Good(p.(logs := OtherSteps(p.logs, os)))
  {
    if os != [] {
      var init := os[..|os| - 1];
      OthersGood(p, init);
      OtherGood(p.(logs := OtherSteps(p.logs, init)), os[|os| - 1]);
    } else {
      assert p.(logs := OtherSteps(p.logs, os)) == p;
    }
  }
}
