/** A cluster of Marmot nodes over shared, bounded shard streams, as a step system.

    A node holds its tables, its outbox (the global change log, in id order, see
    module ChangeLog), its durable sequence map, and the volatile state of its
    publisher and of one listener per shard. Any list of actions is a run: an
    action that is not enabled does nothing. */
module Cluster {
  import opened Basics
  import opened Store

  /******* State *******/

  datatype NodeConfig = NodeConfig(publish: bool, replicate: bool, snapshots: bool)

  datatype Config = Config(
    nodes: seq<NodeConfig>,
    shards: nat,
    route: Route,
    maxEntries: nat,     // messages a stream keeps; 0 keeps all
    initial: Database)   // every node starts from the same copy

  ghost predicate ValidConfig(cfg: Config) {
    forall k :: cfg.route(k) < cfg.shards
  }

  /** An entry of the outbox. `sent` is history: some shard accepted this change. */
  datatype Pending = Pending(change: Change, sent: bool)

  /** History variables, which no step reads to decide anything a node does.
      - pos[s]: the tables reflect the log of shard s up to here;
      - gapped: the listener position has passed an entry the tables lack;
      - ordered: changes were consumed oldest first, and all of them captured;
      - origins: the nodes whose unsent changes the tables may hold;
      - lost: rows this node changed without the change reaching a log, and
        that no accepted change has overwritten since. */
  datatype Track = Track(pos: seq<nat>, gapped: bool, ordered: bool, origins: set<nat>, lost: set<RowKey>)

  datatype Node = Node(
    db: Database,
    outbox: seq<Pending>,
    inflight: Option<nat>,   // outbox index the publisher has consumed but not marked
    saved: seq<nat>,         // the sequence map, durable
    cursor: seq<nat>,        // savedSeq of each running listener
    unsaved: seq<nat>,       // message a listener has applied but not saved; 0 for none
    track: Track)

  /** A stored snapshot; all but `db` is history. */
  datatype Snapshot = Snapshot(db: Database, pos: seq<nat>, origins: set<nat>, trusted: bool)

  datatype State = State(nodes: seq<Node>, logs: seq<Log>, snapshot: Option<Snapshot>)

  /** What an application does to one row. Move is an update that changes the
      primary key, of which the trigger records only the new row. */
  datatype WriteOp = Put(key: RowKey, row: Row) | Remove(key: RowKey) | Move(from: RowKey, key: RowKey, row: Row)

  /** How handing a change to its shard went. accepted: the stream appended it;
      recorded: the acknowledgement came back and Publish got to save its
      sequence; proceed: the call ended without one of the two retryable errors,
      so the entry will be marked. All combinations are possible: an
      acknowledgement can be lost, and a save can fail. */
  datatype Call = Call(accepted: bool, recorded: bool, proceed: bool)

  datatype Action =
    | Write(n: nat, op: WriteOp)
    | Consume(n: nat, i: nat, call: Call)
    | Mark(n: nat, committed: bool)
    | Deliver(n: nat, s: nat, d: nat)
    | SaveSeq(n: nat, s: nat)
    | Restart(n: nat)
    | TakeSnapshot(n: nat)

  /******* Steps *******/

  function Zeros(n: nat): seq<nat> {
    seq(n, _ => 0)
  }

  function InitialNode(cfg: Config, n: nat): Node {
    Node(cfg.initial, [], None, Zeros(cfg.shards), Zeros(cfg.shards), Zeros(cfg.shards),
         Track(Zeros(cfg.shards), false, true, {n}, {}))
  }

  function Initial(cfg: Config): State {
    State(seq(|cfg.nodes|, n requires n >= 0 => InitialNode(cfg, n)), seq(cfg.shards, _ => []), None)
  }

  predicate NodeShape(cfg: Config, node: Node) {
    |node.saved| == |node.cursor| == |node.unsaved| == |node.track.pos| == cfg.shards
  }

  predicate Shape(cfg: Config, st: State) {
    && |st.nodes| == |cfg.nodes| && |st.logs| == cfg.shards
    && (forall n :: 0 <= n < |st.nodes| ==> NodeShape(cfg, st.nodes[n]))
    && (st.snapshot.Some? ==> |st.snapshot.value.pos| == cfg.shards)
  }

  /** First sequence a discard-old stream still holds; 0 for an empty stream. */
  function FirstSeq(cfg: Config, length: nat): nat {
    if length == 0 then 0
    else if cfg.maxEntries == 0 || length <= cfg.maxEntries then 1
    else length - cfg.maxEntries + 1
  }

  function LocalWrite(db: Database, op: WriteOp): Database {
    match op
    case Put(k, row) => db[k := row]
    case Remove(k) => db - {k}
    case Move(from, k, row) => (db - {from})[k := row]
  }

  function Captured(op: WriteOp): Change {
    match op
    case Put(k, row) => Change(k, Some(row))
    case Remove(k) => Change(k, None)
    case Move(_, k, row) => Change(k, Some(row))
  }

  function Uncaptured(op: WriteOp): set<RowKey> {
    if op.Move? && op.from != op.key then {op.from} else {}
  }

  predicate Unsent(outbox: seq<Pending>, k: RowKey) {
    exists i :: 0 <= i < |outbox| && outbox[i].change.key == k && !outbox[i].sent
  }

  /** The application writes a row and the trigger appends to the change log. */
  function WriteStep(node: Node, op: WriteOp): Node {
    node.(db := LocalWrite(node.db, op),
          outbox := node.outbox + [Pending(Captured(op), false)],
          track := node.track.(lost := node.track.lost + Uncaptured(op),
                               ordered := node.track.ordered && Uncaptured(op) == {}))
  }

  function Heal(node: Node, k: RowKey): Node {
    node.(track := node.track.(lost := node.track.lost - {k}))
  }

  predicate Covered(node: Node)
    requires |node.cursor| == |node.track.pos|
  {
    forall s :: 0 <= s < |node.cursor| ==> node.cursor[s] <= node.track.pos[s]
  }

  /** Records whether the listener position has passed what the tables reflect. */
  function Audit(node: Node): Node
    requires |node.cursor| == |node.track.pos|
  {
    node.(track := node.track.(gapped := node.track.gapped || !Covered(node)))
  }

  /** The publisher hands entry i to its shard. With snapshots on, Publish saves
      the sequence it is told. */
  function ConsumeStep(cfg: Config, st: State, n: nat, i: nat, call: Call): State
    requires Shape(cfg, st) && n < |st.nodes| && i < |st.nodes[n].outbox|
  {
    var node := st.nodes[n];
    var c := node.outbox[i].change;
    var s := cfg.route(c.key);
    var node1 := node.(inflight := if call.proceed then Some(i) else None,
                       track := node.track.(ordered := node.track.ordered && i == 0));
    if !(cfg.nodes[n].publish && call.accepted && s < cfg.shards) then
      st.(nodes := st.nodes[n := node1])
    else
      var log := st.logs[s] + [c];
      var node2 := node1.(outbox := node.outbox[i := Pending(c, true)],
                          saved := if cfg.nodes[n].snapshots && call.recorded
                                   then node.saved[s := Max(node.saved[s], |log|)] else node.saved);
      st.(nodes := HealAll(st.nodes[n := node2], c.key), logs := st.logs[s := log])
  }

  function HealAll(nodes: seq<Node>, k: RowKey): seq<Node> {
    seq(|nodes|, m requires 0 <= m < |nodes| => Heal(nodes[m], k))
  }

  function MarkStep(node: Node, committed: bool): Node {
    if node.inflight.None? || node.inflight.value >= |node.outbox| then node.(inflight := None)
    else
      var i := node.inflight.value;
      if !committed then node.(inflight := None)
      else node.(inflight := None,
                 outbox := node.outbox[..i] + node.outbox[i + 1..],
                 track := node.track.(lost := node.track.lost +
                   if node.outbox[i].sent then {} else {node.outbox[i].change.key}))
  }

  /** A listener receives message d of a shard: stale ones are skipped, others
      are applied (unless replication is off) and await their save. */
  function DeliverStep(cfg: Config, replicate: bool, node: Node, log: Log, s: nat, d: nat): Node
    requires NodeShape(cfg, node) && s < cfg.shards && 1 <= d <= |log|
  {
    if d <= node.cursor[s] || node.unsaved[s] != 0 then node
    else if !replicate then node.(unsaved := node.unsaved[s := d])
    else
      node.(unsaved := node.unsaved[s := d],
            db := Apply(node.db, log[d - 1]),
            track := node.track.(pos := node.track.pos[s := d],
                                 gapped := node.track.gapped || d > node.track.pos[s] + 1))
  }

  /** The listener saves the message it handled; `save` answers with the larger
      of that and what the map holds, and the answer becomes the cursor. */
  function SaveStep(cfg: Config, node: Node, s: nat): Node
    requires NodeShape(cfg, node) && s < cfg.shards
  {
    if node.unsaved[s] == 0 then node
    else
      var v := Max(node.saved[s], node.unsaved[s]);
      Audit(node.(saved := node.saved[s := v], cursor := node.cursor[s := v], unsaved := node.unsaved[s := 0]))
  }

  predicate NeedsRestore(cfg: Config, st: State, node: Node)
    requires Shape(cfg, st) && NodeShape(cfg, node)
  {
    exists s :: 0 <= s < cfg.shards && node.saved[s] < FirstSeq(cfg, |st.logs[s]|)
  }

  predicate Restores(cfg: Config, st: State, n: nat)
    requires Shape(cfg, st) && n < |st.nodes|
  {
    && cfg.nodes[n].snapshots && cfg.nodes[n].replicate && st.snapshot.Some?
    && NeedsRestore(cfg, st, st.nodes[n])
  }

  function UnsentKeys(outbox: seq<Pending>): set<RowKey> {
    set i | 0 <= i < |outbox| && !outbox[i].sent :: outbox[i].change.key
  }

  /** A crash or exit followed by a boot: volatile state is gone; a node that is
      behind a stream replaces its whole database, change logs included, by the
      snapshot, and keeps its sequence map. */
  function RestartStep(cfg: Config, st: State, n: nat): Node
    requires Shape(cfg, st) && n < |st.nodes|
  {
    var node := st.nodes[n];
    var booted := node.(inflight := None, cursor := node.saved, unsaved := Zeros(cfg.shards));
    if !Restores(cfg, st, n) then Audit(booted)
    else
      var snap := st.snapshot.value;
      Audit(booted.(db := snap.db, outbox := [],
                    track := node.track.(pos := snap.pos, gapped := !snap.trusted,
                                         origins := {n} + snap.origins,
                                         lost := node.track.lost + UnsentKeys(node.outbox))))
  }

  /** The documented single-primary deployment: the primary publishes and does
      not replicate, and nobody else publishes. */
  predicate Primary(cfg: Config, n: nat) {
    && n < |cfg.nodes| && cfg.nodes[n].publish && !cfg.nodes[n].replicate
    && forall m :: 0 <= m < |cfg.nodes| && m != n ==> !cfg.nodes[m].publish
  }

  function Lengths(logs: seq<Log>): seq<nat> {
    seq(|logs|, s requires 0 <= s < |logs| => |logs[s]|)
  }

  function SnapshotOf(cfg: Config, st: State, n: nat): Snapshot
    requires Shape(cfg, st) && n < |st.nodes|
  {
    var node := st.nodes[n];
    if Primary(cfg, n)
    then Snapshot(node.db, Lengths(st.logs), node.track.origins, node.track.ordered)
    else Snapshot(node.db, node.track.pos, node.track.origins, !node.track.gapped)
  }

  predicate Enabled(cfg: Config, st: State, a: Action)
    requires Shape(cfg, st)
  {
    && a.n < |st.nodes|
    && var node := st.nodes[a.n];
    match a
    case Write(_, op) =>
      && (op.Remove? ==> op.key in node.db)
      && (op.Move? ==> op.from in node.db && (op.key == op.from || op.key !in node.db))
    case Consume(_, i, _) => i < |node.outbox| && node.inflight.None?
    case Mark(_, _) => true
    case Deliver(_, s, d) => s < cfg.shards && 1 <= FirstSeq(cfg, |st.logs[s]|) <= d <= |st.logs[s]|
    case SaveSeq(_, s) => s < cfg.shards
    case Restart(_) => true
    case TakeSnapshot(_) => true
  }

  function Step(cfg: Config, st: State, a: Action): (st': State)
    requires Shape(cfg, st)
    ensures Shape(cfg, st')
  {
    if !Enabled(cfg, st, a) then st
    else
      var node := st.nodes[a.n];
      match a
      case Write(n, op) => st.(nodes := st.nodes[n := WriteStep(node, op)])
      case Consume(n, i, call) => ConsumeStep(cfg, st, n, i, call)
      case Mark(n, committed) => st.(nodes := st.nodes[n := MarkStep(node, committed)])
      case Deliver(n, s, d) =>
        st.(nodes := st.nodes[n := DeliverStep(cfg, cfg.nodes[n].replicate, node, st.logs[s], s, d)])
      case SaveSeq(n, s) => st.(nodes := st.nodes[n := SaveStep(cfg, node, s)])
      case Restart(n) => st.(nodes := st.nodes[n := RestartStep(cfg, st, n)])
      case TakeSnapshot(n) => st.(snapshot := Some(SnapshotOf(cfg, st, n)))
  }

  function Execute(cfg: Config, acts: seq<Action>): (st: State)
    ensures Shape(cfg, st)
  {
    if acts == [] then Initial(cfg)
    else Step(cfg, Execute(cfg, acts[..|acts| - 1]), acts[|acts| - 1])
  }

  /******* What every step keeps *******/

  predicate Unsettled(node: Node, k: RowKey) {
    k in node.track.lost || Unsent(node.outbox, k)
  }

  predicate SomeUnsettled(nodes: seq<Node>, origins: set<nat>, k: RowKey) {
    exists m :: m in origins && m < |nodes| && Unsettled(nodes[m], k)
  }

  /** A database standing at `pos` in the logs is right about row k, or will be
      told: a later entry rewrites k, or the row is still unsettled at an origin. */
  predicate RowOk(cfg: Config, nodes: seq<Node>, logs: seq<Log>, db: Database,
                  pos: seq<nat>, origins: set<nat>, k: RowKey)
    requires cfg.route(k) < |logs| == |pos| && pos[cfg.route(k)] <= |logs[cfg.route(k)]|
  {
    var s := cfg.route(k);
    || Mentions(logs[s][pos[s]..], k)
    || Get(db, k) == Decided(cfg.route, cfg.initial, logs, k)
    || SomeUnsettled(nodes, origins, k)
  }

  predicate Within(pos: seq<nat>, logs: seq<Log>) {
    |pos| == |logs| && forall s :: 0 <= s < |logs| ==> pos[s] <= |logs[s]|
  }

  ghost predicate ReplicaOk(cfg: Config, nodes: seq<Node>, logs: seq<Log>, db: Database,
                            pos: seq<nat>, origins: set<nat>)
    requires ValidConfig(cfg) && |logs| == cfg.shards
  {
    Within(pos, logs) && forall k :: RowOk(cfg, nodes, logs, db, pos, origins, k)
  }

  ghost predicate NodeOk(cfg: Config, st: State, n: nat)
    requires ValidConfig(cfg) && Shape(cfg, st) && n < |st.nodes|
  {
    var node := st.nodes[n];
    && Within(node.track.pos, st.logs)
    && n in node.track.origins
    && (!node.track.gapped ==>
          && Covered(node)
          && ReplicaOk(cfg, st.nodes, st.logs, node.db, node.track.pos, node.track.origins))
  }

  /** The newest outbox entry for a row. */
  function NewestFor(outbox: seq<Pending>, k: RowKey): Option<Change> {
    if outbox == [] then None
    else if outbox[|outbox| - 1].change.key == k then Some(outbox[|outbox| - 1].change)
    else NewestFor(outbox[..|outbox| - 1], k)
  }

  /** A primary's tables hold its newest unmarked change of every row, only the
      oldest entry can have been sent, and the tables stand at the end of the logs. */
  ghost predicate PrimaryOk(cfg: Config, st: State, n: nat)
    requires ValidConfig(cfg) && Shape(cfg, st) && n < |st.nodes|
  {
    var node := st.nodes[n];
    && (node.inflight.Some? ==> node.inflight.value == 0)
    && (forall i :: 1 <= i < |node.outbox| ==> !node.outbox[i].sent)
    && (forall k :: NewestFor(node.outbox, k).Some? ==>
          Get(node.db, k) == NewestFor(node.outbox, k).value.effect)
    && ReplicaOk(cfg, st.nodes, st.logs, node.db, Lengths(st.logs), node.track.origins)
  }

  ghost predicate Inv(cfg: Config, st: State) {
    && ValidConfig(cfg) && Shape(cfg, st)
    && Routed(cfg.route, st.logs)
    && (forall n :: 0 <= n < |st.nodes| ==> NodeOk(cfg, st, n))
    && (forall n :: 0 <= n < |st.nodes| && Primary(cfg, n) && st.nodes[n].track.ordered ==> PrimaryOk(cfg, st, n))
    && (st.snapshot.Some? && st.snapshot.value.trusted ==>
          var snap := st.snapshot.value;
          ReplicaOk(cfg, st.nodes, st.logs, snap.db, snap.pos, snap.origins))
    && (st.snapshot.Some? ==> Within(st.snapshot.value.pos, st.logs))
  }

  /** Logs only grow, and an unsettled row stays so until some log gets an entry for it. */
  ghost predicate Evolves(cfg: Config, st: State, st': State)
    requires ValidConfig(cfg) && Shape(cfg, st) && Shape(cfg, st')
  {
    && (forall s :: 0 <= s < cfg.shards ==> st.logs[s] <= st'.logs[s])
    && (forall n, k :: 0 <= n < |st.nodes| && Unsettled(st.nodes[n], k) ==>
          || Unsettled(st'.nodes[n], k)
          || Mentions(st'.logs[cfg.route(k)][|st.logs[cfg.route(k)]|..], k))
  }

  lemma ReplicaFrame(cfg: Config, st: State, st': State, db: Database, pos: seq<nat>, origins: set<nat>)
    requires ValidConfig(cfg) && Shape(cfg, st) && Shape(cfg, st') && Evolves(cfg, st, st')
    requires ReplicaOk(cfg, st.nodes, st.logs, db, pos, origins)
    ensures ReplicaOk(cfg, st'.nodes, st'.logs, db, pos, origins)
  {
    assert Within(pos, st'.logs);
    forall k ensures RowOk(cfg, st'.nodes, st'.logs, db, pos, origins, k) {
      RowFrame(cfg, st, st', db, pos, origins, k);
    }
  }

  lemma RowFrame(cfg: Config, st: State, st': State, db: Database, pos: seq<nat>, origins: set<nat>, k: RowKey)
    requires ValidConfig(cfg) && Shape(cfg, st) && Shape(cfg, st') && Evolves(cfg, st, st')
    requires Within(pos, st.logs) && Within(pos, st'.logs)
    requires RowOk(cfg, st.nodes, st.logs, db, pos, origins, k)
    ensures RowOk(cfg, st'.nodes, st'.logs, db, pos, origins, k)
  {
    var s := cfg.route(k);
    var log, log', p := st.logs[s], st'.logs[s], pos[s];
    if Mentions(log[p..], k) {
      var i :| 0 <= i < |log[p..]| && log[p..][i].key == k;
      assert log'[p..][i] == log[p..][i];
    } else if Mentions(log'[|log|..], k) {
      var i :| 0 <= i < |log'[|log|..]| && log'[|log|..][i].key == k;
      assert log'[p..][|log| - p + i] == log'[|log|..][i];
    } else {
      assert log'[..|log|] == log;
      LatestPrefix(Get(cfg.initial, k), log', |log|, k);
    }
  }
}
