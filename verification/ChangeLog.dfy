/** The change log inside a node's database: one log table per watched table, a
    global log that orders all changes, the triggers that append to both in one
    transaction, and the publisher that drains the global log. */
module ChangeLog {
  import opened Basics
  import opened Store
  import opened Tables

  datatype RowState = Pending | Published

  datatype LogRow = LogRow(kind: EventType, row: Row, createdAt: int, state: RowState)

  /** A row of a table's log: the watched table and the row's id in its log. */
  datatype LogKey = LogKey(table: Name, rowId: nat)

  datatype GlobalEntry = GlobalEntry(id: nat, at: LogKey)

  /** The log tables of a node, all of them in `rows`; `global` is in id order. */
  datatype Logs = Logs(rows: map<LogKey, LogRow>, nextRow: map<Name, nat>, global: seq<GlobalEntry>, nextId: nat)

  function Empty(watched: set<Name>): Logs {
    Logs(map[], map t | t in watched :: 1, [], 1)
  }

  /******* What each statement does to the logs *******/

  /** The trigger of an insert, update or delete: a pending row in the table's
      log and an entry for it in the global log. */
  function Captured(l: Logs, table: Name, kind: EventType, row: Row, now: int): Logs
    requires table in l.nextRow
  {
    var k := LogKey(table, l.nextRow[table]);
    Logs(l.rows[k := LogRow(kind, row, now, Pending)],
         l.nextRow[table := k.rowId + 1],
         l.global + [GlobalEntry(l.nextId, k)],
         l.nextId + 1)
  }

  /** The position of an id, which is the primary key of the global log. */
  function Find(global: seq<GlobalEntry>, id: nat, from: nat): (i: nat)
    requires from <= |global|
    ensures from <= i <= |global| && (i < |global| ==> global[i].id == id)
    ensures forall j :: from <= j < i ==> global[j].id != id
    decreases |global| - from
  {
    if from == |global| || global[from].id == id then from else Find(global, id, from + 1)
  }

  function Without(global: seq<GlobalEntry>, id: nat): seq<GlobalEntry> {
    var i := Find(global, id, 0);
    if i < |global| then global[..i] + global[i + 1..] else global
  }

  /** The transaction that marks a change published. */
  function Marked(l: Logs, e: GlobalEntry): Logs {
    l.(rows := if e.at in l.rows then l.rows[e.at := l.rows[e.at].(state := Published)] else l.rows,
       global := Without(l.global, e.id))
  }

  predicate Expired(r: LogRow, before: int) {
    r.state == Published && r.createdAt <= before
  }

  function Cleaned(l: Logs, before: int): Logs {
    l.(rows := map k | k in l.rows && !Expired(l.rows[k], before) :: l.rows[k])
  }

  /******* Linkage *******/

  function PendingRows(l: Logs): set<LogKey> {
    set k | k in l.rows && l.rows[k].state == Pending
  }

  function Targets(global: seq<GlobalEntry>): set<LogKey> {
    set i | 0 <= i < |global| :: global[i].at
  }

  predicate Ordered(global: seq<GlobalEntry>) {
    forall i, j :: 0 <= i < j < |global| ==> global[i].id < global[j].id && global[i].at != global[j].at
  }

  /** Global entries and pending log rows correspond one to one: the targets are
      exactly the pending rows, and no two entries share a target or an id. */
  ghost predicate Linked(l: Logs) {
    && Targets(l.global) == PendingRows(l)
    && Ordered(l.global) && l.nextId >= 1
    && (forall i :: 0 <= i < |l.global| ==> 1 <= l.global[i].id < l.nextId)
    && (forall k :: k in l.rows ==> k.table in l.nextRow && k.rowId < l.nextRow[k.table])
  }

  lemma TargetsSnoc(global: seq<GlobalEntry>, e: GlobalEntry)
    ensures Targets(global + [e]) == Targets(global) + {e.at}
  {
    var more := global + [e];
    assert more[|global|] == e;
    assert forall i :: 0 <= i < |global| ==> more[i] == global[i];
  }

  lemma CapturedLinked(l: Logs, table: Name, kind: EventType, row: Row, now: int)
    requires Linked(l) && table in l.nextRow
    ensures Linked(Captured(l, table, kind, row, now))
  {
    var l' := Captured(l, table, kind, row, now);
    var e := GlobalEntry(l.nextId, LogKey(table, l.nextRow[table]));
    TargetsSnoc(l.global, e);
    assert e.at !in l.rows;
    assert PendingRows(l') == PendingRows(l) + {e.at};
    forall i, j | 0 <= i < j < |l'.global|
      ensures l'.global[i].id < l'.global[j].id && l'.global[i].at != l'.global[j].at
    {
      assert l'.global[i] == l.global[i];
      assert l.global[i].at in Targets(l.global);
    }
  }

  lemma WithoutAt(global: seq<GlobalEntry>, i: nat)
    requires Ordered(global) && i < |global|
    ensures Without(global, global[i].id) == global[..i] + global[i + 1..]
  {
    assert Find(global, global[i].id, 0) == i;
  }

  lemma TargetsWithout(global: seq<GlobalEntry>, i: nat)
    requires Ordered(global) && i < |global|
    ensures Targets(global[..i] + global[i + 1..]) == Targets(global) - {global[i].at}
  {
    var less := global[..i] + global[i + 1..];
    forall k | k in Targets(global) && k != global[i].at ensures k in Targets(less) {
      var j :| 0 <= j < |global| && global[j].at == k;
      assert less[if j < i then j else j - 1] == global[j];
    }
    forall k | k in Targets(less) ensures k in Targets(global) && k != global[i].at {
      var j :| 0 <= j < |less| && less[j].at == k;
      assert less[j] == global[if j < i then j else j + 1];
    }
  }

  lemma MarkedLinked(l: Logs, i: nat)
    requires Linked(l) && i < |l.global|
    ensures Linked(Marked(l, l.global[i]))
    ensures Marked(l, l.global[i]).global == l.global[..i] + l.global[i + 1..]
  {
    var l', e := Marked(l, l.global[i]), l.global[i];
    WithoutAt(l.global, i);
    TargetsWithout(l.global, i);
    assert e.at in Targets(l.global);
    assert PendingRows(l') == PendingRows(l) - {e.at};
    assert forall j :: 0 <= j < |l'.global| ==> l'.global[j] == l.global[if j < i then j else j + 1];
  }

  lemma CleanedLinked(l: Logs, before: int)
    requires Linked(l)
    ensures Linked(Cleaned(l, before)) && Cleaned(l, before).global == l.global
  {
    assert PendingRows(Cleaned(l, before)) == PendingRows(l);
  }

  /******* The logs as an ordered outbox of changes *******/

  function ChangeAt(schemas: map<Name, Schema>, l: Logs, k: LogKey): Option<Change> {
    if k.table in schemas && k in l.rows && l.rows[k].kind != Unknown
    then Some(ChangeOf(schemas[k.table], Event(l.rows[k].kind, k.table, l.rows[k].row)))
    else None
  }

  function Outbox(schemas: map<Name, Schema>, l: Logs): seq<Option<Change>> {
    seq(|l.global|, i requires 0 <= i < |l.global| => ChangeAt(schemas, l, l.global[i].at))
  }

  /** A captured change joins the end of the outbox and no other entry changes. */
  lemma CaptureAppends(schemas: map<Name, Schema>, l: Logs, table: Name, kind: EventType, row: Row, now: int)
    requires Linked(l) && table in l.nextRow && table in schemas && kind != Unknown
    ensures Outbox(schemas, Captured(l, table, kind, row, now)) ==
            Outbox(schemas, l) + [Some(ChangeOf(schemas[table], Event(kind, table, row)))]
  {
    var l' := Captured(l, table, kind, row, now);
    forall i | 0 <= i < |l.global| ensures Outbox(schemas, l')[i] == Outbox(schemas, l)[i] {
      assert l.global[i].at in PendingRows(l);
      assert l'.rows[l.global[i].at] == l.rows[l.global[i].at];
    }
  }

  /** Cleanup takes nothing out of the outbox. */
  lemma CleanupKeeps(schemas: map<Name, Schema>, l: Logs, before: int)
    requires Linked(l)
    ensures Outbox(schemas, Cleaned(l, before)) == Outbox(schemas, l)
  {
    forall i | 0 <= i < |l.global| ensures Outbox(schemas, Cleaned(l, before))[i] == Outbox(schemas, l)[i] {
      assert l.global[i].at in PendingRows(l);
    }
  }
}
