/** The pool of SQLite connections: a fixed number of connection objects that
    move between the pool's channel and its borrowers. */
module Pool {

  class SQLiteConnection {
    var initialised: bool          // the atomic state, 0 or 1
    var disposer: SQLitePool?

    constructor ()
      ensures !initialised && disposer == null
    {
      initialised, disposer := false, null;
    }

    /** Opens the connection unless it is open; `opens` says whether SQLite can. */
    method Init(pool: SQLitePool, opens: bool) returns (ok: bool)
      modifies this
      ensures ok == (old(initialised) || opens)
      ensures old(initialised) ==> initialised && disposer == old(disposer)
      ensures !old(initialised) ==> initialised == opens && disposer == if opens then pool else old(disposer)
    {
      if initialised {
        return true;
      }
      initialised := true;
      if !opens {
        initialised := false;
        return false;
      }
      disposer := pool;
      return true;
    }
  }

  class SQLitePool {
    const size: nat
    var connections: seq<SQLiteConnection>     // the channel, capacity `size`
    ghost var lent: set<SQLiteConnection>

    ghost predicate Distinct() reads this {
      forall i, j :: 0 <= i < j < |connections| ==> connections[i] != connections[j]
    }

    /** Idle and lent connections are different objects, `size` in all; every
        open one, and every lent one, answers to this pool. */
    ghost predicate Valid()
      reads this, connections, lent
    {
      && |connections| + |lent| == size && Distinct()
      && (forall c :: c in connections ==> c !in lent)
      && (forall c :: c in connections ==> c.initialised ==> c.disposer == this)
      && (forall c :: c in lent ==> c.initialised && c.disposer == this)
    }

    /** A pool whose channel is yet to be filled. */
    constructor (size: nat)
      ensures this.size == size && connections == [] && lent == {}
    {
      this.size := size;
      connections, lent := [], {};
    }

    /** Takes a connection from the channel, waiting for one: a caller gets past
        the receive only when the channel is not empty. If it cannot be opened a
        new, closed connection takes its place. */
    method Borrow(opens: bool) returns (c: SQLiteConnection?)
      requires Valid() && connections != []
      modifies this, connections
      ensures Valid()
      ensures c != null <==> old(connections[0].initialised) || opens
      ensures c != null ==>
                && c == old(connections[0]) && c !in old(lent) && lent == old(lent) + {c}
                && c.initialised && c.disposer == this && connections == old(connections[1..])
      ensures c == null ==>
                && lent == old(lent) && |connections| == |old(connections)|
                && connections[..size - |lent| - 1] == old(connections[1..])
                && fresh(connections[|connections| - 1])
    {
      var d := connections[0];
      connections := connections[1..];
      assert d !in connections;
      var ok := d.Init(this, opens);
      if !ok {
        var replacement := new SQLiteConnection();
        connections := connections + [replacement];
        return null;
      }
      lent := lent + {d};
      return d;
    }

    /** A lent connection always finds room in the channel, and one that belongs to
        another pool is refused. Returning one that is not lent, a second time
        say, waits forever on a full channel, and otherwise puts the pool out of
        order. */
    method Dispose(c: SQLiteConnection) returns (r: Return)
      requires Valid()
      modifies this
      ensures r == WrongPool <==> c.disposer != this
      ensures r == Blocks <==> c.disposer == this && |old(connections)| == size
      ensures r != Returned ==> connections == old(connections) && lent == old(lent)
      ensures r == Returned ==>
                && connections == old(connections) + [c] && lent == old(lent) - {c}
                && (Valid() <==> c in old(lent))
      ensures c in old(lent) ==> r == Returned
    {
      if c.disposer != this {
        return WrongPool;
      }
      assert c in lent ==> |lent - {c}| == |lent| - 1;
      if |connections| == size {
        return Blocks;
      }
      assert c !in lent ==> lent - {c} == lent;
      connections, lent := connections + [c], lent - {c};
      return Returned;
    }
  }

  datatype Return = Returned | WrongPool | Blocks

  /** A pool with its connections, opened now or on their first use; opens(i) says
      whether SQLite can open the i-th. */
  method NewSQLitePool(size: nat, lazy: bool, opens: nat -> bool) returns (pool: SQLitePool?)
    ensures pool == null <==> !lazy && exists i: nat :: i < size && !opens(i)
    ensures pool != null ==>
              && fresh(pool) && fresh(pool.connections) && pool.Valid()
              && pool.size == size && |pool.connections| == size && pool.lent == {}
              && forall c :: c in pool.connections ==> c.initialised == !lazy
  {
    var ret := new SQLitePool(size);
    for i := 0 to size
      invariant fresh(ret) && fresh(ret.connections) && ret.size == size && |ret.connections| == i && ret.lent == {}
      invariant ret.Distinct()
      invariant forall c :: c in ret.connections ==> c.initialised == !lazy && (c.initialised ==> c.disposer == ret)
      invariant !lazy ==> forall j: nat :: j < i ==> opens(j)
    {
      var con := new SQLiteConnection();
      if !lazy {
        var ok := con.Init(ret, opens(i));
        if !ok {
          return null;
        }
      }
      assert con !in ret.connections;
      ret.connections := ret.connections + [con];
    }
    return ret;
  }

  /** A client borrows, or returns one of the connections that are out. */
  datatype Op = Take(client: nat, opens: bool) | GiveBack(which: nat)

  datatype Loan = Loan(client: nat, connection: SQLiteConnection)

  /** The loans are exactly what the pool has lent, each connection out once. */
  ghost predicate Lends(pool: SQLitePool, loans: seq<Loan>)
    reads pool
  {
    && |loans| == |pool.lent|
    && (forall i :: 0 <= i < |loans| ==> loans[i].connection in pool.lent)
    && (forall i, j :: 0 <= i < j < |loans| ==> loans[i].connection != loans[j].connection)
  }

  /** A borrow from an empty channel waits, so it is skipped here. */
  method Lend(pool: SQLitePool, loans: seq<Loan>, client: nat, opens: bool) returns (loans': seq<Loan>)
    requires pool.Valid() && Lends(pool, loans)
    modifies pool, pool.connections
    ensures pool.Valid() && Lends(pool, loans')
    ensures forall c :: c in pool.connections ==> c in old(pool.connections) || fresh(c)
    ensures forall c :: c in pool.lent ==> c in old(pool.lent) || c in old(pool.connections)
  {
    loans' := loans;
    if pool.connections != [] {
      var c := pool.Borrow(opens);
      if c != null {
        loans' := loans + [Loan(client, c)];
      }
    }
  }

  method TakeBack(pool: SQLitePool, loans: seq<Loan>, which: nat) returns (loans': seq<Loan>)
    requires pool.Valid() && Lends(pool, loans)
    modifies pool
    ensures pool.Valid() && Lends(pool, loans')
    ensures forall c :: c in pool.connections ==> c in old(pool.connections) || c in old(pool.lent)
    ensures pool.lent <= old(pool.lent)
  {
    loans' := loans;
    if which < |loans| {
      var c := loans[which].connection;
      loans' := loans[..which] + loans[which + 1..];
      assert forall i :: 0 <= i < |loans'| ==> loans'[i] == loans[if i < which then i else i + 1];
      var _ := pool.Dispose(c);
    }
  }

  /** Pool conservation: after any sequence of borrows and returns by any clients,
      the loans are exactly what the pool has lent. No connection is out twice
      or out and idle, each one out is open and answers to this pool, and with
      the idle ones they make up the pool. */
  method UsePool(size: nat, lazy: bool, opens: nat -> bool, ops: seq<Op>)
    returns (pool: SQLitePool?, loans: seq<Loan>)
    ensures pool == null <==> !lazy && exists i: nat :: i < size && !opens(i)
    ensures pool != null ==>
              && pool.Valid() && |pool.connections| + |loans| == size
              && (forall i :: 0 <= i < |loans| ==>
                    var c := loans[i].connection;
                    c in pool.lent && c !in pool.connections && c.initialised && c.disposer == pool)
              && (forall i, j :: 0 <= i < j < |loans| ==> loans[i].connection != loans[j].connection)
  {
    pool := NewSQLitePool(size, lazy, opens);
    loans := [];
    if pool == null {
      return;
    }
    for i := 0 to |ops|
      invariant fresh(pool) && pool.size == size && pool.Valid() && Lends(pool, loans)
      invariant forall c :: c in pool.connections || c in pool.lent ==> fresh(c)
    {
      assert forall j :: 0 <= j < |pool.connections| ==> pool.connections[j] in pool.connections;
      match ops[i]
      case Take(client, canOpen) => loans := Lend(pool, loans, client, canOpen);
      case GiveBack(which) => loans := TakeBack(pool, loans, which);
    }
  }
}
