/** Shard routing: the hash of a table name and its sorted primary-key columns,
    with the process-wide cache of sorted column lists. */
module Routing {
  import opened Basics
  import Cbor
  import opened Store
  import opened Tables

  /******* Byte order of strings *******/

  predicate Le(a: Name, b: Name) {
    a == [] || (b != [] && (a[0] < b[0] || (a[0] == b[0] && Le(a[1..], b[1..]))))
  }

  lemma {:induction false} LeTotal(a: Name, b: Name)
    ensures Le(a, b) || Le(b, a)
  {
    if a != [] && b != [] && a[0] == b[0] {
      LeTotal(a[1..], b[1..]);
    }
  }

  lemma {:induction false} LeAntisymmetric(a: Name, b: Name)
    requires Le(a, b) && Le(b, a)
    ensures a == b
  {
    if a != [] {
      LeAntisymmetric(a[1..], b[1..]);
      assert a == [a[0]] + a[1..] && b == [b[0]] + b[1..];
    }
  }

  lemma {:induction false} LeTransitive(a: Name, b: Name, c: Name)
    requires Le(a, b) && Le(b, c)
    ensures Le(a, c)
  {
    if a != [] && a[0] == b[0] == c[0] {
      LeTransitive(a[1..], b[1..], c[1..]);
    }
  }

  /** Byte order: a prefix first, otherwise the smaller first differing byte. */
  lemma {:induction false} LeExactly(a: Name, b: Name)
    ensures Le(a, b) <==> a <= b || exists i :: 0 <= i < |a| && i < |b| && a[..i] == b[..i] && a[i] < b[i]
  {
    if a != [] && b != [] && a[0] == b[0] {
      LeExactly(a[1..], b[1..]);
      assert a == [a[0]] + a[1..] && b == [b[0]] + b[1..];
      if i :| 0 <= i < |a| && i < |b| && a[..i] == b[..i] && a[i] < b[i] {
        assert i > 0;
        assert a[1..][..i - 1] == a[..i][1..] && b[1..][..i - 1] == b[..i][1..];
        assert a[1..][i - 1] < b[1..][i - 1];
      }
      if i :| 0 <= i < |a[1..]| && i < |b[1..]| && a[1..][..i] == b[1..][..i] && a[1..][i] < b[1..][i] {
        assert a[..i + 1] == [a[0]] + a[1..][..i] && b[..i + 1] == [b[0]] + b[1..][..i];
        assert a[i + 1] < b[i + 1];
      }
    } else if a != [] && b != [] {
      assert a[..0] == b[..0];
    }
  }

  predicate Sorted(s: seq<Name>) {
    forall i, j :: 0 <= i < j < |s| ==> Le(s[i], s[j])
  }

  function Insert(x: Name, s: seq<Name>): seq<Name> {
    if s == [] then [x] else if Le(x, s[0]) then [x] + s else [s[0]] + Insert(x, s[1..])
  }

  function Sort(s: seq<Name>): seq<Name> {
    if s == [] then [] else Insert(s[0], Sort(s[1..]))
  }

  lemma {:induction false} InsertSorts(x: Name, s: seq<Name>)
    requires Sorted(s)
    ensures Sorted(Insert(x, s)) && multiset(Insert(x, s)) == multiset(s) + multiset{x}
  {
    if s == [] {
    } else if Le(x, s[0]) {
      forall j | 0 <= j < |s| ensures Le(x, s[j]) {
        if j > 0 {
          LeTransitive(x, s[0], s[j]);
        }
      }
    } else {
      var rest := Insert(x, s[1..]);
      InsertSorts(x, s[1..]);
      LeTotal(x, s[0]);
      assert s == [s[0]] + s[1..];
      forall j | 0 <= j < |rest| ensures Le(s[0], rest[j]) {
        assert rest[j] in multiset(rest);
        assert rest[j] in multiset(s[1..]) || rest[j] == x;
        if rest[j] != x {
          var i :| 0 <= i < |s[1..]| && s[1..][i] == rest[j];
          assert s[i + 1] == rest[j];
        }
      }
    }
  }

  lemma {:induction false} SortSorts(s: seq<Name>)
    ensures Sorted(Sort(s)) && multiset(Sort(s)) == multiset(s)
  {
    if s != [] {
      SortSorts(s[1..]);
      InsertSorts(s[0], Sort(s[1..]));
      assert s == [s[0]] + s[1..];
    }
  }

  /** There is one sorted arrangement of given names. */
  lemma {:induction false} SortedUnique(a: seq<Name>, b: seq<Name>)
    requires Sorted(a) && Sorted(b) && multiset(a) == multiset(b)
    ensures a == b
    decreases |a|
  {
    assert |multiset(a)| == |a| && |multiset(b)| == |b|;
    if a != [] {
      HeadIsLeast(a, b);
      HeadIsLeast(b, a);
      LeAntisymmetric(a[0], b[0]);
      TailMultiset(a);
      TailMultiset(b);
      SortedUnique(a[1..], b[1..]);
    }
  }

  lemma TailMultiset<T>(s: seq<T>)
    requires s != []
    ensures multiset(s[1..]) == multiset(s) - multiset{s[0]}
  {
    assert s == [s[0]] + s[1..];
  }

  lemma HeadIsLeast(a: seq<Name>, b: seq<Name>)
    requires Sorted(a) && multiset(a) == multiset(b) && a != [] && b != []
    ensures Le(a[0], b[0])
  {
    assert b[0] in multiset(b);
    assert b[0] in multiset(a);
    var i :| 0 <= i < |a| && a[i] == b[0];
    LeTotal(a[0], a[0]);
  }

  /******* Sorted key columns and their cache *******/

  function KeyColumnList(schema: Schema): seq<Name> {
    if schema == [] then []
    else
      var last := schema[|schema| - 1];
      KeyColumnList(schema[..|schema| - 1]) + if last.isPrimaryKey then [last.name] else []
  }

  lemma {:induction false} KeyColumnListIs(schema: Schema)
    requires DistinctColumns(schema)
    ensures OrderOf(KeyColumnList(schema), KeyColumns(schema))
  {
    if schema != [] {
      var init, last := schema[..|schema| - 1], schema[|schema| - 1];
      KeyColumnListIs(init);
      assert forall i :: 0 <= i < |init| ==> init[i] == schema[i];
      assert KeyColumns(schema) == KeyColumns(init) + if last.isPrimaryKey then {last.name} else {};
      assert last.name !in KeyColumns(init);
    }
  }

  lemma {:induction false} OrderMultiset<T(!new)>(order: seq<T>, keys: set<T>)
    requires OrderOf(order, keys)
    ensures multiset(order) == multiset(keys)
  {
    if order == [] {
      assert keys == {};
    } else {
      var init, last := order[..|order| - 1], order[|order| - 1];
      OrderMultiset(init, keys - {last});
      assert order == init + [last];
    }
  }

  /** The sorted key columns depend on the set of key columns alone, not on the
      order in which a node's schema declares them. */
  lemma DeclarationOrderIrrelevant(a: Schema, b: Schema)
    requires DistinctColumns(a) && DistinctColumns(b) && KeyColumns(a) == KeyColumns(b)
    ensures Sort(KeyColumnList(a)) == Sort(KeyColumnList(b))
  {
    KeyColumnListIs(a);
    KeyColumnListIs(b);
    OrderMultiset(KeyColumnList(a), KeyColumns(a));
    OrderMultiset(KeyColumnList(b), KeyColumns(b));
    SortSorts(KeyColumnList(a));
    SortSorts(KeyColumnList(b));
    SortedUnique(Sort(KeyColumnList(a)), Sort(KeyColumnList(b)));
  }

  class ColumnCache {
    var entries: map<Name, seq<Name>>

    /** Every cached list belongs to the table's schema. */
    predicate Coherent(schemas: map<Name, Schema>)
      reads this
    {
      forall t :: t in entries ==> t in schemas && entries[t] == Sort(KeyColumnList(schemas[t]))
    }

    constructor ()
      ensures entries == map[]
    {
      entries := map[];
    }

    method GetSortedPKColumns(schemas: map<Name, Schema>, table: Name) returns (columns: seq<Name>)
      requires table in schemas && Coherent(schemas)
      modifies this
      ensures Coherent(schemas) && columns == Sort(KeyColumnList(schemas[table]))
      ensures entries.Keys == old(entries).Keys + {table}
    {
      if table in entries {
        return entries[table];
      }
      var info := schemas[table];
      columns := [];
      for i := 0 to |info|
        invariant columns == KeyColumnList(info[..i])
      {
        assert info[..i + 1][..i] == info[..i];
        if info[i].isPrimaryKey {
          columns := columns + [info[i].name];
        }
      }
      assert info[..|info|] == info;
      columns := Sort(columns);
      entries := entries[table := columns];
    }
  }

  /******* The hash input and the shard *******/

  const ARRAY_START: byte := 0x9f
  const BREAK: byte := 0xff
  const PAIR: byte := 0x82
  const MAJOR_ARRAY: nat := 4

  /** An array of two, and the start and end of an array of unstated length
      (sections 3.1 and 3.2.2 of RFC 8949). */
  lemma MarkersAre()
    ensures Cbor.Head(MAJOR_ARRAY, 2) == [PAIR]
    ensures ARRAY_START == MAJOR_ARRAY * 32 + 31 && BREAK == 7 * 32 + 31
  {
    var rest := Cbor.BigEndian(2, 0);
    assert rest == [];
  }

  /** How values are encoded, and the 64-bit hash: any functions at all. */
  datatype Codec = Codec(encode: Value -> seq<byte>, hash: seq<byte> -> nat)

  function PairBytes(c: Codec, k: Name, v: Value): seq<byte> {
    [PAIR] + Cbor.Text(k) + c.encode(v)
  }

  function KeyBytes(c: Codec, columns: seq<Name>, row: Row): seq<byte> {
    if columns == [] then []
    else
      var k := columns[|columns| - 1];
      KeyBytes(c, columns[..|columns| - 1], row) + PairBytes(c, k, At(row, k))
  }

  function Preimage(c: Codec, table: Name, columns: seq<Name>, row: Row): seq<byte> {
    [ARRAY_START] + Cbor.Text(table) + KeyBytes(c, columns, row) + [BREAK]
  }

  function ShardOf(c: Codec, shards: nat, table: Name, columns: seq<Name>, row: Row): (s: nat)
    requires shards >= 1
    ensures 1 <= s <= shards
  {
    c.hash(Preimage(c, table, columns, row)) % shards + 1
  }

  /** The shard of a row, as a function of the row's table and key alone. */
  ghost function RouteOf(c: Codec, shards: nat, k: RowKey): (s: nat)
    requires shards >= 1
    ensures 1 <= s <= shards
  {
    ShardOf(c, shards, k.table, Sort(SomeOrder(k.pk.Keys)), k.pk)
  }

  lemma {:induction false} KeyBytesSeeOnlyKeys(c: Codec, columns: seq<Name>, row: Row, row': Row)
    requires forall k :: k in columns ==> At(row, k) == At(row', k)
    ensures KeyBytes(c, columns, row) == KeyBytes(c, columns, row')
  {
    if columns != [] {
      KeyBytesSeeOnlyKeys(c, columns[..|columns| - 1], row, row');
    }
  }

  /** The hashed bytes are those of the row's key, in whatever order a schema
      declares its columns and whatever the other columns hold. */
  lemma PreimageOfKey(c: Codec, schema: Schema, table: Name, row: Row)
    requires DistinctColumns(schema)
    ensures var key := KeyOf(schema, row);
            Preimage(c, table, Sort(KeyColumnList(schema)), row) == Preimage(c, table, Sort(SomeOrder(key.Keys)), key)
  {
    var key := KeyOf(schema, row);
    var columns, order := KeyColumnList(schema), SomeOrder(key.Keys);
    KeyColumnListIs(schema);
    OrderMultiset(columns, KeyColumns(schema));
    OrderMultiset(order, key.Keys);
    SortSorts(columns);
    SortSorts(order);
    SortedUnique(Sort(columns), Sort(order));
    forall k | k in Sort(columns) ensures At(row, k) == At(key, k) {
      assert k in multiset(Sort(columns));
      assert k in multiset(columns);
    }
    KeyBytesSeeOnlyKeys(c, Sort(columns), row, key);
  }

  /** Routing agreement: on every node, in whatever order its schema declares the
      columns and whatever the other columns hold, an event goes to the shard
      of its row. */
  lemma RoutingAgreement(c: Codec, shards: nat, schema: Schema, table: Name, row: Row)
    requires shards >= 1 && DistinctColumns(schema)
    ensures ShardOf(c, shards, table, Sort(KeyColumnList(schema)), row)
         == RouteOf(c, shards, RowKey(table, KeyOf(schema, row)))
  {
    PreimageOfKey(c, schema, table, row);
  }

  /******* The hashed bytes determine the key *******/

  /** No encoded value is the beginning of another, as in every CBOR encoding. */
  ghost predicate PrefixFree(encode: Value -> seq<byte>) {
    forall v, w, x: seq<byte>, y: seq<byte> :: encode(v) + x == encode(w) + y ==> v == w
  }

  predicate ShortNames(names: seq<Name>) {
    forall i :: 0 <= i < |names| ==> |names[i]| < Cbor.U64
  }

  lemma TextPrefixFree(a: Name, b: Name, x: seq<byte>, y: seq<byte>)
    requires |a| < Cbor.U64 && |b| < Cbor.U64 && Cbor.Text(a) + x == Cbor.Text(b) + y
    ensures a == b && x == y
  {
    Cbor.TextRoundTrip(a, x);
    Cbor.TextRoundTrip(b, y);
  }

  lemma SameTail(a: seq<byte>, x: seq<byte>, y: seq<byte>)
    requires a + x == a + y
    ensures x == y
  {
    assert x == (a + x)[|a|..] && y == (a + y)[|a|..];
  }

  lemma PairPrefixFree(c: Codec, k: Name, v: Value, x: seq<byte>, l: Name, w: Value, y: seq<byte>)
    requires PrefixFree(c.encode) && |k| < Cbor.U64 && |l| < Cbor.U64
    requires PairBytes(c, k, v) + x == PairBytes(c, l, w) + y
    ensures k == l && v == w && x == y
  {
    assert PairBytes(c, k, v) + x == [PAIR] + (Cbor.Text(k) + (c.encode(v) + x));
    assert PairBytes(c, l, w) + y == [PAIR] + (Cbor.Text(l) + (c.encode(w) + y));
    SameTail([PAIR], Cbor.Text(k) + (c.encode(v) + x), Cbor.Text(l) + (c.encode(w) + y));
    TextPrefixFree(k, l, c.encode(v) + x, c.encode(w) + y);
    SameTail(c.encode(v), x, y);
  }

  lemma {:induction false} KeyBytesCons(c: Codec, columns: seq<Name>, row: Row)
    requires columns != []
    ensures KeyBytes(c, columns, row) ==
            PairBytes(c, columns[0], At(row, columns[0])) + KeyBytes(c, columns[1..], row)
  {
    var last := |columns| - 1;
    if last > 0 {
      KeyBytesCons(c, columns[..last], row);
      assert columns[..last][1..] == columns[1..][..last - 1];
    }
  }

  /** The rest of a hash input, from the key columns on. */
  function KeyTail(c: Codec, columns: seq<Name>, row: Row): (b: seq<byte>)
    ensures |b| > 0
  {
    KeyBytes(c, columns, row) + [BREAK]
  }

  lemma KeyTailCons(c: Codec, columns: seq<Name>, row: Row)
    requires columns != []
    ensures KeyTail(c, columns, row) ==
            PairBytes(c, columns[0], At(row, columns[0])) + KeyTail(c, columns[1..], row)
  {
    KeyBytesCons(c, columns, row);
  }

  lemma FirstByte(c: Codec, columns: seq<Name>, row: Row)
    ensures KeyTail(c, columns, row)[0] == if columns == [] then BREAK else PAIR
  {
    if columns != [] {
      KeyTailCons(c, columns, row);
    }
  }

  lemma {:induction false} KeyTailInjective(c: Codec, a: seq<Name>, row: Row, b: seq<Name>, row': Row)
    requires PrefixFree(c.encode) && ShortNames(a) && ShortNames(b) && KeyTail(c, a, row) == KeyTail(c, b, row')
    ensures a == b && forall k :: k in a ==> At(row, k) == At(row', k)
  {
    FirstByte(c, a, row);
    FirstByte(c, b, row');
    if a != [] {
      KeyTailCons(c, a, row);
      KeyTailCons(c, b, row');
      PairPrefixFree(c, a[0], At(row, a[0]), KeyTail(c, a[1..], row), b[0], At(row', b[0]), KeyTail(c, b[1..], row'));
      KeyTailInjective(c, a[1..], row, b[1..], row');
      assert a == [a[0]] + a[1..] && b == [b[0]] + b[1..];
    }
  }

  /** Equal hash inputs stand for the same table, key columns and key values. */
  lemma PreimageInjective(c: Codec, table: Name, a: seq<Name>, row: Row, table': Name, b: seq<Name>, row': Row)
    requires PrefixFree(c.encode) && |table| < Cbor.U64 && |table'| < Cbor.U64 && ShortNames(a) && ShortNames(b)
    requires Preimage(c, table, a, row) == Preimage(c, table', b, row')
    ensures table == table' && a == b && forall k :: k in a ==> At(row, k) == At(row', k)
  {
    var x, y := KeyTail(c, a, row), KeyTail(c, b, row');
    assert Preimage(c, table, a, row) == [ARRAY_START] + (Cbor.Text(table) + x);
    assert Preimage(c, table', b, row') == [ARRAY_START] + (Cbor.Text(table') + y);
    SameTail([ARRAY_START], Cbor.Text(table) + x, Cbor.Text(table') + y);
    TextPrefixFree(table, table', x, y);
    KeyTailInjective(c, a, row, b, row');
  }

  lemma SortedColumns(schema: Schema)
    requires DistinctColumns(schema)
    ensures forall k :: k in Sort(KeyColumnList(schema)) <==> k in KeyColumns(schema)
  {
    var columns := KeyColumnList(schema);
    KeyColumnListIs(schema);
    SortSorts(columns);
    forall k ensures k in Sort(columns) <==> k in KeyColumns(schema) {
      assert k in Sort(columns) <==> k in multiset(Sort(columns));
      assert k in columns <==> k in multiset(columns);
    }
  }

  /** What is hashed is the row's table and key, no more and no less: two events, on
      any nodes, are hashed alike if and only if they are of the same row. */
  lemma HashedExactly(c: Codec, schema: Schema, table: Name, row: Row, schema': Schema, table': Name, row': Row)
    requires PrefixFree(c.encode) && |table| < Cbor.U64 && |table'| < Cbor.U64
    requires DistinctColumns(schema) && DistinctColumns(schema')
    requires ShortNames(Sort(KeyColumnList(schema))) && ShortNames(Sort(KeyColumnList(schema')))
    ensures Preimage(c, table, Sort(KeyColumnList(schema)), row) ==
            Preimage(c, table', Sort(KeyColumnList(schema')), row')
            <==> RowKey(table, KeyOf(schema, row)) == RowKey(table', KeyOf(schema', row'))
  {
    var a, b := Sort(KeyColumnList(schema)), Sort(KeyColumnList(schema'));
    PreimageOfKey(c, schema, table, row);
    PreimageOfKey(c, schema', table', row');
    if Preimage(c, table, a, row) == Preimage(c, table', b, row') {
      PreimageInjective(c, table, a, row, table', b, row');
      SortedColumns(schema);
      SortedColumns(schema');
      assert KeyColumns(schema) == KeyColumns(schema');
      assert KeyOf(schema, row) == KeyOf(schema', row');
    }
  }

  /** The hasher is fed the table name and then each key column with its value. */
  method Hash(c: Codec, table: Name, columns: seq<Name>, row: Row) returns (sum: nat)
    ensures sum == c.hash(Preimage(c, table, columns, row))
  {
    var start := [ARRAY_START] + Cbor.Text(table);
    var hashed := start;
    for i := 0 to |columns|
      invariant hashed == start + KeyBytes(c, columns[..i], row)
    {
      assert columns[..i + 1][..i] == columns[..i];
      ghost var before := KeyBytes(c, columns[..i], row);
      var pair := PairBytes(c, columns[i], At(row, columns[i]));
      assert start + before + pair == start + (before + pair);
      hashed := hashed + pair;
    }
    assert columns[..|columns|] == columns;
    sum := c.hash(hashed + [BREAK]);
  }

  /** The shard Publish sends an event to; the cache may hold anything coherent
      from earlier events. */
  method Route(cache: ColumnCache, c: Codec, shards: nat, schemas: map<Name, Schema>, e: Event) returns (shard: nat)
    requires shards >= 1 && e.table in schemas && DistinctColumns(schemas[e.table]) && cache.Coherent(schemas)
    modifies cache
    ensures cache.Coherent(schemas)
    ensures shard == RouteOf(c, shards, RowKey(e.table, KeyOf(schemas[e.table], e.row)))
    ensures 1 <= shard <= shards
  {
    var columns := cache.GetSortedPKColumns(schemas, e.table);
    var sum := Hash(c, e.table, columns, e.row);
    shard := sum % shards + 1;
    RoutingAgreement(c, shards, schemas[e.table], e.table, e.row);
  }
}
