/** Watched tables: their column information, primary-key maps, and the two
    statements that apply a replicated event, down to a single row. */
module Tables {
  import opened Basics
  import opened Store

  const ROWID: Name := [114, 111, 119, 105, 100]

  /** A row of pragma_table_info. */
  datatype PragmaColumn = PragmaColumn(name: Name, dflt: Value, pk: int)

  datatype ColumnInfo = ColumnInfo(name: Name, dflt: Value, isPrimaryKey: bool)

  type Schema = seq<ColumnInfo>

  datatype EventType = Insert | Update | Delete | Unknown

  datatype Event = Event(kind: EventType, table: Name, row: Row)

  type Key = map<Name, Value>

  type Table = map<Key, Row>

  datatype Error = NoTableMapping | InvalidOperation | NoSuchColumn

  datatype Result<+T> = Ok(value: T) | Err(error: Error)

  /******* Column information *******/

  predicate HasKeyColumn(info: Schema) {
    exists i :: 0 <= i < |info| && info[i].isPrimaryKey
  }

  /** Whatever a table declares, its information names a key column: a table
      without one is identified by its rowid. */
  method GetTableInfo(pragma: seq<PragmaColumn>) returns (info: Schema)
    ensures HasKeyColumn(info)
    ensures |pragma| <= |info| <= |pragma| + 1
    ensures forall i :: 0 <= i < |pragma| ==>
              info[i] == ColumnInfo(pragma[i].name, pragma[i].dflt, pragma[i].pk > 0)
    ensures |info| > |pragma| <==> forall i :: 0 <= i < |pragma| ==> pragma[i].pk <= 0
    ensures |info| > |pragma| ==> info[|pragma|] == ColumnInfo(ROWID, Null, true)
  {
    info := [];
    var hasPrimaryKey := false;
    for i := 0 to |pragma|
      invariant |info| == i
      invariant forall j :: 0 <= j < i ==> info[j] == ColumnInfo(pragma[j].name, pragma[j].dflt, pragma[j].pk > 0)
      invariant hasPrimaryKey <==> exists j :: 0 <= j < i && pragma[j].pk > 0
    {
      var c := ColumnInfo(pragma[i].name, pragma[i].dflt, pragma[i].pk > 0);
      if c.isPrimaryKey {
        hasPrimaryKey := true;
      }
      info := info + [c];
    }
    if !hasPrimaryKey {
      info := info + [ColumnInfo(ROWID, Null, true)];
      assert info[|pragma|].isPrimaryKey;
    } else {
      var j :| 0 <= j < |pragma| && pragma[j].pk > 0;
      assert info[j].isPrimaryKey;
    }
  }

  function Columns(schema: Schema): set<Name> {
    set i | 0 <= i < |schema| :: schema[i].name
  }

  function KeyColumns(schema: Schema): set<Name> {
    set i | 0 <= i < |schema| && schema[i].isPrimaryKey :: schema[i].name
  }

  predicate DistinctColumns(schema: Schema) {
    forall i, j :: 0 <= i < j < |schema| ==> schema[i].name != schema[j].name
  }

  /** A row that has a value for every column, as the change log records it. */
  predicate FullRow(schema: Schema, row: Row) {
    row.Keys == Columns(schema)
  }

  /** Reading an absent column of an event yields Null. */
  function At(row: Row, c: Name): Value {
    if c in row then row[c] else Null
  }

  function KeyOf(schema: Schema, row: Row): Key {
    map c | c in KeyColumns(schema) :: At(row, c)
  }

  method GetPrimaryKeyMap(schemas: map<Name, Schema>, e: Event) returns (key: Option<Key>)
    ensures key == if e.table in schemas then Some(KeyOf(schemas[e.table], e.row)) else None
    ensures key.Some? ==>
              && key.value.Keys == KeyColumns(schemas[e.table])
              && forall c :: c in key.value ==> key.value[c] == if c in e.row then e.row[c] else Null
  {
    if e.table !in schemas {
      return None;
    }
    var schema := schemas[e.table];
    var ret: Key := map[];
    for i := 0 to |schema|
      invariant ret == KeyOf(schema[..i], e.row)
    {
      assert KeyColumns(schema[..i + 1]) ==
             KeyColumns(schema[..i]) + if schema[i].isPrimaryKey then {schema[i].name} else {} by {
        assert forall j :: 0 <= j < i ==> schema[..i + 1][j] == schema[..i][j];
        assert schema[..i + 1][i] == schema[i];
      }
      if schema[i].isPrimaryKey {
        ret := ret[schema[i].name := At(e.row, schema[i].name)];
      }
    }
    assert schema[..|schema|] == schema;
    return Some(ret);
  }

  lemma KeyMapNotEmpty(schema: Schema, row: Row)
    requires HasKeyColumn(schema)
    ensures KeyOf(schema, row) != map[]
  {
    var i :| 0 <= i < |schema| && schema[i].isPrimaryKey;
    assert schema[i].name in KeyOf(schema, row);
  }

  /** Two rows have one key exactly when they hold the same value in every key column. */
  lemma SameKeyExactly(schema: Schema, a: Row, b: Row)
    requires FullRow(schema, a) && FullRow(schema, b)
    ensures KeyOf(schema, a) == KeyOf(schema, b) <==> forall c :: c in KeyColumns(schema) ==> a[c] == b[c]
  {
    var x, y := KeyOf(schema, a), KeyOf(schema, b);
    forall c | c in KeyColumns(schema) ensures c in a && c in b && x[c] == a[c] && y[c] == b[c] {
      assert c in Columns(schema);
    }
  }

  /******* The two statements *******/

  /** Rows are stored under their key and have every column. */
  predicate WellKeyed(schema: Schema, t: Table) {
    forall k :: k in t ==> k == KeyOf(schema, t[k]) && FullRow(schema, t[k])
  }

  function DefaultOf(schema: Schema, c: Name): Value
    requires c in Columns(schema)
  {
    if schema[|schema| - 1].name == c then schema[|schema| - 1].dflt
    else
      assert c in Columns(schema[..|schema| - 1]) by {
        var i :| 0 <= i < |schema| && schema[i].name == c;
        assert schema[..|schema| - 1][i].name == c;
      }
      DefaultOf(schema[..|schema| - 1], c)
  }

  /** INSERT OR REPLACE INTO t(names) VALUES(values). */
  function InsertOrReplace(schema: Schema, t: Table, names: seq<Name>, values: seq<Value>): Result<Table>
    requires |names| == |values|
  {
    if exists i :: 0 <= i < |names| && names[i] !in Columns(schema) then Err(NoSuchColumn)
    else
      var row := Stored(schema, Pairs(names, values));
      Ok(t[KeyOf(schema, row) := row])
  }

  /** What a row becomes in the table: columns the statement does not name take
      their default. */
  function Stored(schema: Schema, given: Row): (row: Row)
    ensures FullRow(schema, row) && (FullRow(schema, given) ==> row == given)
  {
    map c | c in Columns(schema) :: if c in given then given[c] else DefaultOf(schema, c)
  }

  lemma {:induction false} DefaultIs(schema: Schema, i: nat)
    requires DistinctColumns(schema) && i < |schema|
    ensures schema[i].name in Columns(schema) && DefaultOf(schema, schema[i].name) == schema[i].dflt
  {
    var last := |schema| - 1;
    if i < last {
      assert schema[..last][i] == schema[i];
      DefaultIs(schema[..last], i);
    }
  }

  /** Each column of a stored row has the given value, or the declared default. */
  lemma StoredAt(schema: Schema, given: Row, i: nat)
    requires DistinctColumns(schema) && i < |schema|
    ensures var c := schema[i];
            c.name in Stored(schema, given) &&
            Stored(schema, given)[c.name] == if c.name in given then given[c.name] else c.dflt
  {
    DefaultIs(schema, i);
  }

  function Pairs(names: seq<Name>, values: seq<Value>): Row
    requires |names| == |values|
  {
    if names == [] then map[]
    else Pairs(names[..|names| - 1], values[..|names| - 1])[names[|names| - 1] := values[|names| - 1]]
  }

  predicate Matches(row: Row, key: Key) {
    forall c :: c in key ==> At(row, c) == key[c]
  }

  /** DELETE FROM t WHERE every column of the key map has its value. */
  function DeleteWhere(t: Table, key: Key): Table {
    map k | k in t && !Matches(t[k], key) :: t[k]
  }

  /** An upsert stores exactly the event's columns, whatever order the row's map
      yields them in, and touches no other row. */
  method ReplicateUpsert(schema: Schema, t: Table, row: Row) returns (r: Result<Table>)
    ensures !(row.Keys <= Columns(schema)) ==> r == Err(NoSuchColumn)
    ensures row.Keys <= Columns(schema) ==>
              r == Ok(t[KeyOf(schema, Stored(schema, row)) := Stored(schema, row)])
    ensures FullRow(schema, row) ==> r == Ok(t[KeyOf(schema, row) := row])
  {
    var names, values := [], [];
    var left := row.Keys;
    while left != {}
      invariant |names| == |values| && left <= row.Keys
      invariant forall i :: 0 <= i < |names| ==> names[i] in row
      invariant forall c :: c in row && c !in left ==> c in names
      invariant Pairs(names, values) == map c | c in row && c !in left :: row[c]
    {
      var k :| k in left;
      names, values, left := names + [k], values + [row[k]], left - {k};
      assert names[..|names| - 1] + [k] == names && values[..|names| - 1] + [row[k]] == values;
    }
    assert Pairs(names, values) == row;
    r := InsertOrReplace(schema, t, names, values);
    if !(row.Keys <= Columns(schema)) {
      var c :| c in row && c !in Columns(schema);
      assert c in names;
    }
  }

  lemma MatchesIsSameKey(schema: Schema, stored: Row, row: Row)
    ensures Matches(stored, KeyOf(schema, row)) <==> KeyOf(schema, stored) == KeyOf(schema, row)
  {
    var a, b := KeyOf(schema, stored), KeyOf(schema, row);
    if Matches(stored, b) {
      assert forall c :: c in b ==> a[c] == b[c];
      assert a == b;
    } else {
      var c :| c in b && At(stored, c) != b[c];
      assert a[c] != b[c];
    }
  }

  /** On a well-keyed table a delete removes exactly the row with the event's key. */
  lemma DeleteRemovesOneRow(schema: Schema, t: Table, row: Row)
    requires WellKeyed(schema, t)
    ensures DeleteWhere(t, KeyOf(schema, row)) == t - {KeyOf(schema, row)}
  {
    var key := KeyOf(schema, row);
    forall k | k in t ensures Matches(t[k], key) <==> k == key {
      assert k == KeyOf(schema, t[k]);
      MatchesIsSameKey(schema, t[k], row);
    }
    OneMatch(t, key);
  }

  lemma OneMatch(t: Table, key: Key)
    requires forall k :: k in t ==> (Matches(t[k], key) <==> k == key)
    ensures DeleteWhere(t, key) == t - {key}
  {
    var a, b := DeleteWhere(t, key), t - {key};
    assert forall k :: k in a ==> k in b && a[k] == b[k];
    assert forall k :: k in b ==> k in a;
  }

  /******* Replicating an event into the database *******/

  type Catalog = map<Name, Table>

  predicate Sane(schemas: map<Name, Schema>, tables: Catalog) {
    && schemas.Keys == tables.Keys
    && (forall n :: n in schemas ==> HasKeyColumn(schemas[n]))
    && (forall n :: n in tables ==> WellKeyed(schemas[n], tables[n]))
  }

  /** All rows of all tables, keyed across tables. */
  function Rows(tables: Catalog): Database {
    map n, k | n in tables && k in tables[n] :: RowKey(n, k) := tables[n][k]
  }

  /** The change an event stands for. */
  function ChangeOf(schema: Schema, e: Event): Change
    requires e.kind != Unknown
  {
    if e.kind == Delete then Change(RowKey(e.table, KeyOf(schema, e.row)), None)
    else
      var row := Stored(schema, e.row);
      Change(RowKey(e.table, KeyOf(schema, row)), Some(row))
  }

  lemma RowsOfUpdate(tables: Catalog, n: Name, t: Table, c: Change)
    requires n in tables && c.key.table == n
    requires t == match c.effect case Some(row) => tables[n][c.key.pk := row] case None => tables[n] - {c.key.pk}
    ensures Rows(tables[n := t]) == Apply(Rows(tables), c)
  {
    var a, b := Rows(tables[n := t]), Apply(Rows(tables), c);
    forall k ensures Get(a, k) == Get(b, k) {
      assert k in a <==> k.table in tables && k.pk in (if k.table == n then t else tables[k.table]);
      assert k in Rows(tables) <==> k.table in tables && k.pk in tables[k.table];
    }
    SameRows(a, b);
  }

  lemma SaneUpdate(schemas: map<Name, Schema>, tables: Catalog, n: Name, t: Table)
    requires Sane(schemas, tables) && n in tables && WellKeyed(schemas[n], t)
    ensures Sane(schemas, tables[n := t])
  {
  }

  predicate DiffersInKey(schema: Schema, row: Row, given: Row) {
    exists c :: c in KeyColumns(schema) && c in row && c in given && row[c] != given[c]
  }

  predicate AgreesOnKey(schema: Schema, row: Row, given: Row) {
    forall c :: c in KeyColumns(schema) ==> c in row && c in given && row[c] == given[c]
  }

  /** From t to t' the event changed its own row and no other: every stored row that
      differs from it in a key column is still there; after a delete no row with
      its key is left; after an upsert of a whole row that row is there and is
      the only one with its key; and nothing else appears. */
  predicate OnlyItsRow(schema: Schema, t: Table, t': Table, e: Event) {
    && (forall k :: k in t && DiffersInKey(schema, t[k], e.row) ==> k in t' && t'[k] == t[k])
    && (e.kind == Delete ==> forall k :: k in t' ==> !AgreesOnKey(schema, t'[k], e.row))
    && (e.kind != Delete && FullRow(schema, e.row) ==>
          && (exists k :: k in t' && t'[k] == e.row)
          && forall k :: k in t' && AgreesOnKey(schema, t'[k], e.row) ==> t'[k] == e.row)
    && (forall k :: k in t' ==> (k in t && t'[k] == t[k]) || (e.kind != Delete && t'[k] == Stored(schema, e.row)))
  }

  lemma DifferentKey(schema: Schema, row: Row, given: Row)
    requires DiffersInKey(schema, row, given)
    ensures KeyOf(schema, row) != KeyOf(schema, given)
  {
    var c :| c in KeyColumns(schema) && c in row && c in given && row[c] != given[c];
    assert KeyOf(schema, row)[c] != KeyOf(schema, given)[c];
  }

  lemma SameKey(schema: Schema, row: Row, given: Row)
    requires AgreesOnKey(schema, row, given)
    ensures KeyOf(schema, row) == KeyOf(schema, given)
  {
  }

  lemma DeleteOnlyItsRow(schema: Schema, t: Table, e: Event)
    requires WellKeyed(schema, t) && e.kind == Delete
    ensures OnlyItsRow(schema, t, t - {KeyOf(schema, e.row)}, e)
  {
    var t' := t - {KeyOf(schema, e.row)};
    forall k | k in t && DiffersInKey(schema, t[k], e.row) ensures k in t' && t'[k] == t[k] {
      DifferentKey(schema, t[k], e.row);
    }
    forall k | k in t' ensures !AgreesOnKey(schema, t'[k], e.row) {
      if AgreesOnKey(schema, t'[k], e.row) {
        SameKey(schema, t'[k], e.row);
      }
    }
  }

  lemma UpsertOnlyItsRow(schema: Schema, t: Table, e: Event, row: Row)
    requires WellKeyed(schema, t) && e.kind != Delete && row == Stored(schema, e.row)
    ensures OnlyItsRow(schema, t, t[KeyOf(schema, row) := row], e)
  {
    var t' := t[KeyOf(schema, row) := row];
    forall k | k in t && DiffersInKey(schema, t[k], e.row) ensures k in t' && t'[k] == t[k] {
      var c :| c in KeyColumns(schema) && c in t[k] && c in e.row && t[k][c] != e.row[c];
      assert c in row && row[c] == e.row[c];
      DifferentKey(schema, t[k], row);
    }
    if FullRow(schema, e.row) {
      assert KeyOf(schema, row) in t' && t'[KeyOf(schema, row)] == e.row;
      forall k | k in t' && AgreesOnKey(schema, t'[k], e.row) ensures t'[k] == e.row {
        SameKey(schema, t'[k], e.row);
      }
    }
  }

  /** Applying an event to the tables is applying its change to the rows: the row
      with the event's key, and no other, and applying it again changes nothing.
      Events for tables that are not watched, of unknown type or with foreign
      columns change nothing. */
  method Replicate(schemas: map<Name, Schema>, tables: Catalog, e: Event) returns (r: Result<Catalog>)
    requires Sane(schemas, tables)
    ensures r.Err? <==>
              || e.table !in schemas || e.kind == Unknown
              || (e.kind != Delete && !(e.row.Keys <= Columns(schemas[e.table])))
    ensures e.table !in schemas ==> r == Err(NoTableMapping)
    ensures e.table in schemas && e.kind == Unknown ==> r == Err(InvalidOperation)
    ensures r.Ok? ==>
              && Sane(schemas, r.value)
              && Rows(r.value) == Apply(Rows(tables), ChangeOf(schemas[e.table], e))
              && Apply(Rows(r.value), ChangeOf(schemas[e.table], e)) == Rows(r.value)
              && OnlyItsRow(schemas[e.table], tables[e.table], r.value[e.table], e)
              && forall n :: n in tables && n != e.table ==> r.value[n] == tables[n]
  {
    var key := GetPrimaryKeyMap(schemas, e);
    if key.None? {
      return Err(NoTableMapping);
    }
    var t := ReplicateRow(schemas[e.table], tables[e.table], e, key.value);
    if t.Err? {
      return Err(t.error);
    }
    ghost var c := ChangeOf(schemas[e.table], e);
    RowsOfUpdate(tables, e.table, t.value, c);
    SaneUpdate(schemas, tables, e.table, t.value);
    ApplyTwice(Rows(tables), c);
    return Ok(tables[e.table := t.value]);
  }

  lemma WellKeyedPut(schema: Schema, t: Table, row: Row)
    requires WellKeyed(schema, t) && FullRow(schema, row)
    ensures WellKeyed(schema, t[KeyOf(schema, row) := row])
  {
    var a := t[KeyOf(schema, row) := row];
    assert forall k :: k in a ==> (k == KeyOf(schema, row) && a[k] == row) || (k in t && a[k] == t[k]);
  }

  lemma WellKeyedRemove(schema: Schema, t: Table, key: Key)
    requires WellKeyed(schema, t)
    ensures WellKeyed(schema, t - {key})
  {
    var b := t - {key};
    assert forall k :: k in b ==> k in t && b[k] == t[k];
  }

  method ReplicateRow(schema: Schema, t: Table, e: Event, key: Key) returns (r: Result<Table>)
    requires HasKeyColumn(schema) && WellKeyed(schema, t) && key == KeyOf(schema, e.row)
    ensures r.Err? <==> e.kind == Unknown || (e.kind != Delete && !(e.row.Keys <= Columns(schema)))
    ensures e.kind == Unknown ==> r == Err(InvalidOperation)
    ensures r.Ok? ==>
              && WellKeyed(schema, r.value)
              && (var c := ChangeOf(schema, e);
                  r.value == match c.effect case Some(row) => t[c.key.pk := row] case None => t - {c.key.pk})
              && OnlyItsRow(schema, t, r.value, e)
  {
    if e.kind == Insert || e.kind == Update {
      WellKeyedPut(schema, t, Stored(schema, e.row));
      UpsertOnlyItsRow(schema, t, e, Stored(schema, e.row));
      r := ReplicateUpsert(schema, t, e.row);
      return;
    }
    if e.kind == Delete {
      KeyMapNotEmpty(schema, e.row);
      assert key != map[];
      DeleteRemovesOneRow(schema, t, e.row);
      WellKeyedRemove(schema, t, key);
      DeleteOnlyItsRow(schema, t, e);
      return Ok(DeleteWhere(t, key));
    }
    return Err(InvalidOperation);
  }
}
