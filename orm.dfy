/** Table.Insert and Table.BatchInsert: the loops that collect column names and
    rendered values, the statements built from them, and what is returned from
    the driver's answers. */
module Orm {
  import opened Wrappers
  import opened Ints
  import opened Driver
  import opened Text
  import opened Values
  import opened Records
  import opened Sql

  /** The rendered values of every record, as BatchInsert turns each into a tuple. */
  function Tuples(data: seq<Record>): seq<string>
  {
    seq(|data|, i requires 0 <= i < |data| => Tuple(RecordValues(data[i])))
  }

  /** The first loop of BatchInsert: each field's column name, in order. */
  method FieldNames(record: Record) returns (fieldArr: seq<string>)
    ensures fieldArr == ColumnNames(record)
  {
    fieldArr := [];
    var i := 0;
    while i < |record|
      invariant 0 <= i <= |record|
      invariant |fieldArr| == i
      invariant forall j :: 0 <= j < i ==> fieldArr[j] == ColumnName(record[j])
    {
      var fieldName := record[i].tag;
      if fieldName == "" {
        fieldName := record[i].ident;
      }
      fieldArr := fieldArr + [fieldName];
      i := i + 1;
    }
  }

  /** The inner loop of BatchInsert: each field's rendered value, in order. */
  method RenderValues(record: Record) returns (values: seq<string>)
    ensures values == RecordValues(record)
  {
    values := [];
    var m := 0;
    while m < |record|
      invariant 0 <= m <= |record|
      invariant |values| == m
      invariant forall j :: 0 <= j < m ==> values[j] == FieldValue(record[j].value)
    {
      values := values + [FieldValue(record[m].value)];
      m := m + 1;
    }
  }

  /** A table name bound to a shared connection handle. */
  datatype Table = Table(name: string, db: Conn)
  {
    /** The loop of Insert: column names and rendered values, field by field,
        then the statement. The values go to the driver as bound arguments. */
    method BuildInsert(data: Record) returns (sqlStr: string, args: seq<string>)
      ensures sqlStr == InsertSql(name, ColumnNames(data))
      ensures |args| == |data|
      ensures forall i :: 0 <= i < |data| ==> args[i] == FieldValue(data[i].value)
    {
      var fieldArr: seq<string> := [];
      args := [];
      var i := 0;
      while i < |data|
        invariant 0 <= i <= |data|
        invariant |fieldArr| == i && |args| == i
        invariant forall j :: 0 <= j < i ==> fieldArr[j] == ColumnName(data[j])
        invariant forall j :: 0 <= j < i ==> args[j] == FieldValue(data[j].value)
      {
        var fieldName := data[i].tag;
        if fieldName == "" {
          fieldName := data[i].ident;
        }
        fieldArr := fieldArr + [fieldName];
        args := args + [FieldValue(data[i].value)];
        i := i + 1;
      }
      assert fieldArr == ColumnNames(data);
      sqlStr := "insert into " + name + " set `" + Join(fieldArr, "`= ?, `") + "` = ?";
    }

    /** Table.Insert: prepare the statement, execute it with the values bound,
        and return the id the driver reports. A failed prepare or exec returns
        0 with that error, and the result is then never asked for an id. */
    method Insert(data: Record) returns (id: Int64, err: Option<DbError>)
      ensures var q := InsertSql(name, ColumnNames(data));
              db.prepare(q).Some? ==> id == 0 && err == db.prepare(q)
      ensures var q := InsertSql(name, ColumnNames(data));
              db.prepare(q).None? && db.execStmt(q, RecordValues(data)).Err? ==>
                id == 0 && err == Some(db.execStmt(q, RecordValues(data)).error)
      ensures var q := InsertSql(name, ColumnNames(data));
              db.prepare(q).None? && db.execStmt(q, RecordValues(data)).Ok? ==>
                (id, err) == db.execStmt(q, RecordValues(data)).value.lastInsertId
    {
      var sqlStr, args := BuildInsert(data);
      assert args == RecordValues(data);
      err := db.prepare(sqlStr);
      if err.Some? {
        return 0, err;
      }
      match db.execStmt(sqlStr, args)
      case Err(e) =>
        return 0, Some(e);
      case Ok(res) =>
        id, err := res.lastInsertId.0, res.lastInsertId.1;
    }

    /** The statement of BatchInsert: the column list from the first record
        only, then one tuple per record, in order, from that record's own fields. */
    method BuildBatchInsert(data: seq<Record>) returns (sqlStr: string)
      requires |data| >= 1
      ensures sqlStr == BatchSql(name, ColumnNames(data[0]), Tuples(data))
    {
      var fieldArr := FieldNames(data[0]);
      var valueArr: seq<string> := [];
      var k := 0;
      while k < |data|
        invariant 0 <= k <= |data|
        invariant |valueArr| == k
        invariant forall j :: 0 <= j < k ==> valueArr[j] == Tuple(RecordValues(data[j]))
      {
        var values := RenderValues(data[k]);
        valueArr := valueArr + ["('" + Join(values, "', '") + "')"];
        k := k + 1;
      }
      assert valueArr == Tuples(data);
      sqlStr := "insert into " + name + "(`" + Join(fieldArr, "`, `") + "`) value"
                + Join(valueArr, ",");
    }

    /** Table.BatchInsert: one statement with every record inlined, executed
        without arguments; the row count the driver reports, or 0 and the error. */
    method BatchInsert(data: seq<Record>) returns (rows: Int64, err: Option<DbError>)
      requires |data| >= 1
      ensures var q := BatchSql(name, ColumnNames(data[0]), Tuples(data));
              db.exec(q).Err? ==> rows == 0 && err == Some(db.exec(q).error)
      ensures var q := BatchSql(name, ColumnNames(data[0]), Tuples(data));
              db.exec(q).Ok? ==> (rows, err) == db.exec(q).value.rowsAffected
    {
      var sqlStr := BuildBatchInsert(data);
      match db.exec(sqlStr)
      case Err(e) =>
        return 0, Some(e);
      case Ok(res) =>
        rows, err := res.rowsAffected.0, res.rowsAffected.1;
    }
  }

  /** The insert statement is fixed by the fields' identifiers and tags: records
      that differ only in their values share it, so no value reaches its text. */
  lemma InsertSqlIgnoresValues(tableName: string, r1: Record, r2: Record)
    requires |r1| == |r2|
    requires forall i :: 0 <= i < |r1| ==> r1[i].ident == r2[i].ident && r1[i].tag == r2[i].tag
    ensures InsertSql(tableName, ColumnNames(r1)) == InsertSql(tableName, ColumnNames(r2))
  {
    assert ColumnNames(r1) == ColumnNames(r2);
  }

  /** One more record extends the batch statement by a comma and that record's tuple. */
  lemma BatchAppendRecord(tableName: string, data: seq<Record>, r: Record)
    requires |data| >= 1
    ensures (data + [r])[0] == data[0]
    ensures BatchSql(tableName, ColumnNames(data[0]), Tuples(data + [r]))
         == BatchSql(tableName, ColumnNames(data[0]), Tuples(data)) + "," + Tuple(RecordValues(r))
  {
    assert Tuples(data + [r]) == Tuples(data) + [Tuple(RecordValues(r))];
    BatchSqlAppend(tableName, ColumnNames(data[0]), Tuples(data), Tuple(RecordValues(r)));
  }

  /** A tagged and an untagged field: the tag names the first column and the
      identifier the second. */
  lemma InsertExampleSql()
    ensures var r := [Field("Id", "id", Signed(7)), Field("Name", "", Str("bob"))];
            InsertSql("users", ColumnNames(r)) == "insert into users set `id`= ?, `Name` = ?"
  {
    var r := [Field("Id", "id", Signed(7)), Field("Name", "", Str("bob"))];
    assert ColumnNames(r) == ["id", "Name"];
    assert ["id", "Name"][1..] == ["Name"];
    assert Join(["id", "Name"], "`= ?, `") == "id`= ?, `Name";
  }

  /** The same record's values, bound as arguments rather than written into the text. */
  lemma InsertExampleArgs()
    ensures var r := [Field("Id", "id", Signed(7)), Field("Name", "", Str("bob"))];
            RecordValues(r) == ["7", "bob"]
  {
    var r := [Field("Id", "id", Signed(7)), Field("Name", "", Str("bob"))];
    RenderingExamples();
    assert RecordValues(r)[0] == "7" && RecordValues(r)[1] == "bob";
  }

  /** Columns come from the first record only: a second record with other
      fields still contributes its own values as a tuple. */
  lemma BatchFirstRecordDecidesColumns()
    ensures var data := [[Field("A", "", Str("1")), Field("B", "b", Str("2"))],
                         [Field("C", "", Str("3"))]];
            ColumnNames(data[0]) == ["A", "b"] && Tuples(data) == ["('1', '2')", "('3')"]
            && BatchSql("t", ColumnNames(data[0]), Tuples(data))
               == "insert into t(`A`, `b`) value('1', '2'),('3')"
  {
    var data := [[Field("A", "", Str("1")), Field("B", "b", Str("2"))],
                 [Field("C", "", Str("3"))]];
    assert ColumnNames(data[0]) == ["A", "b"];
    assert Tuples(data) == ["('1', '2')", "('3')"] by {
      assert RecordValues(data[0]) == ["1", "2"];
      assert RecordValues(data[1]) == ["3"];
      TupleExamples();
    }
    BatchSqlExample();
  }
}
