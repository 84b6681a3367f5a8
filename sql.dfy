/** The text of the two statements orm.go builds, and what can be read off it. */
module Sql {
  import opened Text

  /** Table.Insert's statement: one "`col`= ?" assignment per column, the last
      spelled "` = ?". The values are not part of it; they are bound to the
      markers. */
  function InsertSql(tableName: string, cols: seq<string>): string
  {
    "insert into " + tableName + " set `" + Join(cols, "`= ?, `") + "` = ?"
  }

  /** One record's values as a parenthesised list of single-quoted literals,
      with nothing escaped. */
  function Tuple(values: seq<string>): string
  {
    "('" + Join(values, "', '") + "')"
  }

  /** Table.BatchInsert's statement: the column list, the keyword `value`,
      then the tuples separated by commas. */
  function BatchSql(tableName: string, cols: seq<string>, tuples: seq<string>): string
  {
    "insert into " + tableName + "(`" + Join(cols, "`, `") + "`) value" + Join(tuples, ",")
  }

  /** The assignments spelled out one column at a time: column i is paired with
      the i-th marker. */
  function Assignments(cols: seq<string>): string
    requires |cols| >= 1
  {
    if |cols| == 1 then "`" + cols[0] + "` = ?"
    else "`" + cols[0] + "`= ?, " + Assignments(cols[1..])
  }

  lemma {:induction false} JoinedAssignments(cols: seq<string>)
    requires |cols| >= 1
    ensures "`" + Join(cols, "`= ?, `") + "` = ?" == Assignments(cols)
  {
    if |cols| > 1 {
      JoinedAssignments(cols[1..]);
      assert "`" + Join(cols, "`= ?, `") + "` = ?"
          == "`" + cols[0] + "`= ?, " + ("`" + Join(cols[1..], "`= ?, `") + "` = ?");
    }
  }

  /** The insert statement is "insert into T set " followed by the column-by-column
      assignments. */
  lemma InsertSqlAssignments(tableName: string, cols: seq<string>)
    requires |cols| >= 1
    ensures InsertSql(tableName, cols) == "insert into " + tableName + " set " + Assignments(cols)
  {
    JoinedAssignments(cols);
  }

  /** The fixed text before the columns holds no marker. */
  lemma HeadHasNoMarker(tableName: string)
    requires '?' !in tableName
    ensures Count("insert into " + tableName + " set `", '?') == 0
  {
    CountAbsent("insert into " + tableName + " set `", '?');
  }

  /** The separator between assignments holds one marker. */
  lemma SeparatorHasOneMarker()
    ensures Count("`= ?, `", '?') == 1
  {
    assert "`= ?, `" == "`= " + ['?'] + ", `";
    CountSingle("`= ", ", `", '?');
  }

  /** The text after the last column holds one marker. */
  lemma TailHasOneMarker()
    ensures Count("` = ?", '?') == 1
  {
    assert "` = ?" == "` = " + ['?'] + "";
    CountSingle("` = ", "", '?');
  }

  /** For n >= 1 columns the insert statement holds exactly n markers, as long
      as neither the table name nor a column name contains '?'. */
  lemma InsertMarkerCount(tableName: string, cols: seq<string>)
    requires |cols| >= 1
    requires '?' !in tableName
    requires forall i :: 0 <= i < |cols| ==> '?' !in cols[i]
    ensures Count(InsertSql(tableName, cols), '?') == |cols|
  {
    var head := "insert into " + tableName + " set `";
    var body := Join(cols, "`= ?, `");
    HeadHasNoMarker(tableName);
    SeparatorHasOneMarker();
    TailHasOneMarker();
    CountJoin(cols, "`= ?, `", '?');
    CountAllAbsent(cols, '?');
    CountConcat(head + body, "` = ?", '?');
    CountConcat(head, body, '?');
  }

  /** With no columns the statement still ends in one marker, while no value
      is bound: "insert into T set `` = ?". */
  lemma InsertSqlNoColumns(tableName: string)
    requires '?' !in tableName
    ensures InsertSql(tableName, []) == "insert into " + tableName + " set `` = ?"
    ensures Count(InsertSql(tableName, []), '?') == 1
  {
    var head := "insert into " + tableName + " set `";
    HeadHasNoMarker(tableName);
    TailHasOneMarker();
    assert InsertSql(tableName, []) == head + "` = ?";
    CountConcat(head, "` = ?", '?');
  }

  /** A tuple of n values none of which holds a quote has 2n quotes; an empty
      value list still yields one empty literal, "('')". */
  lemma TupleQuoteCount(values: seq<string>)
    requires forall i :: 0 <= i < |values| ==> '\'' !in values[i]
    ensures Count(Tuple(values), '\'') == 2 * (if |values| == 0 then 1 else |values|)
  {
    var body := Join(values, "', '");
    assert "('" == "(" + ['\''] + "";
    CountSingle("(", "", '\'');
    assert "')" == "" + ['\''] + ")";
    CountSingle("", ")", '\'');
    CountConcat("('" + body, "')", '\'');
    CountConcat("('", body, '\'');
    if |values| >= 1 {
      assert "', '" == "" + ['\''] + ", '";
      assert Count(", '", '\'') == 1 by {
        assert ", '" == ", " + ['\''] + "";
        CountSingle(", ", "", '\'');
      }
      CountConcat(['\''], ", '", '\'');
      CountJoin(values, "', '", '\'');
      CountAllAbsent(values, '\'');
    }
  }

  /** Tuples appear in input order: one more tuple extends the statement by a
      comma and that tuple. */
  lemma BatchSqlAppend(tableName: string, cols: seq<string>, tuples: seq<string>, t: string)
    requires |tuples| >= 1
    ensures BatchSql(tableName, cols, tuples + [t]) == BatchSql(tableName, cols, tuples) + "," + t
  {
    JoinSnoc(tuples, t, ",");
  }

  lemma TupleExamples()
    ensures Tuple(["1", "2"]) == "('1', '2')" && Tuple(["3"]) == "('3')"
  {
    assert ["1", "2"][1..] == ["2"];
  }

  /** Two columns and two tuples: the exact text of the batch statement. */
  lemma BatchSqlExample()
    ensures BatchSql("t", ["A", "b"], ["('1', '2')", "('3')"])
         == "insert into t(`A`, `b`) value('1', '2'),('3')"
  {
    assert ["A", "b"][1..] == ["b"];
    assert ["('1', '2')", "('3')"][1..] == ["('3')"];
  }
}
