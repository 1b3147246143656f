/** The INSERT builder: a target table and a list of `{column, value}`
    records that `set` and `setSome` push onto and `build` renders as
    `INSERT INTO t (columns) VALUES (values)`. */
module Insert {
  import opened Results
  import opened Text
  import opened Values
  import opened Assertion
  import opened Format
  import opened Columns
  import opened Assignments

  /** The builder's fields; the table is `undefined` until `into` sets it. */
  datatype InsertState = InsertState(table: Value, columns: seq<Item>)

  const MissData := "Miss data"

  /** `build({ignores, alias})`: every record's column resolved in order, the
      first that fails stopping it; no record at all is refused. */
  function InsertSql(s: InsertState, ignores: seq<string>, alias: string): (r: Result<string>)
  {
    var fields :- ColumnTexts(s.columns, ignores, alias);
    if |fields| == 0 then Fail(MissData)
    else Ok("INSERT INTO " + EscapeId(s.table, false) + " (" + Join(fields, ", ") + ")"
            + " VALUES (" + Join(ValueTexts(s.columns), ", ") + ")")
  }

  /** What `build` makes of the records: it fails exactly when there are none
      or a column does not resolve; otherwise the column list and the value
      list are as long as the record list, both in record order, each value a
      placeholder exactly when it was left unbound. */
  lemma InsertSqlMeaning(s: InsertState, ignores: seq<string>, alias: string)
    ensures InsertSql(s, ignores, alias).Ok? <==>
      s.columns != [] && forall k :: 0 <= k < |s.columns| ==> BuildColumn(s.columns[k].column, ignores, alias).Ok?
    ensures s.columns == [] ==> InsertSql(s, ignores, alias) == Fail(MissData)
    ensures InsertSql(s, ignores, alias).Ok? ==>
      var fields := ColumnTexts(s.columns, ignores, alias).value;
      var values := ValueTexts(s.columns);
      |fields| == |values| == |s.columns| &&
      (forall k :: 0 <= k < |s.columns| ==> Ok(fields[k]) == BuildColumn(s.columns[k].column, ignores, alias)) &&
      (forall k :: 0 <= k < |s.columns| ==> values[k] == ValueText(s.columns[k].value)) &&
      InsertSql(s, ignores, alias).value
        == "INSERT INTO " + EscapeId(s.table, false) + " (" + Join(fields, ", ") + ")" + " VALUES (" + Join(values, ", ") + ")"
  {
    ColumnTextsOk(s.columns, ignores, alias);
    if ColumnTexts(s.columns, ignores, alias).Ok? {
      ColumnTextsValues(s.columns, ignores, alias);
    }
  }

  class InsertBuilder {
    var table: Value
    var columns: seq<Item>

    constructor()
      ensures State() == InsertState(Undefined, [])
    {
      table := Undefined;
      columns := [];
    }

    function State(): InsertState
      reads this
    {
      InsertState(table, columns)
    }

    /** `into(table)` */
    method Into(table: Value) returns (r: Result<()>)
      modifies this
      ensures r == Stringed(table, "table")
      ensures r.Ok? ==> State() == old(State()).(table := table)
      ensures r.Err? ==> State() == old(State())
    {
      r := Stringed(table, "table");
      if r.Ok? {
        this.table := table;
      }
    }

    /** `set(column, value)`; `value` is `Unbound` when the call has one
        argument. Duplicates are kept. */
    method Set(column: Value, value: Cell) returns (r: Result<()>)
      modifies this
      ensures r == Stringed(column, "column")
      ensures r.Ok? ==> State() == old(State()).(columns := old(columns) + [Item(column.s, value)])
      ensures r.Err? ==> State() == old(State())
    {
      r := Stringed(column, "column");
      if r.Ok? {
        columns := columns + [Item(column.s, value)];
      }
    }

    /** `setSome(columns)`: one `set` per column the argument names, in
        order; a `set` that throws leaves the earlier ones in place. */
    method SetSome(given: Value) returns (r: Result<()>)
      modifies this
      ensures InsertCalls(given).Err? ==> r == Err(InsertCalls(given).error) && State() == old(State())
      ensures InsertCalls(given).Ok? ==>
        r == CallsOutcome(InsertCalls(given).value) &&
        State() == old(State()).(columns := old(columns) + Pushed(InsertCalls(given).value))
    {
      var calls :- InsertCalls(given);
      r := SetEach(calls);
    }

    /** The `forEach` of `set` calls. */
    method SetEach(calls: seq<Pending>) returns (r: Result<()>)
      modifies this
      ensures r == CallsOutcome(calls)
      ensures State() == old(State()).(columns := old(columns) + Pushed(calls))
    {
      var i := 0;
      while i < |calls|
        invariant i <= |calls|
        invariant forall k :: 0 <= k < i ==> ValidColumn(calls[k].column)
        invariant State() == old(State()).(columns := old(columns) + ItemsOf(calls[..i]))
        decreases |calls| - i
      {
        r := Set(calls[i].column, calls[i].value);
        if r.Err? {
          assert ValidPrefix(calls) == i;
          return;
        }
        assert ItemsOf(calls[..i + 1]) == ItemsOf(calls[..i]) + [Item(calls[i].column.s, calls[i].value)];
        i := i + 1;
      }
      assert calls[..i] == calls;
      return Ok(());
    }

    /** `build({ignores, alias})` */
    method Build(ignores: seq<string>, alias: string) returns (r: Result<string>)
      ensures r == InsertSql(State(), ignores, alias)
    {
      var fields: seq<string> := [];
      var values: seq<string> := [];
      var i := 0;
      while i < |columns|
        invariant i <= |columns|
        invariant ColumnTexts(columns[..i], ignores, alias) == Ok(fields)
        invariant values == ValueTexts(columns[..i])
        decreases |columns| - i
      {
        var item := columns[i];
        var field := BuildColumn(item.column, ignores, alias);
        if field.Err? {
          ColumnTextsStops(columns, i, ignores, alias);
          return Err(field.error);
        }
        ColumnTextsStep(columns, i, ignores, alias);
        fields := fields + [field.value];
        values := values + [if item.value.Unbound? then "?" else Escape(item.value.value, true)];
        i := i + 1;
      }
      assert columns[..i] == columns;
      if |fields| == 0 {
        return Fail(MissData);
      }
      return Ok("INSERT INTO " + EscapeId(table, false) + " (" + Join(fields, ", ") + ")"
                + " VALUES (" + Join(values, ", ") + ")");
    }
  }
}
