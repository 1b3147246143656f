/** The UPDATE builder: a target table, a list of `{column, value}` records
    and the inherited condition list; `build` renders
    `UPDATE t SET c = v, ... [WHERE ...]`. The limit and offset it accepts are
    stored and never rendered. */
module Update {
  import opened Results
  import opened Text
  import opened Values
  import opened Assertion
  import opened Format
  import opened Columns
  import opened Clause
  import opened Assignments

  /** The builder's fields; 0 stands for an unset limit or offset, which
      `take` and `skip` never store. */
  datatype UpdateState = UpdateState(table: Value, columns: seq<Item>, clauses: seq<Entry>, limit: int, skip: int)

  /** `build({ignores, alias})`: the SET list, then the conditions. */
  function UpdateSql(s: UpdateState, ignores: seq<string>, alias: string): (r: Result<string>)
  {
    var setPairs :- AssignmentTexts(s.columns, ignores, alias);
    var where :- Render(s.clauses, ignores, alias);
    Ok("UPDATE " + EscapeId(s.table, false) + " SET " + Join(setPairs, ", ") + (if where != "" then " WHERE " + where else ""))
  }

  /** What `build` makes of the state: it fails as the first column that
      does not resolve, else as the conditions; otherwise the SET list pairs
      each record's column with its value text in record order, the WHERE
      part appears exactly when the conditions render to something, and the
      limit and offset play no part. An empty record list gives an empty SET
      list, not an error. */
  lemma UpdateSqlMeaning(s: UpdateState, ignores: seq<string>, alias: string)
    ensures UpdateSql(s, ignores, alias).Ok? <==>
      (forall k :: 0 <= k < |s.columns| ==> BuildColumn(s.columns[k].column, ignores, alias).Ok?) && Render(s.clauses, ignores, alias).Ok?
    ensures ColumnTexts(s.columns, ignores, alias).Err? ==> UpdateSql(s, ignores, alias) == Err(ColumnTexts(s.columns, ignores, alias).error)
    ensures UpdateSql(s, ignores, alias).Ok? ==>
      var cols := ColumnTexts(s.columns, ignores, alias).value;
      var where := Render(s.clauses, ignores, alias).value;
      |cols| == |s.columns| &&
      (forall k :: 0 <= k < |s.columns| ==> Ok(cols[k]) == BuildColumn(s.columns[k].column, ignores, alias)) &&
      UpdateSql(s, ignores, alias).value
        == "UPDATE " + EscapeId(s.table, false) + " SET " + Join(SetPairs(cols, ValueTexts(s.columns)), ", ")
           + (if where != "" then " WHERE " + where else "")
    ensures forall limit, skip :: UpdateSql(s.(limit := limit, skip := skip), ignores, alias) == UpdateSql(s, ignores, alias)
  {
    ColumnTextsOk(s.columns, ignores, alias);
    if ColumnTexts(s.columns, ignores, alias).Ok? {
      ColumnTextsValues(s.columns, ignores, alias);
    }
  }

  /** With no records the SET list is empty. */
  lemma UpdateNoColumns(s: UpdateState, ignores: seq<string>, alias: string, where: string)
    requires s.columns == [] && Render(s.clauses, ignores, alias) == Ok(where)
    ensures UpdateSql(s, ignores, alias) == Ok("UPDATE " + EscapeId(s.table, false) + " SET " + (if where != "" then " WHERE " + where else ""))
  {
    assert AssignmentTexts(s.columns, ignores, alias) == Ok([]) by {
      assert ColumnTexts([], ignores, alias) == Ok([]);
      assert SetPairs([], ValueTexts([])) == [];
    }
    assert Join([], ", ") == "";
    AppendEmpty("UPDATE " + EscapeId(s.table, false) + " SET ");
  }

  class UpdateBuilder {
    var table: Value
    var columns: seq<Item>
    var limit: int
    var skip: int
    /** The `WHERE` conditions. */
    const conditions: ClauseBuilder

    constructor()
      ensures fresh(conditions)
      ensures State() == UpdateState(Undefined, [], [], 0, 0)
    {
      table := Undefined;
      columns := [];
      limit := 0;
      skip := 0;
      conditions := new ClauseBuilder();
    }

    function State(): UpdateState
      reads this, conditions
    {
      UpdateState(table, columns, conditions.clauses, limit, skip)
    }

    /** `from(table)` */
    method From(table: Value) returns (r: Result<()>)
      modifies this
      ensures r == Stringed(table, "table")
      ensures r.Ok? ==> State() == old(State()).(table := table)
      ensures r.Err? ==> State() == old(State())
    {
      r := Stringed(table, "table");
      if r.Ok? {
        this.table := table;
      }
    }

    /** `set(column, value)`; `value` is `Unbound` when the call has one
        argument. */
    method Set(column: Value, value: Cell) returns (r: Result<()>)
      modifies this
      ensures r == Stringed(column, "column")
      ensures r.Ok? ==> State() == old(State()).(columns := old(columns) + [Item(column.s, value)])
      ensures r.Err? ==> State() == old(State())
    {
      r := Stringed(column, "column");
      if r.Ok? {
        columns := columns + [Item(column.s, value)];
      }
    }

    /** `setSome(columns)`: an array or an object only. */
    method SetSome(given: Value) returns (r: Result<()>)
      modifies this
      ensures UpdateCalls(given).Err? ==> r == Err(UpdateCalls(given).error) && State() == old(State())
      ensures UpdateCalls(given).Ok? ==>
        r == CallsOutcome(UpdateCalls(given).value) &&
        State() == old(State()).(columns := old(columns) + Pushed(UpdateCalls(given).value))
    {
      var calls :- UpdateCalls(given);
      r := SetEach(calls);
    }

    /** The `forEach` of `set` calls. */
    method SetEach(calls: seq<Pending>) returns (r: Result<()>)
      modifies this
      ensures r == CallsOutcome(calls)
      ensures State() == old(State()).(columns := old(columns) + Pushed(calls))
    {
      var i := 0;
      while i < |calls|
        invariant i <= |calls|
        invariant forall k :: 0 <= k < i ==> ValidColumn(calls[k].column)
        invariant State() == old(State()).(columns := old(columns) + ItemsOf(calls[..i]))
        decreases |calls| - i
      {
        r := Set(calls[i].column, calls[i].value);
        if r.Err? {
          assert ValidPrefix(calls) == i;
          return;
        }
        assert ItemsOf(calls[..i + 1]) == ItemsOf(calls[..i]) + [Item(calls[i].column.s, calls[i].value)];
        i := i + 1;
      }
      assert calls[..i] == calls;
      return Ok(());
    }

    /** `take(limit)` */
    method Take(limit: Value) returns (r: Result<()>)
      modifies this
      ensures r == Integer(limit, "limit")
      ensures r.Ok? ==> State() == old(State()).(limit := ToNumber(limit).n)
      ensures r.Err? ==> State() == old(State())
    {
      r := Integer(limit, "limit");
      if r.Ok? {
        this.limit := ToNumber(limit).n;
      }
    }

    /** `skip(count)`: checked as a `limit`, and allowed without `take`. */
    method Skip(count: Value) returns (r: Result<()>)
      modifies this
      ensures r == Integer(count, "limit")
      ensures r.Ok? ==> State() == old(State()).(skip := ToNumber(count).n)
      ensures r.Err? ==> State() == old(State())
    {
      r := Integer(count, "limit");
      if r.Ok? {
        skip := ToNumber(count).n;
      }
    }

    /** `build({ignores, alias})` */
    method Build(ignores: seq<string>, alias: string) returns (r: Result<string>)
      ensures r == UpdateSql(State(), ignores, alias)
    {
      var sql := "UPDATE " + EscapeId(table, false);
      var setText := "";
      ghost var cols: seq<string> := [];
      var i := 0;
      while i < |columns|
        invariant i <= |columns|
        invariant ColumnTexts(columns[..i], ignores, alias) == Ok(cols)
        invariant setText == Join(SetPairs(cols, ValueTexts(columns[..i])), ", ")
        decreases |columns| - i
      {
        var item := columns[i];
        var field := BuildColumn(item.column, ignores, alias);
        if field.Err? {
          ColumnTextsStops(columns, i, ignores, alias);
          return Err(field.error);
        }
        ColumnTextsStep(columns, i, ignores, alias);
        SetStep(cols, ValueTexts(columns[..i]), field.value, ValueText(item.value));
        if i > 0 {
          setText := setText + ", ";
        }
        setText := setText + field.value + " = ";
        setText := setText + (if item.value.Unbound? then "?" else Escape(item.value.value, true));
        cols := cols + [field.value];
        i := i + 1;
      }
      assert columns[..i] == columns;
      sql := sql + " SET " + setText;
      var where := conditions.Build(ignores, alias);
      if where.Err? {
        return Err(where.error);
      }
      if where.value != "" {
        AppendAssoc(sql, " WHERE ", where.value);
        sql := sql + " WHERE " + where.value;
      } else {
        AppendEmpty(sql);
      }
      return Ok(sql);
    }
  }

  /** One step of the `reduce`: a separator after the first pair, then the
      column, ` = ` and the value. */
  lemma SetStep(cols: seq<string>, values: seq<string>, c: string, v: string)
    requires |cols| == |values|
    ensures Join(SetPairs(cols + [c], values + [v]), ", ")
         == Join(SetPairs(cols, values), ", ") + (if |cols| > 0 then ", " else "") + c + " = " + v
  {
    SetPairsSnoc(cols, values, c, v);
    JoinSnoc(SetPairs(cols, values), c + " = " + v, ", ");
  }
}
