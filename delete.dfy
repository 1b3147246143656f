/** The DELETE builder: a target table, the inherited condition list, a
    limit and an offset; `build` renders
    `DELETE FROM t [WHERE ...] [LIMIT n] [OFFSET m]`. */
module Delete {
  import opened Results
  import opened Text
  import opened Values
  import opened Assertion
  import opened Format
  import opened Clause

  /** The builder's fields; 0 stands for an unset limit or offset, which
      `take` and `skip` never store. */
  datatype DeleteState = DeleteState(table: Value, clauses: seq<Entry>, limit: int, skip: int)

  const OffsetWithoutLimit := "The OFFSET is working together with LIMIT so first used take function"

  /** What `take` and `skip` keep true: both positive when set, and an
      offset only after a limit. */
  predicate Paged(s: DeleteState)
  {
    s.limit >= 0 && s.skip >= 0 && (s.skip != 0 ==> s.limit != 0)
  }

  /** `build({ignores, alias})`: the conditions first, then the text. */
  function DeleteSql(s: DeleteState, ignores: seq<string>, alias: string): (r: Result<string>)
  {
    var where :- Render(s.clauses, ignores, alias);
    Ok("DELETE FROM " + EscapeId(s.table, false)
       + (if where != "" then " WHERE " + where else "")
       + (if s.limit != 0 then " LIMIT " + IntToString(s.limit) else "")
       + (if s.skip != 0 then " OFFSET " + IntToString(s.skip) else ""))
  }

  /** `build` fails exactly as the conditions do. Its text is the table,
      then WHERE when the conditions render to something, then LIMIT when a
      limit is set, then OFFSET when an offset is set; with the builder's
      invariant, an OFFSET always comes right after a LIMIT. */
  lemma DeleteSqlMeaning(s: DeleteState, ignores: seq<string>, alias: string)
    ensures DeleteSql(s, ignores, alias).Ok? <==> Render(s.clauses, ignores, alias).Ok?
    ensures DeleteSql(s, ignores, alias).Err? ==> DeleteSql(s, ignores, alias).error == Render(s.clauses, ignores, alias).error
    ensures Paged(s) && s.skip != 0 && DeleteSql(s, ignores, alias).Ok? ==>
      var where := Render(s.clauses, ignores, alias).value;
      DeleteSql(s, ignores, alias).value
        == "DELETE FROM " + EscapeId(s.table, false) + (if where != "" then " WHERE " + where else "")
           + (" LIMIT " + IntToString(s.limit) + " OFFSET " + IntToString(s.skip))
    ensures s.limit != 0 && s.skip == 0 && DeleteSql(s, ignores, alias).Ok? ==>
      var where := Render(s.clauses, ignores, alias).value;
      DeleteSql(s, ignores, alias).value
        == "DELETE FROM " + EscapeId(s.table, false) + (if where != "" then " WHERE " + where else "")
           + " LIMIT " + IntToString(s.limit)
    ensures s.limit == 0 && s.skip == 0 && DeleteSql(s, ignores, alias).Ok? ==>
      var where := Render(s.clauses, ignores, alias).value;
      DeleteSql(s, ignores, alias).value == "DELETE FROM " + EscapeId(s.table, false) + (if where != "" then " WHERE " + where else "")
  {
    if Render(s.clauses, ignores, alias).Ok? {
      var where := Render(s.clauses, ignores, alias).value;
      if Paged(s) && s.skip != 0 {
        DeleteSqlPaged(s, ignores, alias, where);
      }
      if s.limit != 0 && s.skip == 0 {
        DeleteSqlLimited(s, ignores, alias, where);
      }
      if s.limit == 0 && s.skip == 0 {
        DeleteSqlPlain(s, ignores, alias, where);
      }
    }
  }

  /** With an offset, LIMIT and OFFSET close the text together. */
  lemma DeleteSqlPaged(s: DeleteState, ignores: seq<string>, alias: string, where: string)
    requires Render(s.clauses, ignores, alias) == Ok(where) && Paged(s) && s.skip != 0
    ensures DeleteSql(s, ignores, alias)
         == Ok("DELETE FROM " + EscapeId(s.table, false) + (if where != "" then " WHERE " + where else "")
               + (" LIMIT " + IntToString(s.limit) + " OFFSET " + IntToString(s.skip)))
  {
    var head := "DELETE FROM " + EscapeId(s.table, false) + (if where != "" then " WHERE " + where else "");
    assert s.limit != 0;
    AppendAssoc(head, " LIMIT " + IntToString(s.limit), " OFFSET " + IntToString(s.skip));
    AppendAssoc(" LIMIT " + IntToString(s.limit), " OFFSET ", IntToString(s.skip));
  }

  /** With a limit and no offset, LIMIT closes the text. */
  lemma DeleteSqlLimited(s: DeleteState, ignores: seq<string>, alias: string, where: string)
    requires Render(s.clauses, ignores, alias) == Ok(where) && s.limit != 0 && s.skip == 0
    ensures DeleteSql(s, ignores, alias)
         == Ok("DELETE FROM " + EscapeId(s.table, false) + (if where != "" then " WHERE " + where else "")
               + " LIMIT " + IntToString(s.limit))
  {
    var head := "DELETE FROM " + EscapeId(s.table, false) + (if where != "" then " WHERE " + where else "");
    AppendEmpty(head + (" LIMIT " + IntToString(s.limit)));
    AppendAssoc(head, " LIMIT ", IntToString(s.limit));
  }

  /** With neither limit nor offset, the text ends after the conditions. */
  lemma DeleteSqlPlain(s: DeleteState, ignores: seq<string>, alias: string, where: string)
    requires Render(s.clauses, ignores, alias) == Ok(where) && s.limit == 0 && s.skip == 0
    ensures DeleteSql(s, ignores, alias)
         == Ok("DELETE FROM " + EscapeId(s.table, false) + (if where != "" then " WHERE " + where else ""))
  {
    var head := "DELETE FROM " + EscapeId(s.table, false) + (if where != "" then " WHERE " + where else "");
    AppendEmpty(head);
    AppendEmpty(head + "");
  }

  class DeleteBuilder {
    var table: Value
    var limit: int
    var skip: int
    /** The `WHERE` conditions. */
    const conditions: ClauseBuilder

    constructor()
      ensures fresh(conditions)
      ensures State() == DeleteState(Undefined, [], 0, 0) && Paged(State())
    {
      table := Undefined;
      limit := 0;
      skip := 0;
      conditions := new ClauseBuilder();
    }

    function State(): DeleteState
      reads this, conditions
    {
      DeleteState(table, conditions.clauses, limit, skip)
    }

    /** `from(table)` */
    method From(table: Value) returns (r: Result<()>)
      modifies this
      ensures r == Stringed(table, "table")
      ensures r.Ok? ==> State() == old(State()).(table := table)
      ensures r.Err? ==> State() == old(State())
    {
      r := Stringed(table, "table");
      if r.Ok? {
        this.table := table;
      }
    }

    /** `take(limit)` */
    method Take(limit: Value) returns (r: Result<()>)
      requires Paged(State())
      modifies this
      ensures r == Integer(limit, "limit")
      ensures r.Ok? ==> State() == old(State()).(limit := ToNumber(limit).n)
      ensures r.Err? ==> State() == old(State())
      ensures Paged(State())
    {
      r := Integer(limit, "limit");
      if r.Ok? {
        this.limit := ToNumber(limit).n;
      }
    }

    /** `skip(count)`: only after `take`. */
    method Skip(count: Value) returns (r: Result<()>)
      requires Paged(State())
      modifies this
      ensures r.Ok? <==> Integer(count, "count").Ok? && old(limit) != 0
      ensures r.Err? && Integer(count, "count").Err? ==> r == Integer(count, "count")
      ensures r.Err? && Integer(count, "count").Ok? ==> r == Fail(OffsetWithoutLimit)
      ensures r.Ok? ==> State() == old(State()).(skip := ToNumber(count).n)
      ensures r.Err? ==> State() == old(State())
      ensures Paged(State())
    {
      var _ :- Integer(count, "count");
      if limit == 0 {
        return Fail(OffsetWithoutLimit);
      }
      skip := ToNumber(count).n;
      return Ok(());
    }

    /** `build({ignores, alias})` */
    method Build(ignores: seq<string>, alias: string) returns (r: Result<string>)
      ensures r == DeleteSql(State(), ignores, alias)
    {
      var where := conditions.Build(ignores, alias);
      if where.Err? {
        return Err(where.error);
      }
      var sql := "DELETE FROM " + EscapeId(table, false);
      ghost var wherePart := if where.value != "" then " WHERE " + where.value else "";
      ghost var limitPart := if limit != 0 then " LIMIT " + IntToString(limit) else "";
      ghost var skipPart := if skip != 0 then " OFFSET " + IntToString(skip) else "";
      ghost var head := sql;
      if where.value != "" {
        sql := sql + " WHERE " + where.value;
        AppendAssoc(head, " WHERE ", where.value);
      } else {
        AppendEmpty(sql);
      }
      assert sql == head + wherePart;
      ghost var withWhere := sql;
      if limit != 0 {
        sql := sql + " LIMIT " + IntToString(limit);
        AppendAssoc(withWhere, " LIMIT ", IntToString(limit));
      } else {
        AppendEmpty(sql);
      }
      assert sql == head + wherePart + limitPart;
      ghost var withLimit := sql;
      if skip != 0 {
        sql := sql + " OFFSET " + IntToString(skip);
        AppendAssoc(withLimit, " OFFSET ", IntToString(skip));
      } else {
        AppendEmpty(sql);
      }
      return Ok(sql);
    }
  }
}
