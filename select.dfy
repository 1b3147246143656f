/** The SELECT, JOIN and sub-select builders. Each builder's fields are
    updated by its methods; `build` walks them in source order, collecting
    texts and growing the `ignores` list as it goes. The condition list a
    builder inherits from the clause builder is a `ClauseBuilder` it owns. */
module Select {
  import opened Results
  import opened Text
  import opened Values
  import opened Assertion
  import opened Format
  import opened Columns
  import opened Clause
  import opened SelectSpec

  /** The stored form of an optional alias: a falsy alias is unset. */
  function AliasText(alias: Value): (r: string)
    requires !Truthy(alias) || alias.Str?
    ensures r == "" <==> !Truthy(alias)
  {
    if Truthy(alias) then alias.s else ""
  }

  /** `alias && stringed(alias, 'alias')` */
  function CheckAlias(alias: Value): (r: Result<()>)
    ensures r.Ok? <==> !Truthy(alias) || alias.Str?
  {
    if Truthy(alias) then Stringed(alias, "alias") else Ok(())
  }

  /** `select(columns)`: the columns of the call, split, after those already
      selected, each kept once. */
  function Selected(before: seq<string>, columns: Value): (r: Result<seq<string>>)
    ensures r.Ok? <==> !columns.Null? && !columns.Undefined? && Disassemble(columns).Ok?
    ensures r.Ok? ==> r.value == Dedupe(before + Disassemble(columns).value)
  {
    var _ :- Required(columns, "columns");
    var cols :- Disassemble(columns);
    Ok(Dedupe(before + cols))
  }

  const OffsetWithoutLimit := "The OFFSET is working together with LIMIT so first used take function"
  const NotAFactory := "The havingFactory must be a function"

  class JoinBuilder {
    var table: JoinTable
    var alias: string
    var joinType: string
    var select: seq<string>
    var groupBy: seq<ByItem>
    var orderBy: seq<ByItem>
    /** The `ON` conditions. */
    const on: ClauseBuilder

    constructor(table: JoinTable, joinType: string)
      ensures fresh(on)
      ensures State() == JoinState(table, "", joinType, [], [], [], [])
    {
      this.table := table;
      this.alias := "";
      this.joinType := joinType;
      this.select := [];
      this.groupBy := [];
      this.orderBy := [];
      this.on := new ClauseBuilder();
    }

    function State(): JoinState
      reads this, on
    {
      JoinState(table, alias, joinType, select, on.clauses, groupBy, orderBy)
    }

    method SetAlias(alias: Value) returns (r: Result<()>)
      modifies this
      ensures r == CheckAlias(alias)
      ensures r.Ok? ==> State() == old(State()).(alias := AliasText(alias))
      ensures r.Err? ==> State() == old(State())
    {
      r := CheckAlias(alias);
      if r.Ok? {
        this.alias := AliasText(alias);
      }
    }

    method Select(columns: Value) returns (r: Result<()>)
      modifies this
      ensures r.Ok? <==> Selected(old(select), columns).Ok?
      ensures r.Ok? ==> State() == old(State()).(select := Selected(old(select), columns).value)
      ensures r.Err? ==> State() == old(State())
    {
      var chosen := Selected(select, columns);
      if chosen.Err? {
        return Err(chosen.error);
      }
      select := chosen.value;
      return Ok(());
    }

    method GroupBy(column: string, isDesc: bool)
      modifies this
      ensures State() == old(State()).(groupBy := old(groupBy) + [ByItem(column, isDesc)])
    {
      groupBy := groupBy + [ByItem(column, isDesc)];
    }

    method OrderBy(column: string, isDesc: bool)
      modifies this
      ensures State() == old(State()).(orderBy := old(orderBy) + [ByItem(column, isDesc)])
    {
      orderBy := orderBy + [ByItem(column, isDesc)];
    }

    method Build(ignores: seq<string>, outerAlias: string) returns (r: Result<Built>)
      ensures r == JoinSql(State(), ignores, outerAlias)
    {
      r := BuildJoin(State(), ignores, outerAlias);
    }
  }

  class SelectBuilder {
    var table: string
    var alias: string
    var select: seq<string>
    var joins: seq<JoinState>
    var groupBy: seq<ByItem>
    var having: seq<HavingItem>
    var orderBy: seq<ByItem>
    var limit: int
    var skip: int
    /** The `WHERE` conditions. */
    const conditions: ClauseBuilder

    constructor()
      ensures fresh(conditions)
      ensures State() == EmptySelect()
    {
      table := "";
      alias := "";
      select := [];
      joins := [];
      groupBy := [];
      having := [];
      orderBy := [];
      limit := 0;
      skip := 0;
      conditions := new ClauseBuilder();
    }

    function State(): SelectState
      reads this, conditions
    {
      SelectState(table, alias, select, joins, conditions.clauses, groupBy, having, orderBy, limit, skip)
    }

    /** `from(table, alias)` */
    method From(table: Value, alias: Value) returns (r: Result<()>)
      modifies this
      ensures r.Ok? <==> Stringed(table, "table").Ok? && CheckAlias(alias).Ok?
      ensures r.Ok? ==> State() == old(State()).(table := table.s, alias := AliasText(alias))
      ensures r.Err? ==> State() == old(State())
    {
      var _ :- Stringed(table, "table");
      var _ :- CheckAlias(alias);
      this.table := table.s;
      this.alias := AliasText(alias);
      return Ok(());
    }

    method Select(columns: Value) returns (r: Result<()>)
      modifies this
      ensures r.Ok? <==> Selected(old(select), columns).Ok?
      ensures r.Ok? ==> State() == old(State()).(select := Selected(old(select), columns).value)
      ensures r.Err? ==> State() == old(State()) && r.error == Selected(old(select), columns).error
    {
      var chosen := Selected(select, columns);
      if chosen.Err? {
        return Err(chosen.error);
      }
      select := chosen.value;
      return Ok(());
    }

    /** `join(selectFactory)`: `child` is the sub-select after the factory has
        run on it. */
    method JoinSelect(child: JoinSelectBuilder)
      modifies this
      ensures State() == old(State()).(joins := old(joins) + [JoinState(Subquery(old(child.query.State()), child.resultAlias), "", "", [], [], [], [])])
    {
      joins := joins + [JoinState(Subquery(child.query.State(), child.resultAlias), "", "", [], [], [], [])];
    }

    /** `join(table, joinFactory)` (with `joinType` `""`) and
        `join(table, type, joinFactory)`: `child` is the join builder after
        the factory has run on it, or `null` when no factory was passed. */
    method Join(table: Value, joinType: string, child: JoinBuilder?) returns (r: Result<()>)
      modifies this
      ensures r == Stringed(table, "table")
      ensures r.Ok? && child != null ==>
        State() == old(State()).(joins := old(joins) + [old(child.State()).(table := Named(table.s), joinType := joinType)])
      ensures r.Err? || child == null ==> State() == old(State())
    {
      r := Stringed(table, "table");
      if r.Ok? && child != null {
        joins := joins + [child.State().(table := Named(table.s), joinType := joinType)];
      }
    }

    /** `take(limit)` */
    method Take(limit: Value) returns (r: Result<()>)
      modifies this
      ensures r == Integer(limit, "limit")
      ensures r.Ok? ==> State() == old(State()).(limit := ToNumber(limit).n)
      ensures r.Err? ==> State() == old(State())
    {
      r := Integer(limit, "limit");
      if r.Ok? {
        this.limit := ToNumber(limit).n;
      }
    }

    /** `skip(count)`: only after `take`. */
    method Skip(count: Value) returns (r: Result<()>)
      modifies this
      ensures r.Ok? <==> Integer(count, "count").Ok? && limit != 0
      ensures r.Err? && Integer(count, "count").Err? ==> r == Integer(count, "count")
      ensures r.Err? && Integer(count, "count").Ok? ==> r == Fail(OffsetWithoutLimit)
      ensures r.Ok? ==> State() == old(State()).(skip := ToNumber(count).n)
      ensures r.Err? ==> State() == old(State())
    {
      var _ :- Integer(count, "count");
      if limit == 0 {
        return Fail(OffsetWithoutLimit);
      }
      skip := ToNumber(count).n;
      return Ok(());
    }

    method GroupBy(column: string, isDesc: bool)
      modifies this
      ensures State() == old(State()).(groupBy := old(groupBy) + [ByItem(column, isDesc)])
    {
      groupBy := groupBy + [ByItem(column, isDesc)];
    }

    method OrderBy(column: string, isDesc: bool)
      modifies this
      ensures State() == old(State()).(orderBy := old(orderBy) + [ByItem(column, isDesc)])
    {
      orderBy := orderBy + [ByItem(column, isDesc)];
    }

    /** `having(factory)`: `child` is the condition builder after the factory
        has run on it, or `null` when what was passed is not a function. */
    method Having(child: ClauseBuilder?) returns (r: Result<()>)
      modifies this
      ensures r.Ok? <==> child != null
      ensures r.Err? ==> r == Fail(NotAFactory) && State() == old(State())
      ensures r.Ok? ==> State() == old(State()).(having := old(having) + [HavingItem(child.clauses, false)])
    {
      if child == null {
        return Fail(NotAFactory);
      }
      having := having + [HavingItem(child.clauses, false)];
      return Ok(());
    }

    /** `orHaving(factory)`: `having`, then the new group is marked `OR`. */
    method OrHaving(child: ClauseBuilder?) returns (r: Result<()>)
      modifies this
      ensures r.Ok? <==> child != null
      ensures r.Err? ==> r == Fail(NotAFactory) && State() == old(State())
      ensures r.Ok? ==> State() == old(State()).(having := old(having) + [HavingItem(child.clauses, true)])
    {
      r := Having(child);
      if r.Ok? {
        var last := |having| - 1;
        having := having[last := having[last].(isOr := true)];
      }
    }

    /** `build(options)` with `options.ignores` = `ignores`. */
    method BuildWith(ignores: seq<string>) returns (r: Result<Built>)
      ensures r == SelectSql(State(), ignores)
    {
      r := BuildSelect(State(), ignores);
    }

    /** `build()`: a fresh, empty `ignores` list. */
    method Build() returns (r: Result<string>)
      ensures r.Ok? <==> SelectSql(State(), []).Ok?
      ensures r.Ok? ==> r.value == SelectSql(State(), []).value.sql
      ensures r.Err? ==> r.error == SelectSql(State(), []).error
    {
      var built :- BuildWith([]);
      return Ok(built.sql);
    }
  }

  /** A select used as a join target. */
  class JoinSelectBuilder {
    const query: SelectBuilder
    var resultAlias: string

    constructor()
      ensures fresh(query) && fresh(query.conditions)
      ensures query.State() == EmptySelect() && resultAlias == ""
    {
      query := new SelectBuilder();
      resultAlias := "";
    }

    method SetAlias(alias: Value) returns (r: Result<()>)
      modifies this
      ensures r == CheckAlias(alias)
      ensures r.Ok? ==> resultAlias == AliasText(alias)
      ensures r.Err? ==> resultAlias == old(resultAlias)
    {
      r := CheckAlias(alias);
      if r.Ok? {
        resultAlias := AliasText(alias);
      }
    }

    method Build(ignores: seq<string>) returns (r: Result<Built>)
      ensures r == SubquerySql(query.State(), resultAlias, ignores)
    {
      r := BuildSubquery(query.State(), resultAlias, ignores);
    }
  }

  // ---------------------------------------------------------------------
  // The build walks

  /** The `forEach` of `parseSelectedColumns`. */
  method BuildFields(items: seq<string>, alias: string, start: Acc) returns (r: Result<Acc>)
    ensures r == FieldsFrom(items, 0, alias, start)
  {
    var acc := start;
    var i := 0;
    while i < |items|
      invariant i <= |items|
      invariant FieldsFrom(items, 0, alias, start) == FieldsFrom(items, i, alias, acc)
    {
      var field := SelectSpec.Field(items[i], alias, acc.ignores);
      if field.Err? {
        return Err(field.error);
      }
      acc := Acc(acc.texts + [field.value.0], field.value.1);
      i := i + 1;
    }
    return Ok(acc);
  }

  /** The columns each join selects, with that join's alias. */
  method BuildJoinFields(joins: seq<JoinState>, start: Acc) returns (r: Result<Acc>)
    ensures r == JoinFieldsFrom(joins, 0, start)
  {
    var acc := start;
    var k := 0;
    while k < |joins|
      invariant k <= |joins|
      invariant JoinFieldsFrom(joins, 0, start) == JoinFieldsFrom(joins, k, acc)
    {
      var next := BuildFields(joins[k].select, JoinedAlias(joins[k]), acc);
      if next.Err? {
        return Err(next.error);
      }
      acc := next.value;
      k := k + 1;
    }
    return Ok(acc);
  }

  /** The `forEach` over group-by or order-by items. */
  method BuildBy(items: seq<ByItem>, start: seq<string>, ignores: seq<string>, alias: string) returns (r: Result<seq<string>>)
    ensures r == ByFrom(items, 0, start, ignores, alias)
  {
    var acc := start;
    var i := 0;
    while i < |items|
      invariant i <= |items|
      invariant ByFrom(items, 0, start, ignores, alias) == ByFrom(items, i, acc, ignores, alias)
    {
      var text := ByText(items[i], ignores, alias);
      if text.Err? {
        return Err(text.error);
      }
      acc := acc + [text.value];
      i := i + 1;
    }
    return Ok(acc);
  }

  /** The builder's own items, then each join's. */
  method BuildByClause(keyword: string, own: seq<ByItem>, joins: seq<JoinState>, group: bool, ignores: seq<string>, alias: string)
    returns (r: Result<string>)
    ensures r == ByClause(keyword, own, joins, group, ignores, alias)
  {
    var acc :- BuildBy(own, [], ignores, alias);
    ghost var mine := acc;
    var k := 0;
    while k < |joins|
      invariant k <= |joins|
      invariant JoinsByFrom(joins, 0, group, mine, ignores, alias) == JoinsByFrom(joins, k, group, acc, ignores, alias)
    {
      var next := BuildBy(if group then joins[k].groupBy else joins[k].orderBy, acc, ignores, alias);
      if next.Err? {
        return Err(next.error);
      }
      acc := next.value;
      k := k + 1;
    }
    if acc == [] {
      return Ok("");
    }
    return Ok(keyword + Join(acc, ", "));
  }

  /** The `reduce` over the `having` groups. */
  method BuildHaving(groups: seq<HavingItem>, ignores: seq<string>, alias: string) returns (r: Result<string>)
    ensures r == HavingFrom(groups, 0, "", ignores, alias)
  {
    var sql := "";
    var i := 0;
    while i < |groups|
      invariant i <= |groups|
      invariant HavingFrom(groups, 0, "", ignores, alias) == HavingFrom(groups, i, sql, ignores, alias)
    {
      var text := BuildEntries(groups[i].clauses, ignores, alias);
      if text.Err? {
        return Err(text.error);
      }
      if i == 0 {
        sql := sql + " HAVING ";
      } else {
        sql := sql + if groups[i].isOr then " OR " else " AND ";
      }
      sql := sql + text.value;
      i := i + 1;
    }
    return Ok(sql);
  }

  /** `WHERE`, `GROUP BY`, `HAVING`, `ORDER BY`, `LIMIT`, `OFFSET`. */
  method BuildTail(s: SelectState, ignores: seq<string>, alias: string) returns (r: Result<string>)
    ensures r == Tail(s, ignores, alias)
  {
    var where :- BuildEntries(s.clauses, ignores, alias);
    var groups :- BuildByClause(" GROUP BY ", s.groupBy, s.joins, true, ignores, alias);
    var having :- BuildHaving(s.having, ignores, alias);
    var orders :- BuildByClause(" ORDER BY ", s.orderBy, s.joins, false, ignores, alias);
    return Ok((if where != "" then " WHERE " + where else "") + groups + having + orders + Paging(s.limit, s.skip));
  }

  /** `SelectBuilder.build(options)` */
  method BuildSelect(s: SelectState, ignores: seq<string>) returns (r: Result<Built>)
    ensures r == SelectSql(s, ignores)
    decreases s, 2, 0
  {
    if s.table == "" {
      return Fail(NoTable);
    }
    var alias := EffectiveAlias(s);
    var ig := ignores;
    if alias != "" {
      ig := ig + [alias];
    }
    var own :- BuildFields(s.select, alias, Acc([], ig));
    var fields :- BuildJoinFields(s.joins, own);
    var joined :- BuildJoins(s.joins, Built(Head(s, fields.texts), fields.ignores), alias);
    var tail :- BuildTail(s, joined.ignores, alias);
    return Ok(Built(joined.sql + tail, joined.ignores));
  }

  /** `this._join.forEach(join => sql += ' ' + join.build(opts))` */
  method BuildJoins(joins: seq<JoinState>, start: Built, alias: string) returns (r: Result<Built>)
    ensures r == JoinsFrom(joins, 0, start, alias)
    decreases joins, 1, 0
  {
    var acc := start;
    var k := 0;
    while k < |joins|
      invariant k <= |joins|
      invariant JoinsFrom(joins, 0, start, alias) == JoinsFrom(joins, k, acc, alias)
    {
      var join := BuildJoin(joins[k], acc.ignores, alias);
      if join.Err? {
        return Err(join.error);
      }
      acc := Built(acc.sql + " " + join.value.sql, join.value.ignores);
      k := k + 1;
    }
    return Ok(acc);
  }

  /** `JoinBuilder.build(options)` */
  method BuildJoin(j: JoinState, ignores: seq<string>, alias: string) returns (r: Result<Built>)
    ensures r == JoinSql(j, ignores, alias)
    decreases j, 0, 0
  {
    var lead := (if j.joinType != "" then UpperAscii(j.joinType) else "") + " JOIN ";
    var target: Built;
    if j.table.Subquery? {
      target :- BuildSubquery(j.table.query, j.table.resultAlias, ignores);
    } else if j.alias != "" {
      target := Built(EscapeId(Str(j.table.name), false) + " AS " + EscapeId(Str(j.alias), false), ignores + [j.alias]);
    } else {
      target := Built(EscapeId(Str(j.table.name), false), ignores);
    }
    var on :- BuildEntries(j.clauses, target.ignores, alias);
    return Ok(Built(Trim(lead + target.sql + (if on != "" then " ON " + on else "")), target.ignores));
  }

  /** `JoinSelectBuilder.build(options)` */
  method BuildSubquery(q: SelectState, resultAlias: string, ignores: seq<string>) returns (r: Result<Built>)
    ensures r == SubquerySql(q, resultAlias, ignores)
    decreases q, 3, 0
  {
    if resultAlias == "" {
      return Fail(NoResultAlias);
    }
    var inner :- BuildSelect(q, ignores);
    return Ok(Built("(" + inner.sql + ") AS " + EscapeId(Str(resultAlias), true), inner.ignores));
  }
}
