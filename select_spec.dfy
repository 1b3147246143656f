/** The text a SELECT builder produces, as functions of its state: the
    `SELECT` list, `FROM`, the joins, `WHERE`, `GROUP BY`, `HAVING`,
    `ORDER BY`, `LIMIT` and `OFFSET`, in that order, with the list of names
    that must not be alias-qualified (`ignores`) threaded through in the
    order the source adds to it. */
module SelectSpec {
  import opened Results
  import opened Text
  import opened Values
  import opened Format
  import opened Assertion
  import opened Columns
  import opened Clause

  /** A `groupBy` / `orderBy` entry. */
  datatype ByItem = ByItem(column: string, isDesc: bool)

  /** A `having` group: the entries its factory added, and whether it came
      from `orHaving`. */
  datatype HavingItem = HavingItem(clauses: seq<Entry>, isOr: bool)

  /** What a join targets: a table, or a sub-select with its result alias. */
  datatype JoinTable = Named(name: string) | Subquery(query: SelectState, resultAlias: string)

  /** The fields of a join builder; an empty `alias` or `joinType` stands for
      an unset (falsy) one. */
  datatype JoinState = JoinState(
    table: JoinTable, alias: string, joinType: string,
    select: seq<string>, clauses: seq<Entry>, groupBy: seq<ByItem>, orderBy: seq<ByItem>)

  /** The fields of a select builder; `""` and `0` stand for unset. */
  datatype SelectState = SelectState(
    table: string, alias: string, select: seq<string>, joins: seq<JoinState>,
    clauses: seq<Entry>, groupBy: seq<ByItem>, having: seq<HavingItem>, orderBy: seq<ByItem>,
    limit: int, skip: int)

  /** Texts collected so far, and the `ignores` list as it now stands. */
  datatype Acc = Acc(texts: seq<string>, ignores: seq<string>)

  /** Built text, and the `ignores` list after building it. */
  datatype Built = Built(sql: string, ignores: seq<string>)

  const NoTable := "must be use from() set table"
  const NoResultAlias := "Join a select must be use resultAlias"

  function EmptySelect(): (r: SelectState)
    ensures r.table == "" && r.joins == [] && r.limit == 0
  {
    SelectState("", "", [], [], [], [], [], [], 0, 0)
  }

  // ---------------------------------------------------------------------
  // The `as` keyword of a selected column

  predicate IsA(c: char) { c == 'a' || c == 'A' }

  predicate IsS(c: char) { c == 's' || c == 'S' }

  /** The end of the run of white space starting at `from`. */
  function SpaceRun(s: string, from: nat): (e: nat)
    requires from <= |s|
    ensures from <= e <= |s|
    ensures forall k :: from <= k < e ==> IsJsSpace(s[k])
    ensures e == |s| || !IsJsSpace(s[e])
    decreases |s| - from
  {
    if from < |s| && IsJsSpace(s[from]) then SpaceRun(s, from + 1) else from
  }

  /** `as`, in any case, at `q`, followed by white space or the end. */
  predicate AsAt(s: string, q: nat)
  {
    q + 2 <= |s| && IsA(s[q]) && IsS(s[q + 1]) && (q + 2 == |s| || IsJsSpace(s[q + 2]))
  }

  /** Where a match of `/(?:^|\s+)as(?:\s+|$)/i` that starts exactly at `q`
      ends, if there is one. */
  function MatchEnd(s: string, q: nat): (r: Option<nat>)
    requires q <= |s|
    ensures r.Some? ==> q < r.value <= |s|
  {
    if q == 0 && AsAt(s, 0) then Some(SpaceRun(s, 2))
    else if q < |s| && IsJsSpace(s[q]) && AsAt(s, SpaceRun(s, q)) then Some(SpaceRun(s, SpaceRun(s, q) + 2))
    else None
  }

  /** `split` with that pattern: the piece since `p`, the last match's end,
      grows until a match starts at `q`. */
  function SplitAsFrom(s: string, p: nat, q: nat): (r: seq<string>)
    requires p <= q <= |s|
    ensures |r| >= 1
    decreases |s| - q
  {
    if q == |s| then [s[p..]]
    else
      match MatchEnd(s, q)
      case None => SplitAsFrom(s, p, q + 1)
      case Some(e) => [s[p..q]] + SplitAsFrom(s, e, e)
  }

  function SplitAs(s: string): (r: seq<string>)
    ensures |r| >= 1
  {
    SplitAsFrom(s, 0, 0)
  }

  // ---------------------------------------------------------------------
  // The SELECT list

  function BadColumn(item: string): string
  {
    "bad column expression \"" + item + "\""
  }

  /** One selected item, with the alias of its table: `*` stands for all
      columns of that table; `expr as name` renders `expr AS name` and puts
      `name` on the ignores list before `expr` is rendered. */
  function Field(item: string, alias: string, ignores: seq<string>): Result<(string, seq<string>)>
  {
    if item == "*" then Ok((if alias != "" then EscapeId(Str(alias), false) + ".*" else "*", ignores))
    else
      var parts := SplitAs(Trim(item));
      if |parts| > 2 then Fail(BadColumn(item))
      else
        var asAlias := if |parts| == 2 then parts[1] else "";
        var ig := if asAlias != "" then ignores + [asAlias] else ignores;
        var column :- BuildColumn(parts[0], ig, alias);
        Ok((if asAlias != "" then column + " AS " + EscapeId(Str(asAlias), false) else column, ig))
  }

  /** `parseSelectedColumns(items, alias)` from item `i` on. */
  function FieldsFrom(items: seq<string>, i: nat, alias: string, acc: Acc): Result<Acc>
    requires i <= |items|
    decreases |items| - i
  {
    if i == |items| then Ok(acc)
    else
      var field :- Field(items[i], alias, acc.ignores);
      FieldsFrom(items, i + 1, alias, Acc(acc.texts + [field.0], field.1))
  }

  /** The alias a join's columns are qualified with: its own, else the
      sub-select's result alias, else the table name. */
  function JoinedAlias(j: JoinState): string
  {
    if j.alias != "" then j.alias
    else match j.table
      case Subquery(_, resultAlias) => resultAlias
      case Named(name) => name
  }

  /** The columns selected through the joins, from join `k` on. */
  function JoinFieldsFrom(joins: seq<JoinState>, k: nat, acc: Acc): Result<Acc>
    requires k <= |joins|
    decreases |joins| - k
  {
    if k == |joins| then Ok(acc)
    else
      var next :- FieldsFrom(joins[k].select, 0, JoinedAlias(joins[k]), acc);
      JoinFieldsFrom(joins, k + 1, next)
  }

  /** The alias in force: the explicit one, else the table name when there is
      a join, else none. */
  function EffectiveAlias(s: SelectState): string
  {
    if s.alias != "" then s.alias else if |s.joins| > 0 then s.table else ""
  }

  /** `SELECT fields FROM table [AS alias]`. */
  function Head(s: SelectState, fields: seq<string>): string
  {
    "SELECT " + Join(if fields == [] then ["*"] else fields, ", ")
      + " FROM " + EscapeId(Str(s.table), false)
      + (if s.alias != "" then " AS " + EscapeId(Str(s.alias), false) else "")
  }

  // ---------------------------------------------------------------------
  // GROUP BY, HAVING, ORDER BY

  function ByText(item: ByItem, ignores: seq<string>, alias: string): Result<string>
  {
    var column :- BuildColumn(item.column, ignores, alias);
    Ok(column + (if item.isDesc then " DESC" else " ASC"))
  }

  /** The texts of `items` from `i` on, appended to `acc`. */
  function ByFrom(items: seq<ByItem>, i: nat, acc: seq<string>, ignores: seq<string>, alias: string): Result<seq<string>>
    requires i <= |items|
    decreases |items| - i
  {
    if i == |items| then Ok(acc)
    else
      var text :- ByText(items[i], ignores, alias);
      ByFrom(items, i + 1, acc + [text], ignores, alias)
  }

  /** A join's group-by items (`group`) or order-by items. */
  function JoinItems(j: JoinState, group: bool): seq<ByItem>
  {
    if group then j.groupBy else j.orderBy
  }

  /** The joins' items, from join `k` on, appended to `acc`. */
  function JoinsByFrom(joins: seq<JoinState>, k: nat, group: bool, acc: seq<string>, ignores: seq<string>, alias: string): Result<seq<string>>
    requires k <= |joins|
    decreases |joins| - k
  {
    if k == |joins| then Ok(acc)
    else
      var next :- ByFrom(JoinItems(joins[k], group), 0, acc, ignores, alias);
      JoinsByFrom(joins, k + 1, group, next, ignores, alias)
  }

  /** ` GROUP BY ...` or ` ORDER BY ...`: the builder's own items, then each
      join's; nothing when there are none. */
  function ByClause(keyword: string, own: seq<ByItem>, joins: seq<JoinState>, group: bool, ignores: seq<string>, alias: string): Result<string>
  {
    var mine :- ByFrom(own, 0, [], ignores, alias);
    var all :- JoinsByFrom(joins, 0, group, mine, ignores, alias);
    Ok(if all == [] then "" else keyword + Join(all, ", "))
  }

  /** The `having` reduce from group `i` on: ` HAVING ` before the first
      group, ` OR ` / ` AND ` before the others. */
  function HavingFrom(groups: seq<HavingItem>, i: nat, sql: string, ignores: seq<string>, alias: string): Result<string>
    requires i <= |groups|
    decreases |groups| - i
  {
    if i == |groups| then Ok(sql)
    else
      var text :- Render(groups[i].clauses, ignores, alias);
      var lead := if i == 0 then " HAVING " else if groups[i].isOr then " OR " else " AND ";
      HavingFrom(groups, i + 1, sql + lead + text, ignores, alias)
  }

  /** `[ LIMIT n][ OFFSET m]` */
  function Paging(limit: int, skip: int): string
  {
    (if limit != 0 then " LIMIT " + IntToString(limit) else "")
    + (if skip != 0 then " OFFSET " + IntToString(skip) else "")
  }

  // ---------------------------------------------------------------------
  // Whole statements

  /** `SelectBuilder.build(options)` with `options.ignores` = `ignores`. */
  function SelectSql(s: SelectState, ignores: seq<string>): Result<Built>
    decreases s, 2, 0
  {
    if s.table == "" then Fail(NoTable)
    else
      var alias := EffectiveAlias(s);
      var ig := if alias != "" then ignores + [alias] else ignores;
      var own :- FieldsFrom(s.select, 0, alias, Acc([], ig));
      var fields :- JoinFieldsFrom(s.joins, 0, own);
      var joined :- JoinsFrom(s.joins, 0, Built(Head(s, fields.texts), fields.ignores), alias);
      var tail :- Tail(s, joined.ignores, alias);
      Ok(Built(joined.sql + tail, joined.ignores))
  }

  /** Everything after the joins; nothing there changes `ignores`. */
  function Tail(s: SelectState, ignores: seq<string>, alias: string): Result<string>
  {
    var where :- Render(s.clauses, ignores, alias);
    var groups :- ByClause(" GROUP BY ", s.groupBy, s.joins, true, ignores, alias);
    var having :- HavingFrom(s.having, 0, "", ignores, alias);
    var orders :- ByClause(" ORDER BY ", s.orderBy, s.joins, false, ignores, alias);
    Ok((if where != "" then " WHERE " + where else "") + groups + having + orders + Paging(s.limit, s.skip))
  }

  /** The joins from `k` on, each after a space. */
  function JoinsFrom(joins: seq<JoinState>, k: nat, acc: Built, alias: string): Result<Built>
    requires k <= |joins|
    decreases joins, 1, |joins| - k
  {
    if k == |joins| then Ok(acc)
    else
      var join :- JoinSql(joins[k], acc.ignores, alias);
      JoinsFrom(joins, k + 1, Built(acc.sql + " " + join.sql, join.ignores), alias)
  }

  /** `JoinBuilder.build(options)`: `[TYPE] JOIN target [ON ...]`, trimmed;
      a named table's alias goes on the ignores list. */
  function JoinSql(j: JoinState, ignores: seq<string>, alias: string): Result<Built>
    decreases j, 0, 0
  {
    var lead := (if j.joinType != "" then UpperAscii(j.joinType) else "") + " JOIN ";
    var target :-
      match j.table
      case Subquery(q, resultAlias) => SubquerySql(q, resultAlias, ignores)
      case Named(name) =>
        if j.alias != "" then Ok(Built(EscapeId(Str(name), false) + " AS " + EscapeId(Str(j.alias), false), ignores + [j.alias]))
        else Ok(Built(EscapeId(Str(name), false), ignores));
    var on :- Render(j.clauses, target.ignores, alias);
    Ok(Built(Trim(lead + target.sql + (if on != "" then " ON " + on else "")), target.ignores))
  }

  /** `JoinSelectBuilder.build(options)`: `(SELECT ...) AS result`. */
  function SubquerySql(q: SelectState, resultAlias: string, ignores: seq<string>): Result<Built>
    decreases q, 3, 0
  {
    if resultAlias == "" then Fail(NoResultAlias)
    else
      var inner :- SelectSql(q, ignores);
      Ok(Built("(" + inner.sql + ") AS " + EscapeId(Str(resultAlias), true), inner.ignores))
  }

  // ---------------------------------------------------------------------
  // De-duplication of the SELECT list

  /** `Array.from(new Set(s))`: each element once, at its first occurrence. */
  function Dedupe(s: seq<string>): (r: seq<string>)
    ensures forall x :: x in r <==> x in s
    ensures Distinct(r)
  {
    if s == [] then []
    else
      var d := Dedupe(s[..|s| - 1]);
      assert forall x :: x in s[..|s| - 1] ==> x in s;
      assert forall x :: x in s ==> x in s[..|s| - 1] || x == s[|s| - 1];
      if s[|s| - 1] in d then d else d + [s[|s| - 1]]
  }

  predicate Distinct(s: seq<string>)
  {
    forall i, j :: 0 <= i < j < |s| ==> s[i] != s[j]
  }
}
