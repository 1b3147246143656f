/** The SELECT statements of the repository's own test suite, for any plain
    table, alias and column names: the state each chain of calls leaves, and
    the text `build` makes of it. */
module SelectExamples {
  import opened Results
  import opened Text
  import opened Values
  import opened Format
  import opened ParserProperties
  import opened ColumnParser
  import opened Columns
  import opened Clause
  import opened SelectSpec
  import opened Select
  import opened SelectProperties

  /** A name in backticks. */
  function Quoted(w: string): string
  {
    "`" + w + "`"
  }

  /** A plain name is quoted as it is, in either mode. */
  lemma PlainQuoted(w: string)
    requires PlainName(w)
    ensures EscapeId(Str(w), false) == Quoted(w) && EscapeId(Str(w), true) == Quoted(w)
  {
    ReplaceAllAbsent(w, '`', "``");
    ReplaceAllAbsent(w, '.', "`.`");
  }

  /** Text with no white space at its ends loses only the one leading space. */
  lemma TrimOneSpace(z: string)
    requires z != [] && !IsJsSpace(z[0]) && !IsJsSpace(z[|z| - 1])
    ensures Trim(" " + z) == z
  {
    assert (" " + z)[1..] == z;
    assert TrimLeft(" " + z) == TrimLeft(z);
    TrimNoop(z);
  }

  // ---------------------------------------------------------------------
  // The parts of a statement

  /** The joins contribute no group-by or order-by items. */
  predicate NoJoinItems(joins: seq<JoinState>)
  {
    forall k :: 0 <= k < |joins| ==> joins[k].groupBy == [] && joins[k].orderBy == []
  }

  lemma {:induction false} JoinsByNothing(joins: seq<JoinState>, k: nat, group: bool, acc: seq<string>, ignores: seq<string>, alias: string)
    requires k <= |joins| && NoJoinItems(joins)
    ensures JoinsByFrom(joins, k, group, acc, ignores, alias) == Ok(acc)
    decreases |joins| - k
  {
    if k < |joins| {
      assert SelectSpec.JoinItems(joins[k], group) == [];
      JoinsByNothing(joins, k + 1, group, acc, ignores, alias);
    }
  }

  /** A statement with nothing after its joins but, possibly, a WHERE. */
  predicate OnlyWhere(s: SelectState)
  {
    s.groupBy == [] && s.having == [] && s.orderBy == [] && s.limit == 0 && s.skip == 0 && NoJoinItems(s.joins)
  }

  /** No group-by or order-by items anywhere: no clause. */
  lemma ByClauseNothing(keyword: string, joins: seq<JoinState>, group: bool, ignores: seq<string>, alias: string)
    requires NoJoinItems(joins)
    ensures ByClause(keyword, [], joins, group, ignores, alias) == Ok("")
  {
    JoinsByNothing(joins, 0, group, [], ignores, alias);
  }

  /** The tail of such a statement is its WHERE part, if any. */
  lemma TailWhere(s: SelectState, ignores: seq<string>, alias: string, w: string)
    requires OnlyWhere(s) && Render(s.clauses, ignores, alias) == Ok(w)
    ensures Tail(s, ignores, alias) == Ok(if w != "" then " WHERE " + w else "")
  {
    ByClauseNothing(" GROUP BY ", s.joins, true, ignores, alias);
    ByClauseNothing(" ORDER BY ", s.joins, false, ignores, alias);
    assert HavingFrom(s.having, 0, "", ignores, alias) == Ok("");
    assert Paging(s.limit, s.skip) == "";
    var where := if w != "" then " WHERE " + w else "";
    AppendEmpty(where);
  }

  lemma RenderNothing(ignores: seq<string>, alias: string)
    ensures Render([], ignores, alias) == Ok("")
  {
  }

  /** `SELECT * FROM t [WHERE ...]` from a statement with no alias, no
      selected columns and no joins. */
  lemma SelectWithoutJoins(s: SelectState, w: string)
    requires PlainName(s.table) && s.alias == "" && s.select == [] && s.joins == [] && OnlyWhere(s)
    requires Render(s.clauses, [], "") == Ok(w)
    ensures SelectSql(s, []) == Ok(Built("SELECT " + "*" + " FROM " + Quoted(s.table) + (if w != "" then " WHERE " + w else ""), []))
    ensures w == "" ==> SelectSql(s, []) == Ok(Built("SELECT " + "*" + " FROM " + Quoted(s.table), []))
  {
    PlainQuoted(s.table);
    assert Join(["*"], ", ") == "*";
    AppendEmpty("SELECT " + "*" + " FROM " + Quoted(s.table));
    TailWhere(s, [], "", w);
  }

  // ---------------------------------------------------------------------
  // test.spec.js, 'select' suite, without joins

  /** `from('users').build()` is `SELECT * FROM `users``. */
  lemma SimpleSelect(t: string)
    requires PlainName(t)
    ensures SelectSql(EmptySelect().(table := t), []) == Ok(Built("SELECT " + "*" + " FROM " + Quoted(t), []))
  {
    var s := EmptySelect().(table := t);
    assert s.clauses == [] && s.table == t;
    RenderNothing([], "");
    SelectWithoutJoins(s, "");
  }

  /** `where(c, '>')` alone renders `` `c` > ? ``. */
  lemma WhereOne(c: string)
    requires PlainName(c)
    ensures Render([Expr(c, ">", Unbound, false, false)], [], "") == Ok("`" + c + "`" + " " + ">" + " ?")
  {
    ComparisonOps();
    PlaceholderPredicate(c, ">", false);
    PlaceholderUnpadded(c, ">");
    RenderOne(Expr(c, ">", Unbound, false, false), [], "", "`" + c + "`" + " " + ">" + " ?");
  }

  /** `from(t).where(c, '>')`: `... WHERE `c` > ?`. */
  lemma SelectWhere(t: string, c: string)
    requires PlainName(t) && PlainName(c)
    ensures SelectSql(EmptySelect().(table := t, clauses := [Expr(c, ">", Unbound, false, false)]), [])
         == Ok(Built("SELECT " + "*" + " FROM " + Quoted(t) + (" WHERE " + ("`" + c + "`" + " " + ">" + " ?")), []))
  {
    WhereOne(c);
    SelectWithoutJoins(EmptySelect().(table := t, clauses := [Expr(c, ">", Unbound, false, false)]), "`" + c + "`" + " " + ">" + " ?");
  }

  /** `where(a, '>')` then `andWhere(b)` (`isOr` false) or `orWhere(b)`
      (`isOr` true): the second predicate follows with `AND` or `OR`. */
  lemma WherePair(a: string, b: string, isOr: bool)
    requires PlainName(a) && PlainName(b)
    ensures Render([Expr(a, ">", Unbound, false, false), Expr(b, "=", Unbound, false, isOr)], [], "")
         == Ok(("`" + a + "`" + " " + ">" + " ?") + (if isOr then " OR " else " AND ") + ("`" + b + "`" + " " + "=" + " ?"))
  {
    ComparisonOps();
    PlaceholderPredicate(a, ">", false);
    PlaceholderPredicate(b, "=", isOr);
    PlaceholderUnpadded(a, ">");
    PlaceholderUnpadded(b, "=");
    RenderPair(Expr(a, ">", Unbound, false, false), Expr(b, "=", Unbound, false, isOr), [], "",
               "`" + a + "`" + " " + ">" + " ?", "`" + b + "`" + " " + "=" + " ?");
  }

  lemma SelectWherePair(t: string, a: string, b: string, isOr: bool)
    requires PlainName(t) && PlainName(a) && PlainName(b)
    ensures SelectSql(EmptySelect().(table := t, clauses := [Expr(a, ">", Unbound, false, false), Expr(b, "=", Unbound, false, isOr)]), [])
         == Ok(Built("SELECT " + "*" + " FROM " + Quoted(t)
                     + (" WHERE " + (("`" + a + "`" + " " + ">" + " ?") + (if isOr then " OR " else " AND ") + ("`" + b + "`" + " " + "=" + " ?"))), []))
  {
    WherePair(a, b, isOr);
    SelectWithoutJoins(EmptySelect().(table := t, clauses := [Expr(a, ">", Unbound, false, false), Expr(b, "=", Unbound, false, isOr)]),
                       ("`" + a + "`" + " " + ">" + " ?") + (if isOr then " OR " else " AND ") + ("`" + b + "`" + " " + "=" + " ?"));
  }

  /** `where(a, '>').clause(c => c.where(b).andWhere(c, '>', n))`. */
  lemma SelectNestedClause(t: string, a: string, b: string, c: string, n: int)
    requires PlainName(t) && PlainName(a) && PlainName(b) && PlainName(c)
    ensures SelectSql(EmptySelect().(table := t, clauses := [Expr(a, ">", Unbound, false, false),
                                                            Block([Expr(b, "=", Unbound, false, false),
                                                                   Expr(c, ">", Bound(Num(n)), false, false)], false)]), [])
         == Ok(Built("SELECT " + "*" + " FROM " + Quoted(t)
                     + (" WHERE " + (("`" + a + "`" + " " + ">" + " ?") + " AND " +
                        ("(" + (("`" + b + "`" + " " + "=" + " ?") + " AND " + ("`" + c + "`" + " " + ">" + " " + IntToString(n))) + ")"))), []))
  {
    NestedGroupExample(a, b, c, n);
    SelectWithoutJoins(EmptySelect().(table := t, clauses := [Expr(a, ">", Unbound, false, false),
                                                             Block([Expr(b, "=", Unbound, false, false),
                                                                    Expr(c, ">", Bound(Num(n)), false, false)], false)]),
                       ("`" + a + "`" + " " + ">" + " ?") + " AND " +
                       ("(" + (("`" + b + "`" + " " + "=" + " ?") + " AND " + ("`" + c + "`" + " " + ">" + " " + IntToString(n))) + ")"));
  }
}
