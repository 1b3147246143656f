/** The INSERT, UPDATE and DELETE statements of the repository's own test
    suite, for any plain table and column names and any string value with
    nothing to escape: the state each chain of calls leaves, and the text
    `build` makes of it. */
module CrudExamples {
  import opened Results
  import opened Text
  import opened Values
  import opened Format
  import opened Columns
  import opened Clause
  import opened Assignments
  import opened Insert
  import opened Update
  import opened Delete
  import opened SelectExamples

  /** A string with no character to escape. */
  predicate PlainText(v: string)
  {
    forall i :: 0 <= i < |v| ==> !IsSpecial(v[i])
  }

  /** Such a string is escaped by quoting it. */
  lemma PlainQuote(v: string)
    requires PlainText(v)
    ensures Escape(Str(v), true) == "'" + v + "'"
  {
    EscapeCharsPlain(v);
  }

  /** Three parts joined by `, `. */
  lemma JoinThree(x: string, y: string, z: string)
    ensures Join([x, y, z], ", ") == x + ", " + (y + ", " + z)
  {
    assert [x, y, z][1..] == [y, z];
    assert [y, z][1..] == [z];
    assert Join([z], ", ") == z;
    assert Join([y, z], ", ") == y + ", " + z;
  }

  // ---------------------------------------------------------------------
  // test.spec.js, 'insert' suite

  /** `setSome([b, c])` sets `b` and `c`, in that order, unbound. */
  lemma SetSomeNames(b: string, c: string)
    requires IsColumn(b) && IsColumn(c)
    ensures InsertCalls(List([Str(b), Str(c)])).Ok?
    ensures Pushed(InsertCalls(List([Str(b), Str(c)])).value) == [Item(b, Unbound), Item(c, Unbound)]
    ensures CallsOutcome(InsertCalls(List([Str(b), Str(c)])).value) == Ok(())
  {
    assert StrItems([b, c]) == [Str(b), Str(c)];
    assert InsertCalls(List([Str(b), Str(c)])) == Ok(UnboundCalls(StrItems([b, c])));
    NamesAllSet([b, c]);
  }

  /** One more record on a plain column name, with no alias to prefix: its
      name in backticks follows the columns before it. */
  lemma ColumnTextsPlain(items: seq<Item>, item: Item, cols: seq<string>)
    requires ColumnTexts(items, [], "") == Ok(cols) && PlainName(item.column)
    ensures ColumnTexts(items + [item], [], "") == Ok(cols + [Quoted(item.column)])
  {
    assert (items + [item])[..|items|] == items;
    BuildColumnWord(item.column, []);
  }

  lemma OneColumn(item: Item)
    requires PlainName(item.column)
    ensures ColumnTexts([item], [], "") == Ok([Quoted(item.column)])
  {
    assert ColumnTexts([], [], "") == Ok([]);
    ColumnTextsPlain([], item, []);
    assert [] + [item] == [item];
    assert [] + [Quoted(item.column)] == [Quoted(item.column)];
  }

  lemma ThreeColumns(i0: Item, i1: Item, i2: Item)
    requires PlainName(i0.column) && PlainName(i1.column) && PlainName(i2.column)
    ensures ColumnTexts([i0, i1, i2], [], "") == Ok([Quoted(i0.column), Quoted(i1.column), Quoted(i2.column)])
  {
    OneColumn(i0);
    ColumnTextsPlain([i0], i1, [Quoted(i0.column)]);
    assert [i0] + [i1] == [i0, i1];
    assert [Quoted(i0.column)] + [Quoted(i1.column)] == [Quoted(i0.column), Quoted(i1.column)];
    ColumnTextsPlain([i0, i1], i2, [Quoted(i0.column), Quoted(i1.column)]);
    assert [i0, i1] + [i2] == [i0, i1, i2];
    assert [Quoted(i0.column), Quoted(i1.column)] + [Quoted(i2.column)] == [Quoted(i0.column), Quoted(i1.column), Quoted(i2.column)];
  }

  lemma ThreeValues(i0: Item, i1: Item, i2: Item)
    ensures ValueTexts([i0, i1, i2]) == [ValueText(i0.value), ValueText(i1.value), ValueText(i2.value)]
  {
  }

  /** `into(t).set(a, v).setSome([b, c]).build({})`:
      ``INSERT INTO `t` (`a`, `b`, `c`) VALUES ('v', ?, ?)``. */
  lemma InsertSetSome(t: string, a: string, b: string, c: string, v: string)
    requires PlainName(t) && PlainName(a) && PlainName(b) && PlainName(c) && PlainText(v)
    ensures InsertSql(InsertState(Str(t), [Item(a, Bound(Str(v))), Item(b, Unbound), Item(c, Unbound)]), [], "")
         == Ok("INSERT INTO " + Quoted(t) + " (" + (Quoted(a) + ", " + (Quoted(b) + ", " + Quoted(c))) + ")"
               + " VALUES (" + ("'" + v + "'" + ", " + ("?" + ", " + "?")) + ")")
  {
    var items := [Item(a, Bound(Str(v))), Item(b, Unbound), Item(c, Unbound)];
    ThreeColumns(items[0], items[1], items[2]);
    PlainQuoted(t);
    PlainQuote(v);
    ThreeValues(items[0], items[1], items[2]);
    JoinThree(Quoted(a), Quoted(b), Quoted(c));
    JoinThree("'" + v + "'", "?", "?");
  }

  // ---------------------------------------------------------------------
  // test.spec.js, 'update' suite

  /** One record on a plain column name, with a plain string value. */
  lemma OneAssignment(a: string, v: string)
    requires PlainName(a) && PlainText(v)
    ensures AssignmentTexts([Item(a, Bound(Str(v)))], [], "") == Ok([Quoted(a) + " = " + ("'" + v + "'")])
  {
    var items := [Item(a, Bound(Str(v)))];
    OneColumn(items[0]);
    PlainQuote(v);
    assert ValueTexts(items) == ["'" + v + "'"];
    assert SetPairs([Quoted(a)], ["'" + v + "'"]) == [Quoted(a) + " = " + ("'" + v + "'")];
    assert AssignmentTexts(items, [], "") == Ok(SetPairs([Quoted(a)], ValueTexts(items)));
  }

  /** `setSome({})` sets nothing. */
  lemma SetSomeNothing()
    ensures UpdateCalls(Obj([])) == Ok([]) && CallsOutcome([]) == Ok(()) && Pushed([]) == []
  {
    assert BoundCalls([]) == [];
  }

  /** `from(t).set(a, v).setSome({}).where(c, '>').build({})`:
      ``UPDATE `t` SET `a` = 'v' WHERE `c` > ?``; the empty object sets
      nothing. */
  lemma UpdateSetWhere(t: string, a: string, c: string, v: string)
    requires PlainName(t) && PlainName(a) && PlainName(c) && PlainText(v)
    ensures UpdateSql(UpdateState(Str(t), [Item(a, Bound(Str(v)))], [Expr(c, ">", Unbound, false, false)], 0, 0), [], "")
         == Ok("UPDATE " + Quoted(t) + " SET " + (Quoted(a) + " = " + ("'" + v + "'")) + (" WHERE " + ("`" + c + "`" + " " + ">" + " ?")))
  {
    OneAssignment(a, v);
    PlainQuoted(t);
    WhereOne(c);
    assert Join([Quoted(a) + " = " + ("'" + v + "'")], ", ") == Quoted(a) + " = " + ("'" + v + "'");
  }

  // ---------------------------------------------------------------------
  // test.spec.js, 'delete' suite

  /** `from(t).where(c, '>').build({})`: ``DELETE FROM `t` WHERE `c` > ?``. */
  lemma DeleteWhere(t: string, c: string)
    requires PlainName(t) && PlainName(c)
    ensures DeleteSql(DeleteState(Str(t), [Expr(c, ">", Unbound, false, false)], 0, 0), [], "")
         == Ok("DELETE FROM " + Quoted(t) + (" WHERE " + ("`" + c + "`" + " " + ">" + " ?")))
  {
    PlainQuoted(t);
    WhereOne(c);
    DeleteSqlMeaning(DeleteState(Str(t), [Expr(c, ">", Unbound, false, false)], 0, 0), [], "");
  }

  /** `from(t).where(c, '>').orWhere(c, '<').build({})`:
      ``DELETE FROM `t` WHERE `c` > ? OR `c` < ?``. */
  lemma DeleteWhereOr(t: string, c: string)
    requires PlainName(t) && PlainName(c)
    ensures DeleteSql(DeleteState(Str(t), [Expr(c, ">", Unbound, false, false), Expr(c, "<", Unbound, false, true)], 0, 0), [], "")
         == Ok("DELETE FROM " + Quoted(t) + (" WHERE " + (("`" + c + "`" + " " + ">" + " ?") + " OR " + ("`" + c + "`" + " " + "<" + " ?"))))
  {
    var e1 := Expr(c, ">", Unbound, false, false);
    var e2 := Expr(c, "<", Unbound, false, true);
    ComparisonOps();
    PlaceholderPredicate(c, ">", false);
    PlaceholderPredicate(c, "<", true);
    PlaceholderUnpadded(c, ">");
    PlaceholderUnpadded(c, "<");
    RenderPair(e1, e2, [], "", "`" + c + "`" + " " + ">" + " ?", "`" + c + "`" + " " + "<" + " ?");
    PlainQuoted(t);
    DeleteSqlMeaning(DeleteState(Str(t), [e1, e2], 0, 0), [], "");
  }

  // ---------------------------------------------------------------------
  // The chains of calls themselves, on fresh builders

  method InsertChain(t: string, a: string, b: string, c: string, v: string) returns (sql: Result<string>)
    requires PlainName(t) && PlainName(a) && PlainName(b) && PlainName(c) && IsColumn(b) && IsColumn(c) && PlainText(v)
    ensures sql == Ok("INSERT INTO " + Quoted(t) + " (" + (Quoted(a) + ", " + (Quoted(b) + ", " + Quoted(c))) + ")"
                      + " VALUES (" + ("'" + v + "'" + ", " + ("?" + ", " + "?")) + ")")
  {
    var builder := new InsertBuilder();
    var done := builder.Into(Str(t));
    done := builder.Set(Str(a), Bound(Str(v)));
    SetSomeNames(b, c);
    done := builder.SetSome(List([Str(b), Str(c)]));
    assert builder.State() == InsertState(Str(t), [Item(a, Bound(Str(v))), Item(b, Unbound), Item(c, Unbound)]);
    InsertSetSome(t, a, b, c, v);
    sql := builder.Build([], "");
  }

  method UpdateChain(t: string, a: string, c: string, v: string) returns (sql: Result<string>)
    requires PlainName(t) && PlainName(a) && PlainName(c) && PlainText(v)
    ensures sql == Ok("UPDATE " + Quoted(t) + " SET " + (Quoted(a) + " = " + ("'" + v + "'")) + (" WHERE " + ("`" + c + "`" + " " + ">" + " ?")))
  {
    var builder := new UpdateBuilder();
    var done := builder.From(Str(t));
    done := builder.Set(Str(a), Bound(Str(v)));
    SetSomeNothing();
    done := builder.SetSome(Obj([]));
    ComparisonOps();
    done := builder.conditions.Where(c, Str(">"), Unbound);
    assert builder.State() == UpdateState(Str(t), [Item(a, Bound(Str(v)))], [Expr(c, ">", Unbound, false, false)], 0, 0);
    UpdateSetWhere(t, a, c, v);
    sql := builder.Build([], "");
  }

  method DeleteChain(t: string, c: string) returns (sql: Result<string>)
    requires PlainName(t) && PlainName(c)
    ensures sql == Ok("DELETE FROM " + Quoted(t) + (" WHERE " + (("`" + c + "`" + " " + ">" + " ?") + " OR " + ("`" + c + "`" + " " + "<" + " ?"))))
  {
    var builder := new DeleteBuilder();
    var done := builder.From(Str(t));
    ComparisonOps();
    done := builder.conditions.Where(c, Str(">"), Unbound);
    done := builder.conditions.OrWhere(c, Str("<"), Unbound);
    assert builder.State() == DeleteState(Str(t), [Expr(c, ">", Unbound, false, false), Expr(c, "<", Unbound, false, true)], 0, 0);
    DeleteWhereOr(t, c);
    sql := builder.Build([], "");
  }
}
