/** The `create model` test of the repository's own suite, for any plain,
    distinct table and column names: what `get('a,b,c')` selects, and the
    text `build` makes of it. */
module ModelExamples {
  import opened Results
  import opened Text
  import opened Values
  import opened Columns
  import opened SelectSpec
  import opened Select
  import opened SelectProperties
  import opened SelectExamples
  import opened SelectStatements

  /** A column name that `disassembleColumns` and the field renderer take as
      it is: a plain name with no comma, no white space and no `as`. */
  predicate ListedName(w: string)
  {
    Word(w) && PlainName(w) && ',' !in w
  }

  /** Three parts joined by `sep`. */
  lemma JoinThree(a: string, b: string, c: string, sep: string)
    ensures Join([a, b, c], sep) == a + sep + (b + sep + c)
  {
    assert [a, b, c][1..] == [b, c];
    assert [b, c][1..] == [c];
    assert Join([c], sep) == c;
  }

  /** Such a name is a column `disassembleColumns` keeps as it is. */
  lemma ListedColumn(w: string)
    requires ListedName(w)
    ensures IsColumn(w)
  {
    assert w[0] in w && w[|w| - 1] in w;
  }

  /** `disassembleColumns('a,b,c')` gives the three columns back. */
  lemma DisassembleThree(a: string, b: string, c: string)
    requires ListedName(a) && ListedName(b) && ListedName(c)
    ensures Disassemble(Str(a + "," + b + "," + c)) == Ok([a, b, c])
  {
    JoinThree(a, b, c, ",");
    assert a + "," + b + "," + c == a + "," + (b + "," + c);
    ListedColumn(a);
    ListedColumn(b);
    ListedColumn(c);
    assert AllColumns([a, b, c]);
    DisassembleRoundTrip([a, b, c]);
  }

  /** `select('a,b,c')` on a fresh builder: the three columns, in order. */
  lemma SelectThreeNames(a: string, b: string, c: string)
    requires ListedName(a) && ListedName(b) && ListedName(c)
    requires a != b && a != c && b != c
    ensures Selected([], Str(a + "," + b + "," + c)) == Ok([a, b, c])
  {
    var cols := [a, b, c];
    DisassembleThree(a, b, c);
    DistinctThree(a, b, c);
    DedupeDistinct(cols);
    assert [] + cols == cols;
    assert Selected([], Str(a + "," + b + "," + c)).Ok?;
  }

  lemma DistinctThree(a: string, b: string, c: string)
    requires a != b && a != c && b != c
    ensures Distinct([a, b, c])
  {
  }

  /** One listed name, with no alias in force, adds its backticked text and
      pushes nothing. */
  lemma FieldsListedStep(items: seq<string>, i: nat, acc: Acc)
    requires i < |items| && ListedName(items[i]) && items[i] !in acc.ignores
    ensures FieldsFrom(items, i, "", acc) == FieldsFrom(items, i + 1, "", Acc(acc.texts + [Quoted(items[i])], acc.ignores))
  {
    FieldWithoutAlias(items[i], "", acc.ignores);
    BuildColumnWord(items[i], acc.ignores);
  }

  /** The fields of that list, with no alias in force: each in backticks,
      the list left as it was. */
  lemma FieldsThreeNames(a: string, b: string, c: string, ignores: seq<string>)
    requires ListedName(a) && ListedName(b) && ListedName(c)
    requires a !in ignores && b !in ignores && c !in ignores
    ensures FieldsFrom([a, b, c], 0, "", Acc([], ignores)) == Ok(Acc([Quoted(a), Quoted(b), Quoted(c)], ignores))
  {
    var items := [a, b, c];
    FieldsListedStep(items, 0, Acc([], ignores));
    assert [] + [Quoted(a)] == [Quoted(a)];
    FieldsListedStep(items, 1, Acc([Quoted(a)], ignores));
    assert [Quoted(a)] + [Quoted(b)] == [Quoted(a), Quoted(b)];
    FieldsListedStep(items, 2, Acc([Quoted(a), Quoted(b)], ignores));
    assert [Quoted(a), Quoted(b)] + [Quoted(c)] == [Quoted(a), Quoted(b), Quoted(c)];
  }

  /** The head of a plain table listing three fields. */
  lemma HeadThree(s: SelectState, x: string, y: string, z: string)
    requires PlainName(s.table) && s.alias == ""
    ensures Head(s, [x, y, z]) == "SELECT " + (x + ", " + (y + ", " + z)) + " FROM " + Quoted(s.table)
  {
    JoinThree(x, y, z, ", ");
    PlainQuoted(s.table);
    AppendEmpty("SELECT " + (x + ", " + (y + ", " + z)) + " FROM " + Quoted(s.table));
  }

  /** `from(t).select([a, b, c]).build()`: the three columns in backticks,
      in order, before the table. */
  lemma ThreeNamesStatement(t: string, a: string, b: string, c: string)
    requires PlainName(t) && ListedName(a) && ListedName(b) && ListedName(c)
    ensures SelectSql(EmptySelect().(table := t, select := [a, b, c]), [])
         == Ok(Built("SELECT " + (Quoted(a) + ", " + (Quoted(b) + ", " + Quoted(c))) + " FROM " + Quoted(t), []))
  {
    var s := EmptySelect().(table := t, select := [a, b, c]);
    assert EffectiveAlias(s) == "" && Started(s, []) == [];
    FieldsThreeNames(a, b, c, []);
    var fields := Acc([Quoted(a), Quoted(b), Quoted(c)], []);
    assert JoinFieldsFrom(s.joins, 0, fields) == Ok(fields);
    HeadThree(s, Quoted(a), Quoted(b), Quoted(c));
    var head := "SELECT " + (Quoted(a) + ", " + (Quoted(b) + ", " + Quoted(c))) + " FROM " + Quoted(t);
    assert JoinsFrom(s.joins, 0, Built(Head(s, fields.texts), fields.ignores), EffectiveAlias(s)) == Ok(Built(head, []));
    SelectAssembly(s, [], fields, fields, Built(head, []));
  }

  /** `createModel(t).get('a,b,c').build()` is
      ``SELECT `a`, `b`, `c` FROM `t` ``: `get` is `from(t).select(columns)`,
      `select` splits the text into the three columns, and `build` lists
      them in backticks, in order, before the table. */
  lemma ModelGetStatement(t: string, a: string, b: string, c: string)
    requires PlainName(t) && ListedName(a) && ListedName(b) && ListedName(c)
    requires a != b && a != c && b != c
    ensures Selected([], Str(a + "," + b + "," + c)) == Ok([a, b, c])
    ensures SelectSql(EmptySelect().(table := t, select := Selected([], Str(a + "," + b + "," + c)).value), [])
         == Ok(Built("SELECT " + (Quoted(a) + ", " + (Quoted(b) + ", " + Quoted(c))) + " FROM " + Quoted(t), []))
  {
    SelectThreeNames(a, b, c);
    ThreeNamesStatement(t, a, b, c);
  }
}
