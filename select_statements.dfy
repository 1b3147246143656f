/** What a whole SELECT statement promises: which alias is in force, that
    the `ignores` list only ever grows (a sub-select shares the outer list),
    how a join renders its target and its `ON` conditions, how a sub-select
    is wrapped, the order of the parts after the joins, and the join
    statements of the repository's tests. */
module SelectStatements {
  import opened Results
  import opened Text
  import opened Values
  import opened Assertion
  import opened Format
  import opened ParserProperties
  import opened ColumnParser
  import opened Columns
  import opened Clause
  import opened SelectSpec
  import opened SelectProperties
  import opened SelectExamples

  // ---------------------------------------------------------------------
  // The `ignores` list only grows

  /** `b` starts with `a`. */
  predicate Extends(a: seq<string>, b: seq<string>)
  {
    |a| <= |b| && b[..|a|] == a
  }

  lemma ExtendsTrans(a: seq<string>, b: seq<string>, c: seq<string>)
    requires Extends(a, b) && Extends(b, c)
    ensures Extends(a, c)
  {
    assert c[..|a|] == c[..|b|][..|a|];
  }

  lemma ExtendsSnoc(a: seq<string>, x: string)
    ensures Extends(a, a + [x])
  {
    assert (a + [x])[..|a|] == a;
  }

  /** A selected item adds at most its `as` name. */
  lemma FieldGrows(item: string, alias: string, ignores: seq<string>)
    requires SelectSpec.Field(item, alias, ignores).Ok?
    ensures Extends(ignores, SelectSpec.Field(item, alias, ignores).value.1)
  {
    if item != "*" {
      var parts := SplitAs(Trim(item));
      if |parts| == 2 && parts[1] != "" {
        ExtendsSnoc(ignores, parts[1]);
      }
    }
  }

  lemma {:induction false} FieldsFromGrows(items: seq<string>, i: nat, alias: string, acc: Acc)
    requires i <= |items| && FieldsFrom(items, i, alias, acc).Ok?
    ensures Extends(acc.ignores, FieldsFrom(items, i, alias, acc).value.ignores)
    decreases |items| - i
  {
    if i < |items| {
      var field := SelectSpec.Field(items[i], alias, acc.ignores).value;
      FieldGrows(items[i], alias, acc.ignores);
      var next := Acc(acc.texts + [field.0], field.1);
      FieldsFromGrows(items, i + 1, alias, next);
      ExtendsTrans(acc.ignores, next.ignores, FieldsFrom(items, i, alias, acc).value.ignores);
    }
  }

  lemma {:induction false} JoinFieldsFromGrows(joins: seq<JoinState>, k: nat, acc: Acc)
    requires k <= |joins| && JoinFieldsFrom(joins, k, acc).Ok?
    ensures Extends(acc.ignores, JoinFieldsFrom(joins, k, acc).value.ignores)
    decreases |joins| - k
  {
    if k < |joins| {
      var mine := FieldsFrom(joins[k].select, 0, JoinedAlias(joins[k]), acc);
      JoinFieldsStep(joins, k, acc);
      FieldsFromGrows(joins[k].select, 0, JoinedAlias(joins[k]), acc);
      JoinFieldsFromGrows(joins, k + 1, mine.value);
      ExtendsTrans(acc.ignores, mine.value.ignores, JoinFieldsFrom(joins, k, acc).value.ignores);
    }
  }

  lemma JoinFieldsStep(joins: seq<JoinState>, k: nat, acc: Acc)
    requires k < |joins| && JoinFieldsFrom(joins, k, acc).Ok?
    ensures FieldsFrom(joins[k].select, 0, JoinedAlias(joins[k]), acc).Ok?
    ensures JoinFieldsFrom(joins, k, acc) == JoinFieldsFrom(joins, k + 1, FieldsFrom(joins[k].select, 0, JoinedAlias(joins[k]), acc).value)
  {
  }

  /** The list with the alias in force pushed, as `build` starts it. */
  function Started(s: SelectState, ignores: seq<string>): seq<string>
  {
    if EffectiveAlias(s) != "" then ignores + [EffectiveAlias(s)] else ignores
  }

  /** `build` pushes the alias in force first, and nothing it or a join or a
      sub-select does afterwards takes a name off the list it was given: the
      list it hands back starts with the list it was given and that alias. */
  lemma {:induction false} SelectSqlGrows(s: SelectState, ignores: seq<string>)
    requires SelectSql(s, ignores).Ok?
    ensures Extends(Started(s, ignores), SelectSql(s, ignores).value.ignores)
    ensures Extends(ignores, SelectSql(s, ignores).value.ignores)
    decreases s, 2, 0
  {
    var alias := EffectiveAlias(s);
    var ig := Started(s, ignores);
    var own := FieldsFrom(s.select, 0, alias, Acc([], ig)).value;
    FieldsFromGrows(s.select, 0, alias, Acc([], ig));
    var fields := JoinFieldsFrom(s.joins, 0, own).value;
    JoinFieldsFromGrows(s.joins, 0, own);
    var start := Built(Head(s, fields.texts), fields.ignores);
    JoinsFromGrows(s.joins, 0, start, alias);
    var out := SelectSql(s, ignores).value.ignores;
    assert out == JoinsFrom(s.joins, 0, start, alias).value.ignores;
    ExtendsTrans(ig, own.ignores, fields.ignores);
    ExtendsTrans(ig, fields.ignores, out);
    if alias != "" {
      ExtendsSnoc(ignores, alias);
      ExtendsTrans(ignores, ig, out);
    }
  }

  lemma {:induction false} JoinsFromGrows(joins: seq<JoinState>, k: nat, acc: Built, alias: string)
    requires k <= |joins| && JoinsFrom(joins, k, acc, alias).Ok?
    ensures Extends(acc.ignores, JoinsFrom(joins, k, acc, alias).value.ignores)
    decreases joins, 1, |joins| - k
  {
    if k < |joins| {
      var join := JoinSql(joins[k], acc.ignores, alias).value;
      JoinSqlGrows(joins[k], acc.ignores, alias);
      var next := Built(acc.sql + " " + join.sql, join.ignores);
      JoinsFromGrows(joins, k + 1, next, alias);
      ExtendsTrans(acc.ignores, join.ignores, JoinsFrom(joins, k, acc, alias).value.ignores);
    }
  }

  lemma {:induction false} JoinSqlGrows(j: JoinState, ignores: seq<string>, alias: string)
    requires JoinSql(j, ignores, alias).Ok?
    ensures Extends(ignores, JoinSql(j, ignores, alias).value.ignores)
    decreases j, 0, 0
  {
    if j.table.Subquery? {
      SubquerySqlGrows(j.table.query, j.table.resultAlias, ignores);
    } else if j.alias != "" {
      ExtendsSnoc(ignores, j.alias);
    }
  }

  /** A sub-select works on the outer list itself: whatever it pushes,
      starting with its own alias in force, stays there for the rest of the
      outer statement. */
  lemma {:induction false} SubquerySqlGrows(q: SelectState, resultAlias: string, ignores: seq<string>)
    requires SubquerySql(q, resultAlias, ignores).Ok?
    ensures Extends(Started(q, ignores), SubquerySql(q, resultAlias, ignores).value.ignores)
    ensures Extends(ignores, SubquerySql(q, resultAlias, ignores).value.ignores)
    decreases q, 3, 0
  {
    SelectSqlGrows(q, ignores);
  }

  // ---------------------------------------------------------------------
  // Columns under the alias in force

  /** A plain name under an alias comes out as `` `alias`.`name` ``. */
  lemma QualifiedWord(c: string, ignores: seq<string>, alias: string)
    requires PlainName(c) && PlainName(alias) && c !in ignores
    ensures BuildColumn(c, ignores, alias) == Ok(Quoted(alias) + "." + Quoted(c))
  {
    BuildColumnChain([c], [], "", ignores, alias);
    assert ChainText([c], [], "") == c;
    assert ChainText(ShownAll([c], Hook(ignores, alias)), [], " ") == Shown(c, Hook(ignores, alias));
    HookPrefixesAlias(ignores, alias, c);
    EscapeIdDot(alias, c);
    PlainQuoted(alias);
    PlainQuoted(c);
  }

  /** A dotted name `b.c` is quoted part by part, whatever alias is in force. */
  lemma DottedWord(b: string, c: string, ignores: seq<string>, alias: string)
    requires PlainName(b) && PlainName(c) && b + "." + c !in ignores
    ensures BuildColumn(b + "." + c, ignores, alias) == Ok(Quoted(b) + "." + Quoted(c))
  {
    var w := b + "." + c;
    forall i | 0 <= i < |w| ensures Bare(w[i]) {
      if i < |b| {
        assert w[i] == b[i];
      } else if i > |b| {
        assert w[i] == c[i - |b| - 1];
      }
    }
    assert w[0] == b[0] && w[|b|] == '.';
    assert !IsLiteral(w);
    BuildColumnChain([w], [], "", ignores, alias);
    assert ChainText([w], [], "") == w;
    assert ChainText(ShownAll([w], Hook(ignores, alias)), [], " ") == Shown(w, Hook(ignores, alias));
    HookSplitsDots(ignores, alias, w);
    EscapeIdDot(b, c);
    PlainQuoted(b);
    PlainQuoted(c);
  }

  /** Without joins or an alias of its own nothing is qualified and nothing
      is pushed: a plain column is just quoted and `*` stays `*`. */
  lemma NoAliasInForce(s: SelectState, ignores: seq<string>, c: string)
    requires s.alias == "" && s.joins == []
    requires Word(c) && PlainName(c) && c !in ignores
    ensures EffectiveAlias(s) == "" && Started(s, ignores) == ignores
    ensures SelectSpec.Field(c, EffectiveAlias(s), ignores) == Ok((Quoted(c), ignores))
    ensures SelectSpec.Field("*", EffectiveAlias(s), ignores) == Ok(("*", ignores))
  {
    FieldWithoutAlias(c, "", ignores);
    BuildColumnWord(c, ignores);
  }

  /** With joins and no alias of its own, the table name is the alias in
      force: it is pushed, a plain column is qualified with it, `*` becomes
      `` `t`.* ``, and the table is given no `AS`. */
  lemma JoinedWithoutAlias(s: SelectState, ignores: seq<string>, c: string, fields: seq<string>)
    requires s.alias == "" && |s.joins| > 0 && PlainName(s.table)
    requires Word(c) && PlainName(c) && c !in ignores + [s.table]
    ensures EffectiveAlias(s) == s.table && Started(s, ignores) == ignores + [s.table]
    ensures SelectSpec.Field(c, EffectiveAlias(s), Started(s, ignores)) == Ok((Quoted(s.table) + "." + Quoted(c), Started(s, ignores)))
    ensures SelectSpec.Field("*", EffectiveAlias(s), Started(s, ignores)) == Ok((Quoted(s.table) + ".*", Started(s, ignores)))
    ensures Head(s, fields) == "SELECT " + Join(if fields == [] then ["*"] else fields, ", ") + " FROM " + Quoted(s.table)
  {
    FieldWithoutAlias(c, s.table, ignores + [s.table]);
    QualifiedWord(c, ignores + [s.table], s.table);
    PlainQuoted(s.table);
    AppendEmpty("SELECT " + Join(if fields == [] then ["*"] else fields, ", ") + " FROM " + Quoted(s.table));
  }

  /** An explicit alias is the one in force, joins or not: it is pushed,
      columns are qualified with it, and the table is rendered
      `` `t` AS `a` ``. */
  lemma ExplicitAlias(s: SelectState, ignores: seq<string>, c: string, fields: seq<string>)
    requires PlainName(s.table) && PlainName(s.alias)
    requires Word(c) && PlainName(c) && c !in ignores + [s.alias]
    ensures EffectiveAlias(s) == s.alias && Started(s, ignores) == ignores + [s.alias]
    ensures SelectSpec.Field(c, EffectiveAlias(s), Started(s, ignores)) == Ok((Quoted(s.alias) + "." + Quoted(c), Started(s, ignores)))
    ensures SelectSpec.Field("*", EffectiveAlias(s), Started(s, ignores)) == Ok((Quoted(s.alias) + ".*", Started(s, ignores)))
    ensures Head(s, fields) == "SELECT " + Join(if fields == [] then ["*"] else fields, ", ") + " FROM " + Quoted(s.table) + " AS " + Quoted(s.alias)
  {
    FieldWithoutAlias(c, s.alias, ignores + [s.alias]);
    QualifiedWord(c, ignores + [s.alias], s.alias);
    PlainQuoted(s.table);
    PlainQuoted(s.alias);
  }

  // ---------------------------------------------------------------------
  // A join

  /** Letters only, as a join type such as `left` or `inner` is. */
  predicate Letters(t: string)
  {
    forall k :: 0 <= k < |t| ==> 'a' <= t[k] <= 'z' || 'A' <= t[k] <= 'Z'
  }

  /** How a join opens once its text is trimmed: its type in upper case,
      then `JOIN`; `JOIN` alone when it has no type. */
  function JoinLead(joinType: string): string
  {
    if joinType == "" then "JOIN " else UpperAscii(joinType) + " JOIN "
  }

  /** ` ON conditions`, or nothing when there are none. */
  function OnPart(on: string): string
  {
    if on == "" then "" else " ON " + on
  }

  /** A non-empty condition text has no white space at its end. */
  lemma RenderEnds(entries: seq<Entry>, ignores: seq<string>, alias: string)
    requires Render(entries, ignores, alias).Ok?
    ensures var on := Render(entries, ignores, alias).value; on == "" || !IsJsSpace(on[|on| - 1])
  {
    TrimSpec(JoinFrom(Pieces(entries, ignores, alias), Flags(entries), 0, "").value);
  }

  /** The trim at the end of a join's `build` only takes off the space
      before `JOIN` when there is no type. */
  lemma JoinTrim(joinType: string, target: string, on: string)
    requires Letters(joinType) && target != [] && !IsJsSpace(target[|target| - 1])
    requires on == "" || !IsJsSpace(on[|on| - 1])
    ensures Trim((if joinType != "" then UpperAscii(joinType) else "") + " JOIN " + target + OnPart(on))
         == JoinLead(joinType) + (target + OnPart(on))
  {
    var rest := target + OnPart(on);
    assert rest[|rest| - 1] == if on == "" then target[|target| - 1] else on[|on| - 1];
    var lead := (if joinType != "" then UpperAscii(joinType) else "") + " JOIN ";
    AppendAssoc(lead, target, OnPart(on));
    if joinType == "" {
      UntypedTrim(rest);
    } else {
      TypedTrim(joinType, rest);
    }
  }

  lemma UntypedTrim(rest: string)
    requires rest != [] && !IsJsSpace(rest[|rest| - 1])
    ensures Trim("" + " JOIN " + rest) == "JOIN " + rest
  {
    assert "" + " JOIN " + rest == " " + ("JOIN " + rest);
    TrimOneSpace("JOIN " + rest);
  }

  lemma TypedTrim(joinType: string, rest: string)
    requires Letters(joinType) && joinType != "" && rest != [] && !IsJsSpace(rest[|rest| - 1])
    ensures Trim(UpperAscii(joinType) + " JOIN " + rest) == UpperAscii(joinType) + " JOIN " + rest
  {
    var u := UpperAscii(joinType);
    assert u[0] == if 'a' <= joinType[0] <= 'z' then (joinType[0] as int - 32) as char else joinType[0];
    var t := u + " JOIN " + rest;
    assert t[0] == u[0] && t[|t| - 1] == rest[|rest| - 1];
    TrimNoop(t);
  }

  /** A named join with an alias: `` [TYPE ]JOIN `t` AS `b`[ ON ...] ``. The
      alias is pushed before the `ON` conditions are rendered, and they are
      rendered with the outer alias. */
  lemma JoinNamedAliased(j: JoinState, ignores: seq<string>, alias: string)
    requires j.table.Named? && PlainName(j.table.name) && PlainName(j.alias) && Letters(j.joinType)
    ensures var on := Render(j.clauses, ignores + [j.alias], alias);
      JoinSql(j, ignores, alias)
        == if on.Err? then Err(on.error)
           else Ok(Built(JoinLead(j.joinType) + (Quoted(j.table.name) + " AS " + Quoted(j.alias) + OnPart(on.value)), ignores + [j.alias]))
  {
    PlainQuoted(j.table.name);
    PlainQuoted(j.alias);
    var on := Render(j.clauses, ignores + [j.alias], alias);
    if on.Ok? {
      RenderEnds(j.clauses, ignores + [j.alias], alias);
      var target := Quoted(j.table.name) + " AS " + Quoted(j.alias);
      assert target[|target| - 1] == '`';
      JoinTrim(j.joinType, target, on.value);
    }
  }

  /** A named join without an alias: `` [TYPE ]JOIN `t`[ ON ...] ``, and
      nothing is pushed. */
  lemma JoinNamedPlain(j: JoinState, ignores: seq<string>, alias: string)
    requires j.table.Named? && PlainName(j.table.name) && j.alias == "" && Letters(j.joinType)
    ensures var on := Render(j.clauses, ignores, alias);
      JoinSql(j, ignores, alias)
        == if on.Err? then Err(on.error)
           else Ok(Built(JoinLead(j.joinType) + (Quoted(j.table.name) + OnPart(on.value)), ignores))
  {
    PlainQuoted(j.table.name);
    var on := Render(j.clauses, ignores, alias);
    if on.Ok? {
      RenderEnds(j.clauses, ignores, alias);
      var target := Quoted(j.table.name);
      assert target[|target| - 1] == '`';
      JoinTrim(j.joinType, target, on.value);
    }
  }

  /** A sub-select join: the wrapped sub-select, then the `ON` conditions,
      rendered on the list as the sub-select left it; the join's own alias
      plays no part. */
  lemma JoinSubquery(j: JoinState, ignores: seq<string>, alias: string)
    requires j.table.Subquery? && Letters(j.joinType)
    ensures var sub := SubquerySql(j.table.query, j.table.resultAlias, ignores);
      sub.Err? ==> JoinSql(j, ignores, alias) == Err(sub.error)
    ensures var sub := SubquerySql(j.table.query, j.table.resultAlias, ignores);
      sub.Ok? ==>
        var on := Render(j.clauses, sub.value.ignores, alias);
        JoinSql(j, ignores, alias)
          == if on.Err? then Err(on.error)
             else Ok(Built(JoinLead(j.joinType) + (sub.value.sql + OnPart(on.value)), sub.value.ignores))
  {
    var sub := SubquerySql(j.table.query, j.table.resultAlias, ignores);
    if sub.Ok? {
      var on := Render(j.clauses, sub.value.ignores, alias);
      if on.Ok? {
        RenderEnds(j.clauses, sub.value.ignores, alias);
        var t := sub.value.sql;
        assert t[|t| - 1] == '`';
        JoinTrim(j.joinType, t, on.value);
      }
    }
  }

  /** `JoinSelectBuilder.build`: it refuses exactly when there is no result
      alias or the inner statement fails, wraps the inner statement as
      `(...) AS result`, and hands back the list the inner statement left,
      with the inner alias in force pushed onto the outer list. */
  lemma SubqueryMeaning(q: SelectState, resultAlias: string, ignores: seq<string>)
    ensures SubquerySql(q, resultAlias, ignores).Err? <==> resultAlias == "" || SelectSql(q, ignores).Err?
    ensures resultAlias == "" ==> SubquerySql(q, resultAlias, ignores) == Fail(NoResultAlias)
    ensures resultAlias != "" && SelectSql(q, ignores).Ok? ==>
      SubquerySql(q, resultAlias, ignores)
        == Ok(Built("(" + SelectSql(q, ignores).value.sql + ") AS " + EscapeId(Str(resultAlias), true), SelectSql(q, ignores).value.ignores))
    ensures SubquerySql(q, resultAlias, ignores).Ok? ==> Extends(Started(q, ignores), SubquerySql(q, resultAlias, ignores).value.ignores)
  {
    if SubquerySql(q, resultAlias, ignores).Ok? {
      SubquerySqlGrows(q, resultAlias, ignores);
    }
  }

  // ---------------------------------------------------------------------
  // Whole statements with joins

  /** One join after the head: a space, then the join. */
  lemma JoinsFromOne(j: JoinState, start: Built, alias: string)
    ensures var join := JoinSql(j, start.ignores, alias);
      JoinsFrom([j], 0, start, alias)
        == if join.Err? then Err(join.error) else Ok(Built(start.sql + " " + join.value.sql, join.value.ignores))
  {
    var join := JoinSql(j, start.ignores, alias);
    if join.Ok? {
      assert JoinsFrom([j], 0, start, alias) == JoinsFrom([j], 1, Built(start.sql + " " + join.value.sql, join.value.ignores), alias);
    }
  }

  /** With nothing after the joins, the statement is its head and joins: the
      fields are listed first, on the list as the alias in force left it,
      then the joins are rendered on the list the fields left. */
  lemma SelectAssembly(s: SelectState, ignores: seq<string>, own: Acc, fields: Acc, joined: Built)
    requires s.table != "" && OnlyWhere(s) && s.clauses == []
    requires FieldsFrom(s.select, 0, EffectiveAlias(s), Acc([], Started(s, ignores))) == Ok(own)
    requires JoinFieldsFrom(s.joins, 0, own) == Ok(fields)
    requires JoinsFrom(s.joins, 0, Built(Head(s, fields.texts), fields.ignores), EffectiveAlias(s)) == Ok(joined)
    ensures SelectSql(s, ignores) == Ok(joined)
  {
    RenderNothing(joined.ignores, EffectiveAlias(s));
    TailWhere(s, joined.ignores, EffectiveAlias(s), "");
    AppendEmpty(joined.sql);
  }

  /** A plain table with nothing else, on any list: `SELECT * FROM `t``. */
  lemma PlainSelect(t: string, ignores: seq<string>)
    requires PlainName(t)
    ensures SelectSql(EmptySelect().(table := t), ignores) == Ok(Built("SELECT " + "*" + " FROM " + Quoted(t), ignores))
  {
    var s := EmptySelect().(table := t);
    PlainQuoted(t);
    assert Join(["*"], ", ") == "*";
    AppendEmpty("SELECT " + "*" + " FROM " + Quoted(t));
    SelectAssembly(s, ignores, Acc([], ignores), Acc([], ignores), Built("SELECT " + "*" + " FROM " + Quoted(t), ignores));
  }

  /** `` AS `a` `` when the builder has an alias of its own. */
  function AsPart(alias: string): string
  {
    if alias != "" then " AS " + Quoted(alias) else ""
  }

  /** One named, aliased join selecting one plain column, and nothing after
      it. The join's column is listed qualified with the join's alias; the
      columns are rendered before any join target, so that alias is not yet
      on the list and a column named like it is still qualified. The join
      follows the table; its alias is pushed before its `ON` conditions are
      rendered, and they are rendered with the outer alias in force. */
  lemma OneJoin(s: SelectState, ignores: seq<string>, j: JoinState, c: string, on: string)
    requires PlainName(s.table) && (s.alias == "" || PlainName(s.alias))
    requires s.select == [] && s.joins == [j] && OnlyWhere(s) && s.clauses == []
    requires j.table.Named? && PlainName(j.table.name) && PlainName(j.alias) && Letters(j.joinType)
    requires j.select == [c] && Word(c) && PlainName(c) && c !in Started(s, ignores)
    requires Render(j.clauses, Started(s, ignores) + [j.alias], EffectiveAlias(s)) == Ok(on)
    ensures SelectSql(s, ignores)
         == Ok(Built("SELECT " + (Quoted(j.alias) + "." + Quoted(c)) + " FROM " + Quoted(s.table) + AsPart(s.alias)
                     + " " + (JoinLead(j.joinType) + (Quoted(j.table.name) + " AS " + Quoted(j.alias) + OnPart(on))),
                     Started(s, ignores) + [j.alias]))
  {
    var alias, ig := EffectiveAlias(s), Started(s, ignores);
    var column := Quoted(j.alias) + "." + Quoted(c);
    assert FieldsFrom(s.select, 0, alias, Acc([], ig)) == Ok(Acc([], ig));
    JoinColumn(j, c, Acc([], ig));
    var fields := Acc([column], ig);
    var head := "SELECT " + column + " FROM " + Quoted(s.table) + AsPart(s.alias);
    HeadOne(s, column);
    assert [] + [column] == [column];
    assert JoinFieldsFrom(s.joins, 0, Acc([], ig)) == Ok(fields);
    var join := JoinLead(j.joinType) + (Quoted(j.table.name) + " AS " + Quoted(j.alias) + OnPart(on));
    JoinNamedAliased(j, ig, alias);
    assert JoinSql(j, ig, alias) == Ok(Built(join, ig + [j.alias]));
    JoinsFromOne(j, Built(head, ig), alias);
    assert JoinsFrom(s.joins, 0, Built(Head(s, fields.texts), fields.ignores), alias) == Ok(Built(head + " " + join, ig + [j.alias]));
    SelectAssembly(s, ignores, Acc([], ig), fields, Built(head + " " + join, ig + [j.alias]));
  }

  /** A named join's selected column is qualified with the join's alias and
      pushes nothing. */
  lemma JoinColumn(j: JoinState, c: string, acc: Acc)
    requires j.table.Named? && PlainName(j.alias) && j.select == [c] && Word(c) && PlainName(c) && c !in acc.ignores
    ensures JoinFieldsFrom([j], 0, acc) == Ok(Acc(acc.texts + [Quoted(j.alias) + "." + Quoted(c)], acc.ignores))
  {
    FieldWithoutAlias(c, j.alias, acc.ignores);
    QualifiedWord(c, acc.ignores, j.alias);
    var next := Acc(acc.texts + [Quoted(j.alias) + "." + Quoted(c)], acc.ignores);
    assert FieldsFrom(j.select, 0, j.alias, acc) == FieldsFrom(j.select, 1, j.alias, next);
    JoinFieldsStep([j], 0, acc);
  }

  /** The head of a statement listing one column. */
  lemma HeadOne(s: SelectState, column: string)
    requires PlainName(s.table) && (s.alias == "" || PlainName(s.alias))
    ensures Head(s, [column]) == "SELECT " + column + " FROM " + Quoted(s.table) + AsPart(s.alias)
  {
    assert Join([column], ", ") == column;
    PlainQuoted(s.table);
    if s.alias != "" {
      PlainQuoted(s.alias);
    }
  }

  // ---------------------------------------------------------------------
  // test.spec.js, 'select' suite, the joins

  /** What `onColumn(b.c, a.c)` stores: `b.c = a.c`, the right side a
      column. */
  function OnColumns(b: string, a: string, c: string): Entry
  {
    Expr(b + "." + c, "=", Bound(Str(a + "." + c)), true, false)
  }

  /** `` `b`.`c` = `a`.`c` `` */
  function OnColumnsText(b: string, a: string, c: string): string
  {
    Quoted(b) + "." + Quoted(c) + " " + "=" + " " + (Quoted(a) + "." + Quoted(c))
  }

  /** A dotted name is never one of two plain names. */
  lemma DottedNotPlain(b: string, c: string, x: string, y: string)
    requires PlainName(x) && PlainName(y)
    ensures b + "." + c !in [x, y]
  {
    assert (b + "." + c)[|b|] == '.';
  }

  /** Both sides of the condition are quoted part by part. */
  lemma OnColumnsRendered(a: string, b: string, c: string, alias: string)
    requires PlainName(a) && PlainName(b) && PlainName(c)
    ensures Render([OnColumns(b, a, c)], [a, b], alias) == Ok(OnColumnsText(b, a, c))
  {
    DottedNotPlain(b, c, a, b);
    DottedNotPlain(a, c, a, b);
    var left, right := Quoted(b) + "." + Quoted(c), Quoted(a) + "." + Quoted(c);
    DottedWord(b, c, [a, b], alias);
    DottedWord(a, c, [a, b], alias);
    assert BuildColumn(b + "." + c, [a, b], alias) == Ok(left);
    assert BuildColumn(a + "." + c, [a, b], alias) == Ok(right);
    assert UpperAscii("=") == "=";
    assert !IsNullOp("=") && !IsBetweenOp("=");
    var t := left + " " + "=" + " " + right;
    assert t == OnColumnsText(b, a, c);
    assert RenderExpr(b + "." + c, "=", Bound(Str(a + "." + c)), true, [a, b], alias) == Ok(t);
    assert RenderEntry(OnColumns(b, a, c), [a, b], alias) == Ok(t);
    assert left[0] == '`' && right[|right| - 1] == '`';
    assert t[0] == left[0] && t[|t| - 1] == right[|right| - 1];
    RenderOne(OnColumns(b, a, c), [a, b], alias, t);
  }

  /** `from(t, a).join(t2, join => join.setAlias(b).onColumn(b.c, a.c)).build({})`
      is `` SELECT * FROM `t` AS `a` JOIN `t2` AS `b` ON `b`.`c` = `a`.`c` ``. */
  lemma JoinOneTable(t: string, a: string, t2: string, b: string, c: string)
    requires PlainName(t) && PlainName(a) && PlainName(t2) && PlainName(b) && PlainName(c)
    ensures SelectSql(EmptySelect().(table := t, alias := a, joins := [JoinState(Named(t2), b, "", [], [OnColumns(b, a, c)], [], [])]), [])
         == Ok(Built("SELECT " + "*" + " FROM " + Quoted(t) + AsPart(a)
                     + " " + ("JOIN " + (Quoted(t2) + " AS " + Quoted(b) + OnPart(OnColumnsText(b, a, c)))), [a, b]))
  {
    var j := JoinState(Named(t2), b, "", [], [OnColumns(b, a, c)], [], []);
    var s := EmptySelect().(table := t, alias := a, joins := [j]);
    NamedJoinStatement(s, j, "*", c);
  }

  /** `from(t, a).select('*').join(t2, 'left', join => join.setAlias(b).onColumn(b.c, a.c)).build()`
      is `` SELECT `a`.* FROM `t` AS `a` LEFT JOIN `t2` AS `b` ON `b`.`c` = `a`.`c` ``. */
  lemma LeftJoinOneTable(t: string, a: string, t2: string, b: string, c: string)
    requires PlainName(t) && PlainName(a) && PlainName(t2) && PlainName(b) && PlainName(c)
    ensures SelectSql(EmptySelect().(table := t, alias := a, select := ["*"], joins := [JoinState(Named(t2), b, "left", [], [OnColumns(b, a, c)], [], [])]), [])
         == Ok(Built("SELECT " + (Quoted(a) + ".*") + " FROM " + Quoted(t) + AsPart(a)
                     + " " + ("LEFT JOIN " + (Quoted(t2) + " AS " + Quoted(b) + OnPart(OnColumnsText(b, a, c)))), [a, b]))
  {
    var j := JoinState(Named(t2), b, "left", [], [OnColumns(b, a, c)], [], []);
    var s := EmptySelect().(table := t, alias := a, select := ["*"], joins := [j]);
    assert UpperAscii("left") == "LEFT";
    assert JoinLead("left") == "LEFT JOIN ";
    NamedJoinStatement(s, j, Quoted(a) + ".*", c);
  }

  /** A statement whose one join selects nothing: the head, a space and the
      join, with the join's list. */
  lemma BareJoinStatement(s: SelectState, ignores: seq<string>, own: Acc, join: Built)
    requires s.table != "" && OnlyWhere(s) && s.clauses == [] && |s.joins| == 1 && s.joins[0].select == []
    requires FieldsFrom(s.select, 0, EffectiveAlias(s), Acc([], Started(s, ignores))) == Ok(own)
    requires JoinSql(s.joins[0], own.ignores, EffectiveAlias(s)) == Ok(join)
    ensures SelectSql(s, ignores) == Ok(Built(Head(s, own.texts) + " " + join.sql, join.ignores))
  {
    var j := s.joins[0];
    assert s.joins == [j];
    assert FieldsFrom(j.select, 0, JoinedAlias(j), own) == Ok(own);
    assert JoinFieldsFrom(s.joins, 0, own) == JoinFieldsFrom(s.joins, 1, own);
    JoinsFromOne(j, Built(Head(s, own.texts), own.ignores), EffectiveAlias(s));
    SelectAssembly(s, ignores, own, own, Built(Head(s, own.texts) + " " + join.sql, join.ignores));
  }

  /** The star selection under an alias: `` `a`.* ``, nothing pushed. */
  lemma StarUnderAlias(s: SelectState, ig: seq<string>)
    requires s.alias != "" && PlainName(s.alias) && s.select == ["*"]
    ensures FieldsFrom(s.select, 0, s.alias, Acc([], ig)) == Ok(Acc([Quoted(s.alias) + ".*"], ig))
  {
    var column := Quoted(s.alias) + ".*";
    PlainQuoted(s.alias);
    assert SelectSpec.Field("*", s.alias, ig) == Ok((column, ig));
    assert [] + [column] == [column];
    assert FieldsFrom(s.select, 0, s.alias, Acc([], ig)) == FieldsFrom(s.select, 1, s.alias, Acc([column], ig));
  }

  /** The two tests above: one aliased, named join under an aliased table,
      joined on `onColumn(b.c, a.c)`. */
  lemma NamedJoinStatement(s: SelectState, j: JoinState, column: string, c: string)
    requires PlainName(s.table) && PlainName(s.alias) && s.joins == [j] && OnlyWhere(s) && s.clauses == []
    requires (s.select == [] && column == "*") || (s.select == ["*"] && column == Quoted(s.alias) + ".*")
    requires j.table.Named? && PlainName(j.table.name) && PlainName(j.alias) && Letters(j.joinType) && j.select == []
    requires PlainName(c) && j.clauses == [OnColumns(j.alias, s.alias, c)]
    ensures SelectSql(s, [])
         == Ok(Built("SELECT " + column + " FROM " + Quoted(s.table) + AsPart(s.alias)
                     + " " + (JoinLead(j.joinType) + (Quoted(j.table.name) + " AS " + Quoted(j.alias) + OnPart(OnColumnsText(j.alias, s.alias, c)))),
                     [s.alias, j.alias]))
  {
    var a, b := s.alias, j.alias;
    var on := OnColumnsText(b, a, c);
    var ig := [a];
    assert Started(s, []) == ig;
    var own := Acc(if s.select == [] then [] else [column], ig);
    if s.select != [] {
      StarUnderAlias(s, ig);
    }
    var head := "SELECT " + column + " FROM " + Quoted(s.table) + AsPart(a);
    assert Head(s, own.texts) == head by {
      HeadOne(s, column);
      if s.select == [] {
        assert Join(["*"], ", ") == "*";
      }
    }
    var join := JoinLead(j.joinType) + (Quoted(j.table.name) + " AS " + Quoted(b) + OnPart(on));
    assert JoinSql(j, ig, a) == Ok(Built(join, [a, b])) by {
      OnColumnsRendered(a, b, c, a);
      assert ig + [b] == [a, b];
      JoinNamedAliased(j, ig, a);
    }
    BareJoinStatement(s, [], own, Built(join, [a, b]));
  }

  /** `from(t, a).select('*').join(selector => selector.from(t2).setAlias(b)).build()`
      is `` SELECT `a`.* FROM `t` AS `a` JOIN (SELECT * FROM `t2`) AS `b` ``:
      the sub-select is built on the outer list and pushes nothing. */
  lemma JoinSelectResult(t: string, a: string, t2: string, b: string)
    requires PlainName(t) && PlainName(a) && PlainName(t2) && PlainName(b)
    ensures SelectSql(EmptySelect().(table := t, alias := a, select := ["*"],
                                     joins := [JoinState(Subquery(EmptySelect().(table := t2), b), "", "", [], [], [], [])]), [])
         == Ok(Built("SELECT " + (Quoted(a) + ".*") + " FROM " + Quoted(t) + AsPart(a)
                     + " " + ("JOIN " + ("(" + ("SELECT " + "*" + " FROM " + Quoted(t2)) + ") AS " + Quoted(b))), [a]))
  {
    var q := EmptySelect().(table := t2);
    var j := JoinState(Subquery(q, b), "", "", [], [], [], []);
    var s := EmptySelect().(table := t, alias := a, select := ["*"], joins := [j]);
    assert OnlyWhere(s) by {
      assert s.joins[0] == j;
    }
    var ig := [a];
    assert Started(s, []) == ig;
    var column := Quoted(a) + ".*";
    var own := Acc([column], ig);
    StarUnderAlias(s, ig);
    HeadOne(s, column);
    var head := "SELECT " + column + " FROM " + Quoted(t) + AsPart(a);
    var sub := "(" + ("SELECT " + "*" + " FROM " + Quoted(t2)) + ") AS " + Quoted(b);
    PlainSubqueryJoin(t2, b, ig, a);
    assert EffectiveAlias(s) == a && s.joins[0] == j;
    assert FieldsFrom(s.select, 0, EffectiveAlias(s), Acc([], Started(s, []))) == Ok(own);
    assert JoinSql(s.joins[0], own.ignores, EffectiveAlias(s)) == Ok(Built("JOIN " + sub, ig));
    BareJoinStatement(s, [], own, Built("JOIN " + sub, ig));
    assert Head(s, own.texts) == head;
  }

  /** Joining `selector.from(t2).setAlias(b)` on any list: the sub-select in
      parentheses under its result alias, no condition, nothing pushed. */
  lemma PlainSubqueryJoin(t2: string, b: string, ig: seq<string>, alias: string)
    requires PlainName(t2) && PlainName(b)
    ensures JoinSql(JoinState(Subquery(EmptySelect().(table := t2), b), "", "", [], [], [], []), ig, alias)
         == Ok(Built("JOIN " + ("(" + ("SELECT " + "*" + " FROM " + Quoted(t2)) + ") AS " + Quoted(b)), ig))
  {
    var q := EmptySelect().(table := t2);
    var j := JoinState(Subquery(q, b), "", "", [], [], [], []);
    var sub := "(" + ("SELECT " + "*" + " FROM " + Quoted(t2)) + ") AS " + Quoted(b);
    PlainQuoted(b);
    PlainSelect(t2, ig);
    SubqueryMeaning(q, b, ig);
    assert SubquerySql(q, b, ig) == Ok(Built(sub, ig));
    assert Render([], ig, alias) == Ok("");
    JoinSubquery(j, ig, alias);
    AppendEmpty(sub);
  }
}
