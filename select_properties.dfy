/** What the SELECT builder promises: how a selected item's `as` keyword is
    found, that `select` keeps the order of first mention, the order of the
    GROUP BY / ORDER BY items and how HAVING groups are joined. */
module SelectProperties {
  import opened Results
  import opened Text
  import opened Values
  import opened Assertion
  import opened Format
  import opened Columns
  import opened Clause
  import opened SelectSpec
  import opened Select

  // ---------------------------------------------------------------------
  // The `as` keyword

  /** A word with no white space that is not itself the keyword `as`. */
  predicate Word(w: string)
  {
    && |w| > 0
    && (forall k :: 0 <= k < |w| ==> !IsJsSpace(w[k]))
    && !(|w| == 2 && IsA(w[0]) && IsS(w[1]))
  }

  /** No match can start inside a stretch without white space (nor at the
      very start, when the text does not open with the keyword). */
  lemma {:induction false} SkipWord(s: string, p: nat, q: nat, m: nat)
    requires p <= q <= m <= |s|
    requires forall k :: q <= k < m ==> !IsJsSpace(s[k])
    requires q > 0 || !AsAt(s, 0)
    ensures SplitAsFrom(s, p, q) == SplitAsFrom(s, p, m)
    decreases m - q
  {
    if q < m {
      assert MatchEnd(s, q) == None;
      SkipWord(s, p, q + 1, m);
    }
  }

  /** ` as ` followed by a word is a match: the piece ends before it and
      the next starts after it. */
  lemma KeywordAt(s: string, p: nat, q: nat)
    requires p <= q && q + 4 < |s|
    requires s[q] == ' ' && IsA(s[q + 1]) && IsS(s[q + 2]) && s[q + 3] == ' ' && !IsJsSpace(s[q + 4])
    ensures SplitAsFrom(s, p, q) == [s[p..q]] + SplitAsFrom(s, q + 4, q + 4)
  {
    assert !IsJsSpace(s[q + 1]);
    assert SpaceRun(s, q + 1) == q + 1;
    assert SpaceRun(s, q) == q + 1;
    assert SpaceRun(s, q + 4) == q + 4;
    assert SpaceRun(s, q + 3) == q + 4;
    assert MatchEnd(s, q) == Some(q + 4);
  }

  /** The rest of the text after the last match is the last piece. */
  lemma LastPiece(s: string, p: nat)
    requires 0 < p <= |s|
    requires forall k :: p <= k < |s| ==> !IsJsSpace(s[k])
    ensures SplitAsFrom(s, p, p) == [s[p..]]
  {
    SkipWord(s, p, p, |s|);
  }

  /** A word alone is not split. */
  lemma SplitAsWord(w: string)
    requires Word(w)
    ensures SplitAs(w) == [w]
  {
    if |w| >= 3 {
      assert !IsJsSpace(w[2]);
    }
    SkipWord(w, 0, 0, |w|);
    assert w[0..] == w;
  }

  /** The opening word of a text that goes on with ` as `. */
  lemma OpeningWord(s: string, f: string)
    requires Word(f) && |s| > |f| + 3 && s[..|f|] == f && s[|f|] == ' ' && IsA(s[|f| + 1])
    ensures SplitAsFrom(s, 0, 0) == SplitAsFrom(s, 0, |f|)
  {
    forall k | 0 <= k < |f| ensures !IsJsSpace(s[k]) {
      assert s[k] == f[k];
    }
    if |f| >= 3 {
      assert s[2] == f[2];
    } else if |f| == 2 {
      assert s[0] == f[0] && s[1] == f[1];
    } else {
      assert !IsS(s[1]);
    }
    SkipWord(s, 0, 0, |f|);
  }

  /** From `p` on: a word, ` as `, and a last word. */
  lemma LastTwoPieces(s: string, p: nat, m: nat)
    requires 0 < p < m && m + 4 < |s|
    requires forall k :: p <= k < m ==> !IsJsSpace(s[k])
    requires s[m] == ' ' && IsA(s[m + 1]) && IsS(s[m + 2]) && s[m + 3] == ' '
    requires forall k :: m + 4 <= k < |s| ==> !IsJsSpace(s[k])
    ensures SplitAsFrom(s, p, p) == [s[p..m], s[m + 4..]]
  {
    SkipWord(s, p, p, m);
    KeywordAt(s, p, m);
    LastPiece(s, m + 4);
  }

  /** `f as x` splits into `f` and `x`. */
  lemma SplitAsAlias(f: string, x: string)
    requires Word(f) && Word(x)
    ensures SplitAs(f + " as " + x) == [f, x]
  {
    var s := f + " as " + x;
    var n := |f|;
    assert s[..n] == f;
    OpeningWord(s, f);
    assert s[n + 4] == x[0];
    KeywordAt(s, 0, n);
    assert s[n + 4..] == x;
    forall k | n + 4 <= k < |s| ensures !IsJsSpace(s[k]) {
      assert s[k] == x[k - n - 4];
    }
    LastPiece(s, n + 4);
  }

  /** `f as x as y` splits into three pieces. */
  lemma SplitAsTwice(f: string, x: string, y: string)
    requires Word(f) && Word(x) && Word(y)
    ensures SplitAs(f + " as " + x + " as " + y) == [f, x, y]
  {
    var s := f + " as " + x + " as " + y;
    AsTwiceHead(s, f, x, y);
    AsTwiceTail(s, f, x, y);
    assert [f] + [x, y] == [f, x, y];
  }

  /** In `f as x as y`, `f` is the first piece. */
  lemma AsTwiceHead(s: string, f: string, x: string, y: string)
    requires Word(f) && Word(x) && Word(y) && s == f + " as " + x + " as " + y
    ensures SplitAs(s) == [f] + SplitAsFrom(s, |f| + 4, |f| + 4)
  {
    var n := |f|;
    assert s[..n] == f;
    OpeningWord(s, f);
    assert s[n + 4] == x[0];
    KeywordAt(s, 0, n);
  }

  /** In `f as x as y`, the text after the first ` as ` splits into `x` and
      `y`. */
  lemma AsTwiceTail(s: string, f: string, x: string, y: string)
    requires Word(f) && Word(x) && Word(y) && s == f + " as " + x + " as " + y
    ensures SplitAsFrom(s, |f| + 4, |f| + 4) == [x, y]
  {
    var n, m := |f|, |f| + 4 + |x|;
    forall k | n + 4 <= k < m ensures !IsJsSpace(s[k]) {
      assert s[k] == x[k - n - 4];
    }
    forall k | m + 4 <= k < |s| ensures !IsJsSpace(s[k]) {
      assert s[k] == y[k - m - 4];
    }
    LastTwoPieces(s, n + 4, m);
    assert s[n + 4..m] == x;
    assert s[m + 4..] == y;
  }

  /** `f as x` joined by ` as ` has no white space at its ends. */
  lemma AliasUntrimmed(f: string, x: string)
    requires Word(f) && Word(x)
    ensures Trim(f + " as " + x) == f + " as " + x
  {
    var s := f + " as " + x;
    assert s[0] == f[0] && s[|s| - 1] == x[|x| - 1];
    TrimNoop(s);
  }

  /** An item whose split gives `[f]`. */
  lemma FieldOnePiece(item: string, f: string, alias: string, ignores: seq<string>)
    requires item != "*" && SplitAs(Trim(item)) == [f]
    ensures var column := BuildColumn(f, ignores, alias);
      SelectSpec.Field(item, alias, ignores) == if column.Err? then Err(column.error) else Ok((column.value, ignores))
  {
  }

  /** An item whose split gives `[f, x]`. */
  lemma FieldTwoPieces(item: string, f: string, x: string, alias: string, ignores: seq<string>)
    requires |item| > 1 && SplitAs(Trim(item)) == [f, x] && x != ""
    ensures var column := BuildColumn(f, ignores + [x], alias);
      SelectSpec.Field(item, alias, ignores)
        == if column.Err? then Err(column.error) else Ok((column.value + " AS " + EscapeId(Str(x), false), ignores + [x]))
  {
  }

  /** `f as x`: `x` goes on the ignores list before `f` is resolved, and the
      item renders as `f`'s column, `AS` and `x` quoted. */
  lemma FieldWithAlias(f: string, x: string, alias: string, ignores: seq<string>)
    requires Word(f) && Word(x)
    ensures var column := BuildColumn(f, ignores + [x], alias);
      SelectSpec.Field(f + " as " + x, alias, ignores)
        == if column.Err? then Err(column.error) else Ok((column.value + " AS " + EscapeId(Str(x), false), ignores + [x]))
  {
    var item := f + " as " + x;
    assert SplitAs(Trim(item)) == [f, x] by {
      AliasUntrimmed(f, x);
      SplitAsAlias(f, x);
    }
    FieldTwoPieces(item, f, x, alias, ignores);
  }

  /** A second `as` makes the item an error. */
  lemma FieldWithTwoAliases(f: string, x: string, y: string, alias: string, ignores: seq<string>)
    requires Word(f) && Word(x) && Word(y)
    ensures SelectSpec.Field(f + " as " + x + " as " + y, alias, ignores) == Fail(BadColumn(f + " as " + x + " as " + y))
  {
    var s := f + " as " + x + " as " + y;
    assert s[0] == f[0] && s[|s| - 1] == y[|y| - 1];
    TrimNoop(s);
    SplitAsTwice(f, x, y);
    assert s[|f| + 1] == 'a';
  }

  /** An item without `as` is just its column, and the ignores list is kept. */
  lemma FieldWithoutAlias(f: string, alias: string, ignores: seq<string>)
    requires Word(f) && f != "*"
    ensures var column := BuildColumn(f, ignores, alias);
      SelectSpec.Field(f, alias, ignores) == if column.Err? then Err(column.error) else Ok((column.value, ignores))
  {
    TrimNoop(f);
    SplitAsWord(f);
    FieldOnePiece(f, f, alias, ignores);
  }

  // ---------------------------------------------------------------------
  // `select` keeps the order of first mention

  /** A list without repeats is kept as it is. */
  lemma {:induction false} DedupeDistinct(s: seq<string>)
    requires Distinct(s)
    ensures Dedupe(s) == s
  {
    if s != [] {
      var init := s[..|s| - 1];
      assert Distinct(init);
      DedupeDistinct(init);
      assert s[|s| - 1] !in init;
      assert init + [s[|s| - 1]] == s;
    }
  }

  /** Appending more never disturbs what was kept before. */
  lemma {:induction false} DedupeExtends(a: seq<string>, b: seq<string>)
    ensures |Dedupe(a)| <= |Dedupe(a + b)|
    ensures Dedupe(a + b)[..|Dedupe(a)|] == Dedupe(a)
    decreases |b|
  {
    if b == [] {
      assert a + b == a;
    } else {
      var init := b[..|b| - 1];
      DedupeExtends(a, init);
      assert (a + b)[..|a + b| - 1] == a + init;
    }
  }

  /** After `select`, the columns chosen before come first, in their order,
      and every column of the call is there. */
  lemma SelectKeepsEarlier(before: seq<string>, columns: Value)
    requires Distinct(before) && Selected(before, columns).Ok?
    ensures var after := Selected(before, columns).value;
      && Distinct(after)
      && |before| <= |after| && after[..|before|] == before
      && forall c :: c in Disassemble(columns).value ==> c in after
  {
    DedupeDistinct(before);
    DedupeExtends(before, Disassemble(columns).value);
  }

  /** Adding only what is already there keeps a list without repeats as it
      is. */
  lemma {:induction false} DedupeAbsorbs(a: seq<string>, b: seq<string>)
    requires Distinct(a)
    requires forall x :: x in b ==> x in a
    ensures Dedupe(a + b) == a
    decreases |b|
  {
    if b == [] {
      assert a + b == a;
      DedupeDistinct(a);
    } else {
      var init := b[..|b| - 1];
      assert forall x :: x in init ==> x in b;
      DedupeAbsorbs(a, init);
      assert (a + b)[..|a + b| - 1] == a + init;
      assert (a + b)[|a + b| - 1] == b[|b| - 1];
    }
  }

  /** Selecting what is already selected changes nothing. */
  lemma SelectIdempotent(before: seq<string>, columns: Value)
    requires Distinct(before) && Selected(before, columns).Ok?
    requires forall c :: c in Disassemble(columns).value ==> c in before
    ensures Selected(before, columns).value == before
  {
    DedupeAbsorbs(before, Disassemble(columns).value);
  }

  // ---------------------------------------------------------------------
  // GROUP BY / ORDER BY

  /** The texts of `items` from `i` on, on their own. */
  function ByAll(items: seq<ByItem>, i: nat, ignores: seq<string>, alias: string): Result<seq<string>>
    requires i <= |items|
  {
    ByFrom(items, i, [], ignores, alias)
  }

  /** One step of the loop over the items. */
  lemma ByStep(items: seq<ByItem>, i: nat, acc: seq<string>, ignores: seq<string>, alias: string)
    requires i < |items|
    ensures var text := ByText(items[i], ignores, alias);
      ByFrom(items, i, acc, ignores, alias)
        == if text.Err? then Err(text.error) else ByFrom(items, i + 1, acc + [text.value], ignores, alias)
  {
  }

  /** The items' texts are appended to what was there, in item order. */
  lemma {:induction false} ByFromPrefix(items: seq<ByItem>, i: nat, acc: seq<string>, ignores: seq<string>, alias: string)
    requires i <= |items|
    ensures var all := ByAll(items, i, ignores, alias);
      ByFrom(items, i, acc, ignores, alias) == if all.Err? then all else Ok(acc + all.value)
    decreases |items| - i
  {
    if i < |items| {
      ByStep(items, i, acc, ignores, alias);
      ByStep(items, i, [], ignores, alias);
      var text := ByText(items[i], ignores, alias);
      if text.Ok? {
        var t := text.value;
        ByFromPrefix(items, i + 1, acc + [t], ignores, alias);
        ByFromPrefix(items, i + 1, [t], ignores, alias);
        assert [] + [t] == [t];
        var rest := ByAll(items, i + 1, ignores, alias);
        if rest.Ok? {
          assert acc + [t] + rest.value == acc + ([t] + rest.value);
        }
      }
    } else {
      assert acc + [] == acc;
    }
  }

  /** Each item renders as its column followed by its direction. */
  lemma ByItemText(item: ByItem, ignores: seq<string>, alias: string)
    requires BuildColumn(item.column, ignores, alias).Ok?
    ensures ByText(item, ignores, alias).Ok?
    ensures var t := ByText(item, ignores, alias).value; var c := BuildColumn(item.column, ignores, alias).value;
      t[..|c|] == c && t[|c|..] == (if item.isDesc then " DESC" else " ASC")
  {
  }

  /** The joins' texts from join `k` on, on their own. */
  function JoinsByAll(joins: seq<JoinState>, k: nat, group: bool, ignores: seq<string>, alias: string): Result<seq<string>>
    requires k <= |joins|
  {
    JoinsByFrom(joins, k, group, [], ignores, alias)
  }

  /** One join's items, then the rest of the joins. */
  lemma JoinsByStep(joins: seq<JoinState>, k: nat, group: bool, acc: seq<string>, ignores: seq<string>, alias: string)
    requires k < |joins|
    ensures var mine := ByAll(SelectSpec.JoinItems(joins[k], group), 0, ignores, alias);
      JoinsByFrom(joins, k, group, acc, ignores, alias)
        == if mine.Err? then Err(mine.error) else JoinsByFrom(joins, k + 1, group, acc + mine.value, ignores, alias)
  {
    ByFromPrefix(SelectSpec.JoinItems(joins[k], group), 0, acc, ignores, alias);
  }

  lemma {:induction false} JoinsByFromPrefix(joins: seq<JoinState>, k: nat, group: bool, acc: seq<string>, ignores: seq<string>, alias: string)
    requires k <= |joins|
    ensures var all := JoinsByAll(joins, k, group, ignores, alias);
      JoinsByFrom(joins, k, group, acc, ignores, alias) == if all.Err? then all else Ok(acc + all.value)
    decreases |joins| - k
  {
    if k < |joins| {
      var mine := ByAll(SelectSpec.JoinItems(joins[k], group), 0, ignores, alias);
      JoinsByStep(joins, k, group, acc, ignores, alias);
      JoinsByStep(joins, k, group, [], ignores, alias);
      if mine.Ok? {
        assert [] + mine.value == mine.value;
        JoinsByFromPrefix(joins, k + 1, group, acc + mine.value, ignores, alias);
        JoinsByFromPrefix(joins, k + 1, group, mine.value, ignores, alias);
        var rest := JoinsByAll(joins, k + 1, group, ignores, alias);
        if rest.Ok? {
          assert acc + mine.value + rest.value == acc + (mine.value + rest.value);
        }
      }
    } else {
      assert acc + [] == acc;
    }
  }

  /** ` GROUP BY ` / ` ORDER BY `: the builder's own items first, then each
      join's in join order, all resolved with the outer alias; nothing at all
      when there are no items; the first item that fails stops it. */
  lemma ByClauseOrder(keyword: string, own: seq<ByItem>, joins: seq<JoinState>, group: bool, ignores: seq<string>, alias: string)
    ensures var mine := ByAll(own, 0, ignores, alias);
      var theirs := JoinsByAll(joins, 0, group, ignores, alias);
      ByClause(keyword, own, joins, group, ignores, alias)
        == if mine.Err? then Err(mine.error)
           else if theirs.Err? then Err(theirs.error)
           else if mine.value + theirs.value == [] then Ok("")
           else Ok(keyword + Join(mine.value + theirs.value, ", "))
  {
    var mine := ByAll(own, 0, ignores, alias);
    if mine.Ok? {
      JoinsByFromPrefix(joins, 0, group, mine.value, ignores, alias);
    }
  }

  // ---------------------------------------------------------------------
  // HAVING

  /** Two groups: ` HAVING `, the first, the second's combinator, the
      second; the first group's own combinator plays no part and no group is
      parenthesised. */
  lemma HavingPair(g1: HavingItem, g2: HavingItem, ignores: seq<string>, alias: string, p: string, q: string)
    requires Render(g1.clauses, ignores, alias) == Ok(p) && Render(g2.clauses, ignores, alias) == Ok(q)
    ensures HavingFrom([g1, g2], 0, "", ignores, alias) == Ok(" HAVING " + p + (if g2.isOr then " OR " else " AND ") + q)
  {
    var groups := [g1, g2];
    assert groups[0] == g1 && groups[1] == g2;
    assert "" + " HAVING " + p == " HAVING " + p;
    assert HavingFrom(groups, 0, "", ignores, alias) == HavingFrom(groups, 1, " HAVING " + p, ignores, alias);
    var lead := if g2.isOr then " OR " else " AND ";
    assert HavingFrom(groups, 1, " HAVING " + p, ignores, alias) == HavingFrom(groups, 2, " HAVING " + p + lead + q, ignores, alias);
  }

  /** The lead of group `i`: ` HAVING ` for the first, its combinator
      otherwise. */
  function HavingLeadText(groups: seq<HavingItem>, i: nat): string
    requires i < |groups|
  {
    if i == 0 then " HAVING " else if groups[i].isOr then " OR " else " AND "
  }

  /** One step of the having reduce. */
  lemma HavingStep(groups: seq<HavingItem>, i: nat, sql: string, ignores: seq<string>, alias: string)
    requires i < |groups|
    ensures var text := Render(groups[i].clauses, ignores, alias);
      HavingFrom(groups, i, sql, ignores, alias)
        == if text.Err? then Err(text.error) else HavingFrom(groups, i + 1, sql + HavingLeadText(groups, i) + text.value, ignores, alias)
  {
  }

  /** Flipping the first group's flag never changes the text: the first
      group is always led by ` HAVING `, whatever its flag. */
  lemma {:induction false} HavingFirstFlagIgnored(groups: seq<HavingItem>, i: nat, sql: string, ignores: seq<string>, alias: string)
    requires 0 < |groups| && i <= |groups|
    ensures HavingFrom(groups, i, sql, ignores, alias)
         == HavingFrom(groups[0 := groups[0].(isOr := !groups[0].isOr)], i, sql, ignores, alias)
    decreases |groups| - i
  {
    var flipped := groups[0 := groups[0].(isOr := !groups[0].isOr)];
    if i < |groups| {
      assert flipped[i].clauses == groups[i].clauses;
      assert HavingLeadText(flipped, i) == HavingLeadText(groups, i);
      HavingStep(groups, i, sql, ignores, alias);
      HavingStep(flipped, i, sql, ignores, alias);
      var text := Render(groups[i].clauses, ignores, alias);
      if text.Ok? {
        HavingFirstFlagIgnored(groups, i + 1, sql + HavingLeadText(groups, i) + text.value, ignores, alias);
      }
    }
  }

  lemma PrefixTrans(a: string, b: string, c: string)
    requires a <= b && b <= c
    ensures a <= c
  {
    assert forall k :: 0 <= k < |a| ==> a[k] == b[k] == c[k];
  }

  /** The having reduce only appends to what it starts from. */
  lemma {:induction false} HavingKeepsPrefix(groups: seq<HavingItem>, i: nat, sql: string, ignores: seq<string>, alias: string)
    requires i <= |groups| && HavingFrom(groups, i, sql, ignores, alias).Ok?
    ensures sql <= HavingFrom(groups, i, sql, ignores, alias).value
    decreases |groups| - i
  {
    if i < |groups| {
      HavingStep(groups, i, sql, ignores, alias);
      var text := Render(groups[i].clauses, ignores, alias).value;
      var next := sql + HavingLeadText(groups, i) + text;
      HavingKeepsPrefix(groups, i + 1, next, ignores, alias);
      PrefixTrans(sql, next, HavingFrom(groups, i + 1, next, ignores, alias).value);
    }
  }

  /** The HAVING part: nothing when there are no groups, otherwise it opens
      with ` HAVING `. */
  lemma HavingLead(groups: seq<HavingItem>, ignores: seq<string>, alias: string)
    requires HavingFrom(groups, 0, "", ignores, alias).Ok?
    ensures var h := HavingFrom(groups, 0, "", ignores, alias).value;
      (h == "" <==> groups == []) && (groups != [] ==> " HAVING " <= h)
  {
    if groups != [] {
      var text := Render(groups[0].clauses, ignores, alias).value;
      var first := "" + " HAVING " + text;
      HavingStep(groups, 0, "", ignores, alias);
      HavingKeepsPrefix(groups, 1, first, ignores, alias);
      PrefixTrans(" HAVING ", first, HavingFrom(groups, 0, "", ignores, alias).value);
    }
  }

  /** ` GROUP BY a, b` / ` ORDER BY a, b`, or nothing without items. */
  function ListClause(keyword: string, items: seq<string>): string
  {
    if items == [] then "" else keyword + Join(items, ", ")
  }

  /** Everything after the joins comes in the order WHERE, GROUP BY (the
      builder's own items, then each join's), HAVING, ORDER BY (likewise),
      LIMIT, OFFSET; it fails exactly when one of those parts fails. */
  lemma TailInOrder(s: SelectState, ignores: seq<string>, alias: string)
    ensures var where := Render(s.clauses, ignores, alias);
      var groupsOwn, groupsJoined := ByAll(s.groupBy, 0, ignores, alias), JoinsByAll(s.joins, 0, true, ignores, alias);
      var having := HavingFrom(s.having, 0, "", ignores, alias);
      var ordersOwn, ordersJoined := ByAll(s.orderBy, 0, ignores, alias), JoinsByAll(s.joins, 0, false, ignores, alias);
      var parts := where.Ok? && groupsOwn.Ok? && groupsJoined.Ok? && having.Ok? && ordersOwn.Ok? && ordersJoined.Ok?;
      (Tail(s, ignores, alias).Ok? <==> parts)
      && (parts ==> Tail(s, ignores, alias).value
                    == (if where.value != "" then " WHERE " + where.value else "")
                       + ListClause(" GROUP BY ", groupsOwn.value + groupsJoined.value)
                       + having.value
                       + ListClause(" ORDER BY ", ordersOwn.value + ordersJoined.value)
                       + Paging(s.limit, s.skip))
  {
    ByClauseOrder(" GROUP BY ", s.groupBy, s.joins, true, ignores, alias);
    ByClauseOrder(" ORDER BY ", s.orderBy, s.joins, false, ignores, alias);
  }
}
