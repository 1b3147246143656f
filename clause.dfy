/** The WHERE / ON / HAVING condition list: an append-only list of predicates
    and parenthesised groups, rendered in order with `AND` / `OR` between
    them. */
module Clause {
  import opened Results
  import opened Text
  import opened Values
  import opened Assertion
  import opened Format
  import opened Columns

  /** One entry of `_clauses`: a predicate, or a group built by a factory on
      a fresh builder (kept here as that builder's entries). */
  datatype Entry =
    | Expr(column: string, operator: string, value: Cell, valueIsColumn: bool, isOr: bool)
    | Block(entries: seq<Entry>, isOr: bool)

  predicate IsNullOp(upper: string)
  {
    upper == "IS NULL" || upper == "IS NOT NULL"
  }

  predicate IsBetweenOp(upper: string)
  {
    upper == "BETWEEN" || upper == "NOT BETWEEN"
  }

  /** The operator argument: left out it is `=`; anything but a string fails
      at `toUpperCase`, `null` because it has no properties to read and any
      other value because the method it looks up is not a function. */
  function OperatorText(operator: Value): (r: Result<string>)
    ensures operator.Undefined? ==> r == Ok("=")
    ensures operator.Str? ==> r == Ok(operator.s)
    ensures r.Ok? <==> operator.Undefined? || operator.Str?
    ensures operator.Null? ==> r == Err(TypeError(NullUpperCase))
    ensures !operator.Null? && r.Err? ==> r == Err(TypeError(NotUpperCase))
  {
    if operator.Undefined? then Ok("=")
    else if operator.Str? then Ok(operator.s)
    else if operator.Null? then Err(TypeError(NullUpperCase))
    else Err(TypeError(NotUpperCase))
  }

  const NullUpperCase := "Cannot read properties of null (reading 'toUpperCase')"
  const NotUpperCase := "operator.toUpperCase is not a function"

  /** The checks `_appendWhere` makes before it pushes: `IS [NOT] NULL` takes
      no truthy value (and the unbound marker is truthy, so only an explicit
      falsy value passes), `[NOT] BETWEEN` takes no array whose length is not
      2. The result is the operator to store. */
  function CheckAppend(value: Cell, operator: Value): (r: Result<string>)
    ensures r.Ok? ==> OperatorText(operator) == r
    ensures (operator.Undefined? || operator.Str?) && IsNullOp(UpperAscii(OperatorText(operator).value)) ==>
      (r.Ok? <==> value.Bound? && !Truthy(value.value))
    ensures (operator.Undefined? || operator.Str?) && IsBetweenOp(UpperAscii(OperatorText(operator).value)) ==>
      (r.Ok? <==> !(value.Bound? && value.value.List? && |value.value.items| != 2))
    ensures ((operator.Undefined? || operator.Str?) && !IsNullOp(UpperAscii(OperatorText(operator).value)) &&
             !IsBetweenOp(UpperAscii(OperatorText(operator).value))) ==> r.Ok?
  {
    var op :- OperatorText(operator);
    var upper := UpperAscii(op);
    if IsNullOp(upper) && CellTruthy(value) then Fail("can not set value")
    else if IsBetweenOp(upper) && value.Bound? && value.value.List? && |value.value.items| != 2 then
      Fail("The value is required to be Array with length 2")
    else Ok(op)
  }

  // ---------------------------------------------------------------------
  // Rendering

  const SymbolToString := "Cannot convert a Symbol value to a string"

  /** `buildExpr(expr)` for one predicate. */
  function RenderExpr(column: string, operator: string, value: Cell, valueIsColumn: bool, ignores: seq<string>, alias: string): Result<string>
  {
    var col :- BuildColumn(column, ignores, alias);
    var upper := UpperAscii(operator);
    if IsNullOp(upper) then Ok(col + " " + upper)
    else if IsBetweenOp(upper) then
      if !CellTruthy(value) then Ok(col + " " + upper + " ? AND ?")
      else if value.Unbound? then Err(TypeError(SymbolToString))
      else Ok(col + " " + upper + FormatSql(" ? AND ?", value.value, false))
    else if valueIsColumn then
      if value.Bound? && value.value.Str? then
        var right :- BuildColumn(value.value.s, ignores, alias);
        Ok(col + " " + operator + " " + right)
      else Err(TypeError("Cannot use 'in' operator to search for 'op' in null"))
    else if value.Unbound? then Ok(col + " " + operator + " ?")
    else Ok(col + " " + operator + " " + Escape(value.value, true))
  }

  /** What one entry contributes: a predicate, or a group in parentheses. */
  function RenderEntry(e: Entry, ignores: seq<string>, alias: string): Result<string>
    decreases e, 2
  {
    match e
    case Expr(column, operator, value, valueIsColumn, _) => RenderExpr(column, operator, value, valueIsColumn, ignores, alias)
    case Block(entries, _) =>
      var inner :- Render(entries, ignores, alias);
      Ok("(" + inner + ")")
  }

  /** Each entry's own text, in order. */
  function Pieces(entries: seq<Entry>, ignores: seq<string>, alias: string): (r: seq<Result<string>>)
    ensures |r| == |entries|
    ensures forall k :: 0 <= k < |entries| ==> r[k] == RenderEntry(entries[k], ignores, alias)
    decreases entries, 0
  {
    seq(|entries|, k requires 0 <= k < |entries| => RenderEntry(entries[k], ignores, alias))
  }

  /** Each entry's `isOr` flag, in order. */
  function Flags(entries: seq<Entry>): (r: seq<bool>)
    ensures |r| == |entries|
    ensures forall k :: 0 <= k < |entries| ==> r[k] == entries[k].isOr
  {
    seq(|entries|, k requires 0 <= k < |entries| => entries[k].isOr)
  }

  /** The combinator written before piece `i`: none before the first. */
  function Separator(ors: seq<bool>, i: nat): string
    requires i < |ors|
  {
    if i == 0 then "" else if ors[i] then " OR " else " AND "
  }

  /** The `forEach` from piece `i` on, `sql` being the text so far; the first
      piece that fails stops it. */
  function JoinFrom(pieces: seq<Result<string>>, ors: seq<bool>, i: nat, sql: string): Result<string>
    requires |pieces| == |ors| && i <= |pieces|
    decreases |pieces| - i
  {
    if i == |pieces| then Ok(sql)
    else if pieces[i].Err? then Err(pieces[i].error)
    else JoinFrom(pieces, ors, i + 1, sql + Separator(ors, i) + pieces[i].value)
  }

  /** `build({ignores, alias})` of a builder holding `entries`. */
  function Render(entries: seq<Entry>, ignores: seq<string>, alias: string): Result<string>
    decreases entries, 1
  {
    var sql :- JoinFrom(Pieces(entries, ignores, alias), Flags(entries), 0, "");
    Ok(Trim(sql))
  }

  // ---------------------------------------------------------------------
  // The builder

  class ClauseBuilder {
    var clauses: seq<Entry>

    constructor()
      ensures clauses == []
    {
      clauses := [];
    }

    /** `_appendWhere`: on success exactly one predicate is added at the end;
        on failure nothing changes. */
    method AppendWhere(column: string, value: Cell, operator: Value, isOr: bool, valueIsColumn: bool) returns (r: Result<()>)
      modifies this
      ensures r.Ok? <==> CheckAppend(value, operator).Ok?
      ensures r.Err? ==> r.error == CheckAppend(value, operator).error && clauses == old(clauses)
      ensures r.Ok? ==> clauses == old(clauses) + [Expr(column, CheckAppend(value, operator).value, value, valueIsColumn, isOr)]
    {
      var op :- OperatorText(operator);
      var upper := UpperAscii(op);
      if IsNullOp(upper) {
        if CellTruthy(value) {
          return Fail("can not set value");
        }
      } else if IsBetweenOp(upper) {
        if value.Bound? && value.value.List? && |value.value.items| != 2 {
          return Fail("The value is required to be Array with length 2");
        }
      }
      clauses := clauses + [Expr(column, op, value, valueIsColumn, isOr)];
      return Ok(());
    }

    /** `where(column, operator, value)`; `value` is `Unbound` when the call
        has fewer than three arguments. */
    method Where(column: string, operator: Value, value: Cell) returns (r: Result<()>)
      modifies this
      ensures r.Ok? <==> CheckAppend(value, operator).Ok?
      ensures r.Err? ==> r.error == CheckAppend(value, operator).error && clauses == old(clauses)
      ensures r.Ok? ==> clauses == old(clauses) + [Expr(column, CheckAppend(value, operator).value, value, false, false)]
    {
      r := AppendWhere(column, value, operator, false, false);
    }

    /** `andWhere`: the same as `where`. */
    method AndWhere(column: string, operator: Value, value: Cell) returns (r: Result<()>)
      modifies this
      ensures r.Ok? <==> CheckAppend(value, operator).Ok?
      ensures r.Err? ==> r.error == CheckAppend(value, operator).error && clauses == old(clauses)
      ensures r.Ok? ==> clauses == old(clauses) + [Expr(column, CheckAppend(value, operator).value, value, false, false)]
    {
      r := AppendWhere(column, value, operator, false, false);
    }

    /** `orWhere`: a predicate joined with `OR`. */
    method OrWhere(column: string, operator: Value, value: Cell) returns (r: Result<()>)
      modifies this
      ensures r.Ok? <==> CheckAppend(value, operator).Ok?
      ensures r.Err? ==> r.error == CheckAppend(value, operator).error && clauses == old(clauses)
      ensures r.Ok? ==> clauses == old(clauses) + [Expr(column, CheckAppend(value, operator).value, value, false, true)]
    {
      r := AppendWhere(column, value, operator, true, false);
    }

    /** `onColumn(first, second, operator)`: the right side is a column. */
    method OnColumn(first: string, second: Value, operator: Value) returns (r: Result<()>)
      modifies this
      ensures r.Ok? <==> Required(second, "second").Ok? && CheckAppend(Bound(second), operator).Ok?
      ensures r.Err? ==> clauses == old(clauses)
      ensures r.Err? ==>
        r.error == if Required(second, "second").Err? then Required(second, "second").error else CheckAppend(Bound(second), operator).error
      ensures r.Ok? ==> clauses == old(clauses) + [Expr(first, CheckAppend(Bound(second), operator).value, Bound(second), true, false)]
    {
      var _ :- Required(second, "second");
      r := AppendWhere(first, Bound(second), operator, false, true);
    }

    /** `orColumn(first, second, operator)` */
    method OrColumn(first: string, second: Value, operator: Value) returns (r: Result<()>)
      modifies this
      ensures r.Ok? <==> Required(second, "second").Ok? && CheckAppend(Bound(second), operator).Ok?
      ensures r.Err? ==> clauses == old(clauses)
      ensures r.Err? ==>
        r.error == if Required(second, "second").Err? then Required(second, "second").error else CheckAppend(Bound(second), operator).error
      ensures r.Ok? ==> clauses == old(clauses) + [Expr(first, CheckAppend(Bound(second), operator).value, Bound(second), true, true)]
    {
      var _ :- Required(second, "second");
      r := AppendWhere(first, Bound(second), operator, true, true);
    }

    /** `_appendClause(factory, isOr)`: `child` is the fresh builder after the
        factory has run on it; its entries become one group. */
    method AppendClause(child: ClauseBuilder, isOr: bool)
      requires child != this
      modifies this
      ensures clauses == old(clauses) + [Block(child.clauses, isOr)]
    {
      clauses := clauses + [Block(child.clauses, isOr)];
    }

    method Clause(child: ClauseBuilder)
      requires child != this
      modifies this
      ensures clauses == old(clauses) + [Block(child.clauses, false)]
    {
      AppendClause(child, false);
    }

    method AndClause(child: ClauseBuilder)
      requires child != this
      modifies this
      ensures clauses == old(clauses) + [Block(child.clauses, false)]
    {
      AppendClause(child, false);
    }

    method OrClause(child: ClauseBuilder)
      requires child != this
      modifies this
      ensures clauses == old(clauses) + [Block(child.clauses, true)]
    {
      AppendClause(child, true);
    }

    /** `build({ignores, alias})`; it reads the entries and changes nothing. */
    method Build(ignores: seq<string>, alias: string) returns (r: Result<string>)
      ensures r == Render(clauses, ignores, alias)
    {
      r := BuildEntries(clauses, ignores, alias);
    }
  }

  /** The `forEach` of `build` over a list of entries, a group's own `build`
      called for each group. */
  method BuildEntries(entries: seq<Entry>, ignores: seq<string>, alias: string) returns (r: Result<string>)
    ensures r == Render(entries, ignores, alias)
    decreases entries, 1
  {
    var sql := "";
    var index := 0;
    while index < |entries|
      invariant index <= |entries|
      invariant Render(entries, ignores, alias) == RenderRest(entries, ignores, alias, index, sql)
      decreases |entries| - index
    {
      var item := entries[index];
      var piece := BuildEntry(item, ignores, alias);
      if piece.Err? {
        RenderRestStep(entries, ignores, alias, index, sql);
        return Err(piece.error);
      }
      RenderRestStep(entries, ignores, alias, index, sql);
      sql := sql + (if index == 0 then "" else if item.isOr then " OR " else " AND ") + piece.value;
      index := index + 1;
    }
    return Ok(Trim(sql));
  }

  /** What `build` makes of the entries from `index` on, `sql` being the text
      of those before. */
  function RenderRest(entries: seq<Entry>, ignores: seq<string>, alias: string, index: nat, sql: string): Result<string>
    requires index <= |entries|
  {
    var text :- JoinFrom(Pieces(entries, ignores, alias), Flags(entries), index, sql);
    Ok(Trim(text))
  }

  /** One step of `build`'s loop: a failing entry ends it with its error; an
      entry that renders is appended after its combinator. */
  lemma RenderRestStep(entries: seq<Entry>, ignores: seq<string>, alias: string, index: nat, sql: string)
    requires index < |entries|
    ensures RenderEntry(entries[index], ignores, alias).Err? ==>
      RenderRest(entries, ignores, alias, index, sql) == Err(RenderEntry(entries[index], ignores, alias).error)
    ensures RenderEntry(entries[index], ignores, alias).Ok? ==>
      RenderRest(entries, ignores, alias, index, sql)
        == RenderRest(entries, ignores, alias, index + 1,
                      sql + (if index == 0 then "" else if entries[index].isOr then " OR " else " AND ")
                          + RenderEntry(entries[index], ignores, alias).value)
  {
    var pieces := Pieces(entries, ignores, alias);
    var ors := Flags(entries);
    assert pieces[index] == RenderEntry(entries[index], ignores, alias) && ors[index] == entries[index].isOr;
    if pieces[index].Ok? {
      JoinFromStep(pieces, ors, index, sql);
    }
  }

  /** One step of that `forEach`: a predicate's `buildExpr`, or a group's
      `build` in parentheses. */
  method BuildEntry(e: Entry, ignores: seq<string>, alias: string) returns (r: Result<string>)
    ensures r == RenderEntry(e, ignores, alias)
    decreases e, 2
  {
    if e.Block? {
      var inner :- BuildEntries(e.entries, ignores, alias);
      r := Ok("(" + inner + ")");
    } else {
      r := RenderExpr(e.column, e.operator, e.value, e.valueIsColumn, ignores, alias);
    }
  }

  // ---------------------------------------------------------------------
  // Properties of `build`

  /** One step of the join: a piece that renders is appended after its
      combinator. */
  lemma JoinFromStep(pieces: seq<Result<string>>, ors: seq<bool>, i: nat, sql: string)
    requires |pieces| == |ors| && i < |pieces| && pieces[i].Ok?
    ensures JoinFrom(pieces, ors, i, sql) == JoinFrom(pieces, ors, i + 1, sql + Separator(ors, i) + pieces[i].value)
  {
  }

  /** Joining only looks at the pieces and flags from `i` on. */
  lemma {:induction false} JoinFromTail(p: seq<Result<string>>, f: seq<bool>, q: seq<Result<string>>, g: seq<bool>, i: nat, sql: string)
    requires |p| == |f| == |q| == |g| && i <= |p|
    requires p[i..] == q[i..] && f[i..] == g[i..]
    ensures JoinFrom(p, f, i, sql) == JoinFrom(q, g, i, sql)
    decreases |p| - i
  {
    if i < |p| {
      assert p[i] == p[i..][0] == q[i..][0] == q[i];
      assert f[i] == f[i..][0] == g[i..][0] == g[i];
      if p[i].Ok? {
        assert p[i + 1..] == p[i..][1..] && q[i + 1..] == q[i..][1..];
        assert f[i + 1..] == f[i..][1..] && g[i + 1..] == g[i..][1..];
        JoinFromTail(p, f, q, g, i + 1, sql + Separator(f, i) + p[i].value);
      }
    }
  }

  /** An entry's own text does not depend on its combinator. */
  lemma EntryFlagIgnored(e: Entry, isOr: bool, ignores: seq<string>, alias: string)
    ensures RenderEntry(e.(isOr := isOr), ignores, alias) == RenderEntry(e, ignores, alias)
  {
  }

  /** The combinator stored with the first entry is never written:
      `orWhere` as the first call renders exactly as `where`. */
  lemma FirstCombinatorIgnored(entries: seq<Entry>, isOr: bool, ignores: seq<string>, alias: string)
    requires entries != []
    ensures Render(entries[0 := entries[0].(isOr := isOr)], ignores, alias) == Render(entries, ignores, alias)
  {
    var flipped := entries[0 := entries[0].(isOr := isOr)];
    var p, q := Pieces(flipped, ignores, alias), Pieces(entries, ignores, alias);
    var f, g := Flags(flipped), Flags(entries);
    assert p == q by {
      EntryFlagIgnored(entries[0], isOr, ignores, alias);
      assert flipped[1..] == entries[1..];
    }
    if p[0].Ok? {
      assert f[1..] == g[1..];
      JoinFromTail(p, f, q, g, 1, "" + "" + p[0].value);
    }
  }

  /** Joining one more piece extends the text joined so far by its
      combinator and its text; an error anywhere is the first error met. */
  lemma {:induction false} JoinFromSnoc(p: seq<Result<string>>, f: seq<bool>, piece: Result<string>, isOr: bool, i: nat, sql: string)
    requires |p| == |f| && i <= |p|
    ensures JoinFrom(p + [piece], f + [isOr], i, sql)
         == Appended(JoinFrom(p, f, i, sql), piece, if p == [] then "" else if isOr then " OR " else " AND ")
    decreases |p| - i
  {
    var p', f' := p + [piece], f + [isOr];
    if i == |p| {
      assert p'[i] == piece && f'[i] == isOr;
      if piece.Ok? {
        assert JoinFrom(p', f', i + 1, sql + Separator(f', i) + piece.value) == Ok(sql + Separator(f', i) + piece.value);
      }
    } else {
      assert p'[i] == p[i] && f'[i] == f[i];
      if p[i].Ok? {
        assert Separator(f', i) == Separator(f, i);
        JoinFromSnoc(p, f, piece, isOr, i + 1, sql + Separator(f, i) + p[i].value);
      }
    }
  }

  /** The earlier text followed by a combinator and a new piece. */
  function Appended(before: Result<string>, piece: Result<string>, separator: string): Result<string>
  {
    if before.Err? then before
    else if piece.Err? then piece
    else Ok(before.value + separator + piece.value)
  }

  /** What `where` / `orWhere` / `clause` add to the built text, before the
      final trim: the entry's combinator (none for the first entry) and its
      text. */
  lemma RenderAppend(entries: seq<Entry>, e: Entry, ignores: seq<string>, alias: string)
    ensures JoinFrom(Pieces(entries + [e], ignores, alias), Flags(entries + [e]), 0, "")
         == Appended(JoinFrom(Pieces(entries, ignores, alias), Flags(entries), 0, ""), RenderEntry(e, ignores, alias),
                     if entries == [] then "" else if e.isOr then " OR " else " AND ")
  {
    var longer := entries + [e];
    assert Pieces(longer, ignores, alias) == Pieces(entries, ignores, alias) + [RenderEntry(e, ignores, alias)];
    assert Flags(longer) == Flags(entries) + [e.isOr];
    JoinFromSnoc(Pieces(entries, ignores, alias), Flags(entries), RenderEntry(e, ignores, alias), e.isOr, 0, "");
  }

  /** A predicate without a value renders a placeholder. */
  lemma PlaceholderExpr(column: string, operator: string, ignores: seq<string>, alias: string)
    requires !IsNullOp(UpperAscii(operator)) && !IsBetweenOp(UpperAscii(operator))
    ensures var col := BuildColumn(column, ignores, alias);
      RenderExpr(column, operator, Unbound, false, ignores, alias) == if col.Err? then Err(col.error) else Ok(col.value + " " + operator + " ?")
  {
  }

  /** A predicate with a value renders the escaped value inline. */
  lemma ValueExpr(column: string, operator: string, v: Value, ignores: seq<string>, alias: string)
    requires !IsNullOp(UpperAscii(operator)) && !IsBetweenOp(UpperAscii(operator))
    ensures var col := BuildColumn(column, ignores, alias);
      RenderExpr(column, operator, Bound(v), false, ignores, alias) == if col.Err? then Err(col.error) else Ok(col.value + " " + operator + " " + Escape(v, true))
  {
  }

  /** `=`, `>` and `<` are plain comparison operators. */
  lemma ComparisonOps()
    ensures UpperAscii("=") == "=" && UpperAscii(">") == ">" && UpperAscii("<") == "<"
    ensures Comparison("=") && Comparison(">") && Comparison("<")
  {
    assert UpperAscii("=") == "=";
    assert UpperAscii(">") == ">";
    assert UpperAscii("<") == "<";
  }

  /** An operator with no special rendering. */
  predicate Comparison(op: string)
  {
    !IsNullOp(UpperAscii(op)) && !IsBetweenOp(UpperAscii(op))
  }

  lemma PlaceholderPredicate(w: string, op: string, isOr: bool)
    requires PlainName(w) && Comparison(op)
    ensures RenderEntry(Expr(w, op, Unbound, false, isOr), [], "") == Ok("`" + w + "`" + " " + op + " ?")
  {
    BuildColumnWord(w, []);
    PlaceholderExpr(w, op, [], "");
  }

  lemma NumberPredicate(w: string, op: string, n: int, isOr: bool)
    requires PlainName(w) && Comparison(op)
    ensures RenderEntry(Expr(w, op, Bound(Num(n)), false, isOr), [], "") == Ok("`" + w + "`" + " " + op + " " + IntToString(n))
  {
    BuildColumnWord(w, []);
    ValueExpr(w, op, Num(n), [], "");
  }

  /** Text with no white space at either end: `build`'s trim leaves it as it
      is. */
  predicate Unpadded(t: string)
  {
    t != [] && !IsJsSpace(t[0]) && !IsJsSpace(t[|t| - 1])
  }

  /** The text of a number ends in a digit. */
  lemma IntToStringEnds(n: int)
    ensures var t := IntToString(n); '0' <= t[|t| - 1] <= '9'
  {
    if n < 0 {
      var d := NatToString(-n);
      assert IntToString(n)[|IntToString(n)| - 1] == d[|d| - 1];
    }
  }

  lemma PlaceholderUnpadded(w: string, op: string)
    ensures Unpadded("`" + w + "`" + " " + op + " ?")
  {
    var t := "`" + w + "`" + " " + op + " ?";
    assert t[0] == '`' && t[|t| - 1] == '?';
  }

  lemma NumberUnpadded(w: string, op: string, n: int)
    ensures Unpadded("`" + w + "`" + " " + op + " " + IntToString(n))
  {
    var t := "`" + w + "`" + " " + op + " " + IntToString(n);
    IntToStringEnds(n);
    assert t[0] == '`' && t[|t| - 1] == IntToString(n)[|IntToString(n)| - 1];
  }

  lemma ParenUnpadded(t: string)
    ensures Unpadded("(" + t + ")")
  {
    var u := "(" + t + ")";
    assert u[0] == '(' && u[|u| - 1] == ')';
  }

  /** Two unpadded texts with anything between them: nothing to trim. */
  lemma JoinedUnpadded(p: string, sep: string, q: string)
    requires Unpadded(p) && Unpadded(q)
    ensures Unpadded(p + sep + q) && Trim(p + sep + q) == p + sep + q
  {
    var t := p + sep + q;
    assert t[0] == p[0] && t[|t| - 1] == q[|q| - 1];
    TrimNoop(t);
  }

  /** A single entry renders as its own text when that is unpadded. */
  lemma RenderOne(e: Entry, ignores: seq<string>, alias: string, p: string)
    requires RenderEntry(e, ignores, alias) == Ok(p) && Unpadded(p)
    ensures Render([e], ignores, alias) == Ok(p)
  {
    var pieces := Pieces([e], ignores, alias);
    assert pieces[0] == Ok(p);
    assert "" + Separator(Flags([e]), 0) + p == p;
    assert JoinFrom(pieces, Flags([e]), 0, "") == JoinFrom(pieces, Flags([e]), 1, p);
    TrimNoop(p);
  }

  /** Two entries are joined as the first, the second's combinator, and the
      second. */
  lemma JoinPair(e1: Entry, e2: Entry, ignores: seq<string>, alias: string, p: string, q: string)
    requires RenderEntry(e1, ignores, alias) == Ok(p) && RenderEntry(e2, ignores, alias) == Ok(q)
    ensures JoinFrom(Pieces([e1, e2], ignores, alias), Flags([e1, e2]), 0, "") == Ok(p + (if e2.isOr then " OR " else " AND ") + q)
  {
    var pieces, ors := Pieces([e1, e2], ignores, alias), Flags([e1, e2]);
    assert pieces[0] == Ok(p) && pieces[1] == Ok(q);
    assert ors[1] == e2.isOr;
    assert "" + "" + p == p;
    assert JoinFrom(pieces, ors, 0, "") == JoinFrom(pieces, ors, 1, p);
    assert JoinFrom(pieces, ors, 1, p) == JoinFrom(pieces, ors, 2, p + Separator(ors, 1) + q);
  }

  /** `build` trims what the `forEach` joined. */
  lemma RenderTrims(entries: seq<Entry>, ignores: seq<string>, alias: string, text: string)
    requires JoinFrom(Pieces(entries, ignores, alias), Flags(entries), 0, "") == Ok(text)
    ensures Render(entries, ignores, alias) == Ok(Trim(text))
  {
  }

  /** Two unpadded entries render with `AND` or `OR` between them and
      nothing trimmed. */
  lemma RenderPair(e1: Entry, e2: Entry, ignores: seq<string>, alias: string, p: string, q: string)
    requires RenderEntry(e1, ignores, alias) == Ok(p) && RenderEntry(e2, ignores, alias) == Ok(q)
    requires Unpadded(p) && Unpadded(q)
    ensures Render([e1, e2], ignores, alias) == Ok(p + (if e2.isOr then " OR " else " AND ") + q)
  {
    JoinPair(e1, e2, ignores, alias, p, q);
    JoinedUnpadded(p, if e2.isOr then " OR " else " AND ", q);
    RenderTrims([e1, e2], ignores, alias, p + (if e2.isOr then " OR " else " AND ") + q);
  }

  /** A group renders as its own `build` in parentheses. */
  lemma GroupEntry(entries: seq<Entry>, isOr: bool, ignores: seq<string>, alias: string, text: string)
    requires Render(entries, ignores, alias) == Ok(text)
    ensures RenderEntry(Block(entries, isOr), ignores, alias) == Ok("(" + text + ")")
  {
  }

  /** The group `where(b).andWhere(c, '>', n)` on its own. */
  lemma ExampleGroup(b: string, c: string, n: int)
    requires PlainName(b) && PlainName(c)
    ensures Render([Expr(b, "=", Unbound, false, false), Expr(c, ">", Bound(Num(n)), false, false)], [], "")
         == Ok(("`" + b + "`" + " " + "=" + " ?") + " AND " + ("`" + c + "`" + " " + ">" + " " + IntToString(n)))
  {
    ComparisonOps();
    PlaceholderPredicate(b, "=", false);
    NumberPredicate(c, ">", n, false);
    PlaceholderUnpadded(b, "=");
    NumberUnpadded(c, ">", n);
    RenderPair(Expr(b, "=", Unbound, false, false), Expr(c, ">", Bound(Num(n)), false, false), [], "",
               "`" + b + "`" + " " + "=" + " ?", "`" + c + "`" + " " + ">" + " " + IntToString(n));
  }

  /** `where(a, '>')` followed by `clause(c => c.where(b).andWhere(c, '>', n))`:
      the group is parenthesised and joined with `AND`. */
  lemma NestedGroupExample(a: string, b: string, c: string, n: int)
    requires PlainName(a) && PlainName(b) && PlainName(c)
    ensures Render([Expr(a, ">", Unbound, false, false),
                    Block([Expr(b, "=", Unbound, false, false),
                           Expr(c, ">", Bound(Num(n)), false, false)], false)], [], "")
         == Ok(("`" + a + "`" + " " + ">" + " ?") + " AND " +
               ("(" + (("`" + b + "`" + " " + "=" + " ?") + " AND " + ("`" + c + "`" + " " + ">" + " " + IntToString(n))) + ")"))
  {
    var inner := ("`" + b + "`" + " " + "=" + " ?") + " AND " + ("`" + c + "`" + " " + ">" + " " + IntToString(n));
    ComparisonOps();
    PlaceholderPredicate(a, ">", false);
    PlaceholderUnpadded(a, ">");
    ExampleGroup(b, c, n);
    GroupEntry([Expr(b, "=", Unbound, false, false), Expr(c, ">", Bound(Num(n)), false, false)], false, [], "", inner);
    ParenUnpadded(inner);
    RenderPair(Expr(a, ">", Unbound, false, false),
               Block([Expr(b, "=", Unbound, false, false), Expr(c, ">", Bound(Num(n)), false, false)], false), [], "",
               "`" + a + "`" + " " + ">" + " ?", "(" + inner + ")");
  }
}
