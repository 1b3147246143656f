/** Column lists and column expressions: `disassembleColumns` splits what a
    caller passes to `select` or `setSome` into column names, and
    `buildColumn` renders one column expression with every name quoted and,
    when a table alias is in force, qualified by it. */
module Columns {
  import opened Results
  import opened Text
  import opened Values
  import opened Assertion
  import opened Format
  import opened ColumnParser
  import opened ParserProperties

  // ---------------------------------------------------------------------
  // disassembleColumns

  /** The columns of `text.split(/,/)`, trimmed, with the empty ones dropped. */
  function TrimmedPieces(parts: seq<string>): (r: seq<string>)
    ensures |r| <= |parts|
    ensures forall i :: 0 <= i < |r| ==> Trimmed(r[i])
    decreases parts
  {
    if parts == [] then []
    else
      var c := Trim(parts[0]);
      var rest := TrimmedPieces(parts[1..]);
      if c != "" then [c] + rest else rest
  }

  /** Text that `trim` leaves as it is and that is not empty. */
  predicate Trimmed(c: string)
  {
    c != "" && !IsJsSpace(c[0]) && !IsJsSpace(c[|c| - 1])
  }

  /** Trimmed text is its own trim, and trimming gives trimmed text. */
  lemma TrimmedIsTrim(s: string)
    ensures Trimmed(s) ==> Trim(s) == s
    ensures Trim(s) != "" ==> Trimmed(Trim(s))
    ensures Trim(Trim(s)) == Trim(s)
  {
    TrimSpec(s);
    TrimNoop(Trim(s));
    if Trimmed(s) {
      TrimNoop(s);
    }
  }

  /** A column that survives splitting: not empty, without a comma and without
      white space at either end. */
  predicate IsColumn(c: string)
  {
    Trimmed(c) && ',' !in c
  }

  predicate AllColumns(cols: seq<string>)
  {
    forall i :: 0 <= i < |cols| ==> IsColumn(cols[i])
  }

  /** `columns` is a list whose truthy elements are all strings. */
  predicate StringList(columns: Value)
  {
    columns.List? && StringItems(columns.items)
  }

  predicate StringItems(items: seq<Value>)
  {
    forall i :: 0 <= i < |items| ==> Truthy(items[i]) ==> items[i].Str?
  }

  /** `disassembleColumns(columns)`: a list is flattened element by element,
      skipping the falsy elements and refusing any other non-string; anything
      else must be a non-empty string, which is split at commas. Every column
      it yields is a column name: non-empty, comma-free and trimmed. */
  function Disassemble(columns: Value): (r: Result<seq<string>>)
    ensures r.Ok? <==> StringList(columns) || (!columns.List? && columns.Str? && columns.s != "")
    ensures r.Ok? ==> AllColumns(r.value)
    ensures r.Err? && columns.List? ==> r.error == Error("Invalid column for give columns")
    ensures r.Err? && !columns.List? ==> r.error == Error("The " + "columns" + " is required to be string.")
  {
    if columns.List? then DisassembleItems(columns.items)
    else
      var check := Stringed(columns, "columns");
      if check.Err? then Err(check.error) else Ok(SplitColumns(columns.s))
  }

  /** The text of one string split at commas into columns. */
  function SplitColumns(s: string): (r: seq<string>)
    ensures AllColumns(r)
  {
    var parts := SplitOn(s, ',');
    var r := TrimmedPieces(parts);
    TrimmedPiecesCommaFree(parts);
    r
  }

  lemma {:induction false} TrimmedPiecesCommaFree(parts: seq<string>)
    requires forall i :: 0 <= i < |parts| ==> ',' !in parts[i]
    ensures forall i :: 0 <= i < |TrimmedPieces(parts)| ==> ',' !in TrimmedPieces(parts)[i]
    decreases parts
  {
    if parts != [] {
      TrimmedPiecesCommaFree(parts[1..]);
      TrimSpec(parts[0]);
      var c := Trim(parts[0]);
      var i := |parts[0]| - |TrimLeft(parts[0])|;
      forall k | 0 <= k < |c| ensures c[k] != ',' {
        assert c[k] == parts[0][i + k];
      }
    }
  }

  /** The `reduce` over a list of columns. */
  function DisassembleItems(items: seq<Value>): (r: Result<seq<string>>)
    ensures r.Ok? <==> StringItems(items)
    ensures r.Ok? ==> AllColumns(r.value)
    ensures r.Err? ==> r.error == Error("Invalid column for give columns")
    decreases |items|
  {
    if items == [] then Ok([])
    else
      var last := items[|items| - 1];
      var init :- DisassembleItems(items[..|items| - 1]);
      if !Truthy(last) then Ok(init)
      else if !last.Str? then Fail("Invalid column for give columns")
      else Ok(init + SplitColumns(last.s))
  }

  /** Columns that are already names come back unchanged from the text that
      joins them with commas. */
  lemma {:induction false} SplitColumnsJoin(cols: seq<string>)
    requires cols != [] && AllColumns(cols)
    ensures SplitColumns(Join(cols, ",")) == cols
  {
    SplitOnJoin(cols, ',');
    TrimmedPiecesOfColumns(cols);
  }

  lemma {:induction false} TrimmedPiecesOfColumns(cols: seq<string>)
    requires AllColumns(cols)
    ensures TrimmedPieces(cols) == cols
    decreases cols
  {
    if cols != [] {
      TrimmedPiecesOfColumns(cols[1..]);
      TrimmedIsTrim(cols[0]);
      ConsSplit(cols);
      calc {
        TrimmedPieces(cols);
        [Trim(cols[0])] + TrimmedPieces(cols[1..]);
        [cols[0]] + cols[1..];
        cols;
      }
    }
  }

  /** `disassembleColumns('a,b,c')` and `disassembleColumns(['a', 'b', 'c'])`
      both give back the columns `a`, `b`, `c`. */
  lemma DisassembleRoundTrip(cols: seq<string>)
    requires cols != [] && AllColumns(cols)
    ensures Disassemble(Str(Join(cols, ","))) == Ok(cols)
    ensures Disassemble(List(StrItems(cols))) == Ok(cols)
  {
    SplitColumnsJoin(cols);
    assert Join(cols, ",") != "" by {
      JoinNonEmpty(cols, ",");
    }
    DisassembleNames(cols);
  }

  lemma {:induction false} JoinNonEmpty(parts: seq<string>, sep: string)
    requires parts != [] && parts[0] != ""
    ensures Join(parts, sep) != ""
  {
    if |parts| > 1 {
      assert Join(parts, sep) == parts[0] + sep + Join(parts[1..], sep);
    }
  }

  /** The array of strings `[c0, c1, ...]`. */
  function StrItems(cols: seq<string>): (r: seq<Value>)
    ensures |r| == |cols| && forall i :: 0 <= i < |cols| ==> r[i] == Str(cols[i])
  {
    seq(|cols|, i requires 0 <= i < |cols| => Str(cols[i]))
  }

  lemma {:induction false} DisassembleNames(cols: seq<string>)
    requires AllColumns(cols)
    ensures DisassembleItems(StrItems(cols)) == Ok(cols)
    decreases |cols|
  {
    if cols != [] {
      DisassembleNames(cols[..|cols| - 1]);
      DisassembleNameStep(cols);
    }
  }

  lemma DisassembleNameStep(cols: seq<string>)
    requires cols != [] && IsColumn(cols[|cols| - 1])
    requires DisassembleItems(StrItems(cols[..|cols| - 1])) == Ok(cols[..|cols| - 1])
    ensures DisassembleItems(StrItems(cols)) == Ok(cols)
  {
    var init := cols[..|cols| - 1];
    var c := cols[|cols| - 1];
    SnocSplit(cols);
    var items := StrItems(cols);
    assert items[..|items| - 1] == StrItems(init);
    SplitColumnsOfColumn(c);
  }

  lemma SplitColumnsOfColumn(c: string)
    requires IsColumn(c)
    ensures SplitColumns(c) == [c]
  {
    SplitOnFree(c, ',');
    TrimmedIsTrim(c);
    assert TrimmedPieces([c]) == [c];
  }

  // ---------------------------------------------------------------------
  // buildColumn

  /** `parts.map(part => escapeId(part)).join('.')`; the arrow passes no
      second argument, so each part is quoted in qualified mode. */
  function QuoteParts(parts: seq<string>): (r: seq<string>)
    ensures |r| == |parts|
    ensures forall i :: 0 <= i < |parts| ==> r[i] == EscapeId(Str(parts[i]), false)
  {
    seq(|parts|, i requires 0 <= i < |parts| => EscapeId(Str(parts[i]), false))
  }

  /** The hook `buildColumn` gives `tokenStringify`: a name listed in
      `ignores` (a select alias) is quoted whole; any other name is split at
      dots, prefixed with the table alias when it has no dot of its own, and
      quoted part by part. */
  function Hook(ignores: seq<string>, alias: string): string -> string
  {
    (s: string) =>
      if s in ignores then EscapeId(Str(s), true)
      else
        var parts := SplitOn(s, '.');
        Join(QuoteParts(if |parts| == 1 && alias != "" then [alias] + parts else parts), ".")
  }

  /** `buildColumn(str, ignores, alias)` */
  function BuildColumn(str: string, ignores: seq<string>, alias: string): Result<string>
  {
    var token :- Parse(str);
    Stringify(token, Hook(ignores, alias))
  }

  /** The name the hook quotes: the name itself, or, when it has no dot and an
      alias is in force, `alias.name`. */
  function QualifiedName(s: string, alias: string): string
  {
    if '.' !in s && alias != "" then alias + "." + s else s
  }

  lemma DotSplitsInTwo(s: string)
    ensures '.' in s ==> |SplitOn(s, '.')| >= 2
  {
    JoinSplitOn(s, '.');
  }

  /** Doubling backticks works piece by piece around a dot. */
  lemma DoubleTicksDot(a: string, b: string)
    ensures DoubleTicks(a + "." + b) == DoubleTicks(a) + "." + DoubleTicks(b)
  {
    ReplaceAllAppend(a + ".", b, '`', "``");
    ReplaceAllAppend(a, ".", '`', "``");
    assert ReplaceAll(".", '`', "``") == ".";
  }

  /** Turning dots into segment breaks works piece by piece around a dot. */
  lemma BreakDot(a: string, b: string)
    ensures ReplaceAll(a + "." + b, '.', "`.`") == ReplaceAll(a, '.', "`.`") + "`.`" + ReplaceAll(b, '.', "`.`")
  {
    ReplaceAllAppend(a + ".", b, '.', "`.`");
    ReplaceAllAppend(a, ".", '.', "`.`");
    assert ReplaceAll(".", '.', "`.`") == "`.`";
  }

  /** Quoting `a.b` in qualified mode quotes `a` and `b` and joins them with a
      dot, whatever dots `a` and `b` hold. */
  lemma EscapeIdDot(a: string, b: string)
    ensures EscapeId(Str(a + "." + b), false) == EscapeId(Str(a), false) + "." + EscapeId(Str(b), false)
  {
    DoubleTicksDot(a, b);
    BreakDot(DoubleTicks(a), DoubleTicks(b));
  }

  /** A dot-free part is quoted the same in either mode. */
  lemma {:induction false} QuotePartsDotFree(parts: seq<string>)
    requires forall i :: 0 <= i < |parts| ==> '.' !in parts[i]
    ensures QuoteParts(parts) == EscapeSegments(parts)
    decreases parts
  {
    if parts != [] {
      QuotePartsDotFree(parts[1..]);
      DotFreeBody(parts[0]);
      assert QuoteParts(parts) == [QuoteParts(parts)[0]] + QuoteParts(parts[1..]);
    }
  }

  /** The hook quotes an ignored name (a select alias) whole, dots
      included; every other name comes out as the qualified quoting of its
      (possibly alias-prefixed) name: `r.role` as `` `r`.`role` ``, `role`
      under alias `u` as `` `u`.`role` ``. */
  lemma HookQuotes(ignores: seq<string>, alias: string, s: string)
    ensures s in ignores ==> Hook(ignores, alias)(s) == "`" + DoubleTicks(s) + "`"
    ensures s !in ignores ==> Hook(ignores, alias)(s) == EscapeId(Str(QualifiedName(s, alias)), false)
  {
    if s !in ignores {
      if '.' !in s && alias != "" {
        HookPrefixesAlias(ignores, alias, s);
      } else {
        HookSplitsDots(ignores, alias, s);
      }
    }
  }

  lemma HookPrefixesAlias(ignores: seq<string>, alias: string, s: string)
    requires s !in ignores && '.' !in s && alias != ""
    ensures Hook(ignores, alias)(s) == EscapeId(Str(alias + "." + s), false)
  {
    SplitOnFree(s, '.');
    assert [alias] + SplitOn(s, '.') == [alias, s];
    var quoted := QuoteParts([alias, s]);
    assert Hook(ignores, alias)(s) == Join(quoted, ".");
    assert Join(quoted, ".") == quoted[0] + "." + quoted[1];
    EscapeIdDot(alias, s);
  }

  lemma HookSplitsDots(ignores: seq<string>, alias: string, s: string)
    requires s !in ignores && ('.' in s || alias == "")
    ensures Hook(ignores, alias)(s) == EscapeId(Str(s), false)
  {
    var parts := SplitOn(s, '.');
    DotSplitsInTwo(s);
    assert Hook(ignores, alias)(s) == Join(QuoteParts(parts), ".");
    QuotePartsDotFree(parts);
    EscapeIdQualified(s);
  }

  /** A chain of names and operators is rendered name by name through the
      hook, with the operators spaced: `a.x + b` under alias `t` gives
      `` `a`.`x` + `t`.`b` ``. */
  lemma BuildColumnChain(ws: seq<string>, ops: seq<char>, sep: string, ignores: seq<string>, alias: string)
    requires ChainParts(ws, ops) && AllBlank(sep)
    ensures BuildColumn(ChainText(ws, ops, sep), ignores, alias)
         == Ok(ChainText(ShownAll(ws, Hook(ignores, alias)), ops, " "))
  {
    ParseChain(ws, ops, sep);
    StringifyChain(ws, ops, Hook(ignores, alias));
  }

  /** A column name with nothing to escape or split: a bare word that is not
      a literal and has no dot or backtick. */
  predicate PlainName(w: string)
  {
    IsWord(w) && !IsLiteral(w) && '.' !in w && '`' !in w
  }

  /** A plain name, with no alias to prefix, comes out simply wrapped in
      backticks. */
  lemma BuildColumnWord(w: string, ignores: seq<string>)
    requires PlainName(w) && w !in ignores
    ensures BuildColumn(w, ignores, "") == Ok("`" + w + "`")
  {
    WordColumn(w, ignores);
    WordShown(w, ignores);
  }

  lemma WordColumn(w: string, ignores: seq<string>)
    requires PlainName(w)
    ensures BuildColumn(w, ignores, "") == Ok(Shown(w, Hook(ignores, "")))
  {
    BuildColumnChain([w], [], "", ignores, "");
    assert ChainText([w], [], "") == w;
    assert ChainText(ShownAll([w], Hook(ignores, "")), [], " ") == Shown(w, Hook(ignores, ""));
  }

  lemma WordShown(w: string, ignores: seq<string>)
    requires PlainName(w) && w !in ignores
    ensures Shown(w, Hook(ignores, "")) == "`" + w + "`"
  {
    HookQuotes(ignores, "", w);
    ReplaceAllAbsent(w, '`', "``");
    ReplaceAllAbsent(w, '.', "`.`");
  }

  /** An empty column expression parses to `null`, which the printer cannot
      take. */
  lemma BuildEmptyColumn(ignores: seq<string>, alias: string)
    ensures BuildColumn("", ignores, alias).Err?
    ensures BuildColumn("", ignores, alias).error.TypeError?
  {
    assert Parse("") == Ok(Nil);
  }
}
