/** SQL text for identifiers and values: backtick quoting of identifiers,
    single-quote escaping of strings, the rendering of every kind of value,
    and the `?` / `??` placeholder substitution of `format`. */
module Format {
  import opened Text
  import opened Values

  // ---------------------------------------------------------------------
  // Identifiers

  /** Identifier text with every backtick doubled. */
  function DoubleTicks(s: string): string
  {
    ReplaceAll(s, '`', "``")
  }

  /** The text between the outer backticks that `escapeId` produces: backticks
      doubled and, unless qualification is forbidden, every `.` turned into
      the segment break `` `.` ``. */
  function IdBody(s: string, forbidQualified: bool): string
  {
    if forbidQualified then DoubleTicks(s) else ReplaceAll(DoubleTicks(s), '.', "`.`")
  }

  /** `escapeId(val, forbidQualified)`: an array is escaped element by element
      and joined with `, `; any other value is converted with `String` and
      wrapped in backticks. */
  function EscapeId(val: Value, forbidQualified: bool): (r: string)
    ensures !val.List? ==> r == "`" + IdBody(JsString(val), forbidQualified) + "`"
  {
    if val.List? then Join(EscapeIds(val.items, forbidQualified), ", ")
    else "`" + IdBody(JsString(val), forbidQualified) + "`"
  }

  function EscapeIds(items: seq<Value>, forbidQualified: bool): (r: seq<string>)
    ensures |r| == |items|
    decreases items
  {
    if |items| == 0 then [] else EscapeIds(items[..|items| - 1], forbidQualified) + [EscapeId(items[|items| - 1], forbidQualified)]
  }

  /** The identifier `escapeId(s)` quotes, read back: doubled backticks
      collapse to one. */
  function UndoubleTicks(t: string): string
  {
    if |t| == 0 then ""
    else if |t| >= 2 && t[0] == '`' && t[1] == '`' then "`" + UndoubleTicks(t[2..])
    else [t[0]] + UndoubleTicks(t[1..])
  }

  /** Doubling the backticks can be undone: the body of `escapeId(s, true)`
      determines `s`. */
  lemma {:induction false} UndoubleDoubleTicks(s: string)
    ensures UndoubleTicks(DoubleTicks(s)) == s
  {
    if |s| > 0 {
      ReplaceAllAppend([s[0]], s[1..], '`', "``");
      assert s == [s[0]] + s[1..];
      UndoubleDoubleTicks(s[1..]);
      if s[0] == '`' {
        assert DoubleTicks(s) == "``" + DoubleTicks(s[1..]);
        assert DoubleTicks(s)[2..] == DoubleTicks(s[1..]);
      } else {
        assert DoubleTicks(s) == [s[0]] + DoubleTicks(s[1..]);
        assert DoubleTicks(s)[1..] == DoubleTicks(s[1..]);
      }
    }
  }

  lemma {:induction false} ReplaceAllAbsent(s: string, c: char, with: string)
    requires c !in s
    ensures ReplaceAll(s, c, with) == s
  {
    if |s| > 0 {
      ReplaceAllAbsent(s[1..], c, with);
      assert s == [s[0]] + s[1..];
    }
  }

  lemma {:induction false} ReplaceAllKeeps(s: string, c: char, d: char, with: string)
    requires c !in s && c != d && c !in with
    ensures c !in ReplaceAll(s, d, with)
  {
    if |s| > 0 {
      ReplaceAllKeeps(s[1..], c, d, with);
    }
  }

  /** `escapeId` of a dotted name is the `.`-join of its segments, each quoted
      as a single identifier: `a.b` becomes `` `a`.`b` ``. */
  lemma {:induction false} EscapeIdQualified(s: string)
    ensures EscapeId(Str(s), false) == Join(EscapeSegments(SplitOn(s, '.')), ".")
    decreases |s|
  {
    if '.' !in s {
      SplitOnFree(s, '.');
      DotFreeBody(s);
    } else {
      var i := FirstIndex(s, '.');
      var head, tail := s[..i], s[i + 1..];
      assert s == head + "." + tail;
      SplitOnPrefix(head, tail, '.');
      var rest := SplitOn(tail, '.');
      assert SplitOn(s, '.') == [head] + rest;
      EscapeIdQualified(tail);
      EscapeIdSplit(head, tail);
      EscapeSegmentsCons(head, rest);
      JoinAppend([EscapeId(Str(head), true)], EscapeSegments(rest), ".");
    }
  }

  /** The first `.` of a name separates the first quoted segment. */
  lemma EscapeIdSplit(head: string, tail: string)
    requires '.' !in head
    ensures EscapeId(Str(head + "." + tail), false) == EscapeId(Str(head), true) + "." + EscapeId(Str(tail), false)
  {
    BodySplit(head, tail);
    var dh := DoubleTicks(head);
    var bt := IdBody(tail, false);
    calc {
      EscapeId(Str(head + "." + tail), false);
      "`" + IdBody(head + "." + tail, false) + "`";
      "`" + (dh + "`.`" + bt) + "`";
      ("`" + dh + "`") + "." + ("`" + bt + "`");
    }
  }

  /** Without a `.` there is nothing to qualify. */
  lemma DotFreeBody(s: string)
    requires '.' !in s
    ensures '.' !in DoubleTicks(s) && IdBody(s, false) == IdBody(s, true)
  {
    ReplaceAllKeeps(s, '.', '`', "``");
    ReplaceAllAbsent(DoubleTicks(s), '.', "`.`");
  }

  /** The first `.` of a name becomes the first segment break. */
  lemma BodySplit(head: string, tail: string)
    requires '.' !in head
    ensures IdBody(head + "." + tail, false) == DoubleTicks(head) + "`.`" + IdBody(tail, false)
  {
    var dh := DoubleTicks(head);
    var dt := DoubleTicks(tail);
    ReplaceAllAppend(head + ".", tail, '`', "``");
    ReplaceAllAppend(head, ".", '`', "``");
    assert ReplaceAll(".", '`', "``") == ".";
    assert DoubleTicks(head + "." + tail) == dh + "." + dt;
    DotFreeBody(head);
    ReplaceAllAppend(dh + ".", dt, '.', "`.`");
    ReplaceAllAppend(dh, ".", '.', "`.`");
    assert ReplaceAll(".", '.', "`.`") == "`.`";
  }

  /** Each segment quoted on its own, as `parts.map(part => escapeId(part))`. */
  function EscapeSegments(parts: seq<string>): (r: seq<string>)
    ensures |r| == |parts|
  {
    if |parts| == 0 then [] else [EscapeId(Str(parts[0]), true)] + EscapeSegments(parts[1..])
  }

  lemma EscapeSegmentsCons(head: string, rest: seq<string>)
    ensures EscapeSegments([head] + rest) == [EscapeId(Str(head), true)] + EscapeSegments(rest)
  {
    assert ([head] + rest)[1..] == rest;
  }

  /** Index of the first occurrence of `c`. */
  function FirstIndex(s: string, c: char): (i: nat)
    requires c in s
    ensures i < |s| && s[i] == c && c !in s[..i]
  {
    if s[0] == c then 0 else 1 + FirstIndex(s[1..], c)
  }

  // ---------------------------------------------------------------------
  // Strings

  /** Backspace (`\b`) and the substitute character (`\x1a`). */
  const Backspace: char := 8 as char
  const Substitute: char := 0x1A as char

  /** The two-character escape of a special character, from the escape map. */
  function CharEscape(c: char): (r: string)
    requires IsSpecial(c)
    ensures |r| == 2 && r[0] == '\\'
  {
    if c == '\0' then "\\0"
    else if c == Backspace then "\\b"
    else if c == '\t' then "\\t"
    else if c == '\n' then "\\n"
    else if c == '\r' then "\\r"
    else if c == Substitute then "\\Z"
    else if c == '"' then "\\\""
    else if c == '\'' then "\\'"
    else "\\\\"
  }

  /** The characters of the class `[\0\b\t\n\r\x1a\\"']`. */
  predicate IsSpecial(c: char)
  {
    c == '\0' || c == Backspace || c == '\t' || c == '\n' || c == '\r'
    || c == Substitute || c == '"' || c == '\'' || c == '\\'
  }

  /** Every special character replaced by its escape, every other one copied. */
  function EscapeChars(s: string): string
  {
    if |s| == 0 then ""
    else (if IsSpecial(s[0]) then CharEscape(s[0]) else [s[0]]) + EscapeChars(s[1..])
  }

  /** `escapeString(s)`: the escaped characters in single quotes. */
  function Quote(s: string): string
  {
    "'" + EscapeChars(s) + "'"
  }

  /** The character an escape sequence stands for. */
  function Unescaped(c: char): char
  {
    if c == '0' then '\0'
    else if c == 'b' then Backspace
    else if c == 't' then '\t'
    else if c == 'n' then '\n'
    else if c == 'r' then '\r'
    else if c == 'Z' then Substitute
    else c
  }

  /** How MySQL reads the body of a quoted string: a backslash and the
      character after it stand for one character. */
  function Unescape(t: string): string
  {
    if |t| == 0 then ""
    else if t[0] == '\\' && |t| >= 2 then [Unescaped(t[1])] + Unescape(t[2..])
    else [t[0]] + Unescape(t[1..])
  }

  /** Escaping loses nothing: reading the escaped body back gives the
      original string. */
  lemma {:induction false} UnescapeEscapeChars(s: string)
    ensures Unescape(EscapeChars(s)) == s
  {
    if |s| > 0 {
      UnescapeEscapeChars(s[1..]);
      var e := EscapeChars(s);
      if IsSpecial(s[0]) {
        assert e == CharEscape(s[0]) + EscapeChars(s[1..]);
        assert e[2..] == EscapeChars(s[1..]);
      } else {
        assert e == [s[0]] + EscapeChars(s[1..]);
        assert e[1..] == EscapeChars(s[1..]);
      }
      assert s == [s[0]] + s[1..];
    }
  }

  /** Inside the quotes no quote character stands alone: every `'` is the
      second character of an escape, so the string literal cannot end early. */
  lemma {:induction false} EscapedQuotesArePaired(s: string, k: nat)
    requires k < |EscapeChars(s)| && EscapeChars(s)[k] == '\''
    ensures k > 0 && EscapeChars(s)[k - 1] == '\\'
  {
    var e := EscapeChars(s);
    var head := if IsSpecial(s[0]) then CharEscape(s[0]) else [s[0]];
    assert e == head + EscapeChars(s[1..]);
    if k >= |head| {
      EscapedQuotesArePaired(s[1..], k - |head|);
      if k - |head| == 0 {
        assert false;
      }
    } else if !IsSpecial(s[0]) {
      assert false;
    } else if k == 0 {
      assert false;
    }
  }

  lemma {:induction false} EscapeCharsAppend(a: string, b: string)
    ensures EscapeChars(a + b) == EscapeChars(a) + EscapeChars(b)
  {
    if |a| > 0 {
      assert (a + b)[1..] == a[1..] + b;
      EscapeCharsAppend(a[1..], b);
    } else {
      assert a + b == b;
    }
  }

  lemma {:induction false} EscapeCharsPlain(s: string)
    requires forall i :: 0 <= i < |s| ==> !IsSpecial(s[i])
    ensures EscapeChars(s) == s
  {
    if |s| > 0 {
      EscapeCharsPlain(s[1..]);
      assert s == [s[0]] + s[1..];
    }
  }

  /** Where `CHARS_GLOBAL_REGEXP.exec` finds its next match from `from`, or
      `|s|` when there is none. */
  function NextSpecial(s: string, from: nat): (r: nat)
    requires from <= |s|
    ensures from <= r <= |s| && (r < |s| ==> IsSpecial(s[r]))
    decreases |s| - from
  {
    if from == |s| || IsSpecial(s[from]) then from else NextSpecial(s, from + 1)
  }

  /** Nothing to escape comes before that match. */
  lemma {:induction false} NextSpecialClear(s: string, from: nat)
    requires from <= |s|
    ensures forall k :: from <= k < NextSpecial(s, from) ==> !IsSpecial(s[k])
    decreases |s| - from
  {
    if from < |s| && !IsSpecial(s[from]) {
      NextSpecialClear(s, from + 1);
    }
  }

  /** `escapeString(val)`: copies the text between matches, appends the escape
      of each match, and wraps the whole in single quotes. */
  method EscapeString(val: string) returns (r: string)
    ensures r == Quote(val)
  {
    var chunkIndex: nat := 0;
    var escapedVal := "";
    var m := NextSpecial(val, 0);
    while m < |val|
      invariant chunkIndex <= m <= |val|
      invariant m == NextSpecial(val, chunkIndex)
      invariant escapedVal + EscapeChars(val[chunkIndex..]) == EscapeChars(val)
      invariant chunkIndex == 0 ==> escapedVal == ""
      decreases |val| - chunkIndex
    {
      EscapeStep(val, chunkIndex, m, escapedVal);
      escapedVal := escapedVal + val[chunkIndex..m] + CharEscape(val[m]);
      chunkIndex := m + 1;
      m := NextSpecial(val, chunkIndex);
    }
    EscapeFinish(val, chunkIndex, escapedVal);
    if chunkIndex == 0 {
      return "'" + val + "'";
    }
    if chunkIndex < |val| {
      return "'" + escapedVal + val[chunkIndex..] + "'";
    }
    return "'" + escapedVal + "'";
  }

  /** When no match is left, the rest of the text goes in as it is. */
  lemma EscapeFinish(val: string, chunkIndex: nat, escapedVal: string)
    requires chunkIndex <= |val| && NextSpecial(val, chunkIndex) == |val|
    requires escapedVal + EscapeChars(val[chunkIndex..]) == EscapeChars(val)
    requires chunkIndex == 0 ==> escapedVal == ""
    ensures chunkIndex == 0 ==> Quote(val) == "'" + val + "'"
    ensures chunkIndex > 0 ==> Quote(val) == "'" + escapedVal + val[chunkIndex..] + "'"
    ensures chunkIndex == |val| ==> Quote(val) == "'" + escapedVal + "'"
  {
    TailPlain(val, chunkIndex);
    AppendAssoc("'", escapedVal, val[chunkIndex..]);
    if chunkIndex == 0 {
      assert val[0..] == val;
      PrependEmpty(val);
    }
    if chunkIndex == |val| {
      assert val[chunkIndex..] == "";
      AppendEmpty(escapedVal);
    }
  }

  /** The invariant of `EscapeString` survives one match. */
  lemma EscapeStep(val: string, chunkIndex: nat, m: nat, escapedVal: string)
    requires chunkIndex <= m < |val| && m == NextSpecial(val, chunkIndex)
    requires escapedVal + EscapeChars(val[chunkIndex..]) == EscapeChars(val)
    ensures escapedVal + val[chunkIndex..m] + CharEscape(val[m]) + EscapeChars(val[m + 1..]) == EscapeChars(val)
  {
    SkipPlain(val, chunkIndex, m);
    AppendAssoc(escapedVal, val[chunkIndex..m] + CharEscape(val[m]), EscapeChars(val[m + 1..]));
    AppendAssoc(escapedVal, val[chunkIndex..m], CharEscape(val[m]));
  }

  /** After the last match the rest of the text is copied as it is. */
  lemma TailPlain(s: string, from: nat)
    requires from <= |s| && NextSpecial(s, from) == |s|
    ensures EscapeChars(s[from..]) == s[from..]
  {
    var t := s[from..];
    NextSpecialClear(s, from);
    forall i | 0 <= i < |t| ensures !IsSpecial(t[i]) {
      assert t[i] == s[from + i];
    }
    EscapeCharsPlain(t);
  }

  /** The step of `EscapeString`: plain text up to the match, then its escape. */
  lemma SkipPlain(s: string, from: nat, m: nat)
    requires from <= m < |s| && m == NextSpecial(s, from)
    ensures EscapeChars(s[from..]) == s[from..m] + CharEscape(s[m]) + EscapeChars(s[m + 1..])
  {
    SliceJoin(s, from, m);
    EscapeCharsAppend(s[from..m], s[m..]);
    PlainUpTo(s, from, m);
    MatchEscape(s, m);
    AppendAssoc(s[from..m], CharEscape(s[m]), EscapeChars(s[m + 1..]));
  }

  /** The text before the match has nothing to escape. */
  lemma PlainUpTo(s: string, from: nat, m: nat)
    requires from <= m <= |s| && m == NextSpecial(s, from)
    ensures EscapeChars(s[from..m]) == s[from..m]
  {
    NextSpecialClear(s, from);
    var t := s[from..m];
    assert forall i :: 0 <= i < |t| ==> t[i] == s[from + i];
    EscapeCharsPlain(t);
  }

  /** The match itself is escaped. */
  lemma MatchEscape(s: string, m: nat)
    requires m < |s| && IsSpecial(s[m])
    ensures EscapeChars(s[m..]) == CharEscape(s[m]) + EscapeChars(s[m + 1..])
  {
    assert s[m..][0] == s[m];
    assert s[m..][1..] == s[m + 1..];
  }

  // ---------------------------------------------------------------------
  // Values

  /** `escape(val, stringifyObjects)`. `null` and `undefined` are `NULL`,
      booleans and numbers print as themselves, strings are quoted, arrays
      become lists, and a plain object becomes `key = value` pairs, or its
      quoted `toString()` when `stringifyObjects` is set. A getter is called
      and its result escaped. */
  function Escape(val: Value, stringifyObjects: bool): string
    decreases val, 2
  {
    match val
    case Null => "NULL"
    case Undefined => "NULL"
    case Fn(_, result) => Escape(result, stringifyObjects)
    case Bool(b) => if b then "true" else "false"
    case Num(n) => IntToString(n)
    case List(items) => ListText(items)
    case Obj(fields) => if stringifyObjects then Quote(ObjectString) else ObjectText(fields)
    case Str(s) => Quote(s)
  }

  /** What `toString()` gives for a plain object. */
  const ObjectString := "[object Object]"

  /** `arrayToList(array)`: the items' texts joined with `, `. */
  function ListText(items: seq<Value>): string
    decreases items, 1
  {
    Join(ListPieces(items), ", ")
  }

  /** The text of each array item: a nested array in parentheses, anything
      else escaped with `stringifyObjects` set. */
  function ListPieces(items: seq<Value>): (r: seq<string>)
    ensures |r| == |items|
    decreases items, 0
  {
    if |items| == 0 then []
    else ListPieces(items[..|items| - 1]) + [ListPiece(items[|items| - 1])]
  }

  function ListPiece(v: Value): string
    decreases v, 3
  {
    if v.List? then "(" + ListText(v.items) + ")" else Escape(v, true)
  }

  /** `objectToValues(object)`: `` `key` = value `` for each property that is
      not a function, joined with `, `. */
  function ObjectText(fields: seq<Field>): string
    decreases fields, 1
  {
    Join(Pairs(fields), ", ")
  }

  function Pairs(fields: seq<Field>): (r: seq<string>)
    ensures |r| <= |fields|
    ensures forall i :: 0 <= i < |r| ==> r[i] != ""
    decreases fields, 0
  {
    if |fields| == 0 then []
    else
      var last := fields[|fields| - 1];
      var pre := Pairs(fields[..|fields| - 1]);
      if last.value.Fn? then pre else pre + [Pair(last)]
  }

  function Pair(f: Field): (r: string)
    ensures r != ""
    decreases f, 2
  {
    EscapeId(Str(f.key), false) + " = " + Escape(f.value, true)
  }

  /** Properties whose value is a function contribute nothing. */
  lemma PairsSkipFunctions(fields: seq<Field>)
    requires forall i :: 0 <= i < |fields| ==> fields[i].value.Fn?
    ensures ObjectText(fields) == ""
  {
    PairsOfFunctions(fields);
  }

  lemma {:induction false} PairsOfFunctions(fields: seq<Field>)
    requires forall i :: 0 <= i < |fields| ==> fields[i].value.Fn?
    ensures Pairs(fields) == []
  {
    if |fields| > 0 {
      PairsOfFunctions(fields[..|fields| - 1]);
    }
  }

  /** What `escape` makes of each kind of value: `NULL` for `null` and
      `undefined`, `true` / `false`, a number's decimal text (which `+` reads
      back as the number), an array's list, and a function's result escaped
      in its place. */
  lemma EscapeKinds(val: Value, stringifyObjects: bool)
    ensures val.Null? || val.Undefined? ==> Escape(val, stringifyObjects) == "NULL"
    ensures val.Bool? ==> Escape(val, stringifyObjects) == (if val.b then "true" else "false")
    ensures val.Num? ==> Escape(val, stringifyObjects) == IntToString(val.n)
    ensures val.Num? ==> StringToNumber(Escape(val, stringifyObjects)) == Whole(val.n)
    ensures val.List? ==> Escape(val, stringifyObjects) == ListText(val.items)
    ensures val.Fn? ==> Escape(val, stringifyObjects) == Escape(val.result, stringifyObjects)
  {
    if val.Num? {
      StringToNumberOfInt(val.n);
    }
  }

  /** A string is put between single quotes, and what lies between them
      reads back as the string: nothing is lost and nothing ends the literal
      early. */
  lemma EscapeStringReadsBack(s: string, stringifyObjects: bool)
    ensures var t := Escape(Str(s), stringifyObjects);
      && |t| >= 2 && t[0] == '\'' && t[|t| - 1] == '\''
      && Unescape(t[1..|t| - 1]) == s
  {
    var t := Escape(Str(s), stringifyObjects);
    assert t == "'" + EscapeChars(s) + "'";
    assert t[1..|t| - 1] == EscapeChars(s);
    UnescapeEscapeChars(s);
  }

  /** A plain object is its `key = value` pairs, or, when objects are to be
      stringified, the quoted text of its `toString()`. */
  lemma EscapeObject(fields: seq<Field>, stringifyObjects: bool)
    ensures Escape(Obj(fields), stringifyObjects)
         == if stringifyObjects then "'" + ObjectString + "'" else ObjectText(fields)
  {
    if stringifyObjects {
      var t := ObjectString;
      assert forall i :: 0 <= i < |t| ==> !IsSpecial(t[i]);
      EscapeCharsPlain(t);
    }
  }

  /** The loop of `arrayToList`: the separator goes before every item but the
      first, and a nested array is listed recursively inside parentheses. */
  method ArrayToList(items: seq<Value>) returns (sql: string)
    ensures sql == ListText(items)
    decreases items
  {
    sql := "";
    var i := 0;
    while i < |items|
      invariant 0 <= i <= |items|
      invariant sql == Join(ListPieces(items[..i]), ", ")
    {
      var val := items[i];
      var piece: string;
      if val.List? {
        var inner := ArrayToList(val.items);
        piece := "(" + inner + ")";
      } else {
        piece := Escape(val, true);
      }
      ListStep(items, i, sql);
      sql := sql + (if i == 0 then "" else ", ") + piece;
      i := i + 1;
    }
    assert items[..i] == items;
  }

  /** The step of `ArrayToList`: one more item's piece, after a separator
      unless it is the first. */
  lemma ListStep(items: seq<Value>, i: nat, sql: string)
    requires i < |items| && sql == Join(ListPieces(items[..i]), ", ")
    ensures sql + (if i == 0 then "" else ", ") + ListPiece(items[i]) == Join(ListPieces(items[..i + 1]), ", ")
  {
    assert items[..i + 1][..i] == items[..i];
    JoinSnoc(ListPieces(items[..i]), ListPiece(items[i]), ", ");
    if i == 0 {
      PrependEmpty(ListPiece(items[i]));
      AppendEmpty(sql);
    }
  }

  /** The loop of `objectToValues`: function-valued properties are skipped, and
      the separator goes before every pair once the text is non-empty. */
  method ObjectToValues(fields: seq<Field>) returns (sql: string)
    ensures sql == ObjectText(fields)
  {
    sql := "";
    var i := 0;
    while i < |fields|
      invariant 0 <= i <= |fields|
      invariant sql == Join(Pairs(fields[..i]), ", ")
      invariant |sql| == 0 <==> Pairs(fields[..i]) == []
    {
      PairsStep(fields, i);
      var val := fields[i].value;
      if !val.Fn? {
        var pair := EscapeId(Str(fields[i].key), false) + " = " + Escape(val, true);
        PairStep(fields, i, sql);
        sql := sql + (if |sql| == 0 then "" else ", ") + pair;
      }
      i := i + 1;
    }
    assert fields[..i] == fields;
  }

  /** One more property adds its pair unless its value is a function. */
  lemma PairsStep(fields: seq<Field>, i: nat)
    requires i < |fields|
    ensures Pairs(fields[..i + 1]) == if fields[i].value.Fn? then Pairs(fields[..i]) else Pairs(fields[..i]) + [Pair(fields[i])]
  {
    assert fields[..i + 1][..i] == fields[..i];
  }

  /** The step of `ObjectToValues` on a property that is not a function. */
  lemma PairStep(fields: seq<Field>, i: nat, sql: string)
    requires i < |fields| && !fields[i].value.Fn?
    requires sql == Join(Pairs(fields[..i]), ", ") && (|sql| == 0 <==> Pairs(fields[..i]) == [])
    ensures sql + (if |sql| == 0 then "" else ", ") + Pair(fields[i]) == Join(Pairs(fields[..i + 1]), ", ")
  {
    PairsStep(fields, i);
    JoinSnoc(Pairs(fields[..i]), Pair(fields[i]), ", ");
    if |sql| == 0 {
      PrependEmpty(Pair(fields[i]));
      AppendEmpty(sql);
    }
  }

  // ---------------------------------------------------------------------
  // Placeholders

  /** Number of `?` at the start of `s`: the length of a `/\?+/` match there. */
  function RunLength(s: string): (n: nat)
    ensures n <= |s|
  {
    if |s| == 0 || s[0] != '?' then 0 else 1 + RunLength(s[1..])
  }

  /** The run is all `?`, stops before the next other character, and is
      not empty exactly when `s` starts with `?`. */
  lemma {:induction false} RunLengthMeaning(s: string)
    ensures forall k :: 0 <= k < RunLength(s) ==> s[k] == '?'
    ensures RunLength(s) < |s| ==> s[RunLength(s)] != '?'
    ensures RunLength(s) > 0 <==> |s| > 0 && s[0] == '?'
  {
    if |s| > 0 && s[0] == '?' {
      RunLengthMeaning(s[1..]);
    }
  }

  /** What one placeholder run of length 1 or 2 becomes. */
  function Placeholder(n: nat, val: Value, stringifyObjects: bool): string
  {
    if n == 2 then EscapeId(val, false) else Escape(val, stringifyObjects)
  }

  /** Placeholder substitution defined on the text, left to right: a run of
      one `?` takes the next value through `escape`, a run of two through
      `escapeId`, a longer run is kept and takes nothing, and once the values
      are used up the rest of the text is kept as it is. */
  function Fill(s: string, values: seq<Value>, stringifyObjects: bool): string
    decreases |s|
  {
    if |values| == 0 || |s| == 0 then s
    else if s[0] != '?' then [s[0]] + Fill(s[1..], values, stringifyObjects)
    else
      var n := RunLength(s);
      if n > 2 then s[..n] + Fill(s[n..], values, stringifyObjects)
      else Placeholder(n, values[0], stringifyObjects) + Fill(s[n..], values[1..], stringifyObjects)
  }

  /** The values `format` works through: none for `null`/`undefined`, an
      array's items, or any other value on its own. */
  function ValueList(values: Value): seq<Value>
  {
    if values.List? then values.items else [values]
  }

  /** `format(sql, values, stringifyObjects)` */
  function FormatSql(sql: string, values: Value, stringifyObjects: bool): string
  {
    if values.Null? || values.Undefined? then sql else Fill(sql, ValueList(values), stringifyObjects)
  }

  /** Text without `?` is kept whatever the values are. */
  lemma {:induction false} FillPlain(s: string, values: seq<Value>, stringifyObjects: bool)
    requires '?' !in s
    ensures Fill(s, values, stringifyObjects) == s
  {
    if |values| > 0 && |s| > 0 {
      FillPlain(s[1..], values, stringifyObjects);
      assert s == [s[0]] + s[1..];
    }
  }

  /** With no values left every placeholder stays. */
  lemma FillNoValues(s: string, stringifyObjects: bool)
    ensures Fill(s, [], stringifyObjects) == s
  {
  }

  /** Text without `?` in front of the next run is copied. */
  lemma {:induction false} FillPrefix(s: string, k: nat, values: seq<Value>, stringifyObjects: bool)
    requires k <= |s| && '?' !in s[..k]
    ensures Fill(s, values, stringifyObjects) == s[..k] + Fill(s[k..], values, stringifyObjects)
  {
    if k > 0 && |values| > 0 {
      assert s[0] == s[..k][0];
      assert s[1..][..k - 1] == s[..k][1..];
      FillPrefix(s[1..], k - 1, values, stringifyObjects);
      assert s[1..][k - 1..] == s[k..];
      assert s[..k] == [s[0]] + s[1..][..k - 1];
    } else if k > 0 {
      assert s == s[..k] + s[k..];
    }
  }

  /** The two predicates of the source's BETWEEN rendering: both placeholders
      of ` ? AND ?` are filled from a two-item array. */
  lemma FillBetween(a: Value, b: Value)
    ensures FormatSql(" ? AND ?", List([a, b]), false) == " " + Escape(a, false) + " AND " + Escape(b, false)
  {
    var s := " ? AND ?";
    assert s[1..] == "? AND ?";
    assert RunLength("? AND ?") == 1;
    assert ("? AND ?")[1..] == " AND ?";
    FillPrefix(" AND ?", 5, [b], false);
    assert " AND ?"[5..] == "?";
    assert RunLength("?") == 1;
  }

  /** Where `placeholdersRegex.exec(sql)` finds its next match from `from`:
      the first `?` at or after it, or `|s|`. */
  function NextRun(s: string, from: nat): (r: nat)
    requires from <= |s|
    ensures from <= r <= |s| && (r < |s| ==> s[r] == '?')
    decreases |s| - from
  {
    if from == |s| || s[from] == '?' then from else NextRun(s, from + 1)
  }

  /** No `?` comes before that match. */
  lemma {:induction false} NextRunClear(s: string, from: nat)
    requires from <= |s|
    ensures '?' !in s[from..NextRun(s, from)]
    decreases |s| - from
  {
    if from < |s| && s[from] != '?' {
      NextRunClear(s, from + 1);
      assert s[from..NextRun(s, from)] == [s[from]] + s[from + 1..NextRun(s, from + 1)];
    }
  }

  /** `format(sql, values, stringifyObjects)`: the regular-expression loop of
      the source. Each match of `/\?+/g` either is skipped (three or more
      `?`) or replaced by the next value, the text between replacements is
      copied, and the text after the last one is appended. */
  method Format(sql: string, values: Value, stringifyObjects: bool) returns (r: string)
    ensures r == FormatSql(sql, values, stringifyObjects)
  {
    if values.Null? || values.Undefined? {
      return sql;
    }
    var vals := ValueList(values);
    var result, chunkIndex := FillLoop(sql, vals, stringifyObjects);
    if chunkIndex == 0 {
      return sql;
    }
    if chunkIndex < |sql| {
      return result + sql[chunkIndex..];
    }
    assert sql[chunkIndex..] == "";
    AppendEmpty(result);
    return result;
  }

  /** What the loop of `format` keeps true: `result` is the text before
      `chunkIndex` with its placeholders filled, the text from `chunkIndex`
      to `lastIndex` is copied as it is, and what remains of the text takes
      what remains of the values; no replacement yet means no text yet. */
  predicate FillInvariant(sql: string, vals: seq<Value>, stringifyObjects: bool, result: string,
                          chunkIndex: nat, lastIndex: nat, valuesIndex: nat)
  {
    && chunkIndex <= lastIndex <= |sql| && valuesIndex <= |vals|
    && (chunkIndex == 0 ==> result == "" && valuesIndex == 0)
    && Fill(sql, vals, stringifyObjects)
       == result + sql[chunkIndex..lastIndex] + Fill(sql[lastIndex..], vals[valuesIndex..], stringifyObjects)
  }

  /** The `while` loop of `format`: on return `result` is the text up to
      `chunkIndex`, the end of the last replacement, with every placeholder
      before it filled; no replacement leaves `chunkIndex` at 0. */
  method FillLoop(sql: string, vals: seq<Value>, stringifyObjects: bool) returns (result: string, chunkIndex: nat)
    ensures chunkIndex <= |sql|
    ensures chunkIndex == 0 ==> Fill(sql, vals, stringifyObjects) == sql
    ensures chunkIndex > 0 ==> Fill(sql, vals, stringifyObjects) == result + sql[chunkIndex..]
  {
    chunkIndex := 0;
    var lastIndex: nat := 0;
    result := "";
    var valuesIndex: nat := 0;
    FillStart(sql, vals, stringifyObjects);
    while valuesIndex < |vals| && NextRun(sql, lastIndex) < |sql|
      invariant FillInvariant(sql, vals, stringifyObjects, result, chunkIndex, lastIndex, valuesIndex)
      decreases |sql| - lastIndex
    {
      result, chunkIndex, lastIndex, valuesIndex := FillMatch(sql, vals, stringifyObjects, result, chunkIndex, lastIndex, valuesIndex);
    }
    FinishFill(sql, vals, stringifyObjects, result, chunkIndex, lastIndex, valuesIndex);
  }

  /** One turn of that loop, on the next match of `/\?+/g`: a run of three
      or more `?` is skipped, a shorter one replaced by the next value. */
  method FillMatch(sql: string, vals: seq<Value>, stringifyObjects: bool, result: string,
                   chunkIndex: nat, lastIndex: nat, valuesIndex: nat)
    returns (result': string, chunkIndex': nat, lastIndex': nat, valuesIndex': nat)
    requires FillInvariant(sql, vals, stringifyObjects, result, chunkIndex, lastIndex, valuesIndex)
    requires valuesIndex < |vals| && NextRun(sql, lastIndex) < |sql|
    ensures FillInvariant(sql, vals, stringifyObjects, result', chunkIndex', lastIndex', valuesIndex')
    ensures lastIndex < lastIndex'
  {
    var index := NextRun(sql, lastIndex);
    var len := RunLength(sql[index..]);
    if len > 2 {
      result', chunkIndex', lastIndex', valuesIndex' := result, chunkIndex, index + len, valuesIndex;
      KeepStep(sql, vals, stringifyObjects, result, chunkIndex, lastIndex, valuesIndex, index, len, lastIndex');
    } else {
      TakeRunBounds(sql, lastIndex, index, len);
      var value := Placeholder(len, vals[valuesIndex], stringifyObjects);
      result' := result + sql[chunkIndex..index] + value;
      lastIndex' := index + len;
      chunkIndex' := lastIndex';
      valuesIndex' := valuesIndex + 1;
      TakeStep(sql, vals, stringifyObjects, result, chunkIndex, lastIndex, valuesIndex, index, len,
               result', chunkIndex', lastIndex', valuesIndex');
    }
  }

  /** Before the loop of `Format`, nothing is copied and all is left. */
  lemma FillStart(sql: string, vals: seq<Value>, stringifyObjects: bool)
    ensures FillInvariant(sql, vals, stringifyObjects, "", 0, 0, 0)
  {
    assert sql[0..] == sql && vals[0..] == vals;
    assert "" + sql[0..0] == "";
    assert "" + Fill(sql, vals, stringifyObjects) == Fill(sql, vals, stringifyObjects);
  }

  /** When the loop of `Format` stops, the text after the last replacement is
      all that remains, and nothing replaced means the text is unchanged. */
  lemma FinishFill(sql: string, vals: seq<Value>, stringifyObjects: bool, result: string,
                   chunkIndex: nat, lastIndex: nat, valuesIndex: nat)
    requires FillInvariant(sql, vals, stringifyObjects, result, chunkIndex, lastIndex, valuesIndex)
    requires !(valuesIndex < |vals| && NextRun(sql, lastIndex) < |sql|)
    ensures chunkIndex == 0 ==> Fill(sql, vals, stringifyObjects) == sql
    ensures chunkIndex > 0 ==> Fill(sql, vals, stringifyObjects) == result + sql[chunkIndex..]
  {
    var tail := sql[lastIndex..];
    if valuesIndex == |vals| {
      assert vals[valuesIndex..] == [];
      FillNoValues(tail, stringifyObjects);
    } else {
      NextRunClear(sql, lastIndex);
      assert sql[lastIndex..|sql|] == tail;
      FillPlain(tail, vals[valuesIndex..], stringifyObjects);
    }
    assert Fill(tail, vals[valuesIndex..], stringifyObjects) == tail;
    AppendAssoc(result, sql[chunkIndex..lastIndex], tail);
    SliceJoin(sql, chunkIndex, lastIndex);
    if chunkIndex == 0 {
      assert sql[0..] == sql;
      PrependEmpty(sql);
    }
  }

  /** The loop invariant of `Format` survives skipping a run of three or
      more `?`. */
  lemma KeepStep(sql: string, vals: seq<Value>, stringifyObjects: bool, result: string,
                 chunkIndex: nat, lastIndex: nat, valuesIndex: nat, index: nat, len: nat, lastIndex': nat)
    requires FillInvariant(sql, vals, stringifyObjects, result, chunkIndex, lastIndex, valuesIndex)
    requires valuesIndex < |vals| && index == NextRun(sql, lastIndex) && index < |sql|
    requires len == RunLength(sql[index..]) && len > 2 && lastIndex' == index + len
    ensures lastIndex < lastIndex'
    ensures FillInvariant(sql, vals, stringifyObjects, result, chunkIndex, lastIndex', valuesIndex)
  {
    var rest := vals[valuesIndex..];
    var tail := Fill(sql[index + len..], rest, stringifyObjects);
    FillUpTo(sql, lastIndex, index, rest, stringifyObjects);
    KeepLong(sql, index, len, rest, stringifyObjects);
    KeepRun(sql, chunkIndex, lastIndex, index, len, result, tail);
  }

  /** A run of three or more `?` is copied and takes no value. */
  lemma KeepLong(sql: string, index: nat, len: nat, values: seq<Value>, stringifyObjects: bool)
    requires index < |sql| && sql[index] == '?' && |values| > 0
    requires len == RunLength(sql[index..]) && len > 2
    ensures index + len <= |sql|
    ensures Fill(sql[index..], values, stringifyObjects)
         == sql[index..index + len] + Fill(sql[index + len..], values, stringifyObjects)
  {
    FillRun(sql, index, len, values, stringifyObjects);
  }

  /** The loop invariant of `Format` survives replacing a run of one or two
      `?` by the next value. */
  lemma TakeStep(sql: string, vals: seq<Value>, stringifyObjects: bool, result: string,
                 chunkIndex: nat, lastIndex: nat, valuesIndex: nat, index: nat, len: nat,
                 result': string, chunkIndex': nat, lastIndex': nat, valuesIndex': nat)
    requires FillInvariant(sql, vals, stringifyObjects, result, chunkIndex, lastIndex, valuesIndex)
    requires valuesIndex < |vals| && index == NextRun(sql, lastIndex) && index < |sql|
    requires len == RunLength(sql[index..]) && len <= 2
    requires result' == result + sql[chunkIndex..index] + Placeholder(len, vals[valuesIndex], stringifyObjects)
    requires chunkIndex' == lastIndex' == index + len && valuesIndex' == valuesIndex + 1
    ensures lastIndex < lastIndex'
    ensures FillInvariant(sql, vals, stringifyObjects, result', chunkIndex', lastIndex', valuesIndex')
  {
    var rest := vals[valuesIndex..];
    var value := Placeholder(len, vals[valuesIndex], stringifyObjects);
    var tail := Fill(sql[index + len..], vals[valuesIndex + 1..], stringifyObjects);
    FillUpTo(sql, lastIndex, index, rest, stringifyObjects);
    TakeRun(sql, index, len, vals, valuesIndex, stringifyObjects);
    ReplaceRun(sql, chunkIndex, lastIndex, index, len, result, value, tail);
  }

  /** The next run starts at or after the last one ended, and is not empty. */
  lemma TakeRunBounds(sql: string, lastIndex: nat, index: nat, len: nat)
    requires lastIndex <= |sql| && index == NextRun(sql, lastIndex) && index < |sql|
    requires len == RunLength(sql[index..])
    ensures lastIndex <= index && 1 <= len && index + len <= |sql|
  {
    RunLengthMeaning(sql[index..]);
  }

  /** A run of one or two `?` takes the next value. */
  lemma TakeRun(sql: string, index: nat, len: nat, vals: seq<Value>, valuesIndex: nat, stringifyObjects: bool)
    requires index < |sql| && sql[index] == '?' && valuesIndex < |vals|
    requires len == RunLength(sql[index..]) && len <= 2
    ensures 1 <= len && index + len <= |sql|
    ensures Fill(sql[index..], vals[valuesIndex..], stringifyObjects)
         == Placeholder(len, vals[valuesIndex], stringifyObjects) + Fill(sql[index + len..], vals[valuesIndex + 1..], stringifyObjects)
  {
    var rest := vals[valuesIndex..];
    FillRun(sql, index, len, rest, stringifyObjects);
    assert rest[0] == vals[valuesIndex];
    assert rest[1..] == vals[valuesIndex + 1..];
  }

  /** The text before the next run is copied. */
  lemma FillUpTo(sql: string, lastIndex: nat, index: nat, values: seq<Value>, stringifyObjects: bool)
    requires lastIndex <= |sql| && index == NextRun(sql, lastIndex)
    ensures Fill(sql[lastIndex..], values, stringifyObjects)
      == sql[lastIndex..index] + Fill(sql[index..], values, stringifyObjects)
  {
    var t := sql[lastIndex..];
    NextRunClear(sql, lastIndex);
    assert t[..index - lastIndex] == sql[lastIndex..index];
    FillPrefix(t, index - lastIndex, values, stringifyObjects);
    assert t[index - lastIndex..] == sql[index..];
  }

  /** A run of `?` is kept or replaced according to its length. */
  lemma FillRun(sql: string, index: nat, len: nat, values: seq<Value>, stringifyObjects: bool)
    requires index < |sql| && sql[index] == '?' && |values| > 0 && len == RunLength(sql[index..])
    ensures 1 <= len && index + len <= |sql|
    ensures Fill(sql[index..], values, stringifyObjects)
         == (if len > 2 then sql[index..index + len] + Fill(sql[index + len..], values, stringifyObjects)
             else Placeholder(len, values[0], stringifyObjects) + Fill(sql[index + len..], values[1..], stringifyObjects))
  {
    var u := sql[index..];
    assert u[len..] == sql[index + len..];
    assert u[..len] == sql[index..index + len];
  }

  /** Keeping a long run extends the copied text. */
  lemma KeepRun(sql: string, chunkIndex: nat, lastIndex: nat, index: nat, len: nat, result: string, tail: string)
    requires chunkIndex <= lastIndex <= index && index + len <= |sql|
    ensures result + sql[chunkIndex..lastIndex] + (sql[lastIndex..index] + (sql[index..index + len] + tail))
      == result + sql[chunkIndex..index + len] + tail
  {
    assert sql[chunkIndex..index + len] == sql[chunkIndex..lastIndex] + sql[lastIndex..index] + sql[index..index + len];
  }

  /** Replacing a run moves the copied text and the value into the result. */
  lemma ReplaceRun(sql: string, chunkIndex: nat, lastIndex: nat, index: nat, len: nat, result: string, value: string, tail: string)
    requires chunkIndex <= lastIndex <= index && index + len <= |sql|
    ensures result + sql[chunkIndex..lastIndex] + (sql[lastIndex..index] + (value + tail))
      == (result + sql[chunkIndex..index] + value) + sql[index + len..index + len] + tail
  {
    assert sql[chunkIndex..index] == sql[chunkIndex..lastIndex] + sql[lastIndex..index];
    assert sql[index + len..index + len] == [];
  }

  // ---------------------------------------------------------------------
  // Padding

  /** `zeroPad(number, length)`: `0`s in front of the decimal text until it is
      `length` long. */
  method ZeroPad(number: int, length: int) returns (num: string)
    ensures |num| == (if length > |IntToString(number)| then length else |IntToString(number)|)
    ensures num == Repeat('0', |num| - |IntToString(number)|) + IntToString(number)
  {
    num := IntToString(number);
    ghost var digits := num;
    while |num| < length
      invariant |num| >= |digits|
      invariant num == Repeat('0', |num| - |digits|) + digits
      invariant |num| <= (if length > |digits| then length else |digits|)
      decreases length - |num|
    {
      PadOne(|num| - |digits|, digits);
      num := "0" + num;
    }
  }

  /** One more `0` in front. */
  lemma PadOne(k: nat, digits: string)
    ensures "0" + (Repeat('0', k) + digits) == Repeat('0', k + 1) + digits
  {
    assert Repeat('0', k + 1) == "0" + Repeat('0', k);
  }

  /** Padding a natural number never changes its value. */
  lemma {:induction false} LeadingZerosValue(k: nat, digits: string)
    requires AllDigits(digits)
    ensures AllDigits(Repeat('0', k) + digits)
    ensures DigitsValue(Repeat('0', k) + digits) == DigitsValue(digits)
    decreases |digits|
  {
    var s := Repeat('0', k) + digits;
    if |digits| == 0 {
      assert s == Repeat('0', k);
      ZerosValue(k);
    } else {
      var init := digits[..|digits| - 1];
      assert s[..|s| - 1] == Repeat('0', k) + init;
      LeadingZerosValue(k, init);
    }
  }

  lemma {:induction false} ZerosValue(k: nat)
    ensures DigitsValue(Repeat('0', k)) == 0
  {
    if k > 0 {
      var s := Repeat('0', k);
      assert s[..k - 1] == Repeat('0', k - 1) by {
        assert s == Repeat('0', k - 1) + ['0'] by {
          RepeatSnoc(k - 1);
        }
      }
      ZerosValue(k - 1);
    }
  }

  lemma RepeatSnoc(k: nat)
    ensures Repeat('0', k + 1) == Repeat('0', k) + ['0']
  {
    var a := Repeat('0', k + 1);
    var b := Repeat('0', k) + ['0'];
    assert |a| == |b|;
    forall i | 0 <= i < |a| ensures a[i] == b[i] {
    }
  }

  /** `zeroPad` keeps the number: reading the padded text back gives it. */
  lemma ZeroPadValue(number: nat, length: int, num: string)
    requires |num| >= |IntToString(number)| && num == Repeat('0', |num| - |IntToString(number)|) + IntToString(number)
    ensures AllDigits(num) && DigitsValue(num) == number
  {
    var digits := IntToString(number);
    LeadingZerosValue(|num| - |digits|, digits);
    DigitsValueOfNat(number);
  }
}
