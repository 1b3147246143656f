/** What the column parser and its printer do on whole families of inputs:
    chains of operators nest to the right, calls collect their arguments,
    errors report their position, and printing a chain parses back to it. */
module ParserProperties {
  import opened Results
  import opened Text
  import opened ColumnParser

  /** A character that `lr` adds to the pending bare text. */
  predicate Bare(c: char)
  {
    !IsBlank(c) && !IsOp(c) && c != '(' && !IsQuote(c)
  }

  /** A bare word: a column name such as `a.price` or `count`. */
  predicate IsWord(w: string)
  {
    w != [] && forall i :: 0 <= i < |w| ==> Bare(w[i])
  }

  predicate AllBlank(b: string)
  {
    forall i :: 0 <= i < |b| ==> IsBlank(b[i])
  }

  /** Argument text with no parenthesis, comma or quote of its own. */
  predicate PlainArg(a: string)
  {
    forall i :: 0 <= i < |a| ==> a[i] != '(' && a[i] != ')' && a[i] != ',' && !IsQuote(a[i])
  }

  /** `w0 op0 w1 op1 ... wn`, with `sep` on both sides of every operator. */
  function ChainText(ws: seq<string>, ops: seq<char>, sep: string): string
    requires |ws| == |ops| + 1
    decreases ops
  {
    if ops == [] then ws[0] else ws[0] + sep + [ops[0]] + sep + ChainText(ws[1..], ops[1..], sep)
  }

  /** The tree the source builds for such a chain: each operator takes the
      word before it on the left and the whole rest on the right. */
  function RightChain(ws: seq<string>, ops: seq<char>): Token
    requires |ws| == |ops| + 1
    decreases ops
  {
    if ops == [] then Leaf(ws[0]) else Binary(ops[0], Leaf(ws[0]), RightChain(ws[1..], ops[1..]))
  }

  predicate ChainParts(ws: seq<string>, ops: seq<char>)
  {
    && |ws| == |ops| + 1
    && (forall i :: 0 <= i < |ws| ==> IsWord(ws[i]))
    && (forall i :: 0 <= i < |ops| ==> IsOp(ops[i]))
  }

  // ---------------------------------------------------------------------
  // Steps of `lr`

  /** Bare characters accumulate into the pending text. */
  lemma {:induction false} ReadBare(src: string, at: nat, w: string, tmp: string, node: Token)
    requires at + |w| <= |src| && src[at..at + |w|] == w
    requires forall i :: 0 <= i < |w| ==> Bare(w[i])
    ensures LrFrom(src, at, tmp, false, node) == LrFrom(src, at + |w|, tmp + w, false, node)
    decreases |w|
  {
    if |w| > 0 {
      assert src[at] == w[0];
      assert src[at + 1..at + |w|] == w[1..];
      ReadBare(src, at + 1, w[1..], tmp + [w[0]], node);
      assert tmp + [w[0]] + w[1..] == tmp + w;
    } else {
      assert tmp + w == tmp;
    }
  }

  /** White space is skipped; after pending text it ends that text. */
  lemma {:induction false} ReadBlanks(src: string, at: nat, b: string, tmp: string, stop: bool, node: Token)
    requires at + |b| <= |src| && src[at..at + |b|] == b && AllBlank(b)
    ensures LrFrom(src, at, tmp, stop, node)
         == LrFrom(src, at + |b|, tmp, if b == [] then stop else stop || tmp != "", node)
    decreases |b|
  {
    if |b| > 0 {
      assert src[at] == b[0];
      assert src[at + 1..at + |b|] == b[1..];
      ReadBlanks(src, at + 1, b[1..], tmp, stop || tmp != "", node);
    }
  }

  /** Where the pieces of one link of a chain sit in the source. */
  lemma ChainSplit(src: string, at: nat, w: string, sep: string, op: char, rest: string)
    requires at <= |src| && src[at..] == w + sep + [op] + sep + rest
    ensures at + |w| + 2 * |sep| + 1 <= |src|
    ensures src[at..at + |w|] == w
    ensures src[at + |w|..at + |w| + |sep|] == sep
    ensures src[at + |w| + |sep|] == op
    ensures src[at + |w| + |sep| + 1..at + |w| + 2 * |sep| + 1] == sep
    ensures src[at + |w| + 2 * |sep| + 1..] == rest
  {
    var t := src[at..];
    assert t[..|w|] == w;
    assert t[|w|..|w| + |sep|] == sep;
    assert t[|w| + |sep| + 1..|w| + 2 * |sep| + 1] == sep;
    assert t[|w| + 2 * |sep| + 1..] == rest;
  }

  /** An operator after a pending word makes that word the left operand. */
  lemma OperatorStep(src: string, q: nat, w: string, stop: bool)
    requires q < |src| && IsOp(src[q]) && w != ""
    ensures LrFrom(src, q, w, stop, Nil)
         == match LrFrom(src, q + 1, "", false, Nil)
            case Err(e) => Err(e)
            case Ok(right) => Ok(Binary(src[q], Leaf(w), right))
  {
  }

  /** The last word of a chain is its leaf. */
  lemma LrLast(src: string, at: nat, w: string)
    requires IsWord(w) && at <= |src| && src[at..] == w
    ensures LrFrom(src, at, "", false, Nil) == Ok(Leaf(w))
  {
    assert "" + w == w;
    assert src[at..at + |w|] == w;
    ReadBare(src, at, w, "", Nil);
  }

  /** One link `w sep op sep` of a chain: `w` becomes the left operand of
      `op`, whose right operand is what the rest parses to. */
  lemma LrLink(src: string, at: nat, w: string, sep: string, op: char, rest: string)
    requires IsWord(w) && IsOp(op) && AllBlank(sep)
    requires at <= |src| && src[at..] == w + sep + [op] + sep + rest
    ensures at + |w| + 2 * |sep| + 1 <= |src| && src[at + |w| + 2 * |sep| + 1..] == rest
    ensures LrFrom(src, at, "", false, Nil)
         == match LrFrom(src, at + |w| + 2 * |sep| + 1, "", false, Nil)
            case Err(e) => Err(e)
            case Ok(right) => Ok(Binary(op, Leaf(w), right))
  {
    ChainSplit(src, at, w, sep, op, rest);
    LrHead(src, at, w, sep);
    LrOperator(src, at + |w| + |sep|, w, sep);
  }

  /** An operator after a pending word, and the white space after it: the
      word is the left operand, the rest of the source the right one. */
  lemma LrOperator(src: string, q: nat, w: string, sep: string)
    requires IsWord(w) && AllBlank(sep)
    requires q + 1 + |sep| <= |src| && IsOp(src[q]) && src[q + 1..q + 1 + |sep|] == sep
    ensures LrFrom(src, q, w, sep != [], Nil)
         == match LrFrom(src, q + 1 + |sep|, "", false, Nil)
            case Err(e) => Err(e)
            case Ok(right) => Ok(Binary(src[q], Leaf(w), right))
  {
    OperatorStep(src, q, w, sep != []);
    ReadBlanks(src, q + 1, sep, "", false, Nil);
    assert LrFrom(src, q + 1, "", false, Nil) == LrFrom(src, q + 1 + |sep|, "", false, Nil);
  }

  /** A word and the white space after it become the pending text. */
  lemma LrHead(src: string, at: nat, w: string, sep: string)
    requires IsWord(w) && AllBlank(sep)
    requires at + |w| + |sep| <= |src| && src[at..at + |w|] == w && src[at + |w|..at + |w| + |sep|] == sep
    ensures LrFrom(src, at, "", false, Nil) == LrFrom(src, at + |w| + |sep|, w, sep != [], Nil)
  {
    ReadWord(src, at, w);
    ReadSep(src, at, w, sep);
  }

  /** A whole word read from nothing pending. */
  lemma ReadWord(src: string, at: nat, w: string)
    requires IsWord(w) && at + |w| <= |src| && src[at..at + |w|] == w
    ensures LrFrom(src, at, "", false, Nil) == LrFrom(src, at + |w|, w, false, Nil)
  {
    ReadBare(src, at, w, "", Nil);
    assert "" + w == w;
  }

  /** White space after a word ends it exactly when there is some. */
  lemma ReadSep(src: string, at: nat, w: string, sep: string)
    requires IsWord(w) && AllBlank(sep)
    requires at + |w| + |sep| <= |src| && src[at + |w|..at + |w| + |sep|] == sep
    ensures LrFrom(src, at + |w|, w, false, Nil) == LrFrom(src, at + |w| + |sep|, w, sep != [], Nil)
  {
    ReadBlanks(src, at + |w|, sep, w, false, Nil);
  }

  lemma {:induction false} LrChain(src: string, at: nat, ws: seq<string>, ops: seq<char>, sep: string)
    requires ChainParts(ws, ops) && AllBlank(sep)
    requires at <= |src| && src[at..] == ChainText(ws, ops, sep)
    ensures LrFrom(src, at, "", false, Nil) == Ok(RightChain(ws, ops))
    decreases ops
  {
    if ops == [] {
      LrLast(src, at, ws[0]);
    } else {
      var rest := ChainText(ws[1..], ops[1..], sep);
      assert IsWord(ws[0]) && IsOp(ops[0]);
      LrLink(src, at, ws[0], sep, ops[0], rest);
      assert ChainParts(ws[1..], ops[1..]);
      var next := at + |ws[0]| + 2 * |sep| + 1;
      LrChain(src, next, ws[1..], ops[1..], sep);
      assert RightChain(ws, ops) == Binary(ops[0], Leaf(ws[0]), RightChain(ws[1..], ops[1..]));
    }
  }

  /** `a + b - c` (or `a+b-c`) parses as `a + (b - c)`: operators nest to
      the right, whatever white space surrounds them. */
  lemma ParseChain(ws: seq<string>, ops: seq<char>, sep: string)
    requires ChainParts(ws, ops) && AllBlank(sep)
    ensures Parse(ChainText(ws, ops, sep)) == Ok(RightChain(ws, ops))
  {
    var src := ChainText(ws, ops, sep);
    assert src[0..] == src;
    LrChain(src, 0, ws, ops, sep);
  }

  /** Two words with only white space between them are refused at the first
      character of the second word. */
  lemma ParseTwoWords(w1: string, b: string, w2: string)
    requires IsWord(w1) && IsWord(w2) && AllBlank(b) && b != []
    ensures Parse(w1 + b + w2) == Err(SyntaxError("Invalid char", |w1| + |b|))
  {
    var src := w1 + b + w2;
    assert src[0..|w1|] == w1;
    ReadBare(src, 0, w1, "", Nil);
    assert "" + w1 == w1;
    assert src[|w1|..|w1| + |b|] == b;
    ReadBlanks(src, |w1|, b, w1, false, Nil);
    assert src[|w1| + |b|] == w2[0];
  }

  // ---------------------------------------------------------------------
  // Calls

  /** Plain characters inside a call accumulate into its pending text. */
  lemma {:induction false} ReadPlain(src: string, at: nat, w: string, name: string, start: nat, args: seq<Token>, tmp: string, deep: int)
    requires 1 <= start <= at && at + |w| <= |src| && src[at..at + |w|] == w && PlainArg(w)
    ensures CallLoop(src, at, name, start, args, tmp, deep) == CallLoop(src, at + |w|, name, start, args, tmp + w, deep)
    decreases |w|
  {
    if |w| > 0 {
      assert src[at] == w[0];
      assert src[at + 1..at + |w|] == w[1..];
      ReadPlain(src, at + 1, w[1..], name, start, args, tmp + [w[0]], deep);
      assert tmp + [w[0]] + w[1..] == tmp + w;
    } else {
      assert tmp + w == tmp;
    }
  }

  predicate ParsedArgs(texts: seq<string>, toks: seq<Token>)
  {
    && |texts| == |toks|
    && (forall i :: 0 <= i < |texts| ==> PlainArg(texts[i]))
    && (forall i :: 0 <= i < |texts| ==> Parse(texts[i]) == Ok(toks[i]) && toks[i] != Nil)
  }

  /** The arguments `texts`, joined by commas and closed by `)`, are parsed
      one by one and appended to `args`; `joined` is their joined text. */
  lemma {:induction false} CallArgs(src: string, at: nat, name: string, texts: seq<string>, toks: seq<Token>,
                                    args: seq<Token>, joined: string)
    requires ParsedArgs(texts, toks) && texts != [] && joined == Join(texts, ",")
    requires 1 <= at && at + |joined| + 1 <= |src| && src[at..at + |joined| + 1] == joined + ")"
    ensures CallLoop(src, at, name, at, args, "", 1) == Ok(Scan(Call(name, args + toks), at + |joined| + 1))
    decreases |texts|
  {
    var a := texts[0];
    ParsedFirst(texts, toks);
    if |texts| == 1 {
      assert joined == a;
      LastArg(src, at, name, a, toks[0], args);
      assert toks == [toks[0]];
    } else {
      var rest := Join(texts[1..], ",");
      assert joined == a + "," + rest;
      CommaSplit(src, at, a, rest, joined);
      NextArg(src, at, name, a, toks[0], args);
      CallArgs(src, at + |a| + 1, name, texts[1..], toks[1..], args + [toks[0]], rest);
      PushFront(args, toks);
    }
  }

  /** The first argument is parsed, and so are the others. */
  lemma ParsedFirst(texts: seq<string>, toks: seq<Token>)
    requires ParsedArgs(texts, toks) && texts != []
    ensures PlainArg(texts[0]) && Parse(texts[0]) == Ok(toks[0]) && toks[0] != Nil
    ensures ParsedArgs(texts[1..], toks[1..])
  {
    assert forall i :: 0 <= i < |texts| - 1 ==> texts[1..][i] == texts[i + 1] && toks[1..][i] == toks[i + 1];
  }

  /** Where the first argument and the rest sit in `a,rest)`. */
  lemma CommaSplit(src: string, at: nat, a: string, rest: string, joined: string)
    requires joined == a + "," + rest
    requires at + |joined| + 1 <= |src| && src[at..at + |joined| + 1] == joined + ")"
    ensures at + |a| + 1 + |rest| + 1 <= |src|
    ensures src[at..at + |a| + 1] == a + ","
    ensures src[at + |a| + 1..at + |a| + 1 + |rest| + 1] == rest + ")"
  {
    var t := src[at..at + |joined| + 1];
    assert src[at..at + |a| + 1] == t[..|a| + 1];
    assert src[at + |a| + 1..at + |a| + 1 + |rest| + 1] == t[|a| + 1..];
  }

  /** The last argument, closed by `)`, ends the call. */
  lemma LastArg(src: string, at: nat, name: string, a: string, tok: Token, args: seq<Token>)
    requires PlainArg(a) && Parse(a) == Ok(tok) && tok != Nil
    requires 1 <= at && at + |a| + 1 <= |src| && src[at..at + |a| + 1] == a + ")"
    ensures CallLoop(src, at, name, at, args, "", 1) == Ok(Scan(Call(name, args + [tok]), at + |a| + 1))
  {
    assert src[at..at + |a|] == src[at..at + |a| + 1][..|a|];
    ReadPlain(src, at, a, name, at, args, "", 1);
    assert src[at + |a|] == ')';
    assert ArgAt(src, at, at + |a|) == Ok(tok);
  }

  /** An argument followed by `,` is appended, and the next one begins. */
  lemma NextArg(src: string, at: nat, name: string, a: string, tok: Token, args: seq<Token>)
    requires PlainArg(a) && Parse(a) == Ok(tok) && tok != Nil
    requires 1 <= at && at + |a| + 1 <= |src| && src[at..at + |a| + 1] == a + ","
    ensures CallLoop(src, at, name, at, args, "", 1)
         == CallLoop(src, at + |a| + 1, name, at + |a| + 1, args + [tok], "", 1)
  {
    assert src[at..at + |a|] == src[at..at + |a| + 1][..|a|];
    ReadPlain(src, at, a, name, at, args, "", 1);
    assert src[at + |a|] == ',';
    assert ArgAt(src, at, at + |a|) == Ok(tok);
  }

  /** Where the pieces of `name(body` sit. */
  lemma CallText(src: string, name: string, body: string)
    requires src == name + "(" + body
    ensures |name| < |src| && src[..|name|] == name && src[|name|] == '(' && src[|name| + 1..] == body
  {
    assert src[..|name|] == name;
    assert src[|name| + 1..] == body;
  }

  /** A name followed by `(` opens a call on that name. */
  lemma OpenCall(src: string, name: string)
    requires name == "" || IsWord(name)
    requires |name| < |src| && src[..|name|] == name && src[|name|] == '('
    ensures CallLoop(src, |name| + 1, name, |name| + 1, [], "", 1).Err? ==>
      Parse(src) == Err(CallLoop(src, |name| + 1, name, |name| + 1, [], "", 1).error)
    ensures CallLoop(src, |name| + 1, name, |name| + 1, [], "", 1).Ok? ==>
      Parse(src) == LrFrom(src, CallLoop(src, |name| + 1, name, |name| + 1, [], "", 1).value.at, "", false,
                           CallLoop(src, |name| + 1, name, |name| + 1, [], "", 1).value.token)
  {
    assert src[0..|name|] == name;
    ReadBare(src, 0, name, "", Nil);
    assert "" + name == name;
  }

  /** `name(a1,a2,...)` is a call whose arguments are the separately parsed
      argument texts; a name may be empty, as in `(a)`. */
  lemma ParseCall(name: string, texts: seq<string>, toks: seq<Token>)
    requires name == "" || IsWord(name)
    requires ParsedArgs(texts, toks) && texts != []
    ensures Parse(name + "(" + Join(texts, ",") + ")") == Ok(Call(name, toks))
  {
    var joined := Join(texts, ",");
    var src := name + "(" + joined + ")";
    AppendAssoc(name + "(", joined, ")");
    CallText(src, name, joined + ")");
    OpenCall(src, name);
    CallArgsFrom(src, |name| + 1, name, texts, toks);
  }

  /** The argument list of a call, up to the end of the text. */
  lemma CallArgsFrom(src: string, s: nat, name: string, texts: seq<string>, toks: seq<Token>)
    requires ParsedArgs(texts, toks) && texts != []
    requires 1 <= s <= |src| && src[s..] == Join(texts, ",") + ")"
    ensures CallLoop(src, s, name, s, [], "", 1) == Ok(Scan(Call(name, toks), |src|))
    ensures LrFrom(src, |src|, "", false, Call(name, toks)) == Ok(Call(name, toks))
  {
    var joined := Join(texts, ",");
    assert src[s..s + |joined| + 1] == src[s..];
    CallArgs(src, s, name, texts, toks, [], joined);
    assert [] + toks == toks;
  }

  /** `name()` is a call without arguments: the empty argument is dropped. */
  lemma ParseEmptyCall(name: string)
    requires name == "" || IsWord(name)
    ensures Parse(name + "()") == Ok(Call(name, []))
  {
    var src := name + "()";
    var s := |name| + 1;
    assert src == name + "(" + ")";
    CallText(src, name, ")");
    OpenCall(src, name);
    assert src[s] == ')';
    assert src[s..s] == "";
    assert Parse("") == Ok(Nil);
    assert ArgAt(src, s, s) == Ok(Nil);
    assert CallLoop(src, s, name, s, [], "", 1) == Ok(Scan(Call(name, []), s + 1));
  }

  /** A syntax error inside an argument is reported again with the argument's
      offset added to its position and a space added to its message. */
  lemma ParseArgError(name: string, a: string, message: string, at: int)
    requires name == "" || IsWord(name)
    requires PlainArg(a) && Parse(a) == Err(SyntaxError(message, at))
    ensures Parse(name + "(" + a + ")") == Err(SyntaxError(message + " ", |name| + 1 + at))
  {
    var src := name + "(" + a + ")";
    AppendAssoc(name + "(", a, ")");
    CallText(src, name, a + ")");
    OpenCall(src, name);
    ArgFails(src, |name| + 1, name, a, message, at);
  }

  /** One argument that fails to parse fails the call. */
  lemma ArgFails(src: string, s: nat, name: string, a: string, message: string, at: int)
    requires PlainArg(a) && Parse(a) == Err(SyntaxError(message, at))
    requires 1 <= s <= |src| && src[s..] == a + ")"
    ensures CallLoop(src, s, name, s, [], "", 1) == Err(SyntaxError(message + " ", s + at))
  {
    assert src[s..s + |a|] == a;
    ReadPlain(src, s, a, name, s, [], "", 1);
    assert src[s + |a|] == ')';
    assert ArgAt(src, s, s + |a|) == Err(SyntaxError(message + " ", s + at));
  }

  /** A call left open with text pending fails with `Parse Failed at -1`. */
  lemma ParseUnclosedCall(name: string, a: string)
    requires name == "" || IsWord(name)
    requires PlainArg(a) && a != ""
    ensures Parse(name + "(" + a) == Err(SyntaxError("Parse Failed", -1))
  {
    var src := name + "(" + a;
    CallText(src, name, a);
    OpenCall(src, name);
    var s := |name| + 1;
    assert src[s..s + |a|] == a;
    ReadPlain(src, s, a, name, s, [], "", 1);
    assert "" + a == a;
  }

  // ---------------------------------------------------------------------
  // Printing

  /** What the printer shows for one leaf. */
  function Shown(w: string, handle: string -> string): string
  {
    if IsLiteral(w) then w else handle(w)
  }

  function ShownAll(ws: seq<string>, handle: string -> string): (r: seq<string>)
    ensures |r| == |ws|
    ensures forall i :: 0 <= i < |ws| ==> r[i] == Shown(ws[i], handle)
  {
    seq(|ws|, i requires 0 <= i < |ws| => Shown(ws[i], handle))
  }

  /** A chain prints as its words, shown through the hook, with the operators
      between them surrounded by single spaces. */
  lemma {:induction false} StringifyChain(ws: seq<string>, ops: seq<char>, handle: string -> string)
    requires |ws| == |ops| + 1
    ensures Stringify(RightChain(ws, ops), handle) == Ok(ChainText(ShownAll(ws, handle), ops, " "))
    decreases ops
  {
    if ops != [] {
      StringifyChain(ws[1..], ops[1..], handle);
      assert ShownAll(ws, handle)[1..] == ShownAll(ws[1..], handle);
    }
  }

  /** Printing a chain of words with the identity hook and parsing the text
      again gives the same tree back. */
  lemma ChainRoundTrip(ws: seq<string>, ops: seq<char>)
    requires ChainParts(ws, ops)
    ensures Stringify(RightChain(ws, ops), s => s).Ok?
    ensures Parse(Stringify(RightChain(ws, ops), s => s).value) == Ok(RightChain(ws, ops))
  {
    StringifyChain(ws, ops, s => s);
    assert ShownAll(ws, s => s) == ws;
    ParseChain(ws, ops, " ");
  }

  /** The hook sees only the names: two hooks that agree on them print the
      same text, so literals (numbers, quoted strings, `null`, `true`,
      `false`) are never passed to it. */
  lemma {:induction false} HookSeesOnlyNames(t: Token, h1: string -> string, h2: string -> string)
    requires forall s :: s in Names(t) ==> h1(s) == h2(s)
    ensures Stringify(t, h1) == Stringify(t, h2)
    decreases t, 1
  {
    match t
    case Leaf(_) =>
    case Nil =>
    case Binary(_, left, right) =>
      HookSeesOnlyNames(left, h1, h2);
      HookSeesOnlyNames(right, h1, h2);
    case Call(_, args) =>
      ArgsHookSeesOnlyNames(args, h1, h2);
  }

  lemma {:induction false} ArgsHookSeesOnlyNames(args: seq<Token>, h1: string -> string, h2: string -> string)
    requires forall s :: s in ArgNames(args) ==> h1(s) == h2(s)
    ensures StringifyArgs(args, h1) == StringifyArgs(args, h2)
    decreases args, 0
  {
    if args != [] {
      HookSeesOnlyNames(args[0], h1, h2);
      ArgsHookSeesOnlyNames(args[1..], h1, h2);
    }
  }
}
