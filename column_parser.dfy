/** The column-expression parser: a one-pass scanner that turns a column
    expression such as `SUM(a.price)`, `a.qty * b.rate` or `'lit'` into a
    token tree, the quote finder it uses, and the printer that renders a
    tree back to SQL through a hook for identifiers. */
module ColumnParser {
  import opened Results
  import opened Text

  /** A parsed column expression. `Nil` is the `null` the parser returns for
      an empty expression (and puts on the right of an operator with nothing
      after it). */
  datatype Token =
    | Leaf(text: string)
    | Call(name: string, args: seq<Token>)
    | Binary(op: char, left: Token, right: Token)
    | Nil

  /** A call token and the position just after it. */
  datatype Scan = Scan(token: Token, at: nat)

  predicate IsOp(c: char)
  {
    c == '+' || c == '-' || c == '*' || c == '/' || c == '%'
  }

  predicate IsQuote(c: char)
  {
    c == '"' || c == '\''
  }

  /** `ch <= ' '`: control characters and the space. */
  predicate IsBlank(c: char)
  {
    c as int <= 0x20
  }

  /** The text of a thrown syntax error: `message + ' at ' + at`. */
  function ErrorText(e: Exception): string
  {
    match e
    case SyntaxError(message, at) => message + " at " + IntToString(at)
    case Error(message) => message
    case TypeError(message) => message
  }

  // ---------------------------------------------------------------------
  // Quotes

  /** The scan of `stern` from position `at`, `prev` telling whether the
      previous character was an unpaired backslash. */
  function SternFrom(src: string, quote: char, at: nat, prev: bool): (r: int)
    ensures r == -1 || (at <= r < |src| && src[r] == quote)
    decreases |src| - at
  {
    if at >= |src| then -1
    else if src[at] == '\\' then SternFrom(src, quote, at + 1, !prev)
    else if src[at] == quote && !prev then at
    else SternFrom(src, quote, at + 1, false)
  }

  /** `stern(src, start)`: the index of the quote that closes the one at
      `start`, or -1. */
  function SternSpec(src: string, start: nat): (r: int)
    requires start < |src|
    ensures r == -1 || (start < r < |src| && src[r] == src[start])
  {
    SternFrom(src, src[start], start + 1, false)
  }

  /** The number of backslashes right before position `i`, after `lo`. */
  function BackslashesBefore(src: string, lo: nat, i: nat): nat
    requires lo < i <= |src|
    decreases i
  {
    if i - 1 > lo && src[i - 1] == '\\' then 1 + BackslashesBefore(src, lo, i - 1) else 0
  }

  /** A quote is escaped when an odd number of backslashes precede it. */
  predicate EscapedAt(src: string, lo: nat, i: nat)
    requires lo < i <= |src|
  {
    BackslashesBefore(src, lo, i) % 2 == 1
  }

  /** `stern` finds the first quote equal to the opening one that is not
      escaped by an odd run of backslashes, and -1 when there is none. */
  lemma SternFindsClosingQuote(src: string, start: nat)
    requires start < |src| && IsQuote(src[start])
    ensures var r := SternSpec(src, start);
      && (r != -1 ==> start < r < |src| && src[r] == src[start] && !EscapedAt(src, start, r))
      && (forall j :: start < j < (if r == -1 then |src| else r) && src[j] == src[start] ==> EscapedAt(src, start, j))
  {
    SternFromFinds(src, start, start + 1, false);
  }

  lemma {:induction false} SternFromFinds(src: string, start: nat, at: nat, prev: bool)
    requires start < at <= |src| && src[start] != '\\'
    requires prev == EscapedAt(src, start, at)
    ensures var r := SternFrom(src, src[start], at, prev);
      && (r != -1 ==> at <= r < |src| && src[r] == src[start] && !EscapedAt(src, start, r))
      && (forall j :: at <= j < (if r == -1 then |src| else r) && src[j] == src[start] ==> EscapedAt(src, start, j))
    decreases |src| - at
  {
    if at < |src| {
      if src[at] == '\\' {
        assert BackslashesBefore(src, start, at + 1) == 1 + BackslashesBefore(src, start, at);
        SternFromFinds(src, start, at + 1, !prev);
      } else if src[at] == src[start] && !prev {
      } else {
        assert BackslashesBefore(src, start, at + 1) == 0;
        SternFromFinds(src, start, at + 1, false);
      }
    }
  }

  /** `stern(src, start)`: the loop of the source, walking the characters
      after the opening quote and toggling the backslash flag. */
  method Stern(src: string, start: nat) returns (r: int)
    requires start < |src|
    ensures r == SternSpec(src, start)
  {
    var quote := src[start];
    var prevCharIsBackslash := false;
    var at := start;
    while at + 1 < |src|
      invariant start <= at < |src|
      invariant SternFrom(src, quote, at + 1, prevCharIsBackslash) == SternSpec(src, start)
      decreases |src| - at
    {
      at := at + 1;
      var ch := src[at];
      if ch == '\\' {
        prevCharIsBackslash := !prevCharIsBackslash;
        continue;
      }
      if ch == quote && !prevCharIsBackslash {
        return at;
      }
      prevCharIsBackslash := false;
    }
    return -1;
  }

  // ---------------------------------------------------------------------
  // The scanner, as functions of the position and the accumulators

  /** `parseColumn(src)` */
  function Parse(src: string): Result<Token>
    decreases |src|, 1, 0
  {
    LrFrom(src, 0, "", false, Nil)
  }

  /** The loop of `lr` from position `at`, with the pending bare text `tmp`,
      the flag `tmpStop` set once white space has ended that text, and the
      pending `node` (a call or a quoted string). It runs to the end of the
      input: an operator hands the rest to a nested `lr` for the right
      operand. */
  function LrFrom(src: string, at: nat, tmp: string, tmpStop: bool, node: Token): Result<Token>
    requires at <= |src|
    decreases |src|, 0, |src| - at
  {
    if at == |src| then
      if node != Nil && tmp != "" then Err(SyntaxError("Invalid char", at))
      else Ok(if tmp != "" then Leaf(tmp) else node)
    else
      var ch := src[at];
      if IsOp(ch) then
        if node != Nil && tmp != "" then Err(SyntaxError("Invalid char", at + 1))
        else
          match LrFrom(src, at + 1, "", false, Nil)
          case Err(e) => Err(e)
          case Ok(right) => Ok(Binary(ch, if node != Nil then node else Leaf(tmp), right))
      else if ch == '(' then
        match CallLoop(src, at + 1, tmp, at + 1, [], "", 1)
        case Err(e) => Err(e)
        case Ok(scan) => LrFrom(src, scan.at, "", tmpStop, scan.token)
      else if IsQuote(ch) then
        if node != Nil || tmp != "" then Err(SyntaxError("Invalid char", at))
        else
          var quoteEnd := SternSpec(src, at);
          if quoteEnd == -1 then Err(SyntaxError("Bad string", at))
          else LrFrom(src, quoteEnd + 1, "", tmpStop, Leaf(src[at..quoteEnd + 1]))
      else if IsBlank(ch) then
        LrFrom(src, at + 1, tmp, tmpStop || tmp != "", node)
      else if tmp != "" && tmpStop then Err(SyntaxError("Invalid char", at))
      else LrFrom(src, at + 1, tmp + [ch], tmpStop, node)
  }

  /** The loop of `call(name, start)` from position `at`: `start` is where the
      current argument began, `args` the arguments so far, `tmp` the bare
      text since the last parenthesis or comma, `deep` the parenthesis depth.
      It stops after the closing parenthesis, or at the end of the input. */
  function CallLoop(src: string, at: nat, name: string, start: nat, args: seq<Token>, tmp: string, deep: int): (r: Result<Scan>)
    requires 1 <= start <= at <= |src|
    ensures r.Ok? ==> at <= r.value.at <= |src| && r.value.token.Call? && r.value.token.name == name
    decreases |src|, 0, |src| - at
  {
    if at == |src| then
      if tmp != "" then Err(SyntaxError("Parse Failed", -1)) else Ok(Scan(Call(name, args), at))
    else
      var ch := src[at];
      if ch == ')' && deep - 1 == 0 then
        match ArgAt(src, start, at)
        case Err(e) => Err(e)
        case Ok(node) => Ok(Scan(Call(name, if node != Nil then args + [node] else args), at + 1))
      else
        var deep' := if ch == ')' then deep - 1 else deep;
        if ch == '(' then CallLoop(src, at + 1, name, start, args, "", deep' + 1)
        else if ch == ',' then
          match ArgAt(src, start, at)
          case Err(e) => Err(e)
          case Ok(node) =>
            if node == Nil then Err(SyntaxError("Invalid char", at))
            else CallLoop(src, at + 1, name, at + 1, args + [node], "", deep')
        else if IsQuote(ch) then
          var quoteEnd := SternSpec(src, at);
          if quoteEnd == -1 then Err(SyntaxError("Bad string", at))
          else CallLoop(src, quoteEnd + 1, name, start, args, tmp, deep')
        else CallLoop(src, at + 1, name, start, args, tmp + [ch], deep')
  }

  /** `setArg()`: the argument text `src[start..at]` parsed on its own; a
      syntax error from it is thrown again with its position moved by
      `start` (its text `msg at n` is split at `at` and rebuilt as
      `msg  at start+n`). */
  function ArgAt(src: string, start: nat, at: nat): Result<Token>
    requires 1 <= start <= at < |src|
    decreases |src|, 0, 0
  {
    match Parse(src[start..at])
    case Ok(node) => Ok(node)
    case Err(e) =>
      if e.SyntaxError? then Err(SyntaxError(e.message + " ", start + e.at)) else Err(e)
  }

  // ---------------------------------------------------------------------
  // The scanner, as the source writes it

  /** The state `parseColumn` shares between its inner functions: the input
      and the cursor `at` that `peek` reads and `consume` advances. */
  class Scanner {
    const src: string
    var at: nat

    constructor(src: string)
      ensures this.src == src && at == 0
    {
      this.src := src;
      at := 0;
    }

    /** `lr()`: reads a left operand, and on an operator returns the operator
        with the rest of the input parsed as its right operand. */
    method Lr() returns (r: Result<Token>)
      requires at <= |src|
      modifies this
      ensures r == LrFrom(src, old(at), "", false, Nil)
      decreases |src|, 0, |src| - at
    {
      ghost var at0 := at;
      var tmp := "";
      var tmpStop := false;
      var node := Nil;
      while at < |src|
        invariant at0 <= at <= |src|
        invariant LrFrom(src, at0, "", false, Nil) == LrFrom(src, at, tmp, tmpStop, node)
        decreases |src| - at
      {
        var ch := src[at];
        if IsOp(ch) {
          at := at + 1;
          if node != Nil && tmp != "" {
            return Err(SyntaxError("Invalid char", at));
          }
          var right :- Lr();
          return Ok(Binary(ch, if node != Nil then node else Leaf(tmp), right));
        }
        if ch == '(' {
          at := at + 1;
          node :- Call(tmp, at);
          tmp := "";
          continue;
        }
        if IsQuote(ch) {
          if node != Nil || tmp != "" {
            return Err(SyntaxError("Invalid char", at));
          }
          var quoteEnd := Stern(src, at);
          if quoteEnd == -1 {
            return Err(SyntaxError("Bad string", at));
          }
          node := Leaf(src[at..quoteEnd + 1]);
          at := quoteEnd + 1;
          tmp := "";
          continue;
        }
        if IsBlank(ch) {
          if tmp != "" && !tmpStop {
            tmpStop := true;
          }
          at := at + 1;
          continue;
        }
        if tmp != "" && tmpStop {
          return Err(SyntaxError("Invalid char", at));
        }
        tmp := tmp + [ch];
        at := at + 1;
      }
      if node != Nil && tmp != "" {
        return Err(SyntaxError("Invalid char", at));
      }
      return Ok(if tmp != "" then Leaf(tmp) else node);
    }

    /** `call(name, start)`: collects the arguments up to the matching closing
        parenthesis, parsing each argument's text on its own, and leaves the
        cursor after that parenthesis. */
    method Call(name: string, start: nat) returns (r: Result<Token>)
      requires 1 <= start == at <= |src|
      modifies this
      ensures var s := CallLoop(src, old(at), name, start, [], "", 1);
        && (r.Ok? <==> s.Ok?)
        && (s.Ok? ==> r.value == s.value.token && at == s.value.at)
        && (s.Err? ==> r.error == s.error)
      decreases |src|, 0, |src| - at
    {
      ghost var at0 := at;
      var args: seq<Token> := [];
      var tmp := "";
      var deep := 1;
      var argStart := start;
      while at < |src|
        invariant at0 <= argStart <= at <= |src| && 1 <= argStart
        invariant CallLoop(src, at0, name, start, [], "", 1) == CallLoop(src, at, name, argStart, args, tmp, deep)
        decreases |src| - at
      {
        var ch := src[at];
        if ch == ')' {
          deep := deep - 1;
          if deep == 0 {
            var node :- SetArg(argStart);
            if node != Nil {
              args := args + [node];
            }
            at := at + 1;
            tmp := "";
            break;
          }
        }
        if ch == '(' {
          deep := deep + 1;
          at := at + 1;
          tmp := "";
          continue;
        }
        if ch == ',' {
          var node :- SetArg(argStart);
          if node == Nil {
            return Err(SyntaxError("Invalid char", at));
          }
          args := args + [node];
          at := at + 1;
          argStart := at;
          tmp := "";
          continue;
        }
        if IsQuote(ch) {
          var quoteEnd := Stern(src, at);
          if quoteEnd == -1 {
            return Err(SyntaxError("Bad string", at));
          }
          at := quoteEnd + 1;
          continue;
        }
        tmp := tmp + [ch];
        at := at + 1;
      }
      if tmp != "" {
        return Err(SyntaxError("Parse Failed", -1));
      }
      return Ok(Token.Call(name, args));
    }

    /** `setArg()`: parses the current argument's text with a fresh
        `parseColumn` and re-throws its syntax error shifted by the
        argument's start. */
    method SetArg(start: nat) returns (r: Result<Token>)
      requires 1 <= start <= at < |src|
      ensures r == ArgAt(src, start, at)
      decreases |src|, 0, 0
    {
      var node := ParseColumn(src[start..at]);
      if node.Err? {
        var e := node.error;
        if e.SyntaxError? {
          return Err(SyntaxError(e.message + " ", start + e.at));
        }
        return Err(e);
      }
      return node;
    }
  }

  /** `parseColumn(src)`: a fresh cursor at 0 and one `lr()`. */
  method ParseColumn(src: string) returns (r: Result<Token>)
    ensures r == Parse(src)
    decreases |src|, 1, 0
  {
    var scanner := new Scanner(src);
    r := scanner.Lr();
  }

  // ---------------------------------------------------------------------
  // Printing

  /** A leaf that starts with a digit or a quote, or is exactly `null`,
      `false` or `true`, is printed as it is; any other leaf is a name. */
  predicate IsLiteral(s: string)
  {
    (|s| > 0 && (('0' <= s[0] <= '9') || IsQuote(s[0]))) || s == "null" || s == "false" || s == "true"
  }

  /** The leaf texts `tokenStringify` hands to its hook, in order. */
  function Names(t: Token): seq<string>
    decreases t, 1
  {
    match t
    case Leaf(s) => if IsLiteral(s) then [] else [s]
    case Binary(_, left, right) => Names(left) + Names(right)
    case Call(_, args) => ArgNames(args)
    case Nil => []
  }

  function ArgNames(args: seq<Token>): seq<string>
    decreases args, 0
  {
    if args == [] then [] else Names(args[0]) + ArgNames(args[1..])
  }

  /** `tokenStringify(token, handle)`: names go through `handle`, an operator
      is printed with one space on each side, a call as its name and its
      arguments joined by `, ` in parentheses. `null` where a token is
      expected (an empty expression, an operator without a right operand)
      makes the `in` test of the source throw. */
  function Stringify(t: Token, handle: string -> string): (r: Result<string>)
    ensures t.Leaf? ==> r.Ok?
    ensures t.Nil? ==> r.Err? && r.error.TypeError?
    ensures r.Ok? && t.Call? ==> |r.value| >= |t.name| + 2 && r.value[..|t.name| + 1] == t.name + "(" && r.value[|r.value| - 1] == ')'
    decreases t, 1
  {
    match t
    case Nil => Err(TypeError("Cannot use 'in' operator to search for 'op' in null"))
    case Leaf(s) => Ok(if IsLiteral(s) then s else handle(s))
    case Binary(op, left, right) =>
      var l :- Stringify(left, handle);
      var r :- Stringify(right, handle);
      Ok(l + " " + [op] + " " + r)
    case Call(name, args) =>
      var parts :- StringifyArgs(args, handle);
      Ok(name + "(" + Join(parts, ", ") + ")")
  }

  /** `args.map(arg => tokenStringify(arg, handle))` */
  function StringifyArgs(args: seq<Token>, handle: string -> string): (r: Result<seq<string>>)
    ensures r.Ok? ==> |r.value| == |args|
    decreases args, 0
  {
    if args == [] then Ok([])
    else
      var head :- Stringify(args[0], handle);
      var tail :- StringifyArgs(args[1..], handle);
      Ok([head] + tail)
  }
}
