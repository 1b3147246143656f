# sqlie in Dafny

sqlie is a small TypeScript library that builds MySQL statements with chained
builder calls: `new SelectBuilder().from('users').where('created', '>').build()`
gives ``SELECT * FROM `users` WHERE `created` > ?``. This project models its
core and proves what the builders promise:

- `src/util/assertion.ts` — the argument checks (`error`, `required`,
  `stringed`, `integer`), module `Assertion`.
- `src/util/format.ts` — identifier and value escaping (`escapeId`, `escape`,
  `escapeString`, `arrayToList`, `objectToValues`, `zeroPad`) and the
  placeholder substitution `format`, module `Format`. The loops of the source
  are methods proved against functions that define the result on the text.
- `src/util/column-parser.ts` — the column-expression parser (`parseColumn`
  with its inner `lr`, `call`, `setArg`), the quote scanner `stern` and the
  printer `tokenStringify`, modules `ColumnParser` and `ParserProperties`.
  The parser keeps the source's shared cursor as a field of a `Scanner`
  class.
- `src/util/index.ts` — `disassembleColumns` and `buildColumn`, module
  `Columns`.
- `src/builder/clause.ts` — the `ClauseBuilder` class: `where`, `andWhere`,
  `orWhere`, `onColumn`, `orColumn`, `clause`, `andClause`, `orClause` and
  `build`, module `Clause`.
- `src/builder/select.ts`, `insert.ts`, `update.ts`, `delete.ts` — the four
  statement builders, modules `Select` (with `SelectSpec`,
  `SelectProperties`), `Insert`, `Update`, `Delete` and `Assignments` (the
  `set`/`setSome` logic shared by INSERT and UPDATE).
- `src/model.ts` — `ModelBuilder`, the table-bound shortcuts, module `Model`.
- `test.spec.js` — the expected statements of the repository's tests become
  lemmas and methods in `SelectExamples`, `SelectStatements`, `CrudExamples`
  and `ModelExamples`.

JavaScript values are the datatype `Values.Value` (undefined, null, booleans,
numbers, strings, arrays, plain objects with ordered keys, functions);
`String(v)`, `+v` and truthiness are functions on it. A thrown exception is
the `Err` case of `Results.Result`: a builder method that throws in the source
returns `Err` here and leaves its builder as it was at the throw. The builder
classes keep the source's fields (`_table`, `_alias`, `_clauses`, `_columns`,
`_joins`, ...) as fields their methods reassign, and each `build` is proved
equal to a function of the builder's state whose meaning is proved in lemmas.

## Model

| member | source | states |
|---|---|---|
| Assertion.Fail | src/util/assertion.ts:2-4 | `error` always fails, with exactly the given message |
| Assertion.Required | src/util/assertion.ts:6-8 | fails exactly on `null` and `undefined` (`== null`), with "The X is required." |
| Assertion.Stringed | src/util/assertion.ts:10-13 | passes exactly the non-empty strings; otherwise "The X is required to be string." |
| Assertion.Integer | src/util/assertion.ts:20-23 | passes exactly when `+num` is a positive whole number; otherwise "The X is required to be integer." |
| Assertion.IntegerOfInt | src/util/assertion.ts:20-23 | a number, or its decimal text, passes exactly when it is positive: 0 and negatives fail |
| Assertion.IntegerRejectsFraction | src/util/assertion.ts:21 | decimal text with a non-zero fraction such as `1.5` fails `num % 1 !== 0` |
| Values.StringToNumberOfInt | src/util/assertion.ts:21 | `+` applied to the decimal text of an integer gives that integer back |
| Values.StringToNumberFraction | src/util/assertion.ts:21 | `+` of digits, `.` and a fraction with a non-zero digit is never whole |
| Format.EscapeId | src/util/format.ts:16-29 | a non-array is `String(val)` wrapped in backticks with backticks doubled and, unless qualification is forbidden, dots turned into segment breaks |
| Format.EscapeIds | src/util/format.ts:17-19 | an array is escaped element by element, one text per element |
| Format.UndoubleDoubleTicks | src/util/format.ts:22 | doubling backticks can be undone: the quoted body determines the identifier |
| Format.EscapeIdQualified | src/util/format.ts:25-28 | a dotted name is quoted as the `.`-join of its segments, each quoted as a single identifier |
| Format.EscapeIdSplit | src/util/format.ts:25-28 | the first `.` separates the first segment, quoted on its own, from the rest |
| Format.UnescapeEscapeChars | src/util/format.ts:200-220 | escaping loses nothing: reading the escaped body back as MySQL does gives the original string |
| Format.EscapedQuotesArePaired | src/util/format.ts:3-14 | every quote character inside the escaped body is preceded by a backslash, so the literal cannot end early |
| Format.CharEscape | src/util/format.ts:4-14 | each special character maps to a two-character escape starting with a backslash |
| Format.NextSpecialClear | src/util/format.ts:205 | the next match of the character class comes after plain text only |
| Format.EscapeString | src/util/format.ts:200-220 | the loop over the matches of the escape class yields the quoted escaped text, in all three return branches |
| Format.EscapeFinish | src/util/format.ts:210-219 | the three returns of `escapeString` (nothing escaped, rest left, nothing left) all give the quoted escaped text |
| Format.EscapeStep | src/util/format.ts:206-207 | one match keeps the loop invariant: escaped text so far, plain text, the escape, the rest escaped |
| Format.ArrayToList | src/util/format.ts:65-79 | the loop puts `, ` before every item but the first and lists a nested array in parentheses |
| Format.ListStep | src/util/format.ts:71-75 | one more item extends the joined list by its separator and its piece |
| Format.ObjectToValues | src/util/format.ts:184-198 | the loop gives `` `key` = value `` for each property that is not a function, joined by `, ` |
| Format.PairsStep | src/util/format.ts:187-195 | one more property adds its pair unless its value is a function |
| Format.PairStep | src/util/format.ts:194 | the separator is written exactly when the text is not yet empty |
| Format.PairsSkipFunctions | src/util/format.ts:190-192 | an object whose properties are all functions gives the empty text |
| Format.RunLengthMeaning | src/util/format.ts:95 | a match of `/\?+/` is a maximal run of `?`, non-empty exactly when the text starts with `?` |
| Format.NextRun | src/util/format.ts:101 | the next match starts at the first `?` from the regular expression's `lastIndex` on |
| Format.NextRunClear | src/util/format.ts:101 | no `?` lies between `lastIndex` and the next match |
| Format.FillPlain | src/util/format.ts:117-119 | text without `?` is returned as it is, whatever the values |
| Format.FillNoValues | src/util/format.ts:101 | with no values every placeholder stays |
| Format.FillBetween | src/builder/clause.ts:135-136 | `format(' ? AND ?', [a, b])` fills both placeholders with the escaped items |
| Format.Format | src/util/format.ts:81-127 | `format` equals the left-to-right substitution on the text: one `?` takes `escape` of the next value, two take `escapeId`, longer runs are kept, `null` values leave the text alone and a non-array value is one value |
| Format.FillLoop | src/util/format.ts:95-115 | on exit the result is the text up to the end of the last replacement with its placeholders filled; no replacement leaves `chunkIndex` at 0 |
| Format.FillMatch | src/util/format.ts:102-114 | one turn of the loop keeps the loop invariant and moves `lastIndex` forward |
| Format.FillStart | src/util/format.ts:96-98 | the initial state satisfies the loop invariant |
| Format.FinishFill | src/util/format.ts:117-126 | after the loop, the three returns give exactly the substituted text |
| Format.KeepStep | src/util/format.ts:104-106 | a run of three or more `?` is skipped: copied, takes no value, invariant kept |
| Format.KeepLong | src/util/format.ts:104-106 | a long run is copied into the substituted text |
| Format.TakeStep | src/util/format.ts:108-114 | a run of one or two `?` is replaced by the next value, the text before it copied, invariant kept |
| Format.TakeRun | src/util/format.ts:108-110 | a run of one or two `?` takes the next value through `escape` or `escapeId` |
| Format.FillRun | src/util/format.ts:102-110 | a run is kept or replaced according to its length |
| Format.ZeroPad | src/util/format.ts:222-226 | the result is the decimal text with `0`s in front, exactly as long as `length` or the text, whichever is longer |
| Format.ZeroPadValue | src/util/format.ts:222-226 | padding a natural number never changes the number it reads back as |
| Format.LeadingZerosValue | src/util/format.ts:224 | leading zeros add nothing to the value of a digit string |
| Columns.Disassemble | src/util/index.ts:14-32 | fails exactly when a list holds a truthy non-string or a non-list is not a non-empty string, with the source's messages; every column it yields is non-empty, comma-free and trimmed |
| Columns.DisassembleItems | src/util/index.ts:18-24 | the `reduce` over a list skips falsy items, refuses other non-strings and flattens each string's columns |
| Columns.SplitColumns | src/util/index.ts:29-31 | each piece of a comma split is trimmed and empty pieces are dropped |
| Columns.TrimmedPieces | src/util/index.ts:30 | kept pieces are trimmed and non-empty |
| Columns.TrimmedIsTrim | src/util/index.ts:30 | trimming is idempotent and its non-empty results are trimmed |
| Columns.SplitColumnsJoin | src/util/index.ts:29-31 | column names joined by commas split back into the same names |
| Columns.DisassembleRoundTrip | src/util/index.ts:14-32 | `'a,b,c'` and `['a','b','c']` both give back exactly the columns `a`, `b`, `c` |
| Columns.QuoteParts | src/util/index.ts:39 | each dot-separated part is quoted in qualified mode |
| Columns.EscapeIdDot | src/util/index.ts:37-39 | quoting `a.b` quotes `a` and `b` and joins them with a dot |
| Columns.HookQuotes | src/util/index.ts:35-40 | an ignored name (a select alias) is quoted whole; any other is quoted part by part, prefixed by the alias when it has no dot |
| Columns.HookPrefixesAlias | src/util/index.ts:38 | a dot-free name under an alias is quoted as `alias.name` |
| Columns.HookSplitsDots | src/util/index.ts:37-39 | a dotted name that is not ignored is split at its dots and quoted part by part |
| Columns.BuildColumnChain | src/util/index.ts:34-41 | a chain of names and operators renders name by name through the hook, operators spaced |
| Columns.BuildColumnWord | src/util/index.ts:34-41 | a plain name with no alias comes out wrapped in backticks |
| Columns.BuildEmptyColumn | src/util/index.ts:34-41 | an empty column expression parses to `null`, which the printer rejects with a `TypeError` |
| ColumnParser.SternFrom | src/util/column-parser.ts:168-182 | the scan returns -1 or the index of a matching quote at or after where it starts |
| ColumnParser.SternSpec | src/util/column-parser.ts:161-183 | `stern` returns -1 or an index after the opening quote holding the same quote |
| ColumnParser.SternFindsClosingQuote | src/util/column-parser.ts:161-183 | `stern` finds the first equal quote not escaped by an odd run of backslashes, and -1 exactly when every later equal quote is escaped |
| ColumnParser.Stern | src/util/column-parser.ts:161-183 | the loop toggling the backslash flag computes `stern`'s specification |
| ColumnParser.CallLoop | src/util/column-parser.ts:41-81 | a successful `call` loop returns a call token with its own name and a cursor inside the text |
| ColumnParser.Scanner.constructor | src/util/column-parser.ts:17-21 | a fresh cursor at 0 over the text |
| ColumnParser.Scanner.Lr | src/util/column-parser.ts:84-148 | `lr()` from the cursor equals the operand-and-operator scan defined on the text |
| ColumnParser.Scanner.Call | src/util/column-parser.ts:23-82 | `call()` succeeds exactly when its loop does, returns its token and leaves the cursor after the closing parenthesis |
| ColumnParser.Scanner.SetArg | src/util/column-parser.ts:29-39 | an argument is parsed on its own and its syntax error is re-thrown shifted by the argument's start |
| ColumnParser.ParseColumn | src/util/column-parser.ts:17-159 | `parseColumn` is one `lr()` from position 0 |
| ColumnParser.Stringify | src/util/column-parser.ts:185-207 | leaves always print; a `null` token makes the `in` test throw a `TypeError`; a call prints as its name, `(`, its arguments and `)` |
| ColumnParser.StringifyArgs | src/util/column-parser.ts:204-206 | one printed text per argument |
| ParserProperties.ParseChain | src/util/column-parser.ts:84-148 | `a + b - c`, with any white space around the operators, parses as `a + (b - c)`: operators nest to the right |
| ParserProperties.ReadBlanks | src/util/column-parser.ts:127-134 | white space is skipped and, after pending text, ends that text |
| ParserProperties.LrChain | src/util/column-parser.ts:90-108 | each operator takes the name before it as left operand and the rest of the input as right operand |
| ParserProperties.ParseTwoWords | src/util/column-parser.ts:127-138 | two bare words separated only by white space are an `Invalid char` error at the first character of the second word |
| ParserProperties.ParseCall | src/util/column-parser.ts:23-82 | `f(a,b,...)`, `f` possibly empty, parses to a call of `f` whose arguments are the argument texts parsed on their own |
| ParserProperties.CallArgs | src/util/column-parser.ts:41-75 | the call loop over comma-separated arguments collects their tokens in order and stops after `)` |
| ParserProperties.ParseEmptyCall | src/util/column-parser.ts:42-47 | `f()` parses to a call of `f` with no arguments |
| ParserProperties.ParseArgError | src/util/column-parser.ts:34-38 | an argument's syntax error is thrown again at the argument's start plus its own position, its message keeping the space before `at` |
| ParserProperties.ParseUnclosedCall | src/util/column-parser.ts:77-79 | a call with no closing parenthesis and pending text fails with `Parse Failed at -1` |
| ParserProperties.StringifyChain | src/util/column-parser.ts:195-200 | a chain prints as its words through the hook with each operator between single spaces |
| ParserProperties.ChainRoundTrip | src/util/column-parser.ts:185-207 | printing a chain with the identity hook always succeeds, and parsing the printed text gives the same tree back |
| ParserProperties.HookSeesOnlyNames | src/util/column-parser.ts:189-193 | two hooks that agree on the name leaves print the same text: literals never reach the hook |
| Clause.OperatorText | src/builder/clause.ts:50-54 | a missing operator is `=`; a string is itself; `null` fails reading `toUpperCase` of null, anything else fails because `toUpperCase` is not a function |
| Clause.CheckAppend | src/builder/clause.ts:54-66 | `IS [NOT] NULL` refuses a truthy value, the unbound marker included; `[NOT] BETWEEN` refuses an array whose length is not 2; any other operator passes |
| Clause.ClauseBuilder.constructor | src/builder/clause.ts:45 | a new builder has no entries |
| Clause.ClauseBuilder.AppendWhere | src/builder/clause.ts:47-76 | on success exactly one predicate is pushed at the end; on failure nothing changes |
| Clause.ClauseBuilder.Where | src/builder/clause.ts:78-81 | appends an `AND` predicate, unbound when fewer than three arguments are given |
| Clause.ClauseBuilder.AndWhere | src/builder/clause.ts:83-86 | the same as `where` |
| Clause.ClauseBuilder.OrWhere | src/builder/clause.ts:88-91 | appends an `OR` predicate |
| Clause.ClauseBuilder.OnColumn | src/builder/clause.ts:93-96 | requires `second`, then appends an `AND` predicate whose right side is a column; on failure nothing is appended and the error is `required`'s, else `_appendWhere`'s |
| Clause.ClauseBuilder.OrColumn | src/builder/clause.ts:98-101 | requires `second`, then appends an `OR` predicate whose right side is a column; on failure nothing is appended and the error is `required`'s, else `_appendWhere`'s |
| Clause.ClauseBuilder.AppendClause | src/builder/clause.ts:103-108 | the child builder's entries are appended as one group |
| Clause.ClauseBuilder.Clause | src/builder/clause.ts:110-112 | appends an `AND` group |
| Clause.ClauseBuilder.AndClause | src/builder/clause.ts:114-116 | appends an `AND` group |
| Clause.ClauseBuilder.OrClause | src/builder/clause.ts:118-120 | appends an `OR` group |
| Clause.ClauseBuilder.Build | src/builder/clause.ts:122-160 | `build` renders the entries, changing nothing |
| Clause.BuildEntries | src/builder/clause.ts:151-159 | the `forEach` over the entries computes the rendering, the first failing entry stopping it |
| Clause.BuildEntry | src/builder/clause.ts:155-156 | one step renders a predicate or a group's own `build` in parentheses |
| Clause.Pieces | src/builder/clause.ts:153-157 | one rendering per entry, in order |
| Clause.RenderRestStep | src/builder/clause.ts:153-157 | a failing entry ends the loop with its error; a rendered one is appended after its combinator, none before the first |
| Clause.FirstCombinatorIgnored | src/builder/clause.ts:154 | the flag of the first entry is never written: `orWhere` first renders exactly as `where` |
| Clause.EntryFlagIgnored | src/builder/clause.ts:125-149 | an entry's own text does not depend on its combinator |
| Clause.JoinFromSnoc | src/builder/clause.ts:153-157 | joining one more piece extends the text by its combinator and text; an error anywhere is the first met |
| Clause.RenderAppend | src/builder/clause.ts:153-157 | what `where`/`orWhere`/`clause` add to the built text: the new entry's combinator (none for the first) and its text |
| Clause.PlaceholderExpr | src/builder/clause.ts:144-146 | a predicate without a value renders its column, operator and `?` |
| Clause.ValueExpr | src/builder/clause.ts:148 | a predicate with a value renders the value escaped inline |
| Clause.RenderTrims | src/builder/clause.ts:159 | `build` trims what the loop joined |
| Clause.RenderPair | src/builder/clause.ts:151-159 | two entries render as the first, `AND` or `OR` by the second's flag, and the second |
| Clause.GroupEntry | src/builder/clause.ts:155 | a group renders as its own `build` in parentheses |
| Clause.NestedGroupExample | test.spec.js:51-58 | `where(a, '>')` then `clause(c => c.where(b).andWhere(c, '>', n))` renders the group parenthesised after `AND` |
| Assignments.ValidColumnStringed | src/builder/insert.ts:82 | a `set` column passes exactly when it is a non-empty string |
| Assignments.ValidPrefix | src/builder/insert.ts:97-110 | the calls before the first bad column all pass, and that one fails |
| Assignments.CallsOutcomeMeaning | src/builder/insert.ts:97-110 | the `forEach` of `set` calls succeeds exactly when every column is a non-empty string, pushing every entry in order; otherwise it throws the `stringed` error after pushing the entries before the bad column |
| Assignments.UnboundCalls | src/builder/insert.ts:97-99 | an array's elements are `set` one argument at a time, each with the unbound marker |
| Assignments.BoundCalls | src/builder/insert.ts:108-110 | an object's keys are `set` in key order, each bound to its value |
| Assignments.InsertCallsCases | src/builder/insert.ts:91-113 | INSERT's `setSome` accepts exactly non-empty strings, arrays and objects: a string is split into unbound columns, an array's elements are unbound columns, an object's keys are bound to their values; `null`/`undefined` fail `required`, other values the type check |
| Assignments.StringColumnsAllSet | src/builder/insert.ts:92-102 | the columns split from a string never make a `set` fail, and each stores the unbound marker |
| Assignments.NamesAllSet | src/builder/insert.ts:96-102 | `set` on names that survive splitting always succeeds, storing the unbound marker under each name in turn |
| Assignments.UpdateCallsCases | src/builder/update.ts:46-61 | UPDATE's `setSome` refuses a string, which INSERT's splits, and treats arrays and objects exactly as INSERT's does |
| Assignments.ValueText | src/builder/insert.ts:126-127 | an unbound value is the placeholder `?`, a bound one its escape with objects stringified |
| Assignments.ColumnTexts | src/builder/insert.ts:124-128 | when every column resolves there is one column text per record |
| Assignments.ColumnTextsOk | src/builder/insert.ts:124-128 | the columns resolve as a whole exactly when each one does |
| Assignments.ColumnTextsValues | src/builder/insert.ts:125 | each record's column text is its own column resolved with `buildColumn` |
| Assignments.ColumnTextsError | src/builder/insert.ts:124-128 | a failure is the error of the first column that does not resolve, all before it resolving |
| Assignments.ColumnTextsStep | src/builder/insert.ts:124-128 | one more record appends its column text and its value text after the others' |
| Assignments.ColumnTextsStops | src/builder/insert.ts:125 | a column that does not resolve stops the whole walk with its error |
| Assignments.ValueTexts | src/builder/insert.ts:126-127 | one value text per record, in order |
| Assignments.SetPairs | src/builder/update.ts:79-84 | column `k` is paired with value `k` as `col = value` |
| Insert.InsertSqlMeaning | src/builder/insert.ts:115-137 | `build` fails exactly when there is no record (`Miss data`) or a column does not resolve; otherwise it lists every record's column and value text in record order, a placeholder exactly for a value left unbound |
| Insert.InsertBuilder.constructor | src/builder/insert.ts:65-67 | a new builder has no table and no records |
| Insert.InsertBuilder.Into | src/builder/insert.ts:72-76 | the table is checked by `stringed` and stored; a failure changes nothing |
| Insert.InsertBuilder.Set | src/builder/insert.ts:81-86 | the column is checked by `stringed` and one record pushed, unbound when no value is given; duplicates are kept |
| Insert.InsertBuilder.SetSome | src/builder/insert.ts:91-113 | a refused argument changes nothing; otherwise the calls it makes push their records and it ends as they do |
| Insert.InsertBuilder.SetEach | src/builder/insert.ts:97-99 | the `forEach` of `set` calls pushes the entries before the first failure and ends with that failure |
| Insert.InsertBuilder.Build | src/builder/insert.ts:115-137 | the loop over the records gives the statement the builder's state defines, changing nothing |
| Update.UpdateSqlMeaning | src/builder/update.ts:75-90 | `build` fails exactly when a column does not resolve or the conditions fail; otherwise it pairs each record's column with its value text in record order and adds WHERE exactly when the conditions render to something; the stored limit and offset never appear |
| Update.UpdateNoColumns | src/builder/update.ts:79-84 | with no records the SET list is empty, and the statement is still built |
| Update.SetStep | src/builder/update.ts:80-83 | one step of the `reduce`: `, ` after the first pair, then the column, ` = ` and the value |
| Update.UpdateBuilder.constructor | src/builder/update.ts:27-31 | a new builder has no table, records, conditions, limit or offset |
| Update.UpdateBuilder.From | src/builder/update.ts:33-37 | the table is checked by `stringed` and stored; a failure changes nothing |
| Update.UpdateBuilder.Set | src/builder/update.ts:39-44 | the column is checked by `stringed` and one record pushed, unbound when no value is given |
| Update.UpdateBuilder.SetSome | src/builder/update.ts:46-61 | a refused argument changes nothing; otherwise the calls it makes push their records and it ends as they do |
| Update.UpdateBuilder.SetEach | src/builder/update.ts:48 | the `forEach` of `set` calls pushes the entries before the first failure and ends with that failure |
| Update.UpdateBuilder.Take | src/builder/update.ts:63-67 | the limit is checked by `integer` and stored as `+limit`; a failure changes nothing |
| Update.UpdateBuilder.Skip | src/builder/update.ts:69-73 | the offset is checked by `integer`, reported as `limit`, and stored without needing a limit |
| Update.UpdateBuilder.Build | src/builder/update.ts:75-90 | the `reduce` over the records and the conditions give the statement the builder's state defines |
| Delete.DeleteSqlMeaning | src/builder/delete.ts:67-78 | `build` fails exactly as the conditions do; WHERE appears exactly when they render to something; with no limit and no offset nothing follows, with a limit alone LIMIT closes it, and under the builder's invariant an OFFSET comes right after its LIMIT |
| Delete.DeleteSqlPaged | src/builder/delete.ts:73-77 | with an offset set, LIMIT and OFFSET close the statement together |
| Delete.DeleteSqlLimited | src/builder/delete.ts:73-77 | with a limit and no offset, LIMIT closes the statement |
| Delete.DeleteSqlPlain | src/builder/delete.ts:73-77 | with neither limit nor offset the statement ends after the conditions |
| Delete.DeleteBuilder.constructor | src/builder/delete.ts:34-37 | a new builder has no table, conditions, limit or offset |
| Delete.DeleteBuilder.From | src/builder/delete.ts:42-46 | the table is checked by `stringed` and stored; a failure changes nothing |
| Delete.DeleteBuilder.Take | src/builder/delete.ts:51-55 | the limit is checked by `integer` and stored as `+limit`; the builder's invariant is kept |
| Delete.DeleteBuilder.Skip | src/builder/delete.ts:60-65 | succeeds exactly when `count` passes `integer` and a limit is already set; otherwise it throws the `integer` error or the OFFSET-needs-LIMIT error and changes nothing |
| Delete.DeleteBuilder.Build | src/builder/delete.ts:67-78 | gives the statement the builder's state defines, changing nothing |
| Select.AliasText | src/builder/select.ts:139-141 | a falsy alias is stored as no alias, a truthy one as itself |
| Select.CheckAlias | src/builder/select.ts:139 | `alias && stringed(alias)` passes exactly a falsy alias or a string |
| Select.Selected | src/builder/select.ts:145-151 | fails exactly on `null`/`undefined` or columns `disassembleColumns` refuses; otherwise the earlier columns then the new ones, each kept once |
| SelectSpec.Dedupe | src/builder/select.ts:149 | `Array.from(new Set(s))` holds exactly the elements of `s`, each once |
| SelectProperties.DedupeDistinct | src/builder/select.ts:149 | a list without repeats is kept as it is |
| SelectProperties.DedupeExtends | src/builder/select.ts:147-149 | appending more never disturbs the columns kept before |
| SelectProperties.DedupeAbsorbs | src/builder/select.ts:147-149 | adding only columns already there keeps the list as it is |
| SelectProperties.SelectKeepsEarlier | src/builder/select.ts:145-151 | after `select`, the columns chosen before come first, in their order, every column of the call is there, and none is repeated |
| SelectProperties.SelectIdempotent | src/builder/select.ts:145-151 | selecting columns that are already selected changes nothing |
| SelectProperties.SplitAsWord | src/builder/select.ts:243 | a word without white space is not split |
| SelectProperties.SplitAsAlias | src/builder/select.ts:243 | `f as x` splits into `f` and `x` |
| SelectProperties.SplitAsTwice | src/builder/select.ts:243-244 | `f as x as y` splits into three pieces |
| SelectProperties.KeywordAt | src/builder/select.ts:243 | ` as ` followed by a non-space ends one piece and starts the next |
| SelectProperties.SkipWord | src/builder/select.ts:243 | no match starts inside a stretch without white space |
| SelectProperties.FieldWithAlias | src/builder/select.ts:247-253 | `f as x`: `x` joins the ignores list before `f` is resolved, and the item renders as `f`'s column, `AS` and `x` quoted |
| SelectProperties.FieldWithTwoAliases | src/builder/select.ts:243-244 | an item with a second `as` throws `bad column expression` |
| SelectProperties.FieldWithoutAlias | src/builder/select.ts:247-253 | an item without `as` renders as its column and leaves the ignores list alone |
| SelectProperties.ByFromPrefix | src/builder/select.ts:286-290 | the items' texts are appended to what was there, in item order, the first failure stopping them |
| SelectProperties.ByItemText | src/builder/select.ts:288-289 | each item renders as its column followed by ` DESC` or ` ASC` |
| SelectProperties.JoinsByFromPrefix | src/builder/select.ts:292-297 | the joins' items follow what was there, join by join |
| SelectProperties.ByClauseOrder | src/builder/select.ts:286-326 | GROUP BY / ORDER BY list the builder's own items first, then each join's in join order, all resolved with the outer alias; nothing when there are none; the first failure stops it |
| SelectProperties.HavingPair | src/builder/select.ts:304-308 | two groups render as ` HAVING `, the first, the second's combinator and the second, no group parenthesised |
| SelectProperties.HavingFirstFlagIgnored | src/builder/select.ts:304-308 | the first group's `OR` flag never changes the text, from any group of the reduce on, the first included |
| SelectProperties.HavingStep | src/builder/select.ts:304-308 | each group adds ` HAVING ` (the first) or its combinator and its conditions; a failing group stops the reduce |
| SelectProperties.HavingKeepsPrefix | src/builder/select.ts:304-308 | the reduce only appends to the text it starts from |
| SelectProperties.HavingLead | src/builder/select.ts:304-308 | the HAVING part is empty exactly when there are no groups, and otherwise opens with ` HAVING ` |
| SelectProperties.TailInOrder | src/builder/select.ts:281-336 | after the joins come WHERE, GROUP BY (own items then each join's), HAVING, ORDER BY (likewise), LIMIT and OFFSET, in that order; the tail fails exactly when one of those parts fails |
| Select.JoinBuilder.constructor | src/builder/select.ts:75-79 | a join on the given table and type with nothing else set |
| Select.JoinBuilder.SetAlias | src/builder/select.ts:81-85 | the alias is checked when truthy and stored; a failure changes nothing |
| Select.JoinBuilder.Select | src/builder/select.ts:87-93 | the selected columns become `Selected` of the earlier ones; a failure changes nothing |
| Select.JoinBuilder.GroupBy | src/builder/select.ts:95-98 | one group-by item is pushed |
| Select.JoinBuilder.OrderBy | src/builder/select.ts:100-103 | one order-by item is pushed |
| Select.JoinBuilder.Build | src/builder/select.ts:105-123 | returns `SelectSpec.JoinSql` of the join's state and list, whose text is stated by `SelectStatements.JoinNamedAliased`, `JoinNamedPlain` and `JoinSubquery`: `[TYPE ]JOIN` target, ` AS alias` pushing the alias first, ` ON` and the condition rendered on that list |
| Select.SelectBuilder.constructor | src/builder/select.ts:126-135 | a new builder has no table and nothing selected, joined or set |
| Select.SelectBuilder.From | src/builder/select.ts:137-143 | succeeds exactly when the table is a non-empty string and the alias falsy or a string, storing both; a failure changes nothing |
| Select.SelectBuilder.Select | src/builder/select.ts:145-151 | the selected columns become `Selected` of the earlier ones; a failure changes nothing and reports its error |
| Select.SelectBuilder.JoinSelect | src/builder/select.ts:158-164 | `join(selectFactory)` appends a join on the sub-select with its result alias |
| Select.SelectBuilder.Join | src/builder/select.ts:166-182 | the table is checked by `stringed`; with a factory the configured join is appended with its table and type, without one nothing changes |
| Select.SelectBuilder.Take | src/builder/select.ts:184-188 | the limit is checked by `integer` and stored as `+limit`; a failure changes nothing |
| Select.SelectBuilder.Skip | src/builder/select.ts:190-195 | succeeds exactly when `count` passes `integer` and a limit is set; otherwise the `integer` error or the OFFSET-needs-LIMIT error, nothing changed |
| Select.SelectBuilder.GroupBy | src/builder/select.ts:197-200 | one group-by item is pushed |
| Select.SelectBuilder.OrderBy | src/builder/select.ts:202-205 | one order-by item is pushed |
| Select.SelectBuilder.Having | src/builder/select.ts:207-213 | fails exactly when no factory is passed; otherwise one `AND` group is pushed |
| Select.SelectBuilder.OrHaving | src/builder/select.ts:215-219 | as `having`, with the new group marked `OR` |
| Select.SelectBuilder.BuildWith | src/builder/select.ts:222-339 | `build(options)` returns `SelectSpec.SelectSql` of the state and the caller's list, and leaves the builder as it was; that function's text and list are stated by `SelectStatements.SelectSqlGrows`, `ExplicitAlias`, `JoinedWithoutAlias`, `OneJoin` and `SelectProperties.TailInOrder` |
| Select.SelectBuilder.Build | src/builder/select.ts:222-339 | `build()` is `build(options)` on an empty list, returning only the text or the error |
| Select.JoinSelectBuilder.constructor | src/builder/select.ts:346-347 | a fresh sub-select with no result alias |
| Select.JoinSelectBuilder.SetAlias | src/builder/select.ts:349-353 | the result alias is checked when truthy and stored; a failure changes nothing |
| Select.JoinSelectBuilder.Build | src/builder/select.ts:355-358 | returns `SelectSpec.SubquerySql`: `(SELECT ...) AS alias`, refused without a result alias (see `SelectStatements.SubqueryMeaning`) |
| Select.BuildFields | src/builder/select.ts:236-255 | the `forEach` of `parseSelectedColumns` computes the field list, `*` as `alias.*` or `*` |
| Select.BuildJoinFields | src/builder/select.ts:259-264 | each join's columns are resolved with its own alias, the sub-select's result alias or its table name |
| Select.BuildBy | src/builder/select.ts:287-290 | the loop over group-by or order-by items computes their texts |
| Select.BuildByClause | src/builder/select.ts:286-301 | the builder's own items then each join's, under the keyword, or nothing |
| Select.BuildHaving | src/builder/select.ts:304-308 | the `reduce` over the having groups |
| Select.BuildTail | src/builder/select.ts:281-336 | the steps after the joins compute `SelectSpec.Tail`, whose order and failures `SelectProperties.TailInOrder` states |
| Select.BuildSelect | src/builder/select.ts:222-339 | the whole `build` computes `SelectSpec.SelectSql`, the statement the `SelectStatements` lemmas describe |
| Select.BuildJoins | src/builder/select.ts:279 | each join's text after a space, in order |
| Select.BuildJoin | src/builder/select.ts:105-123 | one join computes `SelectSpec.JoinSql`, described by `SelectStatements.JoinNamedAliased`, `JoinNamedPlain` and `JoinSubquery` |
| Select.BuildSubquery | src/builder/select.ts:355-358 | one sub-select computes `SelectSpec.SubquerySql`, described by `SelectStatements.SubqueryMeaning` |
| SelectStatements.FieldsFromGrows | src/builder/select.ts:236-257 | the selected items only push onto the ignores list |
| SelectStatements.JoinFieldsFromGrows | src/builder/select.ts:259-264 | the joins' selected items only push onto the list |
| SelectStatements.SelectSqlGrows | src/builder/select.ts:222-283 | a statement's list starts with the caller's list, then its own alias when it has one; nothing is removed |
| SelectStatements.JoinsFromGrows | src/builder/select.ts:279 | the joins only push onto the list |
| SelectStatements.JoinSqlGrows | src/builder/select.ts:105-123 | a join only pushes onto the list |
| SelectStatements.SubquerySqlGrows | src/builder/select.ts:355-358 | a sub-select builds on the outer list itself, so what it pushes stays for the rest of the outer statement |
| SelectStatements.QualifiedWord | src/util/index.ts:34-41 | a plain word that is not on the list is qualified with the alias in force |
| SelectStatements.DottedWord | src/util/index.ts:34-41 | a dotted `b.c` is quoted part by part whatever alias is in force |
| SelectStatements.NoAliasInForce | src/builder/select.ts:226-230 | with no alias and no joins the list is the caller's, a word is quoted on its own and `*` stays `*` |
| SelectStatements.JoinedWithoutAlias | src/builder/select.ts:226-230 | with joins and no alias the table name is the alias in force: it goes on the list, columns and `*` are qualified with it, and the head has no `AS` |
| SelectStatements.ExplicitAlias | src/builder/select.ts:226-275 | an explicit alias goes on the list, qualifies the columns and `*`, and the head ends with ` AS` and the quoted alias |
| SelectStatements.JoinTrim | src/builder/select.ts:106-122 | the final `trim` only takes off the space before `JOIN` when there is no type |
| SelectStatements.JoinNamedAliased | src/builder/select.ts:105-123 | a named join with an alias: the alias is pushed before the condition is rendered, and the text is `[TYPE ]JOIN`, the quoted table, ` AS`, the quoted alias and ` ON` with the condition when there is one |
| SelectStatements.JoinNamedPlain | src/builder/select.ts:105-123 | a named join without an alias pushes nothing and has no `AS` |
| SelectStatements.JoinSubquery | src/builder/select.ts:108-109 | a join on a sub-select fails exactly when the sub-select does; its text is the sub-select's, its condition is rendered on the list the sub-select left, and its own alias plays no part |
| SelectStatements.SubqueryMeaning | src/builder/select.ts:355-358 | fails exactly without a result alias or when the inner statement fails; otherwise the inner statement in parentheses, ` AS` and the alias, with the inner statement's pushes passed out |
| SelectStatements.JoinsFromOne | src/builder/select.ts:279 | a single join follows the head after a space, or its error is the statement's |
| SelectStatements.PlainSelect | src/builder/select.ts:222-283 | a table with nothing else is ``SELECT * FROM `t` `` on any list, pushing nothing |
| SelectStatements.OneJoin | src/builder/select.ts:222-283 | the join's columns are rendered before any join pushes its alias: one aliased join selecting one column gives `` SELECT `j`.`c` FROM `` the table, the join, and a list ending in the join's alias |
| SelectStatements.HeadOne | src/builder/select.ts:270-275 | the head is `SELECT`, the fields, `FROM` and the table with ` AS alias` when one is set |
| SelectStatements.OnColumnsRendered | src/builder/clause.ts:140-141 | `onColumn(b.c, a.c)` renders both sides as quoted, qualified columns joined by ` = ` |
| SelectStatements.BareJoinStatement | src/builder/select.ts:257-283 | a statement with one join that selects nothing is its head, a space and the join |
| SelectStatements.JoinOneTable | test.spec.js:60-68 | `from(t, a).join(t2, j => j.setAlias(b).onColumn(b.c, a.c)).build({})` is ``SELECT * FROM `t` AS `a` JOIN `t2` AS `b` ON `b`.`c` = `a`.`c` `` for any plain names |
| SelectStatements.LeftJoinOneTable | test.spec.js:70-79 | the same with `select('*')` and a `left` join is ``SELECT `a`.* FROM `t` AS `a` LEFT JOIN ...`` |
| SelectStatements.NamedJoinStatement | test.spec.js:60-79 | both named-join tests at once |
| SelectStatements.JoinSelectResult | test.spec.js:81-89 | `from(t, a).select('*').join(s => s.from(t2).setAlias(b))` is ``SELECT `a`.* FROM `t` AS `a` JOIN (SELECT * FROM `t2`) AS `b` `` |
| SelectStatements.PlainSubqueryJoin | src/builder/select.ts:105-123 | joining a bare sub-select adds `JOIN (SELECT * FROM `t2`) AS `b`` and no condition |
| ModelExamples.DisassembleThree | src/util/index.ts:27-31 | `disassembleColumns('a,b,c')` gives back `a`, `b`, `c` for plain names with no comma |
| ModelExamples.SelectThreeNames | src/builder/select.ts:145-151 | `select('a,b,c')` on a fresh builder selects exactly `a`, `b`, `c`, in that order, for plain distinct names |
| ModelExamples.FieldsListedStep | src/builder/select.ts:243-254 | a plain selected name with no alias in force renders in backticks and pushes nothing onto the ignores list |
| ModelExamples.FieldsThreeNames | src/builder/select.ts:235-258 | three plain names render as three backticked fields, in order, leaving the ignores list as it was |
| ModelExamples.ThreeNamesStatement | src/builder/select.ts:222-283 | a table with three plain selected columns and nothing else builds ``SELECT `a`, `b`, `c` FROM `t` `` |
| ModelExamples.ModelGetStatement | test.spec.js:143-150 | `createModel(t).get('a,b,c').build()` is ``SELECT `a`, `b`, `c` FROM `t` `` for any plain distinct names: `select` splits the text into the three columns, and `build` lists them in order |
| Format.EscapeKinds | src/util/format.ts:31-51 | `escape` gives `NULL` for `null` and `undefined`, `true`/`false` for booleans, a number's decimal text (which `+` reads back), `arrayToList` for arrays, and the escaped result of a function |
| Format.EscapeStringReadsBack | src/util/format.ts:60-61 | a string is quoted with single quotes and its escaped body reads back to the string |
| Format.EscapeObject | src/util/format.ts:53-58 | a plain object is `'[object Object]'` when objects are stringified, otherwise `objectToValues` of its fields |
| SelectExamples.SimpleSelect | test.spec.js:12-19 | `from(t).build()` is ``SELECT * FROM `t` `` |
| SelectExamples.SelectWhere | test.spec.js:21-29 | `from(t).where(c, '>')` adds ``WHERE `c` > ?`` |
| SelectExamples.SelectWherePair | test.spec.js:31-49 | `andWhere` and `orWhere` after `where` join with `AND` and `OR` |
| SelectExamples.SelectNestedClause | test.spec.js:51-58 | a nested `clause` is parenthesised after `AND` |
| SelectExamples.SelectWithoutJoins | src/builder/select.ts:266-283 | with no alias, columns or joins: `SELECT * FROM` the quoted table and the WHERE part if any |
| Model.EntryCalls | src/model.ts:85-102 | a string value is one `where(values, op)` on the whole string; an array gives one `where(op, item)` per item; `null`/`undefined` throw at `Object.keys`; any other value gives `where(key, op, value)` per own key |
| Model.CallEntry | src/model.ts:90-99 | one `where` call succeeds exactly when its operator and value pass `_appendWhere`'s checks |
| Model.ApplyCallsAll | src/model.ts:85-102 | when every call succeeds, each appends its own predicate, in order, after the conditions already there |
| Model.ApplyCallsFails | src/model.ts:85-102 | the first call that throws makes the whole run throw its error |
| Model.DeleteStringEntry | src/model.ts:89-91 | `delete({op: 'c'})` is one predicate on the whole string, with `op` as its operator and no value |
| Model.DeleteOneEntry | src/model.ts:85-102 | a mapping with one key makes exactly that key's calls on no conditions |
| Model.DeleteArrayEntry | src/model.ts:93-95 | `delete({op: [x, y]})` calls `where(op, x)`, `where(op, y)`: the key is the column and each element an operator |
| Model.DeleteObjectEntry | src/model.ts:97-101 | `delete({op: {a: x, b: y}})` gives `a op x`, `b op y`, in key order, values bound |
| Model.DeleteNullEntry | src/model.ts:97-101 | a `null` entry throws a `TypeError`, whatever came before |
| Model.DeleteFromAppend | src/model.ts:85-102 | walking a longer mapping walks its first part, then goes on from there |
| Model.WhereEach | src/model.ts:94 | the `where` calls of one entry, made in order on the builder, leave exactly the conditions `ApplyCalls` computes or fail as it does |
| Model.WhereEntries | src/model.ts:85-102 | the `forEach` over the mapping's keys leaves exactly the conditions the walk computes, or fails as it does |
| Model.ModelBuilder.constructor | src/model.ts:35-39 | the table is stored and the primary key defaults to `id` |
| Model.ModelBuilder.GetPrimaryKey | src/model.ts:50-52 | returns the primary key |
| Model.ModelBuilder.Create | src/model.ts:41-48 | succeeds exactly when the table is non-empty and `setSome(values)` succeeds, giving a fresh INSERT builder on the table holding the records `setSome` pushed; otherwise, on a named table, it fails with `setSome`'s error |
| Model.ModelBuilder.Get | src/model.ts:54-61 | succeeds exactly when the table is non-empty and `select(columns)` succeeds, giving a fresh SELECT builder on the table with those columns |
| Model.ModelBuilder.GetOne | src/model.ts:63-65 | `get`, limited to one row, failing with `select`'s error as `get` does |
| Model.ModelBuilder.GetLast | src/model.ts:67-69 | `getOne`, ordered by the primary key, descending, failing with `select`'s error as `get` does |
| Model.ModelBuilder.GetById | src/model.ts:71-73 | `get`, with the predicate `primaryKey = id`, failing with `select`'s error as `get` does |
| Model.ModelBuilder.Delete | src/model.ts:75-105 | succeeds exactly when the table is non-empty and the mapping's calls succeed, giving a fresh DELETE builder holding the predicates the mapping describes, none for a falsy mapping |
| Model.ModelBuilder.DeleteById | src/model.ts:107-114 | a fresh DELETE builder on the table with the predicate `primaryKey = id` |
| Model.ModelBuilder.Update | src/model.ts:116-123 | succeeds exactly when the table is non-empty and `setSome(values)` succeeds, giving a fresh UPDATE builder with those records; otherwise, on a named table, it fails with `setSome`'s error |
| Model.ModelBuilder.UpdateById | src/model.ts:125-127 | `update`, with the predicate `primaryKey = id`, failing with `setSome`'s error as `update` does |
| CrudExamples.InsertSetSome | test.spec.js:117-126 | `into(t).set(a, v).setSome([b, c]).build({})` is ``INSERT INTO `t` (`a`, `b`, `c`) VALUES ('v', ?, ?)`` |
| CrudExamples.SetSomeNames | test.spec.js:121 | `setSome([b, c])` sets `b` then `c`, both unbound |
| CrudExamples.SetSomeNothing | test.spec.js:135 | `setSome({})` sets nothing |
| CrudExamples.UpdateSetWhere | test.spec.js:131-141 | `from(t).set(a, v).setSome({}).where(c, '>').build({})` is ``UPDATE `t` SET `a` = 'v' WHERE `c` > ?`` |
| CrudExamples.DeleteWhere | test.spec.js:94-102 | `from(t).where(c, '>').build({})` is ``DELETE FROM `t` WHERE `c` > ?`` |
| CrudExamples.DeleteWhereOr | test.spec.js:104-113 | adding `orWhere(c, '<')` joins the second predicate with `OR` |
| CrudExamples.InsertChain | test.spec.js:117-126 | the INSERT test's chain of calls on a fresh builder builds exactly the expected statement |
| CrudExamples.UpdateChain | test.spec.js:131-141 | the UPDATE test's chain of calls on a fresh builder builds exactly the expected statement |
| CrudExamples.DeleteChain | test.spec.js:104-113 | the DELETE test's chain of calls on a fresh builder builds exactly the expected statement |

Behaviour of the code that is easy to miss:

- An unbound `BETWEEN` predicate (`where(c, 'between')`) stores the unbound
  marker, a `Symbol`, which is truthy, so `build` passes it to `format`;
  escaping a `Symbol` throws a `TypeError` (src/builder/clause.ts:135-136).
  `Clause.RenderExpr` returns that error.
- `f()` is a call with no arguments: `setArg` drops the empty argument and
  the `)` branch does not check it (`ParserProperties.ParseEmptyCall`); a
  bare `(a)` is likewise a call with an empty name.
- `delete({op: [x, y]})` calls `where(op, x)` and `where(op, y)`: the key is
  the column and each element the operator (`Model.DeleteArrayEntry`).
- UPDATE's `skip` reports its failure as `The limit is required to be
  integer.`, and UPDATE's `build` renders neither the stored limit nor the
  offset (`Update.UpdateSqlMeaning`, last clause).

## Left out

- `call(exec, params)` of every builder, the `Executor`, `ModelBuilder.execute`, `createModel` and the promise they return: they only hand the built text to code outside the library.
- `freezeBuilder` (src/util/index.ts:49-62): it makes `call` and `_table` read-only properties, which has no counterpart without the property model of JavaScript; the model's builders are returned as they are.
- Aliasing of builders: a factory (`clause`, `join`, `having`) receives a fresh builder, and the model passes the builder after the factory has run, so a factory that keeps its builder and changes it after the call is not modelled.
- `dateToString`, `convertTimezone`, `bufferToString` and the `toSqlString` hook of `escape`: dates, buffers and time zones are not among the modelled values. `zeroPad`, which `dateToString` uses, is modelled.
- Floating-point numbers: `Values.Value` numbers are integers, and `+text` is modelled for decimal text (optional sign, digits, optional fraction); any other text counts as not a whole number. The model's integers are exact, so JavaScript's loss of precision above 2^53 is not modelled. `Text.IntToString` prints every digit, while JavaScript prints numbers from 1e21 up in exponent form, so ``' LIMIT ' + this._limit`` (src/builder/delete.ts:75-76, src/builder/select.ts:329-336) would render `LIMIT 1e+21` where the model renders all the digits.
- An `Obj` value's fields are taken to have distinct keys, listed in `Object.keys` order (integer-like keys first, ascending); `objectToValues`, `setSome` and `delete` walk them in the stored order.
- `toUpperCase` is modelled on ASCII letters only; operators are ASCII in practice.
- Clause.ClauseBuilder.OnColumn: a `second` that is an array of strings is indexed by the source's parser as it would a string (`['a','b']` renders as the column `ab`); the model renders every non-string `second` as a `TypeError` at build time, which the source also throws for numbers and other non-strings.
- Delete.DeleteBuilder.Take: requires the builder's invariant (limit and offset non-negative, no offset without a limit), which every sequence of calls keeps from the constructor on.
- Delete.DeleteBuilder.Skip: requires the same invariant.
- Model.ModelBuilder.Create: returns `Err` where the source throws out of the chained calls; the builder it would have half-built is not returned.
- Assertion.Integer: `+num` is modelled for decimal text only; exponent, hexadecimal, octal and binary text (`'1e3'`, `'0x10'`, `'0o7'`, `'0b11'`), which JavaScript reads as numbers, fail here.
- The `join` example tests (test.spec.js:60-90) are stated for any plain names (`SelectStatements.JoinOneTable`, `LeftJoinOneTable`, `JoinSelectResult`) rather than for the literal names of the tests; so is the `create model` test (test.spec.js:143-150), whose ``SELECT `name`, `role`, `baby` FROM `users` `` is `ModelExamples.ModelGetStatement` for three plain distinct column names.
