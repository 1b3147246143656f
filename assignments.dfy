/** The `{column, value}` records the INSERT and UPDATE builders keep in
    `_columns`, the `set` calls their `setSome` makes, and the texts `build`
    makes of the records. */
module Assignments {
  import opened Results
  import opened Text
  import opened Values
  import opened Assertion
  import opened Format
  import opened Columns

  /** One `_columns` entry: the column as given and the value, or the unbound
      marker `set(column)` stores. */
  datatype Item = Item(column: string, value: Cell)

  /** One `set(column, value)` call about to be made, with the column as the
      caller passed it. */
  datatype Pending = Pending(column: Value, value: Cell)

  const NotColumns := "The columns is required to be Array, String or Object."

  /** What `stringed(column, 'column')` lets through. */
  predicate ValidColumn(column: Value)
  {
    column.Str? && column.s != ""
  }

  lemma ValidColumnStringed(column: Value)
    ensures ValidColumn(column) <==> Stringed(column, "column").Ok?
  {
  }

  /** How many of the calls succeed before the first that fails. */
  function ValidPrefix(calls: seq<Pending>): (r: nat)
    ensures r <= |calls|
    ensures forall k :: 0 <= k < r ==> ValidColumn(calls[k].column)
    ensures r < |calls| ==> !ValidColumn(calls[r].column)
  {
    if calls == [] || !ValidColumn(calls[0].column) then 0 else 1 + ValidPrefix(calls[1..])
  }

  /** The entries a run of successful calls pushes, in call order. */
  function ItemsOf(calls: seq<Pending>): (r: seq<Item>)
    requires forall k :: 0 <= k < |calls| ==> calls[k].column.Str?
    ensures |r| == |calls|
    ensures forall k :: 0 <= k < |calls| ==> r[k] == Item(calls[k].column.s, calls[k].value)
  {
    seq(|calls|, k requires 0 <= k < |calls| => Item(calls[k].column.s, calls[k].value))
  }

  /** What the `forEach` of `set` calls pushes before it stops: every call's
      entry, or those before the first that throws. */
  function Pushed(calls: seq<Pending>): (r: seq<Item>)
  {
    ItemsOf(calls[..ValidPrefix(calls)])
  }

  /** How that `forEach` ends: normally, or with the first call's failure. */
  function CallsOutcome(calls: seq<Pending>): (r: Result<()>)
  {
    var n := ValidPrefix(calls);
    if n == |calls| then Ok(()) else Stringed(calls[n].column, "column")
  }

  /** The calls stop at the first column that is not a non-empty string;
      everything before it has been pushed. */
  lemma CallsOutcomeMeaning(calls: seq<Pending>)
    ensures CallsOutcome(calls).Ok? <==> forall k :: 0 <= k < |calls| ==> ValidColumn(calls[k].column)
    ensures CallsOutcome(calls).Ok? ==> Pushed(calls) == ItemsOf(calls)
    ensures CallsOutcome(calls).Err? ==> CallsOutcome(calls) == Fail("The " + "column" + " is required to be string.")
    ensures |Pushed(calls)| <= |calls|
    ensures forall k :: 0 <= k < |Pushed(calls)| ==> Pushed(calls)[k] == Item(calls[k].column.s, calls[k].value)
  {
    var n := ValidPrefix(calls);
    assert calls[..|calls|] == calls;
    if n < |calls| {
      assert !ValidColumn(calls[n].column);
    }
  }

  /** `set(column)` for each element: the unbound marker each time. */
  function UnboundCalls(columns: seq<Value>): (r: seq<Pending>)
    ensures |r| == |columns|
    ensures forall k :: 0 <= k < |columns| ==> r[k] == Pending(columns[k], Unbound)
  {
    seq(|columns|, k requires 0 <= k < |columns| => Pending(columns[k], Unbound))
  }

  /** `set(key, columns[key])` for each own key, in key order. */
  function BoundCalls(fields: seq<Field>): (r: seq<Pending>)
    ensures |r| == |fields|
    ensures forall k :: 0 <= k < |fields| ==> r[k] == Pending(Str(fields[k].key), Bound(fields[k].value))
  {
    seq(|fields|, k requires 0 <= k < |fields| => Pending(Str(fields[k].key), Bound(fields[k].value)))
  }

  /** The calls INSERT's `setSome(columns)` makes, or what it throws before
      making any: a string is split into columns, an array's elements and an
      object's keys are taken as they are, and anything else is refused. */
  function InsertCalls(columns: Value): (r: Result<seq<Pending>>)
  {
    if columns.Str? then
      var cols :- Disassemble(columns);
      Ok(UnboundCalls(StrItems(cols)))
    else if columns.List? then Ok(UnboundCalls(columns.items))
    else
      var _ :- Required(columns, "values");
      if !columns.Obj? then Fail(NotColumns) else Ok(BoundCalls(columns.fields))
  }

  /** The calls UPDATE's `setSome(columns)` makes: the same, except that a
      string is refused too. */
  function UpdateCalls(columns: Value): (r: Result<seq<Pending>>)
  {
    if columns.List? then Ok(UnboundCalls(columns.items))
    else
      var _ :- Required(columns, "values");
      if !columns.Obj? then Fail(NotColumns) else Ok(BoundCalls(columns.fields))
  }

  /** What INSERT's `setSome` accepts and what it makes of each kind. */
  lemma InsertCallsCases(columns: Value)
    ensures InsertCalls(columns).Ok? <==> (columns.Str? && columns.s != "") || columns.List? || columns.Obj?
    ensures columns.Null? || columns.Undefined? ==> InsertCalls(columns) == Fail("The " + "values" + " is required.")
    ensures columns.Bool? || columns.Num? || columns.Fn? ==> InsertCalls(columns) == Fail(NotColumns)
    ensures columns.Str? && columns.s == "" ==> InsertCalls(columns) == Fail("The " + "columns" + " is required to be string.")
    ensures columns.Str? && columns.s != "" ==> InsertCalls(columns) == Ok(UnboundCalls(StrItems(SplitColumns(columns.s))))
    ensures columns.List? ==> InsertCalls(columns) == Ok(UnboundCalls(columns.items))
    ensures columns.Obj? ==> InsertCalls(columns) == Ok(BoundCalls(columns.fields))
  {
  }

  /** Splitting a string yields only non-empty names: no call it makes can
      fail, and every one of them stores the unbound marker. */
  lemma StringColumnsAllSet(s: string)
    requires s != ""
    ensures InsertCalls(Str(s)).Ok?
    ensures CallsOutcome(InsertCalls(Str(s)).value) == Ok(())
    ensures Pushed(InsertCalls(Str(s)).value) == seq(|SplitColumns(s)|, k requires 0 <= k < |SplitColumns(s)| => Item(SplitColumns(s)[k], Unbound))
  {
    var cols := SplitColumns(s);
    assert Disassemble(Str(s)) == Ok(cols);
    assert InsertCalls(Str(s)) == Ok(UnboundCalls(StrItems(cols)));
    NamesAllSet(cols);
  }

  /** Calls on names that survive splitting all succeed, and store the
      unbound marker under each name in turn. */
  lemma NamesAllSet(cols: seq<string>)
    requires AllColumns(cols)
    ensures CallsOutcome(UnboundCalls(StrItems(cols))) == Ok(())
    ensures Pushed(UnboundCalls(StrItems(cols))) == seq(|cols|, k requires 0 <= k < |cols| => Item(cols[k], Unbound))
  {
    var calls := UnboundCalls(StrItems(cols));
    forall k | 0 <= k < |calls|
      ensures ValidColumn(calls[k].column)
    {
      assert IsColumn(cols[k]);
    }
    CallsOutcomeMeaning(calls);
  }

  /** UPDATE's `setSome` refuses what INSERT's splits, and treats arrays and
      objects the same way. */
  lemma UpdateCallsCases(columns: Value)
    ensures UpdateCalls(columns).Ok? <==> columns.List? || columns.Obj?
    ensures columns.Str? ==> UpdateCalls(columns) == Fail(NotColumns)
    ensures columns.Null? || columns.Undefined? ==> UpdateCalls(columns) == Fail("The " + "values" + " is required.")
    ensures columns.List? || columns.Obj? ==> UpdateCalls(columns) == InsertCalls(columns)
  {
  }

  // ---------------------------------------------------------------------
  // Rendering the records

  /** The text of a stored value: a placeholder for the unbound marker, the
      escaped value otherwise. */
  function ValueText(value: Cell): (r: string)
    ensures value.Unbound? ==> r == "?"
    ensures value.Bound? ==> r == Escape(value.value, true)
  {
    if value.Unbound? then "?" else Escape(value.value, true)
  }

  /** Each record's resolved column, in order; the first column that fails to
      resolve stops the walk. */
  function ColumnTexts(items: seq<Item>, ignores: seq<string>, alias: string): (r: Result<seq<string>>)
    ensures r.Ok? ==> |r.value| == |items|
    decreases |items|
  {
    if items == [] then Ok([])
    else
      var init :- ColumnTexts(items[..|items| - 1], ignores, alias);
      var last :- BuildColumn(items[|items| - 1].column, ignores, alias);
      Ok(init + [last])
  }

  /** The walk succeeds exactly when every column resolves. */
  lemma ColumnTextsOk(items: seq<Item>, ignores: seq<string>, alias: string)
    ensures ColumnTexts(items, ignores, alias).Ok? <==> forall k :: 0 <= k < |items| ==> BuildColumn(items[k].column, ignores, alias).Ok?
  {
    if ColumnTexts(items, ignores, alias).Ok? {
      ColumnTextsOkEach(items, ignores, alias);
    } else {
      ColumnTextsErrSome(items, ignores, alias);
    }
  }

  lemma {:induction false} ColumnTextsOkEach(items: seq<Item>, ignores: seq<string>, alias: string)
    requires ColumnTexts(items, ignores, alias).Ok?
    ensures forall k :: 0 <= k < |items| ==> BuildColumn(items[k].column, ignores, alias).Ok?
    decreases |items|
  {
    if items != [] {
      var n := |items| - 1;
      var init := items[..n];
      ColumnTextsOkEach(init, ignores, alias);
      forall k | 0 <= k < |items|
        ensures BuildColumn(items[k].column, ignores, alias).Ok?
      {
        if k < n {
          assert init[k] == items[k];
        }
      }
    }
  }

  lemma {:induction false} ColumnTextsErrSome(items: seq<Item>, ignores: seq<string>, alias: string)
    requires ColumnTexts(items, ignores, alias).Err?
    ensures exists k :: 0 <= k < |items| && BuildColumn(items[k].column, ignores, alias).Err?
    decreases |items|
  {
    var n := |items| - 1;
    var init := items[..n];
    if ColumnTexts(init, ignores, alias).Err? {
      ColumnTextsErrSome(init, ignores, alias);
      var j :| 0 <= j < |init| && BuildColumn(init[j].column, ignores, alias).Err?;
      assert init[j] == items[j];
    } else {
      assert BuildColumn(items[n].column, ignores, alias).Err?;
    }
  }

  /** It then gives each record's resolved column, in order. */
  lemma {:induction false} ColumnTextsValues(items: seq<Item>, ignores: seq<string>, alias: string)
    requires ColumnTexts(items, ignores, alias).Ok?
    ensures forall k :: 0 <= k < |items| ==> Ok(ColumnTexts(items, ignores, alias).value[k]) == BuildColumn(items[k].column, ignores, alias)
    decreases |items|
  {
    if items != [] {
      var init := items[..|items| - 1];
      ColumnTextsValues(init, ignores, alias);
      var texts, last := ColumnTexts(init, ignores, alias).value, BuildColumn(items[|items| - 1].column, ignores, alias);
      assert ColumnTexts(items, ignores, alias).value == texts + [last.value];
      forall k | 0 <= k < |items|
        ensures Ok(ColumnTexts(items, ignores, alias).value[k]) == BuildColumn(items[k].column, ignores, alias)
      {
        if k < |init| {
          assert init[k] == items[k];
        }
      }
    }
  }

  /** Otherwise it fails as the first column that does not resolve. */
  lemma {:induction false} ColumnTextsError(items: seq<Item>, ignores: seq<string>, alias: string)
    requires ColumnTexts(items, ignores, alias).Err?
    ensures exists j :: 0 <= j < |items| && BuildColumn(items[j].column, ignores, alias) == Err(ColumnTexts(items, ignores, alias).error) &&
                        forall k :: 0 <= k < j ==> BuildColumn(items[k].column, ignores, alias).Ok?
    decreases |items|
  {
    var init := items[..|items| - 1];
    assert forall k :: 0 <= k < |init| ==> init[k] == items[k];
    if ColumnTexts(init, ignores, alias).Err? {
      ColumnTextsError(init, ignores, alias);
    } else {
      ColumnTextsOk(init, ignores, alias);
    }
  }

  /** One more record: its column follows those of the records before it,
      and its value text follows theirs. */
  lemma ColumnTextsStep(items: seq<Item>, i: nat, ignores: seq<string>, alias: string)
    requires i < |items| && ColumnTexts(items[..i], ignores, alias).Ok?
    requires BuildColumn(items[i].column, ignores, alias).Ok?
    ensures ColumnTexts(items[..i + 1], ignores, alias)
         == Ok(ColumnTexts(items[..i], ignores, alias).value + [BuildColumn(items[i].column, ignores, alias).value])
    ensures ValueTexts(items[..i + 1]) == ValueTexts(items[..i]) + [ValueText(items[i].value)]
  {
    assert items[..i + 1][..i] == items[..i];
    ValueTextsStep(items, i);
  }

  lemma ValueTextsStep(items: seq<Item>, i: nat)
    requires i < |items|
    ensures ValueTexts(items[..i + 1]) == ValueTexts(items[..i]) + [ValueText(items[i].value)]
  {
  }

  /** A column that does not resolve stops the whole walk with its error. */
  lemma {:induction false} ColumnTextsStops(items: seq<Item>, i: nat, ignores: seq<string>, alias: string)
    requires i < |items| && ColumnTexts(items[..i], ignores, alias).Ok?
    requires BuildColumn(items[i].column, ignores, alias).Err?
    ensures ColumnTexts(items, ignores, alias) == Err(BuildColumn(items[i].column, ignores, alias).error)
    decreases |items| - i
  {
    if i + 1 == |items| {
      assert items[..i + 1] == items;
      assert items[..|items| - 1] == items[..i];
    } else {
      assert items[..i + 1][..i] == items[..i];
      ColumnTextsErrLater(items, i + 1, ignores, alias, BuildColumn(items[i].column, ignores, alias).error);
    }
  }

  /** Once the walk has failed, walking further keeps the same failure. */
  lemma {:induction false} ColumnTextsErrLater(items: seq<Item>, j: nat, ignores: seq<string>, alias: string, e: Exception)
    requires j <= |items| && ColumnTexts(items[..j], ignores, alias) == Err(e)
    ensures ColumnTexts(items, ignores, alias) == Err(e)
    decreases |items| - j
  {
    if j < |items| {
      assert items[..j + 1][..j] == items[..j];
      ColumnTextsErrLater(items, j + 1, ignores, alias, e);
    } else {
      assert items[..j] == items;
    }
  }
  /** Each record's value text, in order. */
  function ValueTexts(items: seq<Item>): (r: seq<string>)
    ensures |r| == |items|
    ensures forall k :: 0 <= k < |items| ==> r[k] == ValueText(items[k].value)
  {
    seq(|items|, k requires 0 <= k < |items| => ValueText(items[k].value))
  }

  /** Columns and values paired as `col = value`. */
  function SetPairs(cols: seq<string>, values: seq<string>): (r: seq<string>)
    requires |cols| == |values|
    ensures |r| == |cols|
    ensures forall k :: 0 <= k < |cols| ==> r[k] == cols[k] + " = " + values[k]
  {
    seq(|cols|, k requires 0 <= k < |cols| => cols[k] + " = " + values[k])
  }

  /** One more pair goes at the end. */
  lemma SetPairsSnoc(cols: seq<string>, values: seq<string>, c: string, v: string)
    requires |cols| == |values|
    ensures SetPairs(cols + [c], values + [v]) == SetPairs(cols, values) + [c + " = " + v]
  {
  }

  /** The `col = value` texts of an UPDATE's SET list. */
  function AssignmentTexts(items: seq<Item>, ignores: seq<string>, alias: string): (r: Result<seq<string>>)
  {
    var cols :- ColumnTexts(items, ignores, alias);
    Ok(SetPairs(cols, ValueTexts(items)))
  }
}
