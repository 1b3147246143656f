/** The model facade: a table name and a primary key, and ready-made
    builder chains over them. Each method starts a fresh builder, drives it
    with the calls the facade makes, and hands it back; a call that throws
    makes the whole method throw. */
module Model {
  import opened Results
  import opened Text
  import opened Values
  import opened Assertion
  import opened Clause
  import opened SelectSpec
  import opened Select
  import opened Assignments
  import opened Insert
  import opened Update
  import opened Delete

  const DefaultKey := "id"
  const NullToObject := "Cannot convert undefined or null to object"

  /** One `builder.where(column, operator[, value])` call `delete` makes. */
  datatype Call = Call(column: string, operator: Value, value: Cell)

  /** The calls one entry `[op, values]` of the mapping makes: a string is a
      column list with `op` as its operator, an array's elements are
      operators with `op` as their column, and any other value's own keys
      are columns compared by `op` with their values. `null` and `undefined`
      have no keys to take. */
  function EntryCalls(entry: Field): (r: Result<seq<Call>>)
    ensures entry.value.Str? ==> r == Ok([Call(entry.value.s, Str(entry.key), Unbound)])
    ensures entry.value.List? ==> (r.Ok? && |r.value| == |entry.value.items| &&
      forall k :: 0 <= k < |entry.value.items| ==> r.value[k] == Call(entry.key, entry.value.items[k], Unbound))
    ensures entry.value.Null? || entry.value.Undefined? ==> r == Err(TypeError(NullToObject))
    ensures !(entry.value.Str? || entry.value.List? || entry.value.Null? || entry.value.Undefined?) ==>
      (r.Ok? && |r.value| == |OwnEntries(entry.value)| &&
       forall k :: 0 <= k < |OwnEntries(entry.value)| ==>
         r.value[k] == Call(OwnEntries(entry.value)[k].key, Str(entry.key), Bound(OwnEntries(entry.value)[k].value)))
  {
    var values := entry.value;
    if values.Str? then Ok([Call(values.s, Str(entry.key), Unbound)])
    else if values.List? then
      Ok(seq(|values.items|, k requires 0 <= k < |values.items| => Call(entry.key, values.items[k], Unbound)))
    else if values.Null? || values.Undefined? then Err(TypeError(NullToObject))
    else
      var keys := OwnEntries(values);
      Ok(seq(|keys|, k requires 0 <= k < |keys| => Call(keys[k].key, Str(entry.key), Bound(keys[k].value))))
  }

  /** The predicate a successful call appends. */
  function CallEntry(call: Call): (r: Result<Entry>)
    ensures r.Ok? <==> CheckAppend(call.value, call.operator).Ok?
  {
    var op :- CheckAppend(call.value, call.operator);
    Ok(Expr(call.column, op, call.value, false, false))
  }

  /** The calls made one after the other on a list of conditions; the first
      that throws stops them. */
  function ApplyCalls(clauses: seq<Entry>, calls: seq<Call>): (r: Result<seq<Entry>>)
    decreases |calls|
  {
    if calls == [] then Ok(clauses)
    else
      var e :- CallEntry(calls[0]);
      ApplyCalls(clauses + [e], calls[1..])
  }

  /** The `forEach` over the mapping's keys from entry `i` on. */
  function DeleteFrom(entries: seq<Field>, i: nat, clauses: seq<Entry>): (r: Result<seq<Entry>>)
    requires i <= |entries|
    decreases |entries| - i
  {
    if i == |entries| then Ok(clauses)
    else
      var calls :- EntryCalls(entries[i]);
      var next :- ApplyCalls(clauses, calls);
      DeleteFrom(entries, i + 1, next)
  }

  /** The conditions `delete(where)` leaves on its builder: none for a falsy
      mapping. */
  function DeleteClauses(where: Value): (r: Result<seq<Entry>>)
  {
    if !Truthy(where) then Ok([]) else DeleteFrom(OwnEntries(where), 0, [])
  }

  /** When every call succeeds, each appends its own predicate, in order,
      after the conditions already there. */
  lemma {:induction false} ApplyCallsAll(clauses: seq<Entry>, calls: seq<Call>, entries: seq<Entry>)
    requires |entries| == |calls| && forall k :: 0 <= k < |calls| ==> CallEntry(calls[k]) == Ok(entries[k])
    ensures ApplyCalls(clauses, calls) == Ok(clauses + entries)
    decreases |calls|
  {
    if calls != [] {
      assert CallEntry(calls[0]) == Ok(entries[0]);
      ApplyCallsAll(clauses + [entries[0]], calls[1..], entries[1..]);
      PushFront(clauses, entries);
    } else {
      assert clauses + entries == clauses;
    }
  }

  /** The first call that throws makes the whole run throw its error. */
  lemma {:induction false} ApplyCallsFails(clauses: seq<Entry>, calls: seq<Call>, j: nat)
    requires j < |calls| && CallEntry(calls[j]).Err?
    requires forall k :: 0 <= k < j ==> CallEntry(calls[k]).Ok?
    ensures ApplyCalls(clauses, calls) == Err(CallEntry(calls[j]).error)
    decreases j
  {
    if j > 0 {
      ApplyCallsFails(clauses + [CallEntry(calls[0]).value], calls[1..], j - 1);
    }
  }

  /** `delete({op: 'c'})`: one predicate on the whole string, with `op` as
      its operator and no value. */
  lemma DeleteStringEntry(op: string, column: string)
    requires !IsNullOp(UpperAscii(op))
    ensures DeleteClauses(Obj([Field(op, Str(column))])) == Ok([Expr(column, op, Unbound, false, false)])
  {
    var entry := Field(op, Str(column));
    var call := Call(column, Str(op), Unbound);
    var e := Expr(column, op, Unbound, false, false);
    assert EntryCalls(entry) == Ok([call]);
    DeleteOneEntry(entry);
    assert OperatorText(Str(op)) == Ok(op);
    assert CallEntry(call) == Ok(e);
    assert [call][1..] == [] && [] + [e] == [e];
  }

  /** A mapping with one key makes that key's calls on no conditions. */
  lemma DeleteOneEntry(entry: Field)
    requires EntryCalls(entry).Ok?
    ensures DeleteClauses(Obj([entry])) == ApplyCalls([], EntryCalls(entry).value)
  {
    assert OwnEntries(Obj([entry])) == [entry];
    var r := ApplyCalls([], EntryCalls(entry).value);
    if r.Ok? {
      assert DeleteFrom([entry], 1, r.value) == r;
    }
  }

  /** `delete({op: [x, y, ...]})`: `where(op, x)`, `where(op, y)`, ... — the
      key is the column and each element the operator. */
  lemma DeleteArrayEntry(op: string, items: seq<Value>)
    requires forall k :: 0 <= k < |items| ==> CheckAppend(Unbound, items[k]).Ok?
    ensures DeleteClauses(Obj([Field(op, List(items))])).Ok?
    ensures var r := DeleteClauses(Obj([Field(op, List(items))])).value;
      |r| == |items| && forall k :: 0 <= k < |items| ==> r[k] == Expr(op, CheckAppend(Unbound, items[k]).value, Unbound, false, false)
  {
    var calls := EntryCalls(Field(op, List(items))).value;
    var entries := seq(|items|, k requires 0 <= k < |items| => Expr(op, CheckAppend(Unbound, items[k]).value, Unbound, false, false));
    ApplyCallsAll([], calls, entries);
    DeleteOneEntry(Field(op, List(items)));
    assert [] + entries == entries;
  }

  /** `delete({op: {a: x, b: y}})`: `where(a, op, x)`, `where(b, op, y)`, in
      key order, each with its value bound. */
  lemma DeleteObjectEntry(op: string, fields: seq<Field>)
    requires forall k :: 0 <= k < |fields| ==> CheckAppend(Bound(fields[k].value), Str(op)).Ok?
    ensures DeleteClauses(Obj([Field(op, Obj(fields))])).Ok?
    ensures var r := DeleteClauses(Obj([Field(op, Obj(fields))])).value;
      |r| == |fields| && forall k :: 0 <= k < |fields| ==> r[k] == Expr(fields[k].key, op, Bound(fields[k].value), false, false)
  {
    var calls := EntryCalls(Field(op, Obj(fields))).value;
    var entries := seq(|fields|, k requires 0 <= k < |fields| => Expr(fields[k].key, op, Bound(fields[k].value), false, false));
    ApplyCallsAll([], calls, entries);
    DeleteOneEntry(Field(op, Obj(fields)));
    assert [] + entries == entries;
  }

  /** `delete({op: null})` throws, after the predicates of the keys before. */
  lemma DeleteNullEntry(before: seq<Field>, op: string)
    requires DeleteFrom(before, 0, []).Ok?
    ensures DeleteClauses(Obj(before + [Field(op, Null)])) == Err(TypeError(NullToObject))
  {
    DeleteFromAppend(before, [Field(op, Null)], 0, []);
  }

  /** Walking a longer mapping walks its first part, then goes on. */
  lemma {:induction false} DeleteFromAppend(a: seq<Field>, b: seq<Field>, i: nat, clauses: seq<Entry>)
    requires i <= |a|
    ensures DeleteFrom(a + b, i, clauses)
         == match DeleteFrom(a, i, clauses) case Ok(c) => DeleteFrom(a + b, |a|, c) case Err(e) => Err(e)
    decreases |a| - i
  {
    if i < |a| {
      assert (a + b)[i] == a[i];
      var calls := EntryCalls(a[i]);
      if calls.Ok? && ApplyCalls(clauses, calls.value).Ok? {
        DeleteFromAppend(a, b, i + 1, ApplyCalls(clauses, calls.value).value);
      }
    }
  }

  /** The `where` calls of one entry, made in order on the builder's
      conditions. */
  method WhereEach(conditions: ClauseBuilder, calls: seq<Call>) returns (r: Result<()>)
    modifies conditions
    ensures r.Ok? ==> Ok(conditions.clauses) == ApplyCalls(old(conditions.clauses), calls)
    ensures r.Err? ==> Err(r.error) == ApplyCalls(old(conditions.clauses), calls)
  {
    var i := 0;
    while i < |calls|
      invariant i <= |calls|
      invariant ApplyCalls(old(conditions.clauses), calls) == ApplyCalls(conditions.clauses, calls[i..])
      decreases |calls| - i
    {
      r := conditions.Where(calls[i].column, calls[i].operator, calls[i].value);
      assert calls[i..][0] == calls[i] && calls[i..][1..] == calls[i + 1..];
      if r.Err? {
        return;
      }
      i := i + 1;
    }
    return Ok(());
  }

  /** The `forEach` over the mapping's keys, each entry's calls in turn. */
  method WhereEntries(conditions: ClauseBuilder, entries: seq<Field>) returns (r: Result<()>)
    modifies conditions
    ensures r.Ok? ==> Ok(conditions.clauses) == DeleteFrom(entries, 0, old(conditions.clauses))
    ensures r.Err? ==> Err(r.error) == DeleteFrom(entries, 0, old(conditions.clauses))
  {
    var i := 0;
    while i < |entries|
      invariant i <= |entries|
      invariant DeleteFrom(entries, 0, old(conditions.clauses)) == DeleteFrom(entries, i, conditions.clauses)
      decreases |entries| - i
    {
      var calls := EntryCalls(entries[i]);
      if calls.Err? {
        return Err(calls.error);
      }
      r := WhereEach(conditions, calls.value);
      if r.Err? {
        return;
      }
      i := i + 1;
    }
    return Ok(());
  }

  class ModelBuilder {
    const table: string
    const primaryKey: string

    /** `new ModelBuilder(table, primaryKey = 'id')`; `None` is a missing or
        `undefined` key. */
    constructor(table: string, primaryKey: Option<string>)
      ensures this.table == table
      ensures this.primaryKey == (if primaryKey.Some? then primaryKey.value else DefaultKey)
    {
      this.table := table;
      this.primaryKey := if primaryKey.Some? then primaryKey.value else DefaultKey;
    }

    function GetPrimaryKey(): (r: string)
      ensures r == primaryKey
    {
      primaryKey
    }

    /** `create(values)`: an INSERT into the table with `setSome(values)`. */
    method Create(values: Value) returns (r: Result<InsertBuilder>)
      ensures r.Ok? <==> table != "" && InsertCalls(values).Ok? && CallsOutcome(InsertCalls(values).value).Ok?
      ensures table != "" && r.Err? ==>
        r.error == if InsertCalls(values).Err? then InsertCalls(values).error else CallsOutcome(InsertCalls(values).value).error
      ensures r.Ok? ==> fresh(r.value) && r.value.State() == InsertState(Str(table), Pushed(InsertCalls(values).value))
      ensures table == "" ==> r == Fail("The " + "table" + " is required to be string.")
    {
      var builder := new InsertBuilder();
      var done := builder.Into(Str(table));
      if done.Err? {
        return Err(done.error);
      }
      done := builder.SetSome(values);
      if done.Err? {
        return Err(done.error);
      }
      return Ok(builder);
    }

    /** `get(columns)`: a SELECT of those columns from the table. */
    method Get(columns: Value) returns (r: Result<SelectBuilder>)
      ensures r.Ok? <==> table != "" && Selected([], columns).Ok?
      ensures table != "" && r.Err? ==> r.error == Selected([], columns).error
      ensures r.Ok? ==> (fresh(r.value) && fresh(r.value.conditions) &&
        r.value.State() == EmptySelect().(table := table, select := Selected([], columns).value))
    {
      var builder := new SelectBuilder();
      var done := builder.From(Str(table), Undefined);
      if done.Err? {
        return Err(done.error);
      }
      done := builder.Select(columns);
      if done.Err? {
        return Err(done.error);
      }
      return Ok(builder);
    }

    /** `getOne(columns)`: `get`, limited to one row. */
    method GetOne(columns: Value) returns (r: Result<SelectBuilder>)
      ensures r.Ok? <==> table != "" && Selected([], columns).Ok?
      ensures table != "" && r.Err? ==> r.error == Selected([], columns).error
      ensures r.Ok? ==> (fresh(r.value) && fresh(r.value.conditions) &&
        r.value.State() == EmptySelect().(table := table, select := Selected([], columns).value, limit := 1))
    {
      r := Get(columns);
      if r.Ok? {
        IntegerOfInt(1, "limit");
        var done := r.value.Take(Num(1));
      }
    }

    /** `getLast(columns)`: `getOne`, ordered by the primary key, descending. */
    method GetLast(columns: Value) returns (r: Result<SelectBuilder>)
      ensures r.Ok? <==> table != "" && Selected([], columns).Ok?
      ensures table != "" && r.Err? ==> r.error == Selected([], columns).error
      ensures r.Ok? ==> (fresh(r.value) && fresh(r.value.conditions) &&
        r.value.State() == EmptySelect().(table := table, select := Selected([], columns).value, limit := 1,
                                          orderBy := [ByItem(primaryKey, true)]))
    {
      r := GetOne(columns);
      if r.Ok? {
        r.value.OrderBy(primaryKey, true);
      }
    }

    /** `getById(id, columns)`: `get`, where the primary key equals `id`. */
    method GetById(id: Value, columns: Value) returns (r: Result<SelectBuilder>)
      ensures r.Ok? <==> table != "" && Selected([], columns).Ok?
      ensures table != "" && r.Err? ==> r.error == Selected([], columns).error
      ensures r.Ok? ==> (fresh(r.value) && fresh(r.value.conditions) &&
        r.value.State() == EmptySelect().(table := table, select := Selected([], columns).value,
                                          clauses := [Expr(primaryKey, "=", Bound(id), false, false)]))
    {
      r := Get(columns);
      if r.Ok? {
        ComparisonOps();
        var done := r.value.conditions.Where(primaryKey, Str("="), Bound(id));
      }
    }

    /** `delete(where)`: a DELETE from the table, with the predicates the
        mapping describes. */
    method Delete(where: Value) returns (r: Result<DeleteBuilder>)
      ensures r.Ok? <==> table != "" && DeleteClauses(where).Ok?
      ensures table != "" && r.Err? ==> r.error == DeleteClauses(where).error
      ensures r.Ok? ==> (fresh(r.value) && fresh(r.value.conditions) &&
        r.value.State() == DeleteState(Str(table), DeleteClauses(where).value, 0, 0))
    {
      var builder := new DeleteBuilder();
      var done := builder.From(Str(table));
      if done.Err? {
        return Err(done.error);
      }
      if !Truthy(where) {
        return Ok(builder);
      }
      done := WhereEntries(builder.conditions, OwnEntries(where));
      if done.Err? {
        return Err(done.error);
      }
      return Ok(builder);
    }

    /** `deleteById(id)`: a DELETE from the table where the primary key
        equals `id`. */
    method DeleteById(id: Value) returns (r: Result<DeleteBuilder>)
      ensures r.Ok? <==> table != ""
      ensures r.Ok? ==> (fresh(r.value) && fresh(r.value.conditions) &&
        r.value.State() == DeleteState(Str(table), [Expr(primaryKey, "=", Bound(id), false, false)], 0, 0))
    {
      var builder := new DeleteBuilder();
      var done := builder.From(Str(table));
      if done.Err? {
        return Err(done.error);
      }
      ComparisonOps();
      done := builder.conditions.Where(primaryKey, Str("="), Bound(id));
      return Ok(builder);
    }

    /** `update(values)`: an UPDATE of the table with `setSome(values)`. */
    method Update(values: Value) returns (r: Result<UpdateBuilder>)
      ensures r.Ok? <==> table != "" && UpdateCalls(values).Ok? && CallsOutcome(UpdateCalls(values).value).Ok?
      ensures table != "" && r.Err? ==>
        r.error == if UpdateCalls(values).Err? then UpdateCalls(values).error else CallsOutcome(UpdateCalls(values).value).error
      ensures r.Ok? ==> (fresh(r.value) && fresh(r.value.conditions) &&
        r.value.State() == UpdateState(Str(table), Pushed(UpdateCalls(values).value), [], 0, 0))
    {
      var builder := new UpdateBuilder();
      var done := builder.From(Str(table));
      if done.Err? {
        return Err(done.error);
      }
      done := builder.SetSome(values);
      if done.Err? {
        return Err(done.error);
      }
      return Ok(builder);
    }

    /** `updateById(id, values)`: `update`, where the primary key equals
        `id`. */
    method UpdateById(id: Value, values: Value) returns (r: Result<UpdateBuilder>)
      ensures r.Ok? <==> table != "" && UpdateCalls(values).Ok? && CallsOutcome(UpdateCalls(values).value).Ok?
      ensures table != "" && r.Err? ==>
        r.error == if UpdateCalls(values).Err? then UpdateCalls(values).error else CallsOutcome(UpdateCalls(values).value).error
      ensures r.Ok? ==> (fresh(r.value) && fresh(r.value.conditions) &&
        r.value.State() == UpdateState(Str(table), Pushed(UpdateCalls(values).value), [Expr(primaryKey, "=", Bound(id), false, false)], 0, 0))
    {
      r := Update(values);
      if r.Ok? {
        ComparisonOps();
        var done := r.value.conditions.Where(primaryKey, Str("="), Bound(id));
      }
    }
  }
}
