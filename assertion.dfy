/** The argument guards every builder method runs before it changes
    anything: each either lets the call through or fails with an `Error`
    whose message names the offending argument. */
module Assertion {
  import opened Results
  import opened Text
  import opened Values

  /** `error(message)`: always fails, with exactly that message. */
  function Fail<T>(message: string): (r: Result<T>)
    ensures r.Err? && r.error.Error? && r.error.message == message
  {
    Err(Error(message))
  }

  /** `required(value, variable)`: fails exactly on `null` and `undefined`. */
  function Required(value: Value, variable: string): (r: Result<()>)
    ensures r.Err? <==> value.Null? || value.Undefined?
    ensures r.Err? ==> r.error == Error("The " + variable + " is required.")
  {
    if value.Null? || value.Undefined? then Fail("The " + variable + " is required.") else Ok(())
  }

  /** `stringed(value, variable)`: lets through exactly the non-empty strings. */
  function Stringed(value: Value, variable: string): (r: Result<()>)
    ensures r.Ok? <==> value.Str? && value.s != ""
    ensures r.Err? ==> r.error == Error("The " + variable + " is required to be string.")
  {
    if !Truthy(value) || !value.Str? then Fail("The " + variable + " is required to be string.")
    else Ok(())
  }

  /** The check `integer` makes on `+num`. */
  predicate PositiveWhole(n: Numeric)
  {
    n.Whole? && n.n > 0
  }

  /** `integer(num, variable)`: lets through exactly the values whose numeric
      conversion is a positive whole number. */
  function Integer(num: Value, variable: string): (r: Result<()>)
    ensures r.Ok? <==> PositiveWhole(ToNumber(num))
    ensures r.Err? ==> r.error == Error("The " + variable + " is required to be integer.")
  {
    var n := ToNumber(num);
    if n.NotWhole? || n.n <= 0 then Fail("The " + variable + " is required to be integer.")
    else Ok(())
  }

  /** A number, or its decimal text, passes `integer` exactly when it is
      positive: 0 and the negative numbers fail. */
  lemma IntegerOfInt(n: int, variable: string)
    ensures Integer(Num(n), variable).Ok? <==> n > 0
    ensures Integer(Str(IntToString(n)), variable).Ok? <==> n > 0
  {
    IntegerOfText(n, variable);
    assert ToNumber(Num(n)) == Whole(n);
    assert PositiveWhole(Whole(n)) <==> n > 0;
  }

  lemma IntegerOfText(n: int, variable: string)
    ensures Integer(Str(IntToString(n)), variable).Ok? <==> n > 0
  {
    var t := IntToString(n);
    StringToNumberOfInt(n);
    assert ToNumber(Str(t)) == Whole(n);
    assert PositiveWhole(Whole(n)) <==> n > 0;
  }

  /** Text with a non-zero fraction, such as `1.5`, fails `integer`. */
  lemma IntegerRejectsFraction(d: string, f: string, variable: string)
    requires AllDigits(d) && AllDigits(f) && !AllZeros(f)
    ensures Integer(Str(d + "." + f), variable).Err?
  {
    StringToNumberFraction(d, f);
  }
}
