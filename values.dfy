/**
  The Python values that the CloudFormation operations receive as arguments,
  with the two things the operations do to them: test their truthiness and
  coerce them with `int()`.
 */
module Values {
  import opened Wrappers
  import opened Decimal

  /** An argument value: Python's None, a bool, an int or a str. */
  datatype Value = Null | Bool(b: bool) | Int(i: int) | Str(s: string)

  /** Python truthiness: None, False, 0 and the empty string are false. */
  predicate Truthy(v: Value)
    ensures Truthy(v) <==> v !in {Null, Bool(false), Int(0), Str("")}
  {
    match v
    case Null => false
    case Bool(b) => b
    case Int(i) => i != 0
    case Str(s) => s != ""
  }

  /** The TypeError or ValueError that `int()` raises, with the offending value. */
  datatype EncodeError = InvalidInteger(v: Value)

  /** Python's `int(v)`. */
  function ToInt(v: Value): (r: Result<int, EncodeError>)
    ensures r.Failure? ==> r.error == InvalidInteger(v)
    ensures v.Null? ==> r.Failure?
    ensures v.Int? ==> r == Success(v.i)
    ensures v.Bool? ==> r == Success(if v.b then 1 else 0)
    ensures v.Str? ==> (r.Success? <==> IntegerText(StripTrailing(StripLeading(v.s))))
    ensures v.Str? && r.Success? ==> ParseInt(v.s) == Some(r.value)
  {
    match v
    case Null => Failure(InvalidInteger(v))
    case Bool(b) => Success(if b then 1 else 0)
    case Int(i) => Success(i)
    case Str(s) =>
      match ParseInt(s)
      case Some(n) => Success(n)
      case None => Failure(InvalidInteger(v))
  }

  /**
    A non-numeric timeout text is an encoding error carrying that text, while
    a padded `+n` is read as n.
   */
  lemma ToIntOnText(p: string, n: nat, q: string)
    requires AllSpace(p) && AllSpace(q)
    ensures ToInt(Str("1a2")) == Failure(InvalidInteger(Str("1a2")))
    ensures ToInt(Str(p + "+" + DecimalString(n) + q)) == Success(n)
  {
    ParseIntRejectsLetter();
    ParseIntPaddedPlus(p, n, q);
  }

  /** `int()` leaves an int alone and reads back what `str()` wrote. */
  lemma ToIntRoundTrip(n: int)
    ensures ToInt(Int(n)) == Success(n)
    ensures ToInt(Str(IntString(n))) == Success(n)
  {
    ParseIntRoundTrip(n);
  }
}
