/** How the views turn members of a JSON request body into Python values:
    `int(v)` and the text a `TextField` column stores for an assigned value. */
module Requests {
  import opened Common
  import opened Numerals

  /** The outcome of a Python conversion: a value, or the exception raised. */
  datatype Conversion<T> = Converted(value: T) | RaisedValueError | RaisedTypeError

  /** Python `int(v)` for a JSON scalar: an integer is itself, a boolean is
      0 or 1, a string is parsed (a malformed one raises `ValueError`), and
      `None` raises `TypeError`. */
  function PyInt(v: Scalar): (r: Conversion<int>)
    ensures v.SNull? <==> r.RaisedTypeError?
    ensures r.RaisedValueError? <==> v.SStr? && ParsePyInt(v.s).None?
    ensures v.SInt? ==> r == Converted(v.i)
    ensures v.SBool? ==> r == Converted(if v.b then 1 else 0)
  {
    match v
    case SNull => RaisedTypeError
    case SBool(b) => Converted(if b then 1 else 0)
    case SInt(i) => Converted(i)
    case SStr(s) =>
      match ParsePyInt(s)
      case Some(n) => Converted(n)
      case None => RaisedValueError
  }

  /** Every integer written in decimal is read back by `int()`. */
  lemma PyIntOfDecimal(n: int)
    ensures PyInt(SStr(IntToDecimal(n))) == Converted(n)
  {
    PyIntRoundTrip(n);
  }

  /** What a `TextField` column stores when the view assigns `v`: a string
      as it is, any other scalar as `str(v)`; `None` violates the column's
      NOT NULL constraint, so there is nothing to store. */
  function TextColumn(v: Scalar): (r: Option<string>)
    ensures r.None? <==> v.SNull?
    ensures v.SStr? ==> r == Some(v.s)
  {
    match v
    case SNull => None
    case SStr(s) => Some(s)
    case SInt(i) => Some(IntToDecimal(i))
    case SBool(b) => Some(if b then "True" else "False")
  }
}
