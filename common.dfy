/** Shared vocabulary of the relief-aid model: optional values, day numbers,
    clock readings, user identities and the randomness a request draws. */
module Common {

  datatype Option<+T> = None | Some(value: T) {
    function GetOr(default: T): T {
      match this
      case Some(v) => v
      case None => default
    }
  }

  /** A calendar date, counted in days. `d + 1` is the next day. */
  type Day = int

  /** A calendar month number. */
  type Month = m: int | 1 <= m <= 12 witness 1

  /** A reading of the server clock (`timezone.now()`): the day it falls on and
      the year and month that `strftime('%y%m')` prints. The link between the
      day number and the year/month is the calendar, which is not modelled. */
  datatype Moment = Moment(date: Day, year: nat, month: Month)

  /** A Django `User` primary key. */
  type UserId = nat

  predicate IsAsciiDigit(c: char) { '0' <= c <= '9' }

  predicate IsLowerHex(c: char) { IsAsciiDigit(c) || 'a' <= c <= 'f' }

  predicate IsUpperHex(c: char) { IsAsciiDigit(c) || 'A' <= c <= 'F' }

  predicate AllDigits(s: string) { forall k :: 0 <= k < |s| ==> IsAsciiDigit(s[k]) }

  /** The text form of a version-4 UUID as Python's `str(uuid4())` prints it:
      8-4-4-4-12 lower-case hexadecimal groups separated by hyphens. */
  predicate IsUuidText(u: string) {
    && |u| == 36
    && (forall k :: 0 <= k < 36 && k in {8, 13, 18, 23} ==> u[k] == '-')
    && (forall k :: 0 <= k < 36 && k !in {8, 13, 18, 23} ==> IsLowerHex(u[k]))
  }

  type UuidText = u: string | IsUuidText(u)
    witness "00000000-0000-4000-8000-000000000000"

  /** What `get_random_string(4, '0123456789')` can return. */
  type FourDigits = s: string | |s| == 4 && AllDigits(s) witness "0000"

  /** The random draws one request may make: a `uuid4()` (application id or
      pickup code) and four random digits (reference number). */
  datatype Randomness = Randomness(uuid: UuidText, digits: FourDigits)

  /** A scalar member of a JSON request body (`request.data`): `null`, a
      boolean, an integer or a string. */
  datatype Scalar = SNull | SBool(b: bool) | SInt(i: int) | SStr(s: string)

  /** A JSON request body with scalar members. */
  type RequestData = map<string, Scalar>

  /** `request.data.get(key, default)`. */
  function Get(data: RequestData, key: string, default: Scalar): (v: Scalar)
    ensures key in data ==> v == data[key]
    ensures key !in data ==> v == default
  {
    if key in data then data[key] else default
  }

  /** Python truthiness of a scalar (`if not value:`). */
  predicate Truthy(v: Scalar) {
    match v
    case SNull => false
    case SBool(b) => b
    case SInt(i) => i != 0
    case SStr(s) => s != ""
  }
}
