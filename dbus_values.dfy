/** Coercion of a command-line token to a D-Bus basic value, given the type
    code the introspection data declares for the argument (`strToDBusType` of
    the Go CLI). The codes are those of the D-Bus Specification, section
    "Type System", "Basic types". */
module DBusValues {
  import opened Wrappers
  import opened Decimal
  import opened GoStrconv

  /** The Go value handed to the D-Bus call. `h` (a Unix file descriptor) is
      parsed as a float64 by the CLI, hence `Float64`. */
  datatype Value =
    | Byte(n: int)
    | Boolean(b: bool)
    | Int16(n: int)
    | Uint16(n: int)
    | Int32(n: int)
    | Uint32(n: int)
    | Int64(n: int)
    | Uint64(n: int)
    | Float64(x: real)
    | Str(s: string)

  datatype CoerceError =
    | UnsupportedType(tag: string)      // "unsupported dbus type '%s'"
    | ConversionFailed(tag: string, token: string)

  /** The codes the CLI handles; `d` (double) and every container or
      multi-character signature are not among them. */
  const SupportedTags: set<string> := {"y", "b", "n", "q", "i", "u", "x", "t", "h", "s"}

  /** A value is a faithful instance of the type code: the right Go type and,
      for integers, within the range of that type. */
  predicate WellTyped(tag: string, v: Value)
  {
    match tag
    case "y" => v.Byte? && 0 <= v.n < UnsignedLimit(W8)
    case "b" => v.Boolean?
    case "n" => v.Int16? && -SignedLimit(W16) <= v.n < SignedLimit(W16)
    case "q" => v.Uint16? && 0 <= v.n < UnsignedLimit(W16)
    case "i" => v.Int32? && -SignedLimit(W32) <= v.n < SignedLimit(W32)
    case "u" => v.Uint32? && 0 <= v.n < UnsignedLimit(W32)
    case "x" => v.Int64? && -SignedLimit(W64) <= v.n < SignedLimit(W64)
    case "t" => v.Uint64? && 0 <= v.n < UnsignedLimit(W64)
    case "h" => v.Float64?
    case "s" => v.Str?
    case _ => false
  }

  /** The integer type codes, with the width and signedness each one parses with. */
  predicate IsIntegerTag(tag: string)
  {
    tag in {"y", "n", "q", "i", "u", "x", "t"}
  }

  function IntegerWidth(tag: string): Width
    requires IsIntegerTag(tag)
  {
    match tag
    case "y" => W8
    case "n" => W16
    case "q" => W16
    case "i" => W32
    case "u" => W32
    case "x" => W64
    case "t" => W64
  }

  predicate IsSignedTag(tag: string)
  {
    tag in {"n", "i", "x"}
  }

  function MakeInteger(tag: string, n: int): Value
    requires IsIntegerTag(tag)
  {
    match tag
    case "y" => Byte(n)
    case "n" => Int16(n)
    case "q" => Uint16(n)
    case "i" => Int32(n)
    case "u" => Uint32(n)
    case "x" => Int64(n)
    case "t" => Uint64(n)
  }

  function Lift<T>(o: Option<T>, tag: string, token: string, make: T -> Value): Result<Value, CoerceError>
  {
    match o
    case Some(x) => Success(make(x))
    case None => Failure(ConversionFailed(tag, token))
  }

  /** `strToDBusType(typ, val)`. `parseFloat` stands for `strconv.ParseFloat(val, 64)`. */
  function StrToDBusType(tag: string, token: string, parseFloat: string -> Option<real>): (r: Result<Value, CoerceError>)
    ensures r.Success? ==> WellTyped(tag, r.value)
    ensures r.Failure? ==> r.error == UnsupportedType(tag) || r.error == ConversionFailed(tag, token)
    ensures r == Failure(UnsupportedType(tag)) <==> tag !in SupportedTags
  {
    match tag
    case "y" => Lift(ParseUint(token, W8), tag, token, n => Byte(n))
    case "b" => Lift(ParseBool(token), tag, token, b => Boolean(b))
    case "n" => Lift(ParseInt(token, W16), tag, token, n => Int16(n))
    case "q" => Lift(ParseUint(token, W16), tag, token, n => Uint16(n))
    case "i" => Lift(ParseInt(token, W32), tag, token, n => Int32(n))
    case "u" => Lift(ParseUint(token, W32), tag, token, n => Uint32(n))
    case "x" => Lift(ParseInt(token, W64), tag, token, n => Int64(n))
    case "t" => Lift(ParseUint(token, W64), tag, token, n => Uint64(n))
    case "h" => Lift(parseFloat(token), tag, token, x => Float64(x))
    case "s" => Success(Str(token))
    case _ => Failure(UnsupportedType(tag))
  }

  /** A string argument is passed through untouched, whatever it contains. */
  lemma CoerceStringIsIdentity(token: string, parseFloat: string -> Option<real>)
    ensures StrToDBusType("s", token, parseFloat) == Success(Str(token))
  {
  }

  /** `d` is not handled: a double argument can never be given on the command line. */
  lemma CoerceDoubleUnsupported(token: string, parseFloat: string -> Option<real>)
    ensures StrToDBusType("d", token, parseFloat) == Failure(UnsupportedType("d"))
  {
  }

  /** For every integer code, the decimal rendering of a number is accepted
      exactly when the number lies in the range of the code's type, and then
      yields that number. */
  lemma CoerceIntegerRoundTrip(tag: string, n: int, parseFloat: string -> Option<real>)
    requires IsIntegerTag(tag)
    ensures var r := StrToDBusType(tag, FormatInt(n), parseFloat);
            var w := IntegerWidth(tag);
            var inRange := if IsSignedTag(tag) then -SignedLimit(w) <= n < SignedLimit(w)
                           else 0 <= n < UnsignedLimit(w);
            r == if inRange then Success(MakeInteger(tag, n)) else Failure(ConversionFailed(tag, FormatInt(n)))
  {
    var w := IntegerWidth(tag);
    if IsSignedTag(tag) {
      ParseIntFormat(n, w);
    } else if n >= 0 {
      ParseUintFormat(n, w);
    } else {
      ParseUintRejectsSign(FormatInt(n), w);
    }
  }

  /** The boolean code accepts exactly Go's `ParseBool` spellings. */
  lemma CoerceBoolean(token: string, parseFloat: string -> Option<real>)
    ensures StrToDBusType("b", token, parseFloat).Success? <==> ParseBool(token).Some?
    ensures ParseBool(token).Some? ==> StrToDBusType("b", token, parseFloat) == Success(Boolean(ParseBool(token).value))
  {
  }

  /** Concrete edges of the ranges. */
  lemma CoerceByteEdges(parseFloat: string -> Option<real>)
    ensures StrToDBusType("y", "255", parseFloat) == Success(Byte(255))
    ensures StrToDBusType("y", "256", parseFloat).Failure?
    ensures StrToDBusType("q", "-1", parseFloat).Failure?
  {
    assert FormatNat(25) == FormatNat(2) + "5";
    assert FormatInt(255) == FormatNat(25) + "5" == "255";
    assert FormatInt(256) == FormatNat(25) + "6" == "256";
    assert FormatInt(-1) == "-1";
    CoerceIntegerRoundTrip("y", 255, parseFloat);
    CoerceIntegerRoundTrip("y", 256, parseFloat);
    CoerceIntegerRoundTrip("q", -1, parseFloat);
  }
}
