/** The parts of Go's `strconv` that the CLI relies on, with base 10 fixed:
    `ParseUint`, `ParseInt` and `ParseBool`. Only success or failure and the
    parsed value are modelled; the error kind (syntax or range) is discarded by
    every caller in the model. */
module GoStrconv {
  import opened Wrappers
  import opened Decimal
  import opened Text

  /** The bit sizes the CLI asks for. */
  datatype Width = W8 | W16 | W32 | W64

  /** 2^bits: one past the largest unsigned value of the width. */
  function UnsignedLimit(w: Width): nat
  {
    match w
    case W8 => 0x100
    case W16 => 0x1_0000
    case W32 => 0x1_0000_0000
    case W64 => 0x1_0000_0000_0000_0000
  }

  /** 2^(bits-1): the magnitude of the most negative signed value. */
  function SignedLimit(w: Width): int
  {
    match w
    case W8 => 0x80
    case W16 => 0x8000
    case W32 => 0x8000_0000
    case W64 => 0x8000_0000_0000_0000
  }

  /** `strconv.ParseUint(s, 10, bits)`: one or more ASCII digits, no sign, no
      underscores, and a value that fits the width. */
  function ParseUint(s: string, w: Width): (r: Option<nat>)
    ensures r.Some? ==> r.value < UnsignedLimit(w)
    ensures r.Some? ==> |s| > 0 && AllDigits(s)
  {
    if |s| > 0 && AllDigits(s) && ValueOf(s) < UnsignedLimit(w) then Some(ValueOf(s)) else None
  }

  /** `strconv.ParseInt(s, 10, bits)`: an optional single `+` or `-`, then what
      `ParseUint` accepts, within the signed range of the width. */
  function ParseInt(s: string, w: Width): (r: Option<int>)
    ensures r.Some? ==> -SignedLimit(w) <= r.value < SignedLimit(w)
    ensures r.Some? ==> |s| > 0 && (r.value < 0 ==> s[0] == '-')
  {
    if |s| == 0 then None
    else
      var neg := s[0] == '-';
      var digits := if s[0] == '+' || s[0] == '-' then s[1..] else s;
      if |digits| > 0 && AllDigits(digits) then
        var m := ValueOf(digits);
        if neg && m <= SignedLimit(w) then Some(0 - m)
        else if !neg && m < SignedLimit(w) then Some(m)
        else None
      else None
  }

  /** `strconv.ParseBool`: exactly six spellings of each truth value. */
  function ParseBool(s: string): (r: Option<bool>)
  {
    if s in ["1", "t", "T", "TRUE", "true", "True"] then Some(true)
    else if s in ["0", "f", "F", "FALSE", "false", "False"] then Some(false)
    else None
  }

  /** `strconv.FormatBool`. */
  function FormatBool(b: bool): string
  {
    if b then "true" else "false"
  }

  /** Every number the width can hold parses back from its decimal rendering;
      every larger one is refused. */
  lemma ParseUintFormat(n: nat, w: Width)
    ensures ParseUint(FormatNat(n), w) == if n < UnsignedLimit(w) then Some(n) else None
  {
    ValueOfFormat(n);
  }

  /** A sign is never accepted by the unsigned parser. */
  lemma ParseUintRejectsSign(s: string, w: Width)
    requires |s| > 0 && (s[0] == '+' || s[0] == '-')
    ensures ParseUint(s, w) == None
  {
    assert !IsDigit(s[0]);
  }

  /** Leading zeros are accepted and do not change the value. */
  lemma ParseUintLeadingZero(s: string, w: Width)
    requires |s| > 0
    ensures ParseUint("0" + s, w) == ParseUint(s, w)
  {
    var z := "0" + s;
    if AllDigits(s) {
      ValueOfLeadingZero(s);
    } else {
      var k :| 0 <= k < |s| && !IsDigit(s[k]);
      assert z[k + 1] == s[k];
    }
  }

  /** Every signed number the width can hold parses back from its rendering;
      every other one is refused. */
  lemma ParseIntFormat(i: int, w: Width)
    ensures ParseInt(FormatInt(i), w) == if -SignedLimit(w) <= i < SignedLimit(w) then Some(i) else None
  {
    var s := FormatInt(i);
    var m := if i < 0 then -i else i;
    var f := FormatNat(m);
    ValueOfFormat(m);
    if i < 0 {
      assert s[1..] == f;
    } else {
      assert s == f;
      assert IsDigit(s[0]);
    }
  }

  /** An explicit `+` is accepted and changes nothing. */
  lemma ParseIntPlus(n: nat, w: Width)
    ensures ParseInt("+" + FormatNat(n), w) == ParseInt(FormatNat(n), w)
  {
    var f := FormatNat(n);
    assert ("+" + f)[1..] == f;
    assert IsDigit(f[0]);
  }

  /** `ParseBool` reads back what `FormatBool` writes, and the one-letter and
      numeric spellings agree with it. */
  lemma ParseBoolFormat(b: bool)
    ensures ParseBool(FormatBool(b)) == Some(b)
    ensures ParseBool(if b then "t" else "f") == Some(b)
    ensures ParseBool(if b then "1" else "0") == Some(b)
  {
  }
}
