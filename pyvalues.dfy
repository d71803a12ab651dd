/** Values carried in XML-RPC records, and the two Python built-ins the listener
    applies to them: `str()` (through `'{}'.format(...)`) and `int()`. */
module PyValues {

  /** A scalar field of a record exchanged with the TestLink server. */
  datatype Value = VStr(s: string) | VInt(n: int) | VBool(b: bool) | VNone

  /** A Python dict keyed by field name. */
  type Record = map<string, Value>

  /** Every TestLink reply is a list of records. */
  type Response = seq<Record>

  predicate IsDigit(c: char) { '0' <= c <= '9' }

  predicate AllDigits(s: string) { forall i :: 0 <= i < |s| ==> IsDigit(s[i]) }

  function DigitChar(d: nat): (c: char)
    requires d < 10
    ensures IsDigit(c) && DigitValue(c) == d
  {
    (('0' as int) + d) as char
  }

  function DigitValue(c: char): nat
    requires IsDigit(c)
  {
    c as int - '0' as int
  }

  /** Decimal digits of a natural number, most significant first. */
  function ShowNat(n: nat): (s: string)
    ensures |s| > 0 && AllDigits(s)
    ensures s[0] == '0' ==> n == 0
    decreases n
  {
    if n < 10 then [DigitChar(n)] else ShowNat(n / 10) + [DigitChar(n % 10)]
  }

  /** Value of a string of decimal digits. */
  function ParseNat(s: string): nat
    requires AllDigits(s)
    decreases |s|
  {
    if s == [] then 0 else 10 * ParseNat(s[..|s| - 1]) + DigitValue(s[|s| - 1])
  }

  lemma {:induction false} ParseShowNat(n: nat)
    ensures ParseNat(ShowNat(n)) == n
    decreases n
  {
    if n >= 10 {
      var s := ShowNat(n / 10) + [DigitChar(n % 10)];
      assert s[..|s| - 1] == ShowNat(n / 10);
      ParseShowNat(n / 10);
    }
  }

  /** Python's `str()` of an int. */
  function ShowInt(n: int): string
  {
    if n < 0 then "-" + ShowNat(-n) else ShowNat(n)
  }

  /** Python's `str()` of a value, which is what `'{}'.format(v)` inserts. */
  function PyStr(v: Value): string
  {
    match v
    case VStr(s) => s
    case VInt(n) => ShowInt(n)
    case VBool(b) => if b then "True" else "False"
    case VNone => "None"
  }

  /** A string Python's `int()` accepts: an optional sign and at least one digit. */
  predicate IsIntLiteral(s: string)
  {
    if |s| > 0 && (s[0] == '-' || s[0] == '+') then |s| > 1 && AllDigits(s[1..])
    else |s| > 0 && AllDigits(s)
  }

  /** The values Python's `int()` converts without raising. */
  predicate IntConvertible(v: Value)
  {
    match v
    case VStr(s) => IsIntLiteral(s)
    case VInt(_) => true
    case VBool(_) => true
    case VNone => false
  }

  /** Python's `int()`: ints pass through, `True`/`False` are 1/0, and a string's
      sign decides the sign of its value. */
  function PyInt(v: Value): (r: int)
    requires IntConvertible(v)
    ensures v.VInt? ==> r == v.n
    ensures v.VBool? ==> r == (if v.b then 1 else 0)
    ensures v.VStr? && v.s[0] == '-' ==> r <= 0
    ensures v.VStr? && v.s[0] != '-' ==> r >= 0
  {
    match v
    case VStr(s) =>
      if s[0] == '-' then -(ParseNat(s[1..]) as int)
      else if s[0] == '+' then ParseNat(s[1..])
      else ParseNat(s)
    case VInt(n) => n
    case VBool(b) => if b then 1 else 0
  }

  /** `int(str(n)) == n`: a version number formatted by the server reads back unchanged. */
  lemma IntRoundTrip(n: int)
    ensures IntConvertible(VStr(ShowInt(n)))
    ensures PyInt(VStr(ShowInt(n))) == n
  {
    if n < 0 {
      var s := "-" + ShowNat(-n);
      assert s[1..] == ShowNat(-n);
      ParseShowNat(-n);
    } else {
      ParseShowNat(n);
    }
  }

  /** Decimal digits as `str()` writes a natural number: no leading zero except in `0`. */
  predicate IsCanonicalNat(s: string)
  {
    |s| > 0 && AllDigits(s) && (s[0] == '0' ==> |s| == 1)
  }

  /** A string `str()` produces for some int. */
  predicate IsCanonicalInt(s: string)
  {
    IsCanonicalNat(s) || (|s| > 1 && s[0] == '-' && IsCanonicalNat(s[1..]) && s[1] != '0')
  }

  lemma {:induction false} ParseNatPositive(s: string)
    requires |s| > 0 && AllDigits(s) && s[0] != '0'
    ensures ParseNat(s) > 0
    decreases |s|
  {
    if |s| > 1 {
      var t := s[..|s| - 1];
      assert t[0] == s[0];
      ParseNatPositive(t);
    }
  }

  lemma {:induction false} ShowParseNat(s: string)
    requires IsCanonicalNat(s)
    ensures ShowNat(ParseNat(s)) == s
    decreases |s|
  {
    if |s| > 1 {
      var t := s[..|s| - 1];
      assert t[0] == s[0];
      ParseNatPositive(t);
      ShowParseNat(t);
      assert s == t + [s[|s| - 1]];
    }
  }

  /** `str(int(s)) == s` for every string `str()` writes for an int. */
  lemma ShowIntRoundTrip(s: string)
    requires IsCanonicalInt(s)
    ensures IntConvertible(VStr(s))
    ensures ShowInt(PyInt(VStr(s))) == s
  {
    if s[0] == '-' {
      ParseNatPositive(s[1..]);
      ShowParseNat(s[1..]);
      assert s == "-" + s[1..];
    } else {
      ShowParseNat(s);
    }
  }
}
