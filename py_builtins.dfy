/** Python 2 values and built-ins that the tunnel code relies on: the values a
    bind-port argument can hold, the exceptions it can raise, and `int()`
    applied to a byte string, with its inverse `str()` on integers. */
module PyBuiltins {

  datatype Option<+T> = None | Some(value: T)

  /** The Python exceptions the modelled code can raise on its own. */
  datatype PyError = TypeError | ValueError | IndexError

  datatype Result<+T> = Ok(value: T) | Err(error: PyError)

  /** A Python 2 value as far as the tunnel cares: `None`, an `int`, a `str`,
      a sized sequence (tuple or list) or any other object without `len()`. */
  datatype PyVal = PyNone | PyInt(i: int) | PyStr(s: string) | PySeq(items: seq<PyVal>) | PyOther

  /** The characters C's `isspace` accepts in the C locale. */
  predicate IsSpace(c: char) {
    c == ' ' || c == '\t' || c == '\n' || c == '\r' || c == '\U{000B}' || c == '\U{000C}'
  }

  predicate IsDigit(c: char) {
    '0' <= c <= '9'
  }

  predicate IsDigits(ds: string) {
    |ds| > 0 && forall i :: 0 <= i < |ds| ==> IsDigit(ds[i])
  }

  /** Drops leading white space; what remains is a suffix of `s`. */
  function TrimLeft(s: string): (r: string)
    ensures |r| <= |s| && r == s[|s| - |r|..]
    ensures r == [] || !IsSpace(r[0])
  {
    if s != [] && IsSpace(s[0]) then TrimLeft(s[1..]) else s
  }

  /** Drops trailing white space; what remains is a prefix of `s`. */
  function TrimRight(s: string): (r: string)
    ensures |r| <= |s| && r == s[..|r|]
    ensures r == [] || !IsSpace(r[|r| - 1])
  {
    if s != [] && IsSpace(s[|s| - 1]) then TrimRight(s[..|s| - 1]) else s
  }

  function Strip(s: string): string {
    TrimRight(TrimLeft(s))
  }

  function DigitValue(c: char): nat
    requires IsDigit(c)
  {
    c as int - '0' as int
  }

  /** The value of a string of decimal digits, most significant first. */
  function DigitsValue(ds: string): nat
    requires forall i :: 0 <= i < |ds| ==> IsDigit(ds[i])
  {
    if ds == [] then 0 else DigitsValue(ds[..|ds| - 1]) * 10 + DigitValue(ds[|ds| - 1])
  }

  /** Python 2's `int(s)` for a `str`: white space around the literal, one
      optional sign, white space after the sign (CPython 2.7's strtol skips it
      again), then one or more ASCII decimal digits; anything else is a
      `ValueError`, here `None`. */
  function IntOfStr(s: string): Option<int> {
    SignedValue(Strip(s))
  }

  /** `int()` of a literal already stripped of surrounding white space. */
  function SignedValue(t: string): Option<int> {
    if |t| > 0 && (t[0] == '+' || t[0] == '-') then
      var ds := TrimLeft(t[1..]);
      var v: int := if IsDigits(ds) then DigitsValue(ds) else 0;
      if IsDigits(ds) then Some(if t[0] == '-' then -v else v) else None
    else if IsDigits(t) then Some(DigitsValue(t))
    else None
  }

  function DigitChar(d: nat): (c: char)
    requires d < 10
    ensures IsDigit(c) && DigitValue(c) == d
  {
    (d + '0' as int) as char
  }

  /** Python's `str(n)` for a non-negative integer. */
  function NatDigits(n: nat): (ds: string)
    decreases n
  {
    if n < 10 then [DigitChar(n)] else NatDigits(n / 10) + [DigitChar(n % 10)]
  }

  /** Python's `str(n)` (and `'%d' % n`) for any integer. */
  function DecimalString(n: int): string {
    if n < 0 then "-" + NatDigits(-n) else NatDigits(n)
  }

  lemma {:induction false} NatDigitsValue(n: nat)
    ensures IsDigits(NatDigits(n)) && DigitsValue(NatDigits(n)) == n
    decreases n
  {
    if n >= 10 {
      var prefix := NatDigits(n / 10);
      NatDigitsValue(n / 10);
      var ds := prefix + [DigitChar(n % 10)];
      assert ds[..|ds| - 1] == prefix;
      assert DigitsValue(ds) == DigitsValue(prefix) * 10 + n % 10;
    }
  }

  /** A string that neither starts nor ends with white space is its own
      strip. */
  lemma StripUnpadded(s: string)
    requires s != [] && !IsSpace(s[0]) && !IsSpace(s[|s| - 1])
    ensures TrimLeft(s) == s && Strip(s) == s
  {
  }

  /** `int(str(n)) == n` for every integer `n`. */
  lemma IntOfStrRoundTrip(n: int)
    ensures IntOfStr(DecimalString(n)) == Some(n)
  {
    if n < 0 {
      NegativeRoundTrip(-n);
    } else {
      NatDigitsValue(n);
      var ds := NatDigits(n);
      StripUnpadded(ds);
      assert SignedValue(ds) == Some(n);
    }
  }

  lemma NegativeRoundTrip(m: int)
    requires m > 0
    ensures IntOfStr(DecimalString(-m)) == Some(-m)
  {
    NatDigitsValue(m);
    assert DecimalString(-m) == ['-'] + NatDigits(m);
    NegatedDigits(NatDigits(m), m);
  }

  /** `int()` of a minus sign followed by digits is the negated value of the
      digits. */
  lemma NegatedDigits(ds: string, m: int)
    requires IsDigits(ds) && DigitsValue(ds) == m
    ensures IntOfStr(['-'] + ds) == Some(-m)
  {
    var s := ['-'] + ds;
    assert s[|s| - 1] == ds[|ds| - 1];
    assert IsDigit(ds[|ds| - 1]);
    StripUnpadded(s);
    assert s[1..] == ds;
    assert !IsSpace(ds[0]);
    assert TrimLeft(ds) == ds;
  }

  /** What `TrimLeft` drops is white space. */
  lemma {:induction false} TrimLeftDropsSpace(s: string, i: nat)
    requires i < |s| - |TrimLeft(s)|
    ensures IsSpace(s[i])
  {
    if i > 0 {
      TrimLeftDropsSpace(s[1..], i - 1);
    }
  }

  /** What `TrimRight` drops is white space. */
  lemma {:induction false} TrimRightDropsSpace(s: string, i: nat)
    requires |TrimRight(s)| <= i < |s|
    ensures IsSpace(s[i])
  {
    if i < |s| - 1 {
      TrimRightDropsSpace(s[..|s| - 1], i);
    }
  }

  /** Trimming white space keeps every colon. */
  lemma ColonSurvivesTrim(s: string)
    requires ':' in s
    ensures ':' in TrimLeft(s) && ':' in TrimRight(s)
  {
    var j :| 0 <= j < |s| && s[j] == ':';
    var l, r := TrimLeft(s), TrimRight(s);
    var a := |s| - |l|;
    assert !IsSpace(s[j]);
    if j < a {
      TrimLeftDropsSpace(s, j);
    }
    assert l[j - a] == s[j];
    if j >= |r| {
      TrimRightDropsSpace(s, j);
    }
    assert r[j] == s[j];
  }

  /** A string holding a colon is never an integer literal, so `int()`
      rejects it. */
  lemma ColonIsNotInt(s: string)
    requires ':' in s
    ensures IntOfStr(s) == None
  {
    ColonSurvivesTrim(s);
    ColonSurvivesTrim(TrimLeft(s));
    ColonIsNotSigned(Strip(s));
  }

  lemma ColonIsNotSigned(t: string)
    requires ':' in t
    ensures SignedValue(t) == None
  {
    var j :| 0 <= j < |t| && t[j] == ':';
    if |t| > 0 && (t[0] == '+' || t[0] == '-') {
      assert t[1..][j - 1] == ':';
      ColonSurvivesTrim(t[1..]);
      var ds := TrimLeft(t[1..]);
      var k :| 0 <= k < |ds| && ds[k] == ':';
      assert !IsDigit(ds[k]);
    } else {
      assert !IsDigit(t[j]);
    }
  }
}
