/** Decoded JSON values, and the Python built-ins the library applies to
    them: truthiness, `str()` and `int()`. */
module Json {
  import opened Signals

  datatype Json =
    | JNull
    | JBool(b: bool)
    | JInt(i: int)
    | JStr(s: string)
    | JList(items: seq<Json>)
    | JObj(fields: map<string, Json>)

  /** A JSON object, which Python decodes to a `dict`. */
  type Object = map<string, Json>

  /** Python truthiness: `None`, `False`, `0`, `""`, `[]` and `{}` are false. */
  predicate Truthy(j: Json)
    ensures !Truthy(j) <==> j in {JNull, JBool(false), JInt(0), JStr(""), JList([]), JObj(map[])}
  {
    match j
    case JNull => false
    case JBool(b) => b
    case JInt(i) => i != 0
    case JStr(s) => s != ""
    case JList(xs) => xs != []
    case JObj(m) => m != map[]
  }

  predicate IsDigit(c: char) {
    '0' <= c <= '9'
  }

  function DigitChar(d: nat): (c: char)
    requires d < 10
    ensures IsDigit(c) && (c as int) - ('0' as int) == d
  {
    "0123456789"[d]
  }

  /** The decimal numeral of `n`, without sign or leading zeros. */
  function NatToDecimal(n: nat): (s: string)
    ensures s != []
    ensures forall k :: 0 <= k < |s| ==> IsDigit(s[k])
    ensures n == 0 <==> s == "0"
    ensures s[0] == '0' ==> s == "0"
    decreases n
  {
    if n < 10 then [DigitChar(n)] else NatToDecimal(n / 10) + [DigitChar(n % 10)]
  }

  /** Python's `str()` of an int. */
  function IntToDecimal(i: int): string {
    if i < 0 then "-" + NatToDecimal(-i) else NatToDecimal(i)
  }

  /** Python's `str()` of a decoded JSON scalar; arrays and objects get a
      fixed stand-in for Python's `repr`. */
  function Str(j: Json): (r: string)
    ensures j.JStr? ==> r == j.s
    ensures j.JInt? ==> ParseInt(r) == Some(j.i)
  {
    match j
    case JNull => "None"
    case JBool(b) => if b then "True" else "False"
    case JInt(i) => ParseDecimal(i); IntToDecimal(i)
    case JStr(s) => s
    case JList(_) => "[...]"
    case JObj(_) => "{...}"
  }

  /** The value of a non-empty run of decimal digits. */
  function DigitsValue(s: string): nat
    requires forall k :: 0 <= k < |s| ==> IsDigit(s[k])
  {
    if s == [] then 0
    else
      assert IsDigit(s[|s| - 1]);
      DigitsValue(s[..|s| - 1]) * 10 + ((s[|s| - 1] as int) - ('0' as int))
  }

  predicate AllDigits(s: string) {
    s != [] && forall k :: 0 <= k < |s| ==> IsDigit(s[k])
  }

  /** An optionally signed non-empty run of decimal digits. */
  predicate Numeral(s: string) {
    AllDigits(s) || (|s| > 0 && (s[0] == '-' || s[0] == '+') && AllDigits(s[1..]))
  }

  /** Python's `int()` of a string: an optional sign followed by digits. */
  function ParseInt(s: string): (r: Option<int>)
    ensures r.Some? <==> Numeral(s)
    ensures r.Some? && r.value < 0 ==> |s| > 0 && s[0] == '-'
  {
    if |s| > 0 && (s[0] == '-' || s[0] == '+') then
      if AllDigits(s[1..]) then
        var v: int := DigitsValue(s[1..]);
        Some(if s[0] == '-' then -v else v)
      else None
    else if AllDigits(s) then Some(DigitsValue(s))
    else None
  }

  /** Python's `int()` of a decoded JSON value. */
  function ToInt(j: Json): (r: Try<int>)
    ensures j.JInt? ==> r == Ok(j.i)
    ensures r.Raised? <==> (j.JStr? && ParseInt(j.s).None?) || j.JNull? || j.JList? || j.JObj?
  {
    match j
    case JInt(i) => Ok(i)
    case JBool(b) => Ok(if b then 1 else 0)
    case JStr(s) =>
      (match ParseInt(s)
       case Some(i) => Ok(i)
       case None => Raised(ValueError("invalid literal for int()")))
    case _ => Raised(TypeError("int() argument must be a string or a number"))
  }

  lemma {:induction false} DigitsValueOfDecimal(n: nat)
    ensures DigitsValue(NatToDecimal(n)) == n
    decreases n
  {
    if n >= 10 {
      DigitsValueOfDecimal(n / 10);
      var s := NatToDecimal(n / 10) + [DigitChar(n % 10)];
      assert s[..|s| - 1] == NatToDecimal(n / 10);
    }
  }

  /** `int()` parses back the numeral `str()` renders. */
  lemma {:induction false} ParseDecimal(i: int)
    ensures ParseInt(IntToDecimal(i)) == Some(i)
  {
    if i < 0 {
      ParseNegative(-i);
      assert IntToDecimal(i) == "-" + NatToDecimal(-i);
    } else {
      ParseNatural(i);
      assert IntToDecimal(i) == NatToDecimal(i);
    }
  }

  lemma ParseNatural(n: nat)
    ensures ParseInt(NatToDecimal(n)) == Some(n)
  {
    var s := NatToDecimal(n);
    assert AllDigits(s) && s[0] != '-' && s[0] != '+';
    DigitsValueOfDecimal(n);
  }

  lemma ParseNegative(n: nat)
    ensures ParseInt("-" + NatToDecimal(n)) == Some(-(n as int))
  {
    var s := "-" + NatToDecimal(n);
    assert s[1..] == NatToDecimal(n);
    assert s[0] == '-' && AllDigits(s[1..]);
    DigitsValueOfDecimal(n);
  }

  lemma ToIntOfString(s: string)
    requires ParseInt(s).Some?
    ensures ToInt(JStr(s)) == Ok(ParseInt(s).value)
  {
  }

  /** `int(str(i)) == i`: rendering an int and parsing it back is lossless. */
  lemma {:induction false} IntRoundTrip(i: int)
    ensures ToInt(JStr(IntToDecimal(i))) == Ok(i)
  {
    ParseDecimal(i);
    ToIntOfString(IntToDecimal(i));
  }
}
