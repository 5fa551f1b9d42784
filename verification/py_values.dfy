/** Python and pandas values as the two scripts handle them: data-frame cells,
    Python's `==`, `str()` and `int()` on them, and the JSON values the scripts
    hand to the HTTP client. */
module PyValues {

  datatype Option<+T> = None | Some(value: T)

  datatype Result<+T, +E> = Ok(value: T) | Err(error: E)

  /** The Python exceptions the modelled code can raise. */
  datatype PyError = NameError | ValueError | TypeError

  /** One cell of a pandas data frame: a missing value (`NaN`), Python's `None`
      (what `str.split(..., expand=True)` pads short rows with), a string or
      an integer. */
  datatype Cell = NaN | Null | Str(s: string) | Int(i: int)

  /** A JSON value as the HTTP client serialises it: a cell, a list or an object. */
  datatype Json = JCell(cell: Cell) | JArray(items: seq<Json>) | JObject(fields: map<string, Json>)

  function JStr(s: string): Json { JCell(Str(s)) }

  /** Python's `a == b` on cells: a NaN is equal to nothing, not even to itself,
      and a string never equals an integer. */
  predicate PyEq(a: Cell, b: Cell) {
    match (a, b)
    case (Null, Null) => true
    case (Str(x), Str(y)) => x == y
    case (Int(x), Int(y)) => x == y
    case _ => false
  }

  /** Python's `==` on cells is equality of values, except that NaN is never
      equal: in particular it is reflexive on every cell but NaN. */
  lemma PyEqIsEquality(a: Cell, b: Cell)
    ensures PyEq(a, b) <==> a == b && a != NaN
  {
  }

  /** `isNaN(string)`: `string != string`. */
  function IsNaN(c: Cell): (r: bool)
    ensures r <==> c == NaN
  {
    !PyEq(c, c)
  }

  /** The character of a decimal digit. */
  function DigitChar(d: nat): (c: char)
    requires d < 10
    ensures '0' <= c <= '9' && c as int - '0' as int == d
  {
    (d + '0' as int) as char
  }

  predicate IsDigit(c: char) { '0' <= c <= '9' }

  /** Python's `str(n)` for a natural number: its decimal digits, most
      significant first, without leading zeros. */
  function NatToDecimal(n: nat): (s: string)
    ensures 1 <= |s|
    ensures forall k :: 0 <= k < |s| ==> IsDigit(s[k])
    ensures 1 < |s| ==> s[0] != '0'
    decreases n
  {
    if n < 10 then [DigitChar(n)] else NatToDecimal(n / 10) + [DigitChar(n % 10)]
  }

  /** The number a string of decimal digits denotes. */
  function DigitsValue(s: string): (v: nat)
    requires forall k :: 0 <= k < |s| ==> IsDigit(s[k])
  {
    if s == [] then 0
    else
      assert IsDigit(s[|s| - 1]);
      DigitsValue(s[..|s| - 1]) * 10 + (s[|s| - 1] as int - '0' as int)
  }

  /** Reading back the decimal form of `n` gives `n`. */
  lemma {:induction false} DecimalRoundTrip(n: nat)
    ensures DigitsValue(NatToDecimal(n)) == n
    decreases n
  {
    var s := NatToDecimal(n);
    if n >= 10 {
      assert s[..|s| - 1] == NatToDecimal(n / 10);
      DecimalRoundTrip(n / 10);
    }
  }

  /** Different numbers have different decimal forms. */
  lemma DecimalInjective(m: nat, n: nat)
    ensures NatToDecimal(m) == NatToDecimal(n) <==> m == n
  {
    DecimalRoundTrip(m);
    DecimalRoundTrip(n);
  }

  /** Python's `str(x)` of a cell: a string is itself; an integer is an
      optional minus sign, present exactly for a negative number, followed by
      decimal digits without a leading zero. */
  function PyStr(c: Cell): (r: string)
    ensures c.Str? ==> r == c.s
    ensures c.Int? ==> 1 <= |r| && (r[0] == '-' <==> c.i < 0)
    ensures c.Int? ==> var digits := if c.i < 0 then r[1..] else r;
      1 <= |digits| && AllDigits(digits) && (1 < |digits| ==> digits[0] != '0')
  {
    match c
    case NaN => "nan"
    case Null => "None"
    case Str(s) => s
    case Int(i) => if i < 0 then "-" + NatToDecimal(-i) else NatToDecimal(i)
  }

  predicate AllDigits(s: string) { forall k :: 0 <= k < |s| ==> IsDigit(s[k]) }

  /** Python's `int(s)` for a string: an optional sign followed by one or more
      decimal digits; anything else raises `ValueError`. */
  function ParseInt(s: string): (r: Result<int, PyError>)
    ensures r.Err? ==> r.error == ValueError
    ensures r.Ok? && 1 <= |s| && IsDigit(s[0]) ==> 0 <= r.value
  {
    if |s| >= 1 && (s[0] == '-' || s[0] == '+') then
      var digits := s[1..];
      if digits != [] && AllDigits(digits) then
        var magnitude: int := DigitsValue(digits);
        Ok(if s[0] == '-' then -magnitude else magnitude)
      else Err(ValueError)
    else if s != [] && AllDigits(s) then Ok(DigitsValue(s))
    else Err(ValueError)
  }

  /** Python's `int(x)` of a cell: `int(nan)` raises `ValueError`, `int(None)`
      raises `TypeError`. */
  function PyInt(c: Cell): (r: Result<int, PyError>)
    ensures c.Int? ==> r == Ok(c.i)
    ensures c.Str? ==> r == ParseInt(c.s)
    ensures r.Err? ==> r.error == (if c == Null then TypeError else ValueError)
  {
    match c
    case NaN => Err(ValueError)
    case Null => Err(TypeError)
    case Str(s) => ParseInt(s)
    case Int(i) => Ok(i)
  }

  /** `int(str(i)) == i` for every integer cell. */
  lemma IntStrRoundTrip(i: int)
    ensures PyInt(Str(PyStr(Int(i)))) == Ok(i)
  {
    if i < 0 {
      var s := PyStr(Int(i));
      assert s[1..] == NatToDecimal(-i);
      DecimalRoundTrip(-i);
    } else {
      var s := PyStr(Int(i));
      assert s == NatToDecimal(i);
      DecimalRoundTrip(i);
    }
  }
}
