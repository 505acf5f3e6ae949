/** The dynamically typed values the bandit handles (user ids, variation
    configs, recommended items), Python's truthiness test on them, and the
    `int()` conversion applied to the stored exposure and conversion counts. */
module Values {
  import opened Outcomes

  /** A Python value. `VNum` stands for both `float` and `decimal.Decimal`,
      the type DynamoDB hands stored numbers back as. */
  datatype Value =
    | VNone
    | VBool(b: bool)
    | VInt(i: int)
    | VNum(x: real)
    | VStr(s: string)
    | VList(elems: seq<Value>)
    | VMap(fields: map<string, Value>)

  /** Python truthiness: what `if not v` tests. */
  predicate Truthy(v: Value) {
    match v
    case VNone => false
    case VBool(b) => b
    case VInt(i) => i != 0
    case VNum(x) => x != 0.0
    case VStr(s) => |s| > 0
    case VList(xs) => |xs| > 0
    case VMap(m) => |m| > 0
  }

  /** Why `int(v)` raises: `ValueError` for text that is not an integer
      literal, `TypeError` for values `int()` does not accept at all. */
  datatype ConversionError = NotAnIntegerLiteral(text: string) | NotConvertible

  /** Truncation toward zero, which is what `int()` does to a float or a
      Decimal (Dafny's `Floor` rounds toward minus infinity instead). */
  function Trunc(x: real): (n: int)
    ensures 0.0 <= x ==> 0 <= n && n as real <= x < n as real + 1.0
    ensures x < 0.0 ==> n <= 0 && n as real - 1.0 < x <= n as real
  {
    if x >= 0.0 then x.Floor else -((-x).Floor)
  }

  predicate IsDigit(c: char) {
    '0' <= c <= '9'
  }

  predicate AllDigits(s: string) {
    forall i :: 0 <= i < |s| ==> IsDigit(s[i])
  }

  /** The number a run of decimal digits denotes (leading zeros allowed; the empty run is 0). */
  function DigitsValue(s: string): nat
    requires AllDigits(s)
    decreases |s|
  {
    if |s| == 0 then 0
    else DigitsValue(s[..|s| - 1]) * 10 + (s[|s| - 1] as int - '0' as int)
  }

  /** The unsigned part of a literal: everything after an optional sign. */
  function Unsigned(s: string): string {
    if |s| > 0 && (s[0] == '+' || s[0] == '-') then s[1..] else s
  }

  /** An integer literal as `int()` reads one: an optional sign followed by
      at least one decimal digit. */
  predicate IsIntLiteral(s: string) {
    |Unsigned(s)| > 0 && AllDigits(Unsigned(s))
  }

  /** `int(s)` for a string. */
  function ParseInt(s: string): (r: Option<int>)
    ensures r.Some? <==> IsIntLiteral(s)
    ensures r.Some? ==> (if s[0] == '-' then r.value <= 0 else r.value >= 0)
  {
    if !IsIntLiteral(s) then None
    else if s[0] == '-' then Some(0 - DigitsValue(Unsigned(s)) as int)
    else Some(DigitsValue(Unsigned(s)))
  }

  function DigitChar(d: nat): (c: char)
    requires d < 10
    ensures IsDigit(c) && c as int - '0' as int == d
  {
    ('0' as int + d) as char
  }

  /** The decimal text of a natural number, as `str()` writes it. */
  function ShowNat(n: nat): (s: string)
    ensures |s| > 0 && AllDigits(s)
  {
    if n < 10 then [DigitChar(n)] else ShowNat(n / 10) + [DigitChar(n % 10)]
  }

  /** The decimal text of an integer, as `str()` writes it. */
  function ShowInt(n: int): string {
    if n < 0 then "-" + ShowNat(-n) else ShowNat(n)
  }

  lemma {:induction false} DigitsValueShowNat(n: nat)
    ensures DigitsValue(ShowNat(n)) == n
  {
    if n >= 10 {
      var s := ShowNat(n);
      assert s[..|s| - 1] == ShowNat(n / 10);
      DigitsValueShowNat(n / 10);
    }
  }

  /** Reading back the decimal text of any integer gives that integer. */
  lemma ParseShowInt(n: int)
    ensures ParseInt(ShowInt(n)) == Some(n)
  {
    var s := ShowInt(n);
    if n < 0 {
      assert Unsigned(s) == ShowNat(-n);
      DigitsValueShowNat(-n);
    } else {
      assert Unsigned(s) == ShowNat(n);
      DigitsValueShowNat(n);
    }
  }

  /** `int(v)`: integers pass through, booleans become 0 or 1, floats and
      Decimals truncate toward zero, strings are parsed, anything else is a
      `TypeError`. */
  function ToInt(v: Value): (r: Result<int, ConversionError>)
    ensures r.Ok? <==> (v.VInt? || v.VBool? || v.VNum? || (v.VStr? && IsIntLiteral(v.s)))
    ensures v.VInt? ==> r == Ok(v.i)
    ensures v.VBool? ==> r == Ok(if v.b then 1 else 0)
    ensures v.VNum? ==> r == Ok(Trunc(v.x))
    ensures v.VStr? && IsIntLiteral(v.s) ==>
      r == Ok(if v.s[0] == '-' then 0 - DigitsValue(Unsigned(v.s)) else DigitsValue(Unsigned(v.s)))
    ensures v.VStr? && r.Err? ==> r.error == NotAnIntegerLiteral(v.s)
    ensures v.VNone? || v.VList? || v.VMap? ==> r == Err(NotConvertible)
  {
    match v
    case VInt(i) => Ok(i)
    case VBool(b) => Ok(if b then 1 else 0)
    case VNum(x) => Ok(Trunc(x))
    case VStr(s) =>
      (match ParseInt(s)
       case Some(n) => Ok(n)
       case None => Err(NotAnIntegerLiteral(s)))
    case _ => Err(NotConvertible)
  }

  /** A count written back as an integer, a whole-valued number or its
      decimal text is read as that count. */
  lemma ToIntOfCount(n: int)
    ensures ToInt(VInt(n)) == Ok(n)
    ensures ToInt(VNum(n as real)) == Ok(n)
    ensures ToInt(VStr(ShowInt(n))) == Ok(n)
  {
    ParseShowInt(n);
  }
}
