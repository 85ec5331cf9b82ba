/**
 * JavaScript values as they reach the server's type classifier: already decoded,
 * schema-less data. The module gives the three pieces of JavaScript semantics the
 * classifier looks at: the `typeof` operator, the `instanceof Array` test, and the
 * string forms `data.toString()` (for numbers) and `${data}` (template-literal
 * coercion).
 */
module JsValue {

  /** Largest integer a JavaScript number holds exactly (Number.MAX_SAFE_INTEGER). */
  const MaxSafeInteger: int := 9_007_199_254_740_991

  /** Integer-valued JavaScript numbers in the exactly representable range. */
  type SafeInteger = x: int | -MaxSafeInteger <= x <= MaxSafeInteger

  datatype Value =
    | Undefined
    | Null
    | Bool(b: bool)
    | Num(n: SafeInteger)
    | Str(s: string)
    | Arr(elements: seq<Value>)
    | Obj(properties: map<string, Value>)

  /** The string the `typeof` operator yields; `typeof null` is "object". */
  function TypeOf(v: Value): (t: string)
    ensures t == "object" <==> v.Null? || v.Arr? || v.Obj?
    ensures t == "undefined" <==> v.Undefined?
    ensures t == "boolean" <==> v.Bool?
    ensures t == "number" <==> v.Num?
    ensures t == "string" <==> v.Str?
  {
    match v
    case Undefined => "undefined"
    case Null => "object"
    case Bool(_) => "boolean"
    case Num(_) => "number"
    case Str(_) => "string"
    case Arr(_) => "object"
    case Obj(_) => "object"
  }

  /** `v instanceof Array`: only arrays have Array.prototype on their chain. */
  predicate InstanceOfArray(v: Value) {
    v.Arr?
  }

  // ---------------------------------------------------------------------------
  // Decimal rendering of integers (Number.prototype.toString with radix 10)
  // ---------------------------------------------------------------------------

  function DigitChar(d: nat): char
    requires d < 10
  {
    "0123456789"[d]
  }

  predicate IsDigit(c: char) {
    '0' <= c <= '9'
  }

  /** The decimal digits of a natural number, most significant first, no leading zero. */
  function DigitsOf(n: nat): string
    decreases n
  {
    if n < 10 then [DigitChar(n)] else DigitsOf(n / 10) + [DigitChar(n % 10)]
  }

  /** `n.toString()` for an integer-valued number: `-` then the digits of |n|. */
  function NumberToString(n: int): string {
    if n < 0 then "-" + DigitsOf(-n) else DigitsOf(n)
  }

  function Pow10(k: nat): (p: nat)
    ensures p >= 1
  {
    if k == 0 then 1 else 10 * Pow10(k - 1)
  }

  // Reading a decimal string back: the partner of DigitsOf / NumberToString.

  function DigitsValue(s: string): int
    decreases |s|
  {
    if s == [] then 0 else 10 * DigitsValue(s[..|s| - 1]) + (s[|s| - 1] as int - '0' as int)
  }

  function IntegerValue(s: string): int {
    if |s| > 0 && s[0] == '-' then -DigitsValue(s[1..]) else DigitsValue(s)
  }

  /** The digits of n are decimal digits with no leading zero, and read back as n. */
  lemma {:induction false} DigitsOfRoundTrip(n: nat)
    ensures |DigitsOf(n)| >= 1
    ensures forall i :: 0 <= i < |DigitsOf(n)| ==> IsDigit(DigitsOf(n)[i])
    ensures DigitsOf(n)[0] == '0' ==> n == 0
    ensures DigitsValue(DigitsOf(n)) == n
    decreases n
  {
    var s := DigitsOf(n);
    if n >= 10 {
      DigitsOfRoundTrip(n / 10);
      assert s[..|s| - 1] == DigitsOf(n / 10);
      assert s[0] == DigitsOf(n / 10)[0];
    }
  }

  /** NumberToString is the canonical decimal form: an optional `-`, then digits. */
  lemma NumberToStringRoundTrip(n: int)
    ensures IntegerValue(NumberToString(n)) == n
    ensures n < 0 <==> NumberToString(n)[0] == '-'
  {
    if n < 0 {
      DigitsOfRoundTrip(-n);
      assert NumberToString(n)[1..] == DigitsOf(-n);
    } else {
      DigitsOfRoundTrip(n);
    }
  }

  /** A natural number has at most k digits exactly when it is below 10^k. */
  lemma {:induction false} DigitsOfLength(n: nat, k: nat)
    requires k >= 1
    ensures |DigitsOf(n)| <= k <==> n < Pow10(k)
    decreases n
  {
    if n >= 10 {
      DigitsOfRoundTrip(n / 10);
      if k == 1 {
        assert |DigitsOf(n)| >= 2;
      } else {
        DigitsOfLength(n / 10, k - 1);
        assert n / 10 < Pow10(k - 1) <==> n < 10 * Pow10(k - 1);
      }
    } else {
      assert Pow10(k) >= 10 by { Pow10AtLeastTen(k); }
    }
  }

  lemma {:induction false} Pow10AtLeastTen(k: nat)
    requires k >= 1
    ensures Pow10(k) >= 10
  {
    if k > 1 {
      Pow10AtLeastTen(k - 1);
    }
  }

  /**
   * The string form of an integer has exactly ten characters when it is a
   * ten-digit non-negative number, or a nine-digit negative one (the `-`
   * counts as a character).
   */
  lemma NumberToStringLengthTen(n: int)
    ensures |NumberToString(n)| == 10 <==>
              (1_000_000_000 <= n <= 9_999_999_999 || -999_999_999 <= n <= -100_000_000)
  {
    assert Pow10(8) == 100_000_000;
    assert Pow10(9) == 1_000_000_000;
    assert Pow10(10) == 10_000_000_000;
    if n < 0 {
      DigitsOfLength(-n, 9);
      DigitsOfLength(-n, 8);
    } else {
      DigitsOfLength(n, 10);
      DigitsOfLength(n, 9);
    }
  }

  // ---------------------------------------------------------------------------
  // Template-literal coercion `${v}`
  // ---------------------------------------------------------------------------

  /**
   * The string `${v}` produces. Primitives have fixed forms; a string is
   * itself; arrays and objects go through their `toString` method, which is
   * supplied as `objectString`.
   */
  function TemplateString(v: Value, objectString: Value -> string): string {
    match v
    case Undefined => "undefined"
    case Null => "null"
    case Bool(b) => if b then "true" else "false"
    case Num(n) => NumberToString(n)
    case Str(s) => s
    case Arr(_) => objectString(v)
    case Obj(_) => objectString(v)
  }
}
