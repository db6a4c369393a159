/** JavaScript values as the transport sees them: the objects that travel over
    the socket, JavaScript truthiness, and the string a value becomes when it
    is used as a property key (`requests[id]`). Numbers are modelled as
    integers; `undefined` is the absence of a key from an object's map. */
module Js {

  datatype Option<T> = None | Some(value: T)

  datatype Json =
    | JNull
    | JBool(b: bool)
    | JNum(n: int)
    | JStr(s: string)
    | JArr(items: seq<Json>)
    | JObj(fields: map<string, Json>)

  /** JavaScript's `!!v`. */
  predicate Truthy(v: Json)
  {
    match v
    case JNull => false
    case JBool(b) => b
    case JNum(n) => n != 0
    case JStr(s) => s != ""
    case _ => true
  }

  /** JavaScript's `typeof v === 'object'`, which holds for `null` as well. */
  predicate IsObjectType(v: Json)
  {
    v.JNull? || v.JArr? || v.JObj?
  }

  function DigitChar(d: nat): (c: char)
    requires d < 10
    ensures '0' <= c <= '9'
  {
    "0123456789"[d]
  }

  /** Decimal rendering of a natural number, most significant digit first. */
  function Decimal(n: nat): (s: string)
    ensures |s| > 0
    ensures forall i :: 0 <= i < |s| ==> '0' <= s[i] <= '9'
    decreases n
  {
    if n < 10 then [DigitChar(n)] else Decimal(n / 10) + [DigitChar(n % 10)]
  }

  /** The number a string of decimal digits denotes. */
  function DecimalValue(s: string): nat
    requires forall i :: 0 <= i < |s| ==> '0' <= s[i] <= '9'
    decreases |s|
  {
    if |s| == 0 then 0
    else DecimalValue(s[..|s| - 1]) * 10 + ((s[|s| - 1] as int) - ('0' as int))
  }

  /** Reading back the rendering of `n` gives `n`. */
  lemma {:induction false} DecimalRoundTrip(n: nat)
    ensures DecimalValue(Decimal(n)) == n
    decreases n
  {
    if n >= 10 {
      var s := Decimal(n);
      assert s[..|s| - 1] == Decimal(n / 10);
      DecimalRoundTrip(n / 10);
    }
  }

  /** The property key a number is coerced to, for the integers JavaScript
      prints without an exponent (magnitude below 10^21): its decimal
      rendering, with a leading minus sign when it is negative. */
  function NumberKey(n: int): string
  {
    if n < 0 then "-" + Decimal(-n) else Decimal(n)
  }

  /** Two renderings of naturals are equal only for equal naturals. */
  lemma DecimalInjective(a: nat, b: nat)
    requires Decimal(a) == Decimal(b)
    ensures a == b
  {
    DecimalRoundTrip(a);
    DecimalRoundTrip(b);
  }

  /** The key of a negative number starts with a minus sign, that of any
      other number with a digit. */
  lemma NumberKeyHead(n: int)
    ensures |NumberKey(n)| > 0
    ensures n < 0 ==> NumberKey(n)[0] == '-' && NumberKey(n)[1..] == Decimal(-n)
    ensures n >= 0 ==> '0' <= NumberKey(n)[0] <= '9' && NumberKey(n) == Decimal(n)
  {
  }

  /** Distinct numbers have distinct keys. */
  lemma NumberKeyInjective(a: int, b: int)
    requires a != b
    ensures NumberKey(a) != NumberKey(b)
  {
    if a < 0 && b < 0 {
      NegativeKeysDiffer(a, b);
    } else if a >= 0 && b >= 0 {
      NaturalKeysDiffer(a, b);
    } else if a < 0 {
      SignsDiffer(a, b);
    } else {
      SignsDiffer(b, a);
    }
  }

  lemma NaturalKeysDiffer(a: int, b: int)
    requires 0 <= a && 0 <= b && a != b
    ensures NumberKey(a) != NumberKey(b)
  {
    if Decimal(a) == Decimal(b) {
      DecimalInjective(a, b);
    }
  }

  /** A negative number's key starts with a minus sign and no other key does. */
  lemma SignsDiffer(a: int, b: int)
    requires a < 0 <= b
    ensures NumberKey(a) != NumberKey(b)
  {
    NumberKeyHead(a);
    NumberKeyHead(b);
  }

  lemma NegativeKeysDiffer(a: int, b: int)
    requires a < 0 && b < 0 && a != b
    ensures NumberKey(a) != NumberKey(b)
  {
    var ka, kb := "-" + Decimal(-a), "-" + Decimal(-b);
    if ka == kb {
      assert ka[1..] == Decimal(-a) && kb[1..] == Decimal(-b);
      DecimalInjective(-a, -b);
    }
  }

  /** Different numbers index different properties: `requests[5]` and
      `requests[-5]` never reach the same entry, nor do any two distinct
      numbers. */
  lemma NumericKeysDistinct(a: int, b: int)
    requires a != b
    ensures PropertyKey(JNum(a)) != PropertyKey(JNum(b))
  {
    NumberKeyInjective(a, b);
  }

  /** Joins strings with a comma, as `Array.prototype.join` does. */
  function JoinComma(parts: seq<string>): string
    decreases |parts|
  {
    if |parts| == 0 then ""
    else if |parts| == 1 then parts[0]
    else parts[0] + "," + JoinComma(parts[1..])
  }

  /** The property key a value is coerced to when it indexes an object:
      strings stay as they are, numbers and booleans print, arrays join their
      elements (null elements print as empty), plain objects all print alike. */
  function PropertyKey(v: Json): (k: string)
    ensures v.JStr? ==> k == v.s
    decreases v
  {
    match v
    case JNull => "null"
    case JBool(b) => if b then "true" else "false"
    case JNum(n) => NumberKey(n)
    case JStr(s) => s
    case JArr(items) =>
      JoinComma(seq(|items|, i requires 0 <= i < |items| =>
        if items[i].JNull? then "" else PropertyKey(items[i])))
    case JObj(_) => "[object Object]"
  }
}
