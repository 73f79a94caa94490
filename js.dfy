/** The few JavaScript value semantics the client relies on: plain objects as
    string-keyed maps, truthiness, the `||` fallback operator, and the decimal
    rendering of a millisecond timestamp inside a template literal. */
module Js {

  datatype Option<+T> = None | Some(value: T)

  /** A JavaScript value as far as this client stores or compares one.
      A key missing from an object reads as `Undefined`. */
  datatype Value = Undefined | Null | Str(s: string)

  /** A plain JavaScript object, such as a row of the `profiles` table. */
  type Record = map<string, Value>

  /** `obj.key`: the stored value, or `undefined` for a missing key. */
  function Field(obj: Record, key: string): (v: Value)
    ensures key !in obj ==> v == Undefined
  {
    if key in obj then obj[key] else Undefined
  }

  /** Truthiness of the values above: only a non-empty string is truthy. */
  predicate Truthy(v: Value) {
    v.Str? && v.s != ""
  }

  /** `a || b || … || z`: the first truthy operand, or the last operand when
      none of the others is truthy. */
  function Or(operands: seq<Value>): (r: Value)
    requires |operands| > 0
    ensures r in operands
    ensures Truthy(r) || r == operands[|operands| - 1]
    decreases |operands|
  {
    if |operands| == 1 || Truthy(operands[0]) then operands[0] else Or(operands[1..])
  }

  /** The operand picked by `||` is the one at the first truthy position
      (or the last one), whatever follows it. */
  lemma {:induction false} OrIsFirstTruthy(operands: seq<Value>, i: nat)
    requires i < |operands|
    requires forall j :: 0 <= j < i ==> !Truthy(operands[j])
    requires Truthy(operands[i]) || i == |operands| - 1
    ensures Or(operands) == operands[i]
    decreases i
  {
    if i > 0 {
      assert !Truthy(operands[0]);
      OrIsFirstTruthy(operands[1..], i - 1);
    }
  }

  /** How React renders a value as text: `null` and `undefined` render nothing. */
  function Display(v: Value): (text: string)
    ensures Truthy(v) <==> text != ""
  {
    if v.Str? then v.s else ""
  }

  predicate IsDigit(c: char) {
    '0' <= c <= '9'
  }

  function DigitChar(d: nat): (c: char)
    requires d < 10
    ensures IsDigit(c)
  {
    ('0' as int + d) as char
  }

  /** `${n}` for a non-negative integer such as `Date.now()`: its decimal
      digits, with no sign and no leading zero. */
  function Decimal(n: nat): (r: string)
    ensures |r| > 0
    ensures forall i :: 0 <= i < |r| ==> IsDigit(r[i])
    ensures r[0] == '0' ==> n == 0
    decreases n
  {
    if n < 10 then [DigitChar(n)] else Decimal(n / 10) + [DigitChar(n % 10)]
  }

  /** The number a string of decimal digits denotes. */
  function DigitsValue(s: string): nat
    requires forall i :: 0 <= i < |s| ==> IsDigit(s[i])
  {
    if s == [] then 0
    else
      assert IsDigit(s[|s| - 1]);
      DigitsValue(s[..|s| - 1]) * 10 + (s[|s| - 1] as int - '0' as int)
  }

  /** Reading the decimal rendering back gives the number. */
  lemma {:induction false} DecimalRoundTrip(n: nat)
    ensures DigitsValue(Decimal(n)) == n
    decreases n
  {
    var r := Decimal(n);
    if n >= 10 {
      DecimalRoundTrip(n / 10);
      assert r[..|r| - 1] == Decimal(n / 10);
    }
  }

  /** Two timestamps render alike only when they are equal. */
  lemma DecimalInjective(m: nat, n: nat)
    requires Decimal(m) == Decimal(n)
    ensures m == n
  {
    DecimalRoundTrip(m);
    DecimalRoundTrip(n);
  }
}
