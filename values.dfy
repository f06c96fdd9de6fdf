/** Python values as the session sees them: the scalars that arrive from the
    command line and from JSON files, their truthiness, the `a or b or c`
    fallback chains built from them, and `str()` of a value as used by
    `str.format`. */
module Values {

  datatype Option<T> = None | Some(value: T) {
    function GetOr(default: T): T {
      match this
      case Some(v) => v
      case None => default
    }
  }

  /** A scalar argument or JSON value: Python's None, a str or an int. */
  datatype Value = Null | Str(s: string) | Int(i: int)

  /** Python truthiness: None, "" and 0 are false, everything else is true. */
  predicate Truthy(v: Value) {
    match v
    case Null => false
    case Str(s) => s != ""
    case Int(i) => i != 0
  }

  /** Python's `a or b`: `a` when it is truthy, otherwise `b`. */
  function Or(a: Value, b: Value): Value {
    if Truthy(a) then a else b
  }

  /** Python's `vs[0] or vs[1] or ... or vs[|vs|-1]`, which groups to the left. */
  function OrChain(vs: seq<Value>): Value
    requires |vs| > 0
  {
    if |vs| == 1 then vs[0] else Or(OrChain(vs[..|vs| - 1]), vs[|vs| - 1])
  }

  /** The position of the first truthy value, or the last position when none is truthy. */
  function FirstTruthyIndex(vs: seq<Value>): (k: nat)
    requires |vs| > 0
    ensures k < |vs|
    ensures Truthy(vs[k]) || k == |vs| - 1
    ensures forall j :: 0 <= j < k ==> !Truthy(vs[j])
  {
    if Truthy(vs[0]) || |vs| == 1 then 0 else 1 + FirstTruthyIndex(vs[1..])
  }

  /** An `or` chain evaluates to its first truthy operand, or to its last operand. */
  lemma {:induction false} OrChainIsFirstTruthy(vs: seq<Value>)
    requires |vs| > 0
    ensures OrChain(vs) == vs[FirstTruthyIndex(vs)]
  {
    if |vs| > 1 {
      var init := vs[..|vs| - 1];
      OrChainIsFirstTruthy(init);
      var k, k' := FirstTruthyIndex(init), FirstTruthyIndex(vs);
      assert init[k] == vs[k];
      if Truthy(init[k]) {
        assert k' == k;
      } else {
        assert forall j :: 0 <= j < |vs| - 1 ==> !Truthy(vs[j]) by {
          forall j | 0 <= j < |vs| - 1 ensures !Truthy(vs[j]) {
            assert vs[j] == init[j];
          }
        }
      }
    }
  }

  /** The decimal digit character of `d`. */
  function DigitChar(d: nat): char
    requires d < 10
  {
    (d + '0' as int) as char
  }

  predicate IsDigit(c: char) {
    '0' <= c <= '9'
  }

  /** Python's `str(n)` for a natural number: its decimal digits, most significant first. */
  function NatToDecimal(n: nat): string
    decreases n
  {
    if n < 10 then [DigitChar(n)] else NatToDecimal(n / 10) + [DigitChar(n % 10)]
  }

  /** Python's `str(i)` for an int: a minus sign before the digits of a negative number. */
  function IntToDecimal(i: int): string {
    if i < 0 then "-" + NatToDecimal(-i) else NatToDecimal(i)
  }

  /** The number a string of decimal digits denotes. */
  function DecimalValue(s: string): nat
    requires forall c :: c in s ==> IsDigit(c)
  {
    if s == [] then 0
    else
      assert s[|s| - 1] in s && IsDigit(s[|s| - 1]);
      assert s[|s| - 1] as int >= '0' as int;
      DecimalValue(s[..|s| - 1]) * 10 + (s[|s| - 1] as int - '0' as int)
  }

  /** Reads back what IntToDecimal writes; None for anything else. */
  function ParseInt(s: string): Option<int> {
    if |s| > 0 && s[0] == '-' then
      if |s| > 1 && forall c :: c in s[1..] ==> IsDigit(c) then Some(-(DecimalValue(s[1..]) as int)) else None
    else if |s| > 0 && forall c :: c in s ==> IsDigit(c) then Some(DecimalValue(s))
    else None
  }

  lemma {:induction false} NatToDecimalDigits(n: nat)
    ensures |NatToDecimal(n)| > 0
    ensures forall c :: c in NatToDecimal(n) ==> IsDigit(c)
    ensures DecimalValue(NatToDecimal(n)) == n
    decreases n
  {
    if n >= 10 {
      NatToDecimalDigits(n / 10);
      var s := NatToDecimal(n);
      assert s[..|s| - 1] == NatToDecimal(n / 10);
    }
  }

  /** `str()` of an int never loses information: parsing it back gives the int. */
  lemma IntToDecimalRoundTrip(i: int)
    ensures ParseInt(IntToDecimal(i)) == Some(i)
  {
    if i < 0 {
      NatToDecimalDigits(-i);
      assert IntToDecimal(i)[1..] == NatToDecimal(-i);
    } else {
      NatToDecimalDigits(i);
      assert NatToDecimal(i)[0] in NatToDecimal(i);
    }
  }

  /** Python's `str(v)`, which is what `str.format` inserts for `{n}`. */
  function Show(v: Value): (s: string)
    ensures v.Int? ==> ParseInt(s) == Some(v.i)
  {
    IntToDecimalRoundTrip(if v.Int? then v.i else 0);
    match v
    case Null => "None"
    case Str(t) => t
    case Int(i) => IntToDecimal(i)
  }
}
