/** JavaScript values as the hub client and the HomeKit host hand them to the
    plugin, and the few coercions of the language that its handlers rely on:
    `Number(v)`, loose `==` against a number, `>` and `<=` against a number,
    truthiness, `Math.round`, `Number(x.toFixed(1))` and `table[v]` lookups. */
module JsValues {

  datatype Option<+T> = None | Some(value: T)

  /** A JavaScript value. Numbers are exact reals (no Infinity, no -0);
      NaN is a value of its own. */
  datatype Value = Undefined | Bool(b: bool) | Num(x: real) | NaN | Str(s: string)

  predicate IsDigit(c: char) { '0' <= c <= '9' }

  predicate AllDigits(s: string) { forall i :: 0 <= i < |s| ==> IsDigit(s[i]) }

  predicate IsDecimal(s: string) { |s| > 0 && AllDigits(s) }

  function DecimalValue(s: string): nat
    requires AllDigits(s)
  {
    if s == [] then 0
    else
      assert IsDigit(s[|s| - 1]);
      10 * DecimalValue(s[..|s| - 1]) + (s[|s| - 1] as int - '0' as int)
  }

  /** `Number(v)`; None stands for NaN. Strings are read when empty (0) or
      made of decimal digits only. */
  function ToNumber(v: Value): Option<real> {
    match v
    case Undefined => None
    case Bool(b) => Some(if b then 1.0 else 0.0)
    case Num(x) => Some(x)
    case NaN => None
    case Str(s) =>
      if s == "" then Some(0.0)
      else if IsDecimal(s) then Some(DecimalValue(s) as real)
      else None
  }

  /** A number result back as a value: NaN when there is none. */
  function FromNumber(n: Option<real>): Value {
    if n.Some? then Num(n.value) else NaN
  }

  predicate Truthy(v: Value) {
    match v
    case Undefined => false
    case Bool(b) => b
    case Num(x) => x != 0.0
    case NaN => false
    case Str(s) => s != ""
  }

  /** `v > c` for a number literal `c`. */
  predicate Greater(v: Value, c: real) {
    var n := ToNumber(v); n.Some? && n.value > c
  }

  /** `v <= c` for a number literal `c`. */
  predicate AtMost(v: Value, c: real) {
    var n := ToNumber(v); n.Some? && n.value <= c
  }

  /** `v == c` (loose equality) for a number literal `c`. */
  predicate LooselyEquals(v: Value, c: real) {
    ToNumber(v) == Some(c)
  }

  /** `Math.round(x)`: the nearest integer, halves rounded up. */
  function Round(x: real): int {
    (x + 0.5).Floor
  }

  function MathRound(n: Option<real>): Value {
    if n.Some? then Num(Round(n.value) as real) else NaN
  }

  /** `Number(x.toFixed(1))`: the nearest tenth, halves rounded away from zero. */
  function ToFixed1(x: real): real {
    if x < 0.0 then -(Round(-x * 10.0) as real / 10.0) else Round(x * 10.0) as real / 10.0
  }

  /** The decimal text of `n`, as `String(n)` writes it. */
  function NatText(n: nat): string {
    if n < 10 then [('0' as int + n) as char] else NatText(n / 10) + [('0' as int + n % 10) as char]
  }

  /** Whether `table[v]` finds the entry a table literal wrote under key `n`. */
  predicate IsKey(v: Value, n: nat) {
    v == Num(n as real) || v == Str(NatText(n))
  }

  /** The decimal text of an integer, as `String(i)` writes it. */
  function IntText(i: int): string {
    if i < 0 then "-" + NatText(-i) else NatText(i)
  }

  /** `String(v)` for the values whose text the model knows: every value
      except a number with a fractional part. */
  function Text(v: Value): Option<string> {
    match v
    case Undefined => Some("undefined")
    case Bool(b) => Some(if b then "true" else "false")
    case NaN => Some("NaN")
    case Str(s) => Some(s)
    case Num(x) => if x == x.Floor as real then Some(IntText(x.Floor)) else None
  }

  /** `a + b`: the texts joined when either operand is a string, the numbers
      added otherwise. A string joined with a fractional number gives NaN here. */
  function Plus(a: Value, b: Value): Value {
    if a.Str? || b.Str? then
      var ta := Text(a);
      var tb := Text(b);
      if ta.Some? && tb.Some? then Str(ta.value + tb.value) else NaN
    else
      var na := ToNumber(a);
      var nb := ToNumber(b);
      if na.Some? && nb.Some? then Num(na.value + nb.value) else NaN
  }

  function Pow10(n: nat): nat {
    if n == 0 then 1 else 10 * Pow10(n - 1)
  }

  lemma AllDigitsConcat(a: string, b: string)
    requires AllDigits(a) && AllDigits(b)
    ensures AllDigits(a + b)
  {
    forall i | 0 <= i < |a + b| ensures IsDigit((a + b)[i]) {
      if i < |a| { assert (a + b)[i] == a[i]; } else { assert (a + b)[i] == b[i - |a|]; }
    }
  }

  /** Reading a digit string peels off its last digit. */
  lemma DecimalSnoc(s: string, c: char)
    requires AllDigits(s) && IsDigit(c)
    ensures AllDigits(s + [c])
    ensures DecimalValue(s + [c]) == 10 * DecimalValue(s) + (c as int - '0' as int)
  {
    AllDigitsConcat(s, [c]);
    assert (s + [c])[..|s + [c]| - 1] == s;
  }

  lemma ShiftAdd(x: int, p: int, y: int, d: int)
    ensures 10 * (x * p + y) + d == x * (10 * p) + (10 * y + d)
  {
  }

  /** The number read from two digit strings written one after the other. */
  lemma {:induction false} DecimalConcat(a: string, b: string)
    requires AllDigits(a) && AllDigits(b)
    ensures AllDigits(a + b)
    ensures DecimalValue(a + b) == DecimalValue(a) * Pow10(|b|) + DecimalValue(b)
    decreases |b|
  {
    AllDigitsConcat(a, b);
    if b == [] {
      assert a + b == a;
    } else {
      var b', c := b[..|b| - 1], b[|b| - 1];
      assert b == b' + [c];
      assert a + b == (a + b') + [c];
      assert AllDigits(b') && IsDigit(c);
      DecimalConcat(a, b');
      DecimalSnoc(a + b', c);
      DecimalSnoc(b', c);
      ShiftAdd(DecimalValue(a), Pow10(|b'|), DecimalValue(b'), c as int - '0' as int);
    }
  }

  /** Two decimal strings added with `+` read as their concatenation, not their sum. */
  lemma StringsConcatenate(a: string, b: string)
    requires IsDecimal(a) && IsDecimal(b)
    ensures AllDigits(a + b)
    ensures ToNumber(Plus(Str(a), Str(b))) == Some(DecimalValue(a + b) as real)
    ensures DecimalValue(a + b) == DecimalValue(a) * Pow10(|b|) + DecimalValue(b)
  {
    DecimalConcat(a, b);
    assert Plus(Str(a), Str(b)) == Str(a + b);
    ConcatRead(a + b);
  }

  lemma ConcatRead(s: string)
    requires IsDecimal(s)
    ensures ToNumber(Str(s)) == Some(DecimalValue(s) as real)
  {
  }

  /** `Math.round` of `x` is the integer `k` exactly when `x` lies in
      `[k - 1/2, k + 1/2)`. */
  lemma RoundIs(x: real, k: int)
    ensures Round(x) == k <==> k as real - 0.5 <= x < k as real + 0.5
  {
    var f := (x + 0.5).Floor;
    assert f as real <= x + 0.5 < f as real + 1.0;
  }

  /** `Math.round` is off by at most one half. */
  lemma RoundError(x: real)
    ensures x - 0.5 < Round(x) as real <= x + 0.5
  {
  }

  /** `toFixed(1)` is off by at most one twentieth. */
  lemma ToFixed1Error(x: real)
    ensures x - 0.05 <= ToFixed1(x) <= x + 0.05
  {
    if x < 0.0 {
      RoundError(-x * 10.0);
    } else {
      RoundError(x * 10.0);
    }
  }

  /** A value that already has one decimal is left as it is by `toFixed(1)`. */
  lemma ToFixed1OfTenths(n: int)
    ensures ToFixed1(n as real / 10.0) == n as real / 10.0
  {
    if n < 0 {
      RoundIs(-(n as real / 10.0) * 10.0, -n);
    } else {
      RoundIs(n as real / 10.0 * 10.0, n);
    }
  }
}
