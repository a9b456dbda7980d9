/** The loosely typed JavaScript scalars the widgets read out of upstream JSON, with the
    coercions the widgets apply to them: truthiness, `a || b`, `String(v)`, the widgets'
    shared `safeStr` / `toISODate` helpers, and thrown errors. */
module Js {
  import opened Wrappers
  import opened JsString

  /** A JSON scalar as JavaScript sees it. A key missing from an object reads as `Undefined`.
      Numbers are integers here; fractional values (ratings) are only passed along. */
  datatype Val = Undefined | Null | NaN | Bool(b: bool) | Num(n: int) | Str(s: string)

  /** A thrown JavaScript error, identified by its message. */
  datatype Error = Error(message: string)

  /** What calling a string method (`startsWith`, `trim`, `replace`, `match`) on a non-string throws.
      The engine's exact wording is not modelled. */
  const TypeError: Error := Error("TypeError")

  /** JavaScript truthiness. */
  predicate Truthy(v: Val) {
    match v
    case Undefined => false
    case Null => false
    case NaN => false
    case Bool(b) => b
    case Num(n) => n != 0
    case Str(s) => s != ""
  }

  predicate IsNullish(v: Val) {
    v == Undefined || v == Null
  }

  /** `a || b`: the first operand when it is truthy, otherwise the second. */
  function Or(a: Val, b: Val): Val
  {
    if Truthy(a) then a else b
  }

  /** `String(v)`, which is also what a template literal `${v}` and `"x" + v` produce. */
  function ToStr(v: Val): string
  {
    match v
    case Undefined => "undefined"
    case Null => "null"
    case NaN => "NaN"
    case Bool(b) => if b then "true" else "false"
    case Num(n) => IntToString(n)
    case Str(s) => s
  }

  /** The widgets' `safeStr`: null and undefined become `""`, everything else `String(v)`. */
  function SafeStr(v: Val): string
  {
    if IsNullish(v) then "" else ToStr(v)
  }

  /** The widgets' `toISODate`: `safeStr(v).trim() || ""`. */
  function ToISODate(v: Val): string
  {
    Trim(SafeStr(v))
  }

  /** `toISODate` gives `""` for null and undefined; otherwise it is the string form of `v`
      with the surrounding whitespace cut away, and it is `""` only when that string form is
      blank. Its result never starts or ends with whitespace. */
  lemma ToISODateSpec(v: Val)
    ensures IsNullish(v) ==> ToISODate(v) == ""
    ensures !IsNullish(v) ==> (ToISODate(v) == "" <==> AllSpace(ToStr(v)))
    ensures var r := ToISODate(v); r == [] || (!IsSpace(r[0]) && !IsSpace(r[|r| - 1]))
    ensures ToISODate(Str(ToISODate(v))) == ToISODate(v)
  {
    var s := SafeStr(v);
    TrimSpec(s);
    TrimIdempotent(s);
    assert SafeStr(Str(Trim(s))) == Trim(s);
  }

  /** Stand-in for `!isNaN(v)` on a truthy identifier: numbers and booleans are numeric, and a
      string is taken to be numeric when it is all decimal digits. */
  predicate LooksNumeric(v: Val) {
    match v
    case Num(_) => true
    case Bool(_) => true
    case Str(s) => AllDigits(s)
    case _ => false
  }

  /** `v == n` for a number `n` under loose equality: a boolean counts as 0 or 1, and a string
      as the number it spells when it is decimal digits between optional whitespace. */
  predicate LooseEqualsNum(v: Val, n: nat) {
    match v
    case Num(m) => m == n
    case Bool(b) => (if b then 1 else 0) == n
    case Str(s) => AllDigits(Trim(s)) && DigitsValue(Trim(s)) == n
    case _ => false
  }

  /** `v.startsWith(p)`, which throws when `v` is not a string. */
  function ValStartsWith(v: Val, p: string): Result<bool, Error>
  {
    if v.Str? then Success(StartsWith(v.s, p)) else Failure(TypeError)
  }

  /** One element of `array.join(sep)`: null and undefined print as the empty string. */
  function JoinElement(v: Val): string
  {
    if IsNullish(v) then "" else ToStr(v)
  }

  /** `array.join(sep)` over an array of scalars. */
  function JoinVals(xs: seq<Val>, sep: string): string
  {
    Join(seq(|xs|, i requires 0 <= i < |xs| => JoinElement(xs[i])), sep)
  }
}
