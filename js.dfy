/** The slice of JavaScript value semantics the core relies on: decoded JSON
    values, truthiness, property reads that throw on null/undefined, and the
    `Number(...)`, `String(...)` and `.trim()` coercions. */
module Js {

  datatype Option<+T> = None | Some(value: T)

  /** A JavaScript number as the core meets it: NaN or an integral value. */
  datatype Num = NaN | Int(i: int)

  /** An untrusted decoded value. `Undefined` stands for a missing property. */
  datatype Json =
    | Undefined
    | Null
    | Bool(b: bool)
    | Number(n: Num)
    | Str(s: string)
    | Arr(items: seq<Json>)
    | Obj(fields: map<string, Json>)

  /** What a thrown exception carries. */
  datatype Fault = TypeError | SyntaxError | Error(message: string)

  datatype Result<+T> = Ok(value: T) | Err(fault: Fault) {
    predicate IsFailure() { Err? }
    function PropagateFailure<U>(): Result<U> requires Err? { Err(fault) }
    function Extract(): T requires Ok? { value }
  }

  predicate Nullish(j: Json) {
    j.Undefined? || j.Null?
  }

  /** JavaScript truthiness: undefined, null, false, 0, NaN and "" are falsy. */
  predicate Truthy(j: Json) {
    match j
    case Undefined => false
    case Null => false
    case Bool(b) => b
    case Number(n) => n.Int? && n.i != 0
    case Str(s) => s != ""
    case Arr(_) => true
    case Obj(_) => true
  }

  /** `a || b` */
  function Or(a: Json, b: Json): Json {
    if Truthy(a) then a else b
  }

  /** `j.key`, for the plain field names the core reads (none of them is a
      property that strings, numbers or arrays carry). */
  function Get(j: Json, key: string): (r: Result<Json>)
    ensures r.Err? <==> Nullish(j)
    ensures r.Ok? && !j.Obj? ==> r.value == Undefined
  {
    match j
    case Undefined => Err(TypeError)
    case Null => Err(TypeError)
    case Obj(m) => Ok(if key in m then m[key] else Undefined)
    case _ => Ok(Undefined)
  }

  /** `j.key` where `j` is known not to be null or undefined. */
  function Field(j: Json, key: string): Json
    requires !Nullish(j)
  {
    Get(j, key).value
  }

  /** `j?.key` */
  function OptGet(j: Json, key: string): Json {
    if Nullish(j) then Undefined else Field(j, key)
  }

  /** `j[0]` */
  function Index0(j: Json): (r: Result<Json>)
    ensures r.Err? <==> Nullish(j)
    ensures j.Arr? ==> r == Ok(if j.items == [] then Undefined else j.items[0])
  {
    match j
    case Undefined => Err(TypeError)
    case Null => Err(TypeError)
    case Arr(items) => Ok(if items == [] then Undefined else items[0])
    case Str(s) => Ok(if s == "" then Undefined else Str([s[0]]))
    case Obj(m) => Ok(if "0" in m then m["0"] else Undefined)
    case _ => Ok(Undefined)
  }

  /** `j?.[0]` */
  function OptIndex0(j: Json): Json {
    if Nullish(j) then Undefined else Index0(j).value
  }

  // ---------------------------------------------------------------- String()

  function DigitChar(d: nat): char
    requires d < 10
  {
    ('0' as int + d) as char
  }

  predicate IsDigit(c: char) {
    '0' <= c <= '9'
  }

  predicate AllDigits(s: string) {
    forall k :: 0 <= k < |s| ==> IsDigit(s[k])
  }

  /** Decimal rendering of a natural number, most significant digit first. */
  function NatToDigits(n: nat): (r: string)
    ensures r != [] && AllDigits(r)
    decreases n
  {
    if n < 10 then [DigitChar(n)] else NatToDigits(n / 10) + [DigitChar(n % 10)]
  }

  /** `String(n)` for an integral number. */
  function IntToStr(i: int): string {
    if i < 0 then "-" + NatToDigits(-i) else NatToDigits(i)
  }

  /** `String(j)`: arrays join their elements with "," (null and undefined
      elements print as ""), plain objects print as "[object Object]". Only
      the empty string and arrays print as "". */
  function ToStr(j: Json): (r: string)
    ensures !j.Arr? ==> (r == "" <==> j == Str(""))
    decreases j, if j.Arr? then |j.items| + 1 else 0
  {
    match j
    case Undefined => "undefined"
    case Null => "null"
    case Bool(b) => if b then "true" else "false"
    case Number(n) => if n.NaN? then "NaN" else IntToStr(n.i)
    case Str(s) => s
    case Arr(items) => JoinFrom(j, 0)
    case Obj(_) => "[object Object]"
  }

  /** `a.slice(k).join(",")` for an array `a`. */
  function JoinFrom(a: Json, k: nat): string
    requires a.Arr? && k <= |a.items|
    decreases a, |a.items| - k
  {
    if k == |a.items| then ""
    else
      var e := a.items[k];
      var piece := if Nullish(e) then "" else ToStr(e);
      if k + 1 == |a.items| then piece else piece + "," + JoinFrom(a, k + 1)
  }

  /** `String(j)` and `Number(j)` return instead of throwing: no object they
      reach has its own `toString` field. A decoded value's `toString` is
      never callable, so converting such an object finds no method and throws
      a TypeError. Arrays reach their elements other than null and undefined. */
  predicate Printable(j: Json)
    decreases j
  {
    match j
    case Obj(m) => "toString" !in m
    case Arr(items) => forall k :: 0 <= k < |items| ==> Nullish(items[k]) || Printable(items[k])
    case _ => true
  }

  /** `String(j)`, which throws on a value that is not printable. */
  function ToText(j: Json): (r: Result<string>)
    ensures r.Ok? <==> Printable(j)
    ensures r.Ok? ==> r.value == ToStr(j)
  {
    if Printable(j) then Ok(ToStr(j)) else Err(TypeError)
  }

  // ------------------------------------------------------------------- trim

  /** The characters `String.prototype.trim` removes: ECMAScript WhiteSpace
      and LineTerminator. */
  predicate IsJsSpace(c: char) {
    var n := c as int;
    n == 0x09 || n == 0x0A || n == 0x0B || n == 0x0C || n == 0x0D || n == 0x20
    || n == 0xA0 || n == 0x1680 || (0x2000 <= n <= 0x200A) || n == 0x2028
    || n == 0x2029 || n == 0x202F || n == 0x205F || n == 0x3000 || n == 0xFEFF
  }

  function TrimStart(s: string): (r: string)
    ensures |r| <= |s| && r == s[|s| - |r|..]
    ensures r == [] || !IsJsSpace(r[0])
    ensures forall k :: 0 <= k < |s| - |r| ==> IsJsSpace(s[k])
  {
    if s != [] && IsJsSpace(s[0]) then TrimStart(s[1..]) else s
  }

  function TrimEnd(s: string): (r: string)
    ensures |r| <= |s| && r == s[..|r|]
    ensures r == [] || !IsJsSpace(r[|r| - 1])
    ensures forall k :: |r| <= k < |s| ==> IsJsSpace(s[k])
  {
    if s != [] && IsJsSpace(s[|s| - 1]) then TrimEnd(s[..|s| - 1]) else s
  }

  /** `s.trim()`: the result is a slice of `s` with no surrounding white
      space, and everything cut off is white space. */
  function Trim(s: string): (r: string)
    ensures exists lo, hi ::
              && 0 <= lo <= hi <= |s| && r == s[lo..hi]
              && (forall k :: 0 <= k < lo ==> IsJsSpace(s[k]))
              && (forall k :: hi <= k < |s| ==> IsJsSpace(s[k]))
    ensures r == [] || (!IsJsSpace(r[0]) && !IsJsSpace(r[|r| - 1]))
  {
    var t := TrimStart(s);
    var r := TrimEnd(t);
    var lo := |s| - |t|;
    assert r == s[lo..lo + |r|];
    r
  }

  /** A string that neither starts nor ends with white space is its own trim. */
  lemma TrimOfTrimmed(s: string)
    ensures (s == [] || (!IsJsSpace(s[0]) && !IsJsSpace(s[|s| - 1]))) ==> Trim(s) == s
  {
  }

  /** The first and last name joined by a space, an absent part read as "". */
  function NameParts(first: Option<string>, last: Option<string>): string {
    (if first.Some? then first.value else "") + " " + (if last.Some? then last.value else "")
  }

  /** `${first || ""} ${last || ""}`.trim() */
  function JoinedName(first: Option<string>, last: Option<string>): (r: string)
    ensures r == [] || (!IsJsSpace(r[0]) && !IsJsSpace(r[|r| - 1]))
    ensures first.None? && last.None? ==> r == ""
  {
    Trim(NameParts(first, last))
  }

  /** The joined name is the joined parts with only the white space around
      them cut off. */
  lemma JoinedNameTrimsParts(first: Option<string>, last: Option<string>)
    ensures var j := NameParts(first, last);
      exists lo, hi ::
        && 0 <= lo <= hi <= |j| && JoinedName(first, last) == j[lo..hi]
        && (forall k :: 0 <= k < lo ==> IsJsSpace(j[k]))
        && (forall k :: hi <= k < |j| ==> IsJsSpace(j[k]))
  {
    var j := NameParts(first, last);
    assert JoinedName(first, last) == Trim(j);
  }

  /** "Ann" and "Lee" join to "Ann Lee". */
  lemma JoinedNameExample()
    ensures JoinedName(Some("Ann"), Some("Lee")) == "Ann Lee"
  {
    calc {
      JoinedName(Some("Ann"), Some("Lee"));
      Trim(NameParts(Some("Ann"), Some("Lee")));
      { assert NameParts(Some("Ann"), Some("Lee")) == "Ann Lee"; }
      Trim("Ann Lee");
      { TrimOfTrimmed("Ann Lee"); }
      "Ann Lee";
    }
  }

  // --------------------------------------------------------------- Number()

  /** Value of a string of decimal digits. */
  function DigitsValue(s: string): nat
    requires AllDigits(s)
  {
    if s == [] then 0 else DigitsValue(s[..|s| - 1]) * 10 + (s[|s| - 1] as int - '0' as int)
  }

  /** `Number(s)` for a string: white space around an optionally signed run
      of decimal digits; the empty or all-blank string is 0; anything else NaN. */
  function StringToNumber(s: string): (r: Num)
    ensures r.Int? && Trim(s) != "" ==> IsDigit(Trim(s)[|Trim(s)| - 1])
  {
    var t := Trim(s);
    if t == "" then Int(0) else SignedDigits(t)
  }

  /** A trimmed, non-empty string: an optional sign and decimal digits, or NaN. */
  function SignedDigits(t: string): (r: Num)
    requires t != []
    ensures r.Int? ==> IsDigit(t[|t| - 1])
  {
    var neg := t[0] == '-';
    var digits := if t[0] == '-' || t[0] == '+' then t[1..] else t;
    if digits != [] && AllDigits(digits) then
      assert digits[|digits| - 1] == t[|t| - 1];
      var v: int := DigitsValue(digits);
      Int(if neg then -v else v)
    else NaN
  }

  /** `Number(j)`: null is 0, booleans 0/1, undefined NaN; strings, arrays and
      objects go through their string form, and throw where that does. */
  function ToNumber(j: Json): (r: Result<Num>)
    ensures r.Ok? <==> Printable(j)
  {
    if !Printable(j) then Err(TypeError)
    else
      match j
      case Undefined => Ok(NaN)
      case Null => Ok(Int(0))
      case Bool(b) => Ok(Int(if b then 1 else 0))
      case Number(n) => Ok(n)
      case _ => Ok(StringToNumber(ToStr(j)))
  }

  /** `Number(v) || d`: the coerced number, unless it is 0 or NaN. */
  function NumberOr(v: Json, d: int): (r: Result<int>)
    ensures r.Ok? <==> Printable(v)
    ensures r.Ok? && d != 0 ==> r.value != 0
    ensures r.Ok? ==> ToNumber(v) == Ok(Int(r.value)) || (r.value == d && ToNumber(v) in {Ok(NaN), Ok(Int(0))})
  {
    var n :- ToNumber(v);
    Ok(if n.Int? && n.i != 0 then n.i else d)
  }

  /** `String(v || d)`: the default replaces a falsy value; a non-empty
      string is kept as it is; with a non-empty default, only a truthy array
      can give "". */
  function StringOr(v: Json, d: string): (r: Result<string>)
    ensures r.Ok? <==> Printable(v)
    ensures !Truthy(v) ==> r == Ok(d)
    ensures v.Str? && v.s != "" ==> r == Ok(v.s)
    ensures r == Ok("") && d != "" ==> v.Arr?
  {
    if Truthy(v) then ToText(v) else Ok(d)
  }

  /** `v ? String(v) : undefined`: present iff `v` is truthy, and present but
      empty only for an array. */
  function OptString(v: Json): (r: Result<Option<string>>)
    ensures r.Ok? <==> Printable(v)
    ensures r.Ok? ==> (r.value.Some? <==> Truthy(v))
    ensures v.Str? && v.s != "" ==> r == Ok(Some(v.s))
    ensures r == Ok(Some("")) ==> v.Arr?
  {
    if !Truthy(v) then Ok(None)
    else
      var text :- ToText(v);
      Ok(Some(text))
  }

  // ------------------------------------------------ round trip of numbers

  lemma {:induction false} DigitsValueOfNat(n: nat)
    ensures DigitsValue(NatToDigits(n)) == n
    decreases n
  {
    var s := NatToDigits(n);
    if n >= 10 {
      DigitsValueOfNat(n / 10);
      assert s[..|s| - 1] == NatToDigits(n / 10);
    }
  }

  /** A blank string reads as 0. */
  lemma NumberOfBlank(s: string)
    requires forall k :: 0 <= k < |s| ==> IsJsSpace(s[k])
    ensures StringToNumber(s) == Int(0)
  {
  }

  /** A run of decimal digits reads as its value, and with a leading minus
      sign as the negated value. */
  lemma NumberOfDigits(s: string)
    requires s != [] && AllDigits(s)
    ensures StringToNumber(s) == Int(DigitsValue(s))
  {
    assert IsDigit(s[0]) && IsDigit(s[|s| - 1]);
    NumberOfUnpadded(s);
  }

  lemma NumberOfNegatedDigits(s: string)
    requires s != [] && AllDigits(s)
    ensures StringToNumber("-" + s) == Int(-(DigitsValue(s) as int))
  {
    var m := "-" + s;
    assert m[0] == '-' && m[1..] == s;
    assert SignedDigits(m) == Int(-(DigitsValue(s) as int));
    assert IsDigit(m[|m| - 1]);
    NumberOfUnpadded(m);
  }

  /** Text without white space at either end is read as it stands. */
  lemma NumberOfUnpadded(t: string)
    requires t != [] && !IsJsSpace(t[0]) && !IsJsSpace(t[|t| - 1])
    ensures StringToNumber(t) == SignedDigits(t)
  {
    TrimOfTrimmed(t);
  }

  /** Text that starts with neither white space, a sign nor a digit reads as NaN. */
  lemma NumberOfNonNumeric(s: string)
    requires s != [] && !IsJsSpace(s[0]) && !IsJsSpace(s[|s| - 1])
    requires !IsDigit(s[0]) && s[0] != '-' && s[0] != '+'
    ensures StringToNumber(s) == NaN
  {
    NumberOfUnpadded(s);
  }

  /** `Number` of an object reads "[object Object]", which is NaN, unless
      the object has its own `toString` field, which makes it throw. */
  lemma NumberOfObject(fields: map<string, Json>)
    ensures "toString" !in fields ==> ToNumber(Obj(fields)) == Ok(NaN)
    ensures "toString" in fields ==> ToNumber(Obj(fields)) == Err(TypeError)
  {
    NumberOfNonNumeric("[object Object]");
  }

  /** `Number([])` reads "": 0. */
  lemma NumberOfEmptyArray()
    ensures ToNumber(Arr([])) == Ok(Int(0))
  {
    assert ToStr(Arr([])) == "";
    NumberOfBlank("");
  }

  /** `Number([x])` for a number x reads the text of x: x again. */
  lemma NumberOfSingleton(n: Num)
    ensures ToNumber(Arr([Number(n)])) == Ok(n)
  {
    assert Printable(Arr([Number(n)]));
    assert ToStr(Arr([Number(n)])) == ToStr(Number(n));
    if n.NaN? {
      NumberOfNonNumeric("NaN");
    } else {
      NumberOfString(n.i);
    }
  }

  /** `Number(String(n)) === n` for every integral number. */
  lemma NumberOfString(i: int)
    ensures StringToNumber(IntToStr(i)) == Int(i)
  {
    var m: nat := if i < 0 then -i else i;
    DigitsValueOfNat(m);
    if i < 0 {
      NumberOfNegatedDigits(NatToDigits(m));
    } else {
      NumberOfDigits(NatToDigits(m));
    }
  }
}
