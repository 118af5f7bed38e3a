/** JavaScript values as the handlers and scripts see them. */
module Js {

  datatype Option<T> = None | Some(value: T)

  /** A JavaScript number: a finite value (kept exact, as a real), NaN or an infinity. */
  datatype Num = Finite(r: real) | NaN | PosInf | NegInf

  /** A value read from a parsed JSON request body. */
  datatype JsValue =
    | Undefined
    | Null
    | Bool(b: bool)
    | Number(n: Num)
    | Str(s: string)
    | Array(elems: seq<JsValue>)
    | Object

  /** `typeof v === 'number' && isFinite(v)` */
  predicate IsFiniteNumber(v: JsValue) {
    v.Number? && v.n.Finite?
  }

  /** JavaScript truthiness: `!v` is false. */
  predicate Truthy(v: JsValue) {
    match v
    case Undefined => false
    case Null => false
    case Bool(b) => b
    case Number(n) => n != NaN && n != Finite(0.0)
    case Str(s) => s != ""
    case Array(_) => true
    case Object => true
  }

  /**
   * `String(v)` for a value inside an array being joined: `undefined` and
   * `null` become the empty string, a nested array is joined in turn and a
   * plain object reads "[object Object]". How a number is written out is the
   * engine's, given as `numberText`.
   */
  function ElementText(v: JsValue, numberText: Num -> string): (t: string)
    ensures v.Str? ==> t == v.s
    ensures v.Undefined? || v.Null? ==> t == ""
    decreases v, 1
  {
    match v
    case Undefined => ""
    case Null => ""
    case Bool(b) => if b then "true" else "false"
    case Number(n) => numberText(n)
    case Str(s) => s
    case Array(elems) => JoinText(elems, numberText)
    case Object => "[object Object]"
  }

  /** `elems.join(",")`, which is also what `String` makes of an array. */
  function JoinText(elems: seq<JsValue>, numberText: Num -> string): (t: string)
    ensures |elems| == 1 ==> t == ElementText(elems[0], numberText)
    ensures |elems| > 1 ==> |t| >= |elems| - 1
    decreases elems, 0
  {
    if elems == [] then ""
    else if |elems| == 1 then ElementText(elems[0], numberText)
    else JoinText(elems[..|elems| - 1], numberText) + "," + ElementText(elems[|elems| - 1], numberText)
  }

  /**
   * `parseFloat(v)`: the argument is first turned into a string and the
   * longest numeric prefix of that text is read. A number reads back as
   * itself; an array reads as its joined text, so `[41.33]` gives 41.33;
   * `undefined`, `null`, booleans and plain objects give texts with no
   * numeric prefix, hence NaN. Reading the text itself is the JavaScript
   * engine's, given as `parseText`.
   */
  function ParseFloat(v: JsValue, parseText: string -> Num, numberText: Num -> string): (n: Num)
    ensures v.Number? ==> n == v.n
    ensures v.Str? ==> n == parseText(v.s)
    ensures v.Array? ==> n == parseText(JoinText(v.elems, numberText))
    ensures !v.Number? && !v.Str? && !v.Array? ==> n == NaN
  {
    match v
    case Number(n) => n
    case Str(s) => parseText(s)
    case Array(elems) => parseText(JoinText(elems, numberText))
    case _ => NaN
  }

  /** A one-element array reads as its element would, were it a string. */
  lemma {:induction false} SingletonArrayParsesAsElement(e: string, parseText: string -> Num, numberText: Num -> string)
    ensures ParseFloat(Array([Str(e)]), parseText, numberText) == ParseFloat(Str(e), parseText, numberText)
  {
    assert JoinText([Str(e)], numberText) == e;
  }

  /** The UTF-16 code units one character takes: two outside the Basic Multilingual Plane. */
  function Utf16Units(c: char): (k: nat)
    ensures k == 1 || k == 2
  {
    if c as int >= 0x10000 then 2 else 1
  }

  /** `s.length` for a JavaScript string: UTF-16 code units, not characters. */
  function Utf16Length(s: string): (n: nat)
    ensures |s| <= n <= 2 * |s|
    decreases |s|
  {
    if s == [] then 0 else Utf16Length(s[..|s| - 1]) + Utf16Units(s[|s| - 1])
  }

  /** The length in code units equals the number of characters exactly when every character is in the Basic Multilingual Plane. */
  lemma {:induction false} Utf16LengthCountsCharsInBmp(s: string)
    ensures Utf16Length(s) == |s| <==> forall i :: 0 <= i < |s| ==> s[i] as int < 0x10000
    decreases |s|
  {
    if s != [] {
      var init := s[..|s| - 1];
      Utf16LengthCountsCharsInBmp(init);
      assert Utf16Length(s) == |s| <==> Utf16Length(init) == |init| && Utf16Units(s[|s| - 1]) == 1;
      assert (forall i :: 0 <= i < |s| ==> s[i] as int < 0x10000)
         <==> (forall i :: 0 <= i < |init| ==> init[i] as int < 0x10000) && s[|s| - 1] as int < 0x10000;
    }
  }

  /** Code units add up over concatenation. */
  lemma {:induction false} Utf16LengthAppend(a: string, b: string)
    ensures Utf16Length(a + b) == Utf16Length(a) + Utf16Length(b)
    decreases |b|
  {
    if b == [] {
      assert a + b == a;
    } else {
      var b' := b[..|b| - 1];
      assert (a + b)[..|a + b| - 1] == a + b';
      assert (a + b)[|a + b| - 1] == b[|b| - 1];
      Utf16LengthAppend(a, b');
    }
  }

  /** `Math.round` on a finite value: the nearest integer, halves going up. */
  function Round(x: real): (n: int)
    ensures x - 0.5 < n as real <= x + 0.5
  {
    (x + 0.5).Floor
  }

  /** Math.round leaves integers alone and never reverses an order. */
  lemma {:induction false} RoundProperties(x: real, y: real, k: int)
    ensures Round(k as real) == k
    ensures x <= y ==> Round(x) <= Round(y)
  {
  }

  /** A value between two integers rounds to a value between them. */
  lemma {:induction false} RoundBetween(x: real, lo: int, hi: int)
    requires lo as real <= x <= hi as real
    ensures lo <= Round(x) <= hi
  {
  }
}
