/**
 * The pieces of JavaScript value semantics the controller and the response
 * helpers rely on: truthiness, `String.prototype.length` (which counts UTF-16
 * code units), `String.prototype.substring`, and the relational `<` between a
 * value read from a query row and a `Date`.
 */
module JsSemantics {
  import opened Wrappers

  /**
   * A JavaScript value as it can be handed to a response helper. Numbers are
   * exact reals (the sign of zero is not kept), `NaN` is the one number that is
   * not a real, and `Obj` is any object (an array, an `Error`, a `Date`).
   */
  datatype JsValue = Undefined | Null | Bool(b: bool) | Num(n: real) | NaN | Str(s: string) | Obj

  /** `if (v)`: false for undefined, null, false, 0, NaN and the empty string. */
  predicate Truthy(v: JsValue)
    ensures Truthy(v) <==> v !in {Undefined, Null, Bool(false), Num(0.0), NaN, Str("")}
  {
    match v
    case Undefined => false
    case Null => false
    case Bool(b) => b
    case Num(n) => n != 0.0
    case NaN => false
    case Str(s) => s != ""
    case Obj => true
  }

  /** Truthiness of a string request field that may be missing (or null). */
  predicate StringTruthy(f: Option<string>)
    ensures StringTruthy(f) <==> Truthy(match f case None => Undefined case Some(s) => Str(s))
  {
    f.Some? && f.value != ""
  }

  /** Truthiness of an integer request field that may be missing (or null). */
  predicate IntTruthy(f: Option<int>)
    ensures IntTruthy(f) <==> Truthy(match f case None => Undefined case Some(n) => Num(n as real))
  {
    f.Some? && f.value != 0
  }

  /** Number of UTF-16 code units one character occupies. */
  function Utf16Units(c: char): nat {
    if c as int > 0xFFFF then 2 else 1
  }

  /** `s.length` in JavaScript: characters outside the Basic Multilingual Plane count twice. */
  function Utf16Length(s: string): (n: nat)
    ensures |s| <= n <= 2 * |s|
  {
    if s == [] then 0 else Utf16Units(s[0]) + Utf16Length(s[1..])
  }

  /** A string whose every character lies in the Basic Multilingual Plane. */
  predicate InBmp(s: string) {
    forall i | 0 <= i < |s| :: s[i] as int <= 0xFFFF
  }

  /** For text made of BMP characters the JavaScript length is the character count. */
  lemma {:induction false} Utf16LengthOfBmp(s: string)
    requires InBmp(s)
    ensures Utf16Length(s) == |s|
  {
    if s != [] {
      assert InBmp(s[1..]) by {
        forall i | 0 <= i < |s[1..]| ensures s[1..][i] as int <= 0xFFFF {
          assert s[1..][i] == s[i + 1];
        }
      }
      Utf16LengthOfBmp(s[1..]);
    }
  }

  /** An index argument of `substring`, clamped into `[0, len]`. */
  function ClampIndex(x: int, len: nat): (r: nat)
    ensures r <= len
  {
    if x < 0 then 0 else if x > len then len else x
  }

  /**
   * `s.substring(start, end)`: both indices clamped, swapped when out of order.
   * JavaScript indexes UTF-16 units and this indexes characters, so the two
   * agree on text inside the Basic Multilingual Plane (`InBmp`), which is the
   * only text it is applied to.
   */
  function Substring(s: string, start: int, end: int): (r: string)
    ensures |r| <= |s|
    ensures 0 <= start <= end ==> |r| <= end - start
    ensures 0 <= start <= end <= |s| ==> r == s[start..end]
  {
    var a := ClampIndex(start, |s|);
    var b := ClampIndex(end, |s|);
    if a <= b then s[a..b] else s[b..a]
  }

  /**
   * What `row.expires_at` evaluates to on a query row: the property is
   * absent when the query did not select the column, SQL NULL when the column
   * holds no timestamp, and a `Date` with its millisecond value otherwise.
   */
  datatype ColumnValue = NotSelected | SqlNull | Timestamp(ms: int)

  /**
   * The number a row value converts to before `<` compares it; `None` is NaN:
   * undefined becomes NaN, null becomes 0 and a Date its millisecond value.
   */
  function ToNumber(v: ColumnValue): Option<int> {
    match v
    case NotSelected => None
    case SqlNull => Some(0)
    case Timestamp(ms) => Some(ms)
  }

  /**
   * `v < new Date()` with the current time `now` in milliseconds: both sides
   * are converted to numbers, then compared, and any comparison with NaN is false.
   */
  predicate BeforeNow(v: ColumnValue, now: int)
    ensures BeforeNow(v, now) <==> ToNumber(v).Some? && ToNumber(v).value < now
  {
    match v
    case NotSelected => false
    case SqlNull => 0 < now
    case Timestamp(ms) => ms < now
  }
}
