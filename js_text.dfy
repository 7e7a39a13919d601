/**
 * The few JavaScript value semantics the chat component relies on:
 * truthiness of optional strings, `||` defaulting, `trim()` emptiness,
 * `Date.now().toString()` rendering, `String.prototype.includes`, and thrown
 * errors (`JsError`): the text `err.message || JSON.stringify(err)` shows
 * (`ErrorText`), `new Error(message)` (`PlainError`) and the `TypeError` of
 * reading a property of `null` or `undefined` (`PropertyOfNothing`).
 */
module JsText {
  import opened Wrappers

  /** A string that may be `undefined` is truthy iff it is defined and non-empty. */
  predicate Truthy(s: Option<string>) {
    s.Some? && s.value != ""
  }

  /** JavaScript `s || fallback` on a string that may be `undefined`. */
  function OrElse(s: Option<string>, fallback: string): (r: string)
    ensures r == fallback || Some(r) == s
    ensures r != "" <==> Truthy(s) || fallback != ""
  {
    if Truthy(s) then s.value else fallback
  }

  /** The characters `String.prototype.trim` removes: WhiteSpace and LineTerminator. */
  predicate IsJsWhitespace(c: char) {
    var n := c as int;
    n == 0x09 || n == 0x0A || n == 0x0B || n == 0x0C || n == 0x0D || n == 0x20
    || n == 0xA0 || n == 0x1680 || (0x2000 <= n <= 0x200A) || n == 0x2028
    || n == 0x2029 || n == 0x202F || n == 0x205F || n == 0x3000 || n == 0xFEFF
  }

  /** `!s.trim()`: the trimmed string is empty exactly when every character is white space. */
  predicate IsBlank(s: string) {
    forall i :: 0 <= i < |s| ==> IsJsWhitespace(s[i])
  }

  /** The decimal digit character for `d`. */
  function Digit(d: nat): (c: char)
    requires d < 10
    ensures '0' <= c <= '9'
  {
    (48 + d) as char
  }

  /** `n.toString()` for a non-negative integer such as `Date.now()`. */
  function DecimalString(n: nat): (s: string)
    ensures |s| >= 1
    ensures forall i :: 0 <= i < |s| ==> '0' <= s[i] <= '9'
    ensures n >= 10 ==> |s| >= 2
  {
    if n < 10 then [Digit(n)] else DecimalString(n / 10) + [Digit(n % 10)]
  }

  /** Two different instants never render to the same id string. */
  lemma {:induction false} DecimalStringInjective(a: nat, b: nat)
    requires DecimalString(a) == DecimalString(b)
    ensures a == b
  {
    var s := DecimalString(a);
    if a >= 10 && b >= 10 {
      assert s == DecimalString(a / 10) + [Digit(a % 10)];
      assert s == DecimalString(b / 10) + [Digit(b % 10)];
      assert DecimalString(a / 10) == s[..|s| - 1] == DecimalString(b / 10);
      assert Digit(a % 10) == s[|s| - 1] == Digit(b % 10);
      DecimalStringInjective(a / 10, b / 10);
    }
  }

  /** `t` is a prefix of `s`. */
  predicate StartsWith(s: string, t: string) {
    |t| <= |s| && s[..|t|] == t
  }

  /** `s.includes(t)`: `t` occurs in `s` at some position. */
  predicate Contains(s: string, t: string)
    decreases |s|
  {
    StartsWith(s, t) || (|s| > 0 && Contains(s[1..], t))
  }

  /** Whatever text is placed around `t`, the result contains `t`. */
  lemma {:induction false} ContainsInfix(a: string, t: string, b: string)
    ensures Contains(a + t + b, t)
  {
    var s := a + t + b;
    if a == [] {
      assert s[..|t|] == t;
    } else {
      assert s[1..] == a[1..] + t + b;
      ContainsInfix(a[1..], t, b);
    }
  }

  /**
   * A thrown JavaScript value as far as the component inspects it: `name`,
   * `message` (`""` when absent) and what `JSON.stringify` makes of it.
   */
  datatype JsError = JsError(name: string, message: string, serialized: string)

  /** `err.message || JSON.stringify(err)`. */
  function ErrorText(e: JsError): (r: string)
    ensures r == e.message || r == e.serialized
    ensures r == "" <==> e.message == "" && e.serialized == ""
  {
    if e.message != "" then e.message else e.serialized
  }

  /** `new Error(message)`: its own properties are not enumerable, so it serialises to `{}`. */
  function PlainError(message: string): JsError {
    JsError("Error", message, "{}")
  }

  /** The `TypeError` of reading property `prop` of `undefined` or `null`. */
  function PropertyOfNothing(nothing: string, prop: string): JsError {
    JsError("TypeError", "Cannot read properties of " + nothing + " (reading '" + prop + "')", "{}")
  }
}
