/**
 * The few PHP value semantics the handlers depend on: what `empty()` and `!$x`
 * treat as false, the null-coalescing `??`, the loose `== null` test, the loose
 * comparison that `in_array` and `==` make against a word, and the `(string)` cast.
 *
 * A parsed JSON body is a map from key to Value. JSON objects nested in a body are
 * represented by the list of their values (only their emptiness is ever inspected).
 */
module Php {

  datatype Value = Null | Bool(b: bool) | Int(i: int) | Str(s: string) | List(items: seq<Value>)

  type Body = map<string, Value>

  /** `empty($v)`, equivalently `!$v`: null, false, 0, "", "0" and the empty array. */
  predicate Falsy(v: Value)
  {
    match v
    case Null => true
    case Bool(b) => !b
    case Int(i) => i == 0
    case Str(s) => s == "" || s == "0"
    case List(xs) => xs == []
  }

  /** `!$s` and `empty($s)` for a string (a header value or a route argument). */
  predicate FalsyText(s: string)
  {
    s == "" || s == "0"
  }

  /** `$body[$key] ?? $default`: the default when the key is absent or holds null. */
  function Coalesce(body: Body, key: string, default: Value): Value
  {
    if key in body && body[key] != Null then body[key] else default
  }

  /** `$body[$key]` read without `??`: an absent key reads as null. */
  function Field(body: Body, key: string): Value
  {
    if key in body then body[key] else Null
  }

  /** `isset($body[$key])`. */
  predicate IsSet(body: Body, key: string)
  {
    key in body && body[key] != Null
  }

  /**
   * `$v == null` under PHP 8 loose comparison. A string is compared with null as a
   * string against "", so "0" is NOT loosely null although it is empty().
   */
  predicate LooselyNull(v: Value)
  {
    match v
    case Null => true
    case Bool(b) => !b
    case Int(i) => i == 0
    case Str(s) => s == ""
    case List(xs) => xs == []
  }

  /** A non-empty string of ASCII letters: the literals the handlers compare against. */
  predicate IsWord(w: string)
  {
    w != [] && forall k :: 0 <= k < |w| ==> 'A' <= w[k] <= 'Z' || 'a' <= w[k] <= 'z'
  }

  /**
   * `$v == $w` under PHP 8 loose comparison, for a word $w (non-empty, not numeric).
   * true equals every non-empty, non-"0" string; an integer is compared as its decimal
   * text, which is never a word; null, false and arrays never equal a word.
   */
  predicate LooselyEqualsWord(v: Value, w: string)
    requires IsWord(w)
  {
    v == Bool(true) || v == Str(w)
  }

  /** `in_array($v, $words)` with its default loose comparison. */
  predicate InArrayLoose(v: Value, words: seq<string>)
    requires forall k :: 0 <= k < |words| ==> IsWord(words[k])
  {
    exists k :: 0 <= k < |words| && LooselyEqualsWord(v, words[k])
  }

  function DigitChar(d: nat): char
    requires d < 10
  {
    "0123456789"[d]
  }

  /** The decimal text of a natural number. */
  function NaturalText(n: nat): (s: string)
    ensures s != []
    ensures forall k :: 0 <= k < |s| ==> '0' <= s[k] <= '9'
    decreases n
  {
    if n < 10 then [DigitChar(n)] else NaturalText(n / 10) + [DigitChar(n % 10)]
  }

  /** `(string) $i` for an integer. */
  function IntText(i: int): string
  {
    if i < 0 then "-" + NaturalText(-i) else NaturalText(i)
  }

  /** `(string) $v`: the conversion string concatenation and PDO's string binding apply. */
  function Text(v: Value): string
  {
    match v
    case Null => ""
    case Bool(b) => if b then "1" else ""
    case Int(i) => IntText(i)
    case Str(s) => s
    case List(_) => "Array"
  }

  /** `$v == null` and `empty($v)` agree everywhere except on the string "0". */
  lemma LooselyNullIsFalsyExceptZeroText(v: Value)
    ensures LooselyNull(v) <==> Falsy(v) && v != Str("0")
  {
  }

  /** A non-empty value has non-empty text: what `empty()` lets through is never cast to "". */
  lemma {:induction false} TextOfTruthyIsNonEmpty(v: Value)
    requires !Falsy(v)
    ensures Text(v) != ""
  {
    match v
    case Int(i) =>
      if i < 0 { assert Text(v) == "-" + NaturalText(-i); } else { assert Text(v) == NaturalText(i); }
    case Str(s) =>
    case Bool(b) =>
    case List(_) =>
  }
}
