/**
 * String helpers with the semantics of the JavaScript built-ins the source uses:
 * truthiness of an optional string, `String.prototype.includes`, `\s` in a regular
 * expression, ASCII `toLowerCase`, and `Number.prototype.toString` on non-negative integers.
 */
module Strings {
  import opened Wrappers

  /** `s` is truthy in JavaScript: present and not the empty string. */
  predicate Truthy(s: Option<string>) {
    s.Some? && s.value != ""
  }

  /** JavaScript `a || b` on optional strings. */
  function Or(a: Option<string>, b: Option<string>): Option<string>
  {
    if Truthy(a) then a else b
  }

  /** `sub` occurs in `s` starting at index `i`. */
  predicate OccursAt(s: string, sub: string, i: nat) {
    i + |sub| <= |s| && s[i..i + |sub|] == sub
  }

  /** JavaScript `a || d` with a string default. */
  function OrElse(a: Option<string>, d: string): string
  {
    if Truthy(a) then a.value else d
  }

  /** `s.includes(sub)`: `sub` occurs in `s` at some position. */
  predicate Contains(s: string, sub: string) {
    exists i: nat | i <= |s| :: OccursAt(s, sub, i)
  }

  lemma ContainsInfix(a: string, sub: string, b: string)
    ensures Contains(a + sub + b, sub)
  {
    var s := a + sub + b;
    assert OccursAt(s, sub, |a|) by {
      assert s[|a|..|a| + |sub|] == sub;
    }
  }

  /** The characters matched by `\s` in an ECMAScript regular expression. */
  predicate IsJsWhitespace(c: char) {
    var k := c as int;
    k == 0x09 || k == 0x0A || k == 0x0B || k == 0x0C || k == 0x0D || k == 0x20
    || k == 0xA0 || k == 0x1680 || (0x2000 <= k <= 0x200A) || k == 0x2028 || k == 0x2029
    || k == 0x202F || k == 0x205F || k == 0x3000 || k == 0xFEFF
  }

  /** `s.replace(/\s+/g, '')`: every whitespace character removed, the rest in order. */
  function StripWhitespace(s: string): (r: string)
    ensures |r| <= |s|
    ensures forall i :: 0 <= i < |r| ==> !IsJsWhitespace(r[i])
  {
    if s == [] then []
    else if IsJsWhitespace(s[0]) then StripWhitespace(s[1..])
    else [s[0]] + StripWhitespace(s[1..])
  }

  /** Stripping distributes over concatenation: each part loses its own whitespace, in place. */
  lemma {:induction false} StripWhitespaceAppend(a: string, b: string)
    ensures StripWhitespace(a + b) == StripWhitespace(a) + StripWhitespace(b)
  {
    if a == [] {
      assert a + b == b;
    } else {
      assert (a + b)[0] == a[0];
      assert (a + b)[1..] == a[1..] + b;
      StripWhitespaceAppend(a[1..], b);
    }
  }

  /** A single character is removed when it is whitespace and kept otherwise. */
  lemma StripWhitespaceChar(c: char)
    ensures StripWhitespace([c]) == if IsJsWhitespace(c) then [] else [c]
  {
    assert [c][1..] == [];
  }

  function LowerChar(c: char): char {
    if 'A' <= c <= 'Z' then (c as int + 32) as char else c
  }

  /** `s.toLowerCase()` restricted to ASCII letters. */
  function ToLower(s: string): (r: string)
    ensures |r| == |s|
    ensures forall i :: 0 <= i < |s| ==> r[i] == LowerChar(s[i])
  {
    if s == [] then [] else [LowerChar(s[0])] + ToLower(s[1..])
  }

  /** Lower-casing never creates nor destroys whitespace, so the two normalisation orders agree. */
  lemma {:induction false} StripLowerCommute(s: string)
    ensures ToLower(StripWhitespace(s)) == StripWhitespace(ToLower(s))
  {
    if s != [] {
      StripLowerCommute(s[1..]);
      assert ToLower(s)[1..] == ToLower(s[1..]);
      assert IsJsWhitespace(LowerChar(s[0])) == IsJsWhitespace(s[0]);
    }
  }

  /** Normalising is idempotent: a normalised name normalises to itself. */
  lemma {:induction false} StripLowerIdempotent(s: string)
    ensures StripWhitespace(ToLower(StripWhitespace(ToLower(s)))) == StripWhitespace(ToLower(s))
  {
    var t := StripWhitespace(ToLower(s));
    NoWhitespaceStripsToItself(ToLower(t));
    LowerIdempotent(StripWhitespace(s));
    StripLowerCommute(s);
  }

  lemma {:induction false} NoWhitespaceStripsToItself(s: string)
    requires forall i :: 0 <= i < |s| ==> !IsJsWhitespace(s[i])
    ensures StripWhitespace(s) == s
  {
    if s != [] {
      NoWhitespaceStripsToItself(s[1..]);
    }
  }

  lemma LowerIdempotent(s: string)
    ensures ToLower(ToLower(s)) == ToLower(s)
  {
  }

  /** `encodeURIComponent`, taken as the identity. */
  function EncodeUriComponent(s: string): string {
    s
  }

  /** The host of the placeholder-avatar service that both icons and fallback logos use. */
  const AvatarHost := "ui-avatars.com"

  /** The placeholder shown for a missing brand or e-mail. */
  const Unknown := "Unknown"

  /** The name of the single app of the backend's fallback payload, which gets no brand logo. */
  const ConnectionFailed := "Connection Failed"

  function DigitChar(d: nat): char
    requires d < 10
  {
    "0123456789"[d]
  }

  /** `String(n)` for a non-negative integer: its decimal digits, most significant first. */
  function NatToString(n: nat): (r: string)
    ensures |r| > 0
    ensures forall i :: 0 <= i < |r| ==> '0' <= r[i] <= '9'
  {
    if n < 10 then [DigitChar(n)] else NatToString(n / 10) + [DigitChar(n % 10)]
  }

  /** The number a string of decimal digits denotes. */
  function DigitsValue(s: string): nat
    requires forall i :: 0 <= i < |s| ==> '0' <= s[i] <= '9'
  {
    if s == [] then 0 else 10 * DigitsValue(s[..|s| - 1]) + (s[|s| - 1] as int - '0' as int)
  }

  /** Printing a status code loses nothing: the digits read back as the same number. */
  lemma {:induction false} NatToStringRoundTrip(n: nat)
    ensures DigitsValue(NatToString(n)) == n
  {
    var s := NatToString(n);
    if n >= 10 {
      NatToStringRoundTrip(n / 10);
      assert s[..|s| - 1] == NatToString(n / 10);
    }
  }
}
