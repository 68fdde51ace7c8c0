/** Strings as the JavaScript code sees them: sequences of UTF-16 code units. */
module Text {

  /** The characters the regular expression class \s matches and trim() removes. */
  predicate IsSpace(c: char) {
    || '\t' <= c <= '\r' || c == ' ' || c == '\U{00A0}' || c == '\U{1680}' || '\U{2000}' <= c <= '\U{200A}'
    || c == '\U{2028}' || c == '\U{2029}' || c == '\U{202F}' || c == '\U{205F}' || c == '\U{3000}' || c == '\U{FEFF}'
  }

  function TrimStart(s: string): string {
    if s != "" && IsSpace(s[0]) then TrimStart(s[1..]) else s
  }

  function TrimEnd(s: string): string {
    if s != "" && IsSpace(s[|s| - 1]) then TrimEnd(s[..|s| - 1]) else s
  }

  function Trim(s: string): string {
    TrimEnd(TrimStart(s))
  }

  predicate IsHex(c: char) {
    '0' <= c <= '9' || 'a' <= c <= 'f' || 'A' <= c <= 'F'
  }

  predicate IsLowerHex(c: char) {
    '0' <= c <= '9' || 'a' <= c <= 'f'
  }

  predicate AllHex(s: string) {
    forall c | c in s :: IsHex(c)
  }

  predicate AllLowerHex(s: string) {
    forall c | c in s :: IsLowerHex(c)
  }

  /** toLowerCase, on hexadecimal digits. */
  function LowerDigit(c: char): char
    requires IsHex(c)
  {
    if 'A' <= c <= 'F' then (c as int - 'A' as int + 'a' as int) as char else c
  }

  function Lower(s: string): (r: string)
    requires AllHex(s)
    ensures |r| == |s| && AllLowerHex(r)
  {
    if s == "" then "" else [LowerDigit(s[0])] + Lower(s[1..])
  }

  function DigitValue(c: char): nat
    requires IsLowerHex(c)
  {
    if '0' <= c <= '9' then c as int - '0' as int else c as int - 'a' as int + 10
  }

  predicate AllSpace(s: string) {
    forall c | c in s :: IsSpace(c)
  }

  /** A text without white space at either end, or none at all. */
  predicate Bare(s: string) {
    s != "" ==> !IsSpace(s[0]) && !IsSpace(s[|s| - 1])
  }

  lemma {:induction false} TrimStartIs(pre: string, rest: string)
    requires AllSpace(pre) && (rest != "" ==> !IsSpace(rest[0]))
    ensures TrimStart(pre + rest) == rest
  {
    if pre == "" {
      assert pre + rest == rest;
    } else {
      assert (pre + rest)[1..] == pre[1..] + rest;
      TrimStartIs(pre[1..], rest);
    }
  }

  lemma {:induction false} TrimEndIs(rest: string, post: string)
    requires AllSpace(post) && (rest != "" ==> !IsSpace(rest[|rest| - 1]))
    ensures TrimEnd(rest + post) == rest
    decreases |post|
  {
    if post == "" {
      assert rest + post == rest;
    } else {
      var front := post[..|post| - 1];
      assert (rest + post)[..|rest + post| - 1] == rest + front;
      TrimEndIs(rest, front);
    }
  }

  /** trim() takes off the white space around a text, and nothing else. */
  lemma TrimIs(pre: string, body: string, post: string)
    requires AllSpace(pre) && AllSpace(post) && Bare(body)
    ensures Trim(pre + body + post) == body
  {
    if body == "" {
      assert pre + body + post == (pre + post) + "";
      TrimStartIs(pre + post, "");
    } else {
      assert pre + body + post == pre + (body + post);
      TrimStartIs(pre, body + post);
      TrimEndIs(body, post);
    }
  }

  /** The value of a hexadecimal digit of either case. */
  function HexValue(c: char): nat
    requires IsHex(c)
  {
    if '0' <= c <= '9' then c as int - '0' as int
    else if 'a' <= c <= 'f' then c as int - 'a' as int + 10
    else c as int - 'A' as int + 10
  }

  /** The same digits, those of b in lower case. */
  predicate SameDigits(a: string, b: string) {
    |a| == |b| && forall i | 0 <= i < |a| :: IsHex(a[i]) && IsLowerHex(b[i]) && HexValue(a[i]) == HexValue(b[i])
  }

  lemma {:induction false} LowerIs(a: string, b: string)
    requires AllHex(a)
    ensures Lower(a) == b <==> SameDigits(a, b)
  {
    if a != "" {
      assert a[0] in a;
      forall c | c in a[1..] ensures IsHex(c) {}
      if b != "" {
        LowerIs(a[1..], b[1..]);
        assert b == [b[0]] + b[1..] && a == [a[0]] + a[1..];
        assert SameDigits(a, b) ==> SameDigits(a[1..], b[1..]);
        assert Lower(a)[0] == LowerDigit(a[0]) && Lower(a)[1..] == Lower(a[1..]);
      }
    }
  }
}
