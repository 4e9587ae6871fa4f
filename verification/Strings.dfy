/** The few string operations the repository relies on: Go's byte-wise order on
    strings, joining, and the whitespace and case rules of the strings package. */
module Strings {

  /** Go's `a < b` on strings. */
  predicate Less(a: string, b: string) {
    if b == [] then false
    else if a == [] then true
    else a[0] < b[0] || (a[0] == b[0] && Less(a[1..], b[1..]))
  }

  lemma {:induction false} LessIsTotal(a: string, b: string)
    ensures (Less(a, b) && !Less(b, a) && a != b) || (Less(b, a) && !Less(a, b) && a != b) || (a == b && !Less(a, b))
  {
    if a != [] && b != [] && a[0] == b[0] {
      LessIsTotal(a[1..], b[1..]);
      assert a == [a[0]] + a[1..] && b == [b[0]] + b[1..];
    }
  }

  lemma {:induction false} LessIsTransitive(a: string, b: string, c: string)
    requires Less(a, b) && Less(b, c)
    ensures Less(a, c)
  {
    if a != [] && a[0] == b[0] && b[0] == c[0] {
      LessIsTransitive(a[1..], b[1..], c[1..]);
    }
  }

  /** strings.Join. */
  function Join(parts: seq<string>, separator: string): string {
    if parts == [] then ""
    else if |parts| == 1 then parts[0]
    else parts[0] + separator + Join(parts[1..], separator)
  }

  /** Text free of the separator can be cut off the front in one way only. */
  lemma CutIsUnique(a: string, b: string, x: string, y: string, separator: char)
    requires separator !in a && separator !in b
    requires a + [separator] + x == b + [separator] + y
    ensures a == b && x == y
  {
    var left := a + [separator] + x;
    var right := b + [separator] + y;
    assert left[|a|] == separator && right[|b|] == separator;
    assert a == left[..|a|] && b == right[..|b|];
    assert x == left[|a| + 1..] && y == right[|b| + 1..];
  }

  /** And off the end. */
  lemma CutLastIsUnique(a: string, b: string, x: string, y: string, separator: char)
    requires separator !in x && separator !in y
    requires a + [separator] + x == b + [separator] + y
    ensures a == b && x == y
  {
    var left := a + [separator] + x;
    var right := b + [separator] + y;
    assert left[|a|] == separator && right[|b|] == separator;
    assert forall i | |a| < i < |left| :: left[i] == x[i - |a| - 1];
    assert forall i | |b| < i < |right| :: right[i] == y[i - |b| - 1];
    assert a == left[..|a|] && b == right[..|b|];
    assert x == left[|a| + 1..] && y == right[|b| + 1..];
  }

  /** Joining is injective on lists of one length whose parts avoid the separator. */
  lemma {:induction false} JoinIsInjective(a: seq<string>, b: seq<string>, separator: char)
    requires |a| == |b|
    requires forall i | 0 <= i < |a| :: separator !in a[i] && separator !in b[i]
    requires Join(a, [separator]) == Join(b, [separator])
    ensures a == b
  {
    if |a| == 1 {
      assert a == [a[0]] && b == [b[0]];
    } else if |a| > 1 {
      CutIsUnique(a[0], b[0], Join(a[1..], [separator]), Join(b[1..], [separator]), separator);
      JoinIsInjective(a[1..], b[1..], separator);
      assert a == [a[0]] + a[1..] && b == [b[0]] + b[1..];
    }
  }

  /** unicode.IsSpace. */
  predicate IsSpace(c: char) {
    c == ' ' || '\U{9}' <= c <= '\U{D}' || c == '\U{85}' || c == '\U{A0}' || c == '\U{1680}'
    || '\U{2000}' <= c <= '\U{200A}' || c == '\U{2028}' || c == '\U{2029}' || c == '\U{202F}'
    || c == '\U{205F}' || c == '\U{3000}'
  }

  /** strings.TrimSpace. */
  function TrimSpace(s: string): string {
    if s == [] then []
    else if IsSpace(s[0]) then TrimSpace(s[1..])
    else if IsSpace(s[|s| - 1]) then TrimSpace(s[..|s| - 1])
    else s
  }

  predicate HasPrefix(s: string, prefix: string) {
    prefix <= s
  }

  predicate HasSuffix(s: string, suffix: string) {
    |suffix| <= |s| && s[|s| - |suffix|..] == suffix
  }

  /** strings.Contains. */
  predicate Contains(s: string, part: string) {
    exists i | 0 <= i <= |s| :: part <= s[i..]
  }

  predicate HasAnyPrefix(s: string, prefixes: seq<string>) {
    exists prefix | prefix in prefixes :: HasPrefix(s, prefix)
  }

  /** Simple case folding as far as it can reach an ASCII letter. */
  function Fold(c: char): char {
    if 'A' <= c <= 'Z' then (c as int + 32) as char
    else if c == '\U{17F}' then 's'
    else if c == '\U{212A}' then 'k'
    else c
  }

  /** strings.EqualFold against a word made of ASCII letters. */
  predicate EqualFoldAscii(s: string, word: string) {
    |s| == |word| && forall i | 0 <= i < |s| :: Fold(s[i]) == Fold(word[i])
  }
}
