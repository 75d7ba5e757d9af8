/** The pieces of JavaScript's string and regular-expression semantics that
    the order form relies on: the character classes `\d` and `\w` (without the
    `u` flag), `String.prototype.trim`, and `replace(/\D/g, '')`. */
module JsText {

  /** `\d`: the ASCII digits. */
  predicate IsDigit(c: char) {
    '0' <= c <= '9'
  }

  /** `[A-Za-z]` */
  predicate IsLetter(c: char) {
    'A' <= c <= 'Z' || 'a' <= c <= 'z'
  }

  /** `\w`: `[A-Za-z0-9_]`. */
  predicate IsWordChar(c: char) {
    IsLetter(c) || IsDigit(c) || c == '_'
  }

  /** The white space and line terminators that `trim` strips: TAB, VT, FF,
      SP, NBSP, ZWNBSP, the other space separators, LF, CR, LS and PS. */
  predicate IsWhiteSpace(c: char) {
    || c == '\t' || c == '\n' || c == '\U{000B}' || c == '\U{000C}' || c == '\r'
    || c == ' ' || c == '\U{00A0}' || c == '\U{1680}'
    || ('\U{2000}' <= c <= '\U{200A}')
    || c == '\U{2028}' || c == '\U{2029}' || c == '\U{202F}' || c == '\U{205F}'
    || c == '\U{3000}' || c == '\U{FEFF}'
  }

  predicate AllChars(s: string, p: char -> bool) {
    forall i :: 0 <= i < |s| ==> p(s[i])
  }

  /** The length of the longest prefix of `s` all of whose characters satisfy `p`. */
  function PrefixSpan(s: string, p: char -> bool): (k: nat)
    ensures k <= |s|
    ensures forall i :: 0 <= i < k ==> p(s[i])
    ensures k == |s| || !p(s[k])
  {
    if s == [] || !p(s[0]) then 0 else 1 + PrefixSpan(s[1..], p)
  }

  /** The length of the longest suffix of `s` all of whose characters satisfy `p`. */
  function SuffixSpan(s: string, p: char -> bool): (k: nat)
    ensures k <= |s|
    ensures forall i :: |s| - k <= i < |s| ==> p(s[i])
    ensures k == |s| || !p(s[|s| - 1 - k])
  {
    if s == [] || !p(s[|s| - 1]) then 0 else 1 + SuffixSpan(s[..|s| - 1], p)
  }

  /** A span is determined by its two defining properties. */
  lemma PrefixSpanExact(s: string, p: char -> bool, k: nat)
    requires k <= |s| && (forall i :: 0 <= i < k ==> p(s[i])) && (k == |s| || !p(s[k]))
    ensures PrefixSpan(s, p) == k
  {
  }

  lemma SuffixSpanExact(s: string, p: char -> bool, k: nat)
    requires k <= |s| && (forall i :: |s| - k <= i < |s| ==> p(s[i]))
    requires k == |s| || !p(s[|s| - 1 - k])
    ensures SuffixSpan(s, p) == k
  {
  }

  /** `r` is what is left of `s` once a white-space prefix of length `k` and a
      white-space suffix are cut off. */
  ghost predicate TrimmedAt(s: string, r: string, k: nat) {
    && k + |r| <= |s|
    && s[k..k + |r|] == r
    && (forall i :: 0 <= i < k ==> IsWhiteSpace(s[i]))
    && (forall i :: k + |r| <= i < |s| ==> IsWhiteSpace(s[i]))
  }

  /** `s.trim()` */
  function Trim(s: string): (r: string)
    ensures exists k :: TrimmedAt(s, r, k)
    ensures r == [] || (!IsWhiteSpace(r[0]) && !IsWhiteSpace(r[|r| - 1]))
    ensures r == [] <==> AllChars(s, IsWhiteSpace)
  {
    var k := PrefixSpan(s, IsWhiteSpace);
    var rest := s[k..];
    var t := SuffixSpan(rest, IsWhiteSpace);
    var r := rest[..|rest| - t];
    assert TrimmedAt(s, r, k) by {
      forall i | k + |r| <= i < |s| ensures IsWhiteSpace(s[i]) {
        assert s[i] == rest[i - k];
      }
    }
    assert k < |s| ==> r != [] by {
      if k < |s| { assert !IsWhiteSpace(rest[0]) && t < |rest|; }
    }
    assert r != [] ==> r[0] == s[k] && r[|r| - 1] == rest[|rest| - 1 - t];
    r
  }

  /** Trimming twice is trimming once. */
  lemma TrimIdempotent(s: string)
    ensures Trim(Trim(s)) == Trim(s)
  {
    var r := Trim(s);
    if r != [] {
      PrefixSpanExact(r, IsWhiteSpace, 0);
      SuffixSpanExact(r, IsWhiteSpace, 0);
      assert r[0..] == r && r[..|r|] == r;
    }
  }

  /** `s.replace(/\D/g, '')`: the digits of `s`, in order. */
  function DigitsOf(s: string): (r: string)
    ensures AllChars(r, IsDigit)
    ensures AllChars(s, IsDigit) ==> r == s
  {
    if s == [] then []
    else (if IsDigit(s[0]) then [s[0]] else []) + DigitsOf(s[1..])
  }

  /** Every digit of `s` is kept, as often as it occurs. */
  lemma {:induction false} DigitsOfKeepsDigits(s: string)
    ensures forall c :: IsDigit(c) ==> multiset(DigitsOf(s))[c] == multiset(s)[c]
  {
    if s != [] {
      DigitsOfKeepsDigits(s[1..]);
      assert s == [s[0]] + s[1..];
      assert multiset(s) == multiset{s[0]} + multiset(s[1..]);
    }
  }

  /** Removing the non-digits of a concatenation removes them from each part. */
  lemma {:induction false} DigitsOfAppend(a: string, b: string)
    ensures DigitsOf(a + b) == DigitsOf(a) + DigitsOf(b)
  {
    if a == [] {
      assert a + b == b;
    } else {
      var head := if IsDigit(a[0]) then [a[0]] else [];
      assert (a + b)[0] == a[0] && (a + b)[1..] == a[1..] + b;
      DigitsOfAppend(a[1..], b);
      calc {
        DigitsOf(a + b);
        head + DigitsOf(a[1..] + b);
        head + (DigitsOf(a[1..]) + DigitsOf(b));
        (head + DigitsOf(a[1..])) + DigitsOf(b);
      }
    }
  }
}
