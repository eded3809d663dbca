// Text operations the source borrows from Python's `str` and from SQLite:
// whitespace stripping, splitting on a separator, joining, prefix tests and
// the LIKE operator. Strings are sequences of Unicode scalar values, which
// is also what Python indexes and slices.

module Strings {

  /** Python's `str.isspace()` for one character (the characters `strip()` removes). */
  predicate IsSpace(c: char) {
    c == ' ' || c == '\t' || c == '\n' || c == '\r' || c == '\U{b}' || c == '\U{c}'
    || ('\U{1c}' <= c <= '\U{1f}') || c == '\U{85}' || c == '\U{a0}' || c == '\U{1680}'
    || ('\U{2000}' <= c <= '\U{200a}') || c == '\U{2028}' || c == '\U{2029}'
    || c == '\U{202f}' || c == '\U{205f}' || c == '\U{3000}'
  }

  predicate StartsWith(s: string, prefix: string) {
    |prefix| <= |s| && s[..|prefix|] == prefix
  }

  /** Position of the first `c` in `s`, or `|s|` when there is none. */
  function IndexOf(s: string, c: char): (i: nat)
    ensures i <= |s|
    ensures i < |s| ==> s[i] == c
    ensures c !in s[..i]
    ensures i == |s| <==> c !in s
  {
    if s == [] then 0
    else if s[0] == c then 0
    else
      assert s[1..][..IndexOf(s[1..], c)] == s[..IndexOf(s[1..], c) + 1][1..];
      1 + IndexOf(s[1..], c)
  }

  /** Python's `s.split(c)[0]`: the text before the first `c`. */
  function Before(s: string, c: char): (r: string)
    ensures c !in r
    ensures StartsWith(s, r)
    ensures c in s ==> s == r + [c] + s[|r| + 1..]
    ensures c !in s ==> r == s
  {
    s[..IndexOf(s, c)]
  }

  /** Python's `s.split(c)[-1]`: the text after the last `c`, or all of `s`. */
  function AfterLast(s: string, c: char): (r: string)
    ensures c !in r
    ensures |r| <= |s| && r == s[|s| - |r|..]
    ensures c in s ==> |r| < |s| && s[|s| - |r| - 1] == c
    ensures c !in s ==> r == s
  {
    if s == [] || s[|s| - 1] == c then []
    else
      var init := s[..|s| - 1];
      var r := AfterLast(init, c) + [s[|s| - 1]];
      assert s == init + [s[|s| - 1]];
      assert c in s ==> c in init;
      r
  }

  /** Python's `s.split(c)` with an explicit one-character separator. */
  function Split(s: string, c: char): (r: seq<string>)
    ensures |r| >= 1
    ensures forall k :: 0 <= k < |r| ==> c !in r[k]
    ensures r[0] == Before(s, c)
    ensures c !in s ==> r == [s]
    ensures c in s ==> |r| >= 2
    decreases |s|
  {
    if c !in s then [s]
    else [Before(s, c)] + Split(s[IndexOf(s, c) + 1..], c)
  }

  /** Python's `sep.join(parts)`. */
  function Join(sep: string, parts: seq<string>): string
  {
    if |parts| == 0 then []
    else if |parts| == 1 then parts[0]
    else parts[0] + sep + Join(sep, parts[1..])
  }

  /** Joining the pieces of a split with the separator gives back the text. */
  lemma {:induction false} JoinSplit(s: string, c: char)
    ensures Join([c], Split(s, c)) == s
    decreases |s|
  {
    if c in s {
      var i := IndexOf(s, c);
      var b := Before(s, c);
      var rest := s[i + 1..];
      var parts := Split(rest, c);
      JoinSplit(rest, c);
      assert Split(s, c) == [b] + parts;
      assert ([b] + parts)[1..] == parts;
      assert Join([c], [b] + parts) == b + [c] + Join([c], parts);
      assert s == b + [c] + rest;
    }
  }

  /** Python's `s.replace(c, '')`. */
  function RemoveChar(s: string, c: char): (r: string)
    ensures c !in r
    ensures |r| <= |s|
    ensures forall x :: x != c ==> (x in r <==> x in s)
  {
    if s == [] then []
    else if s[0] == c then RemoveChar(s[1..], c)
    else [s[0]] + RemoveChar(s[1..], c)
  }

  function StripLeft(s: string): (r: string)
    ensures |r| <= |s| && r == s[|s| - |r|..]
    ensures r != [] ==> !IsSpace(r[0])
    ensures forall i :: 0 <= i < |s| - |r| ==> IsSpace(s[i])
  {
    if s != [] && IsSpace(s[0]) then StripLeft(s[1..]) else s
  }

  function StripRight(s: string): (r: string)
    ensures |r| <= |s| && r == s[..|r|]
    ensures r != [] ==> !IsSpace(r[|r| - 1])
    ensures forall i :: |r| <= i < |s| ==> IsSpace(s[i])
  {
    if s != [] && IsSpace(s[|s| - 1]) then StripRight(s[..|s| - 1]) else s
  }

  /** Python's `s.strip()`. */
  function Strip(s: string): string {
    StripRight(StripLeft(s))
  }

  /** `s.strip()` is empty exactly when every character of `s` is whitespace. */
  lemma StripEmptyIff(s: string)
    ensures Strip(s) == [] <==> forall i :: 0 <= i < |s| ==> IsSpace(s[i])
  {
    var l := StripLeft(s);
    if Strip(s) == [] {
      assert l == [];
    }
  }

  /** Python's `s.split()` with no argument: the maximal runs of non-whitespace. */
  function SplitWs(s: string): (r: seq<string>)
    ensures forall k :: 0 <= k < |r| ==> IsWord(r[k])
    decreases |s|
  {
    if s == [] then []
    else if IsSpace(s[0]) then SplitWs(s[1..])
    else
      var w := Word(s);
      var rest := SplitWs(s[|w|..]);
      var r := [w] + rest;
      forall k | 0 <= k < |r| ensures IsWord(r[k]) {
        if k > 0 {
          assert r[k] == rest[k - 1];
        }
      }
      r
  }

  /** A non-empty text without whitespace. */
  predicate IsWord(w: string) {
    w != [] && forall j :: 0 <= j < |w| ==> !IsSpace(w[j])
  }

  /** The leading run of non-whitespace characters. */
  function Word(t: string): (w: string)
    ensures |w| <= |t| && w == t[..|w|]
    ensures forall j :: 0 <= j < |w| ==> !IsSpace(w[j])
    ensures |w| < |t| ==> IsSpace(t[|w|])
    ensures t != [] && !IsSpace(t[0]) ==> w != []
  {
    if t == [] || IsSpace(t[0]) then [] else [t[0]] + Word(t[1..])
  }

  function AsciiLower(c: char): char {
    if 'A' <= c <= 'Z' then (c as int + 32) as char else c
  }

  /** `str.lower()` restricted to ASCII letters. */
  function Lower(s: string): (r: string)
    ensures |r| == |s|
    ensures forall i :: 0 <= i < |s| ==> r[i] == AsciiLower(s[i])
  {
    seq(|s|, i requires 0 <= i < |s| => AsciiLower(s[i]))
  }

  /** SQLite's `trim(x) = ''`: its default `trim` removes only spaces. */
  predicate SqlTrimmedEmpty(s: string) {
    forall i :: 0 <= i < |s| ==> s[i] == ' '
  }

  /** SQLite compares letters without regard to ASCII case in LIKE. */
  predicate FoldEq(a: char, b: char) {
    AsciiLower(a) == AsciiLower(b)
  }

  /**
   * SQLite's `s LIKE p` with no ESCAPE clause: `%` matches any run of
   * characters, `_` matches one character, and the other characters match
   * themselves up to ASCII case.
   */
  predicate Like(p: string, s: string)
    decreases |p| + |s|
  {
    if p == [] then s == []
    else if p[0] == '%' then Like(p[1..], s) || (s != [] && Like(p, s[1..]))
    else if p[0] == '_' then s != [] && Like(p[1..], s[1..])
    else s != [] && FoldEq(p[0], s[0]) && Like(p[1..], s[1..])
  }

  predicate NoWildcards(a: string) {
    '%' !in a && '_' !in a
  }

  /** `a` matches, up to ASCII case, the first `|a|` characters of `t`. */
  predicate FoldPrefix(a: string, t: string) {
    |a| <= |t| && forall k :: 0 <= k < |a| ==> FoldEq(a[k], t[k])
  }

  /** `a` occurs somewhere in `s`, up to ASCII case. */
  predicate ContainsFolded(s: string, a: string) {
    exists i :: 0 <= i <= |s| && FoldPrefix(a, s[i..])
  }

  lemma {:induction false} PercentMatchesAll(t: string)
    ensures Like("%", t)
    decreases |t|
  {
    if t != [] {
      PercentMatchesAll(t[1..]);
    }
  }

  lemma {:induction false} LikeTrailingPercent(a: string, t: string)
    requires NoWildcards(a)
    ensures Like(a + "%", t) <==> FoldPrefix(a, t)
    decreases |a|
  {
    if a == [] {
      assert a + "%" == "%";
      PercentMatchesAll(t);
    } else {
      assert (a + "%")[1..] == a[1..] + "%";
      if t != [] {
        LikeTrailingPercent(a[1..], t[1..]);
        if FoldPrefix(a, t) {
          assert FoldPrefix(a[1..], t[1..]) by {
            forall k | 0 <= k < |a[1..]| ensures FoldEq(a[1..][k], t[1..][k]) {
              assert FoldEq(a[k + 1], t[k + 1]);
            }
          }
        }
        if Like(a + "%", t) {
          assert FoldPrefix(a[1..], t[1..]);
          forall k | 0 <= k < |a| ensures FoldEq(a[k], t[k]) {
            if k > 0 { assert FoldEq(a[1..][k - 1], t[1..][k - 1]); }
          }
        }
      }
    }
  }

  lemma {:induction false} LikeLeadingPercent(q: string, s: string)
    ensures Like("%" + q, s) <==> exists i :: 0 <= i <= |s| && Like(q, s[i..])
    decreases |s|
  {
    assert ("%" + q)[1..] == q;
    assert s[0..] == s;
    if s != [] {
      LikeLeadingPercent(q, s[1..]);
      if Like("%" + q, s[1..]) {
        var i :| 0 <= i <= |s[1..]| && Like(q, s[1..][i..]);
        assert s[1..][i..] == s[i + 1..];
      }
      if exists i :: 0 <= i <= |s| && Like(q, s[i..]) {
        var i :| 0 <= i <= |s| && Like(q, s[i..]);
        if i > 0 {
          assert s[1..][i - 1..] == s[i..];
        }
      }
    }
  }

  /**
   * The author, organisation and name filters build `'%' + a + '%'`: when
   * `a` holds no wildcard, the pattern matches exactly the texts that
   * contain `a` up to ASCII case.
   */
  lemma LikeContains(a: string, s: string)
    requires NoWildcards(a)
    ensures Like("%" + a + "%", s) <==> ContainsFolded(s, a)
  {
    assert "%" + a + "%" == "%" + (a + "%");
    LikeLeadingPercent(a + "%", s);
    forall i | 0 <= i <= |s| ensures Like(a + "%", s[i..]) <==> FoldPrefix(a, s[i..]) {
      LikeTrailingPercent(a, s[i..]);
    }
  }
}
