/**
 * The JavaScript string primitives the assistant's decisions rest on:
 * `toLowerCase`, `includes` and `trim`, over strings as sequences of characters.
 */
module Text {

  /** `String.prototype.toLowerCase` on one character (ASCII letters only). */
  function LowerChar(c: char): char {
    if 'A' <= c <= 'Z' then (c as int + 32) as char else c
  }

  /** `String.prototype.toLowerCase`, character by character. */
  function ToLower(s: string): (r: string)
    ensures |r| == |s|
    ensures forall i :: 0 <= i < |s| ==> r[i] == LowerChar(s[i])
  {
    seq(|s|, i requires 0 <= i < |s| => LowerChar(s[i]))
  }

  lemma LowerCharIdempotent(c: char)
    ensures LowerChar(LowerChar(c)) == LowerChar(c)
  {
  }

  /** Lower-casing twice is lower-casing once. */
  lemma ToLowerIdempotent(s: string)
    ensures ToLower(ToLower(s)) == ToLower(s)
  {
    forall i | 0 <= i < |s|
      ensures ToLower(ToLower(s))[i] == ToLower(s)[i]
    {
      LowerCharIdempotent(s[i]);
    }
  }

  /** Lower-casing distributes over concatenation. */
  lemma ToLowerAppend(a: string, b: string)
    ensures ToLower(a + b) == ToLower(a) + ToLower(b)
  {
    assert forall i :: 0 <= i < |a + b| ==> ToLower(a + b)[i] == (ToLower(a) + ToLower(b))[i];
  }

  /** `String.prototype.includes`: `k` occurs somewhere in `s` (the empty key occurs everywhere). */
  function Contains(s: string, k: string): bool
    decreases |s|
  {
    |k| <= |s| && (s[..|k|] == k || (|s| > 0 && Contains(s[1..], k)))
  }

  /** The reference meaning of an occurrence: `k` is the slice of `s` starting at `i`. */
  ghost predicate OccursAt(s: string, k: string, i: nat) {
    i + |k| <= |s| && s[i..i + |k|] == k
  }

  /** `Contains` finds exactly the keys that occur at some position. */
  lemma {:induction false} ContainsIffOccurs(s: string, k: string)
    ensures Contains(s, k) <==> exists i: nat :: OccursAt(s, k, i)
    decreases |s|
  {
    if |k| > |s| {
    } else if s[..|k|] == k {
      assert OccursAt(s, k, 0);
    } else {
      ContainsIffOccurs(s[1..], k);
      if Contains(s, k) {
        var i: nat :| OccursAt(s[1..], k, i);
        assert s[1..][i..i + |k|] == s[i + 1..i + 1 + |k|];
        assert OccursAt(s, k, i + 1);
      }
      if exists i: nat :: OccursAt(s, k, i) {
        var i: nat :| OccursAt(s, k, i);
        assert i != 0;
        assert s[1..][i - 1..i - 1 + |k|] == s[i..i + |k|];
        assert OccursAt(s[1..], k, i - 1);
      }
    }
  }

  /** A key found in `s` is still found once text is put around `s`. */
  lemma ContainsInContext(s: string, k: string, before: string, after: string)
    requires Contains(s, k)
    ensures Contains(before + s + after, k)
  {
    ContainsIffOccurs(s, k);
    var i: nat :| OccursAt(s, k, i);
    var t := before + s + after;
    assert t[|before| + i..|before| + i + |k|] == s[i..i + |k|];
    assert OccursAt(t, k, |before| + i);
    ContainsIffOccurs(t, k);
  }

  /** A key found in `s` is still found after text is put in front of `s`. */
  lemma ContainsAfterPrefix(s: string, k: string, before: string)
    requires Contains(s, k)
    ensures Contains(before + s, k)
  {
    ContainsInContext(s, k, before, "");
    assert before + s + "" == before + s;
  }

  /** A key found in `s` is still found after text is put behind `s`. */
  lemma ContainsBeforeSuffix(s: string, k: string, after: string)
    requires Contains(s, k)
    ensures Contains(s + after, k)
  {
    ContainsInContext(s, k, "", after);
    assert "" + s + after == s + after;
  }

  /** Every string contains itself. */
  lemma ContainsSelf(s: string)
    ensures Contains(s, s)
  {
  }

  /**
   * The characters `String.prototype.trim` removes: the ECMAScript WhiteSpace
   * (tab, vertical tab, form feed, the byte order mark and every space separator)
   * and LineTerminator (line feed, carriage return, line and paragraph separator) code points.
   */
  predicate IsWhitespace(c: char) {
    c == '\t' || c == '\n' || c == '\U{000B}' || c == '\U{000C}' || c == '\r' || c == ' '
    || c == '\U{00A0}' || c == '\U{1680}' || ('\U{2000}' <= c <= '\U{200A}')
    || c == '\U{2028}' || c == '\U{2029}' || c == '\U{202F}' || c == '\U{205F}'
    || c == '\U{3000}' || c == '\U{FEFF}'
  }

  /** Every character of `s` is whitespace (so `s.trim()` is empty). */
  predicate IsBlank(s: string) {
    forall i :: 0 <= i < |s| ==> IsWhitespace(s[i])
  }

  /** `String.prototype.trimStart`: drops the leading whitespace and nothing else. */
  function TrimStart(s: string): (r: string)
    ensures |r| <= |s| && r == s[|s| - |r|..]
    ensures forall i :: 0 <= i < |s| - |r| ==> IsWhitespace(s[i])
    ensures r == [] || !IsWhitespace(r[0])
  {
    if |s| > 0 && IsWhitespace(s[0]) then TrimStart(s[1..]) else s
  }

  /** `String.prototype.trimEnd`: drops the trailing whitespace and nothing else. */
  function TrimEnd(s: string): (r: string)
    ensures |r| <= |s| && r == s[..|r|]
    ensures forall i :: |r| <= i < |s| ==> IsWhitespace(s[i])
    ensures r == [] || !IsWhitespace(r[|r| - 1])
  {
    if |s| > 0 && IsWhitespace(s[|s| - 1]) then TrimEnd(s[..|s| - 1]) else s
  }

  /** `String.prototype.trim`. */
  function Trim(s: string): string {
    TrimEnd(TrimStart(s))
  }

  /** `trim` gives the empty string exactly for blank input, and otherwise a string bounded by non-whitespace. */
  lemma TrimEmptyIffBlank(s: string)
    ensures Trim(s) == [] <==> IsBlank(s)
    ensures Trim(s) != [] ==> !IsWhitespace(Trim(s)[0]) && !IsWhitespace(Trim(s)[|Trim(s)| - 1])
  {
    var t := TrimStart(s);
    if t != [] {
      assert !IsWhitespace(t[0]);
      assert s[|s| - |t|] == t[0];
      assert Trim(s)[0] == t[0];
    }
  }

  /** Trimming at the end only looks past the last non-whitespace character of `p`. */
  lemma {:induction false} TrimEndAfter(p: string, q: string)
    requires p != [] && !IsWhitespace(p[|p| - 1])
    ensures TrimEnd(p + q) == p + TrimEnd(q)
    decreases |q|
  {
    if |q| > 0 && IsWhitespace(q[|q| - 1]) {
      assert (p + q)[..|p + q| - 1] == p + q[..|q| - 1];
      TrimEndAfter(p, q[..|q| - 1]);
    } else if |q| == 0 {
      assert p + q == p;
    }
  }

  /** Trailing whitespace makes no difference to `trimEnd`. */
  lemma {:induction false} TrimEndDropsBlankTail(s: string, w: string)
    requires IsBlank(w)
    ensures TrimEnd(s + w) == TrimEnd(s)
    decreases |w|
  {
    if |w| > 0 {
      assert (s + w)[..|s + w| - 1] == s + w[..|w| - 1];
      TrimEndDropsBlankTail(s, w[..|w| - 1]);
    } else {
      assert s + w == s;
    }
  }
}
