/**
 * Character classes and string helpers with the meaning Python gives them:
 * `str.lower`, `in` on strings, `str.strip`, `int(...)` of a digit string and
 * the zero-padded decimal fields of `datetime.isoformat`.
 */
module Text {

  /** `str.isspace`, which is also the set of characters `\s` matches in a str pattern. */
  predicate IsSpace(c: char) {
    c == ' ' || '\t' <= c <= '\r' || '\U{1C}' <= c <= '\U{1F}' || c == '\U{85}' || c == '\U{A0}'
    || c == '\U{1680}' || '\U{2000}' <= c <= '\U{200A}' || c == '\U{2028}' || c == '\U{2029}'
    || c == '\U{202F}' || c == '\U{205F}' || c == '\U{3000}'
  }

  predicate IsDigit(c: char) { '0' <= c <= '9' }

  predicate IsHexDigit(c: char) { IsDigit(c) || 'a' <= c <= 'f' || 'A' <= c <= 'F' }

  predicate IsAsciiUpper(c: char) { 'A' <= c <= 'Z' }

  predicate IsAsciiLower(c: char) { 'a' <= c <= 'z' }

  /** `\w`, restricted to ASCII. */
  predicate IsWordChar(c: char) { IsDigit(c) || IsAsciiUpper(c) || IsAsciiLower(c) || c == '_' }

  /** What `.` matches without DOTALL. */
  predicate NotNewline(c: char) { c != '\n' }

  function LowerChar(c: char): char {
    if IsAsciiUpper(c) then (c as int + 32) as char else c
  }

  /** `str.lower`, restricted to ASCII letters: each capital becomes its small letter, nothing else changes. */
  function Lower(s: string): (r: string)
    ensures |r| == |s|
    ensures forall k :: 0 <= k < |s| ==>
      !IsAsciiUpper(r[k]) && (IsAsciiUpper(s[k]) ==> r[k] as int == s[k] as int + 32) && (!IsAsciiUpper(s[k]) ==> r[k] == s[k])
  {
    seq(|s|, i requires 0 <= i < |s| => LowerChar(s[i]))
  }

  /** `w` occurs in `s` starting at index `i`. */
  predicate OccursAt(s: string, w: string, i: nat) {
    i + |w| <= |s| && s[i..i + |w|] == w
  }

  /** Python's `w in s` on strings. */
  predicate Contains(s: string, w: string) {
    exists i: nat :: i <= |s| && OccursAt(s, w, i)
  }

  /** An occurrence of `u + w` contains an occurrence of its suffix `w`. */
  lemma OccursAtSuffix(s: string, u: string, w: string, i: nat)
    requires OccursAt(s, u + w, i)
    ensures OccursAt(s, w, i + |u|)
  {
    assert s[i + |u|..i + |u| + |w|] == s[i..i + |u| + |w|][|u|..];
    assert (u + w)[|u|..] == w;
  }

  /** A word whose first character does not occur in `t` does not occur in it. */
  lemma AbsentFirst(t: string, w: string)
    requires |w| > 0 && w[0] !in t
    ensures !Contains(t, w)
  {
    forall i: nat | i <= |t|
      ensures !OccursAt(t, w, i)
    {
      if i + |w| <= |t| {
        assert t[i..i + |w|][0] == t[i];
        assert t[i] in t;
      }
    }
  }

  /** A word occurs in a string no longer than itself only as the whole string. */
  lemma AbsentShort(t: string, w: string)
    requires |t| <= |w| && t != w
    ensures !Contains(t, w)
  {
    forall i: nat | i <= |t|
      ensures !OccursAt(t, w, i)
    {
      if i + |w| <= |t| {
        assert t[i..i + |w|] == t;
      }
    }
  }

  /** An occurrence in `x + y` cannot start in `x` when `x` lacks the word's first character. */
  lemma AbsentAfter(x: string, y: string, w: string)
    requires |w| > 0 && w[0] !in x && !Contains(y, w)
    ensures !Contains(x + y, w)
  {
    forall i: nat | i <= |x + y|
      ensures !OccursAt(x + y, w, i)
    {
      if i + |w| <= |x + y| {
        if i < |x| {
          assert (x + y)[i..i + |w|][0] == x[i];
          assert x[i] in x;
        } else {
          assert (x + y)[i..i + |w|] == y[i - |x|..i - |x| + |w|];
          assert !OccursAt(y, w, i - |x|);
        }
      }
    }
  }

  lemma ContainsLeft(a: string, b: string, w: string)
    requires Contains(a, w)
    ensures Contains(a + b, w)
  {
    var i: nat :| i <= |a| && OccursAt(a, w, i);
    assert (a + b)[i..i + |w|] == a[i..i + |w|];
    assert OccursAt(a + b, w, i);
  }

  lemma ContainsRight(a: string, b: string, w: string)
    requires Contains(b, w)
    ensures Contains(a + b, w)
  {
    var i: nat :| i <= |b| && OccursAt(b, w, i);
    assert (a + b)[|a| + i..|a| + i + |w|] == b[i..i + |w|];
    assert OccursAt(a + b, w, |a| + i);
  }

  /** Lower-casing works character by character. */
  lemma LowerAppend(a: string, b: string)
    ensures Lower(a + b) == Lower(a) + Lower(b)
  {
  }

  lemma LowerUnchanged(s: string)
    requires forall c :: c in s ==> !IsAsciiUpper(c)
    ensures Lower(s) == s
  {
    forall k | 0 <= k < |s|
      ensures Lower(s)[k] == s[k]
    {
      assert s[k] in s;
    }
  }

  /**
   * The end of the longest run of characters satisfying `p` that starts at `i`:
   * a greedy `p*` in a regular expression.
   */
  function RunEnd(s: string, i: nat, p: char -> bool): (e: nat)
    requires i <= |s|
    ensures i <= e <= |s|
    ensures forall k :: i <= k < e ==> p(s[k])
    ensures e == |s| || !p(s[e])
    decreases |s| - i
  {
    if i < |s| && p(s[i]) then RunEnd(s, i + 1, p) else i
  }

  /** A run that stops where `p` first fails is the one `RunEnd` finds. */
  lemma RunEndIs(s: string, i: nat, e: nat, p: char -> bool)
    requires i <= e <= |s|
    requires forall k :: i <= k < e ==> p(s[k])
    requires e == |s| || !p(s[e])
    ensures RunEnd(s, i, p) == e
  {
  }

  /** A run that starts with a character satisfying `p` is not empty. */
  lemma RunEndPast(s: string, i: nat, p: char -> bool)
    requires i < |s| && p(s[i])
    ensures RunEnd(s, i, p) > i
  {
  }

  /** Leading whitespace removed: the first half of `str.strip()`. */
  function TrimStart(s: string): (r: string)
    ensures |r| <= |s| && r == s[|s| - |r|..]
    ensures forall k :: 0 <= k < |s| - |r| ==> IsSpace(s[k])
    ensures r == [] || !IsSpace(r[0])
  {
    if s != [] && IsSpace(s[0]) then TrimStart(s[1..]) else s
  }

  /** Trailing whitespace removed: the second half of `str.strip()`. */
  function TrimEnd(s: string): (r: string)
    ensures |r| <= |s| && r == s[..|r|]
    ensures forall k :: |r| <= k < |s| ==> IsSpace(s[k])
    ensures r == [] || !IsSpace(r[|r| - 1])
  {
    if s != [] && IsSpace(s[|s| - 1]) then TrimEnd(s[..|s| - 1]) else s
  }

  /** `r` stands at `i` in `s` with nothing but whitespace before and after it. */
  predicate PaddedAt(s: string, r: string, i: nat) {
    OccursAt(s, r, i)
    && (forall k :: 0 <= k < i ==> IsSpace(s[k]))
    && (forall k :: i + |r| <= k < |s| ==> IsSpace(s[k]))
  }

  /** `str.strip()` with no argument. */
  function Strip(s: string): (r: string)
    ensures r == [] || (!IsSpace(r[0]) && !IsSpace(r[|r| - 1]))
    ensures exists i: nat :: PaddedAt(s, r, i)
  {
    var t := TrimStart(s);
    TrimmedPadded(s, t, TrimEnd(t));
    TrimEnd(t)
  }

  /**
   * A whitespace-led suffix `t` of the text, cut back to a prefix `r` followed
   * only by whitespace, leaves `r` padded only by whitespace.
   */
  lemma TrimmedPadded(s: string, t: string, r: string)
    requires |t| <= |s| && t == s[|s| - |t|..] && forall k :: 0 <= k < |s| - |t| ==> IsSpace(s[k])
    requires |r| <= |t| && r == t[..|r|] && forall k :: |r| <= k < |t| ==> IsSpace(t[k])
    ensures PaddedAt(s, r, |s| - |t|)
  {
    var i := |s| - |t|;
    assert OccursAt(s, r, i) by {
      assert s[i..i + |r|] == t[..|r|];
    }
    forall k | i + |r| <= k < |s|
      ensures IsSpace(s[k])
    {
      assert s[k] == t[k - i];
    }
  }

  function DigitValue(c: char): nat {
    if IsDigit(c) then c as int - '0' as int else 0
  }

  /** `int(ds)` for a string of ASCII digits. */
  function DecimalValue(ds: string): nat {
    if ds == [] then 0 else DecimalValue(ds[..|ds| - 1]) * 10 + DigitValue(ds[|ds| - 1])
  }

  function DigitChar(d: nat): char
    requires d < 10
  {
    ('0' as int + d) as char
  }

  function Pow10(k: nat): nat {
    if k == 0 then 1 else 10 * Pow10(k - 1)
  }

  /** `'%0*d' % (width, n)`: the last `width` decimal digits of `n`, zero-padded. */
  function Pad(n: nat, width: nat): (r: string)
    ensures |r| == width
  {
    if width == 0 then [] else Pad(n / 10, width - 1) + [DigitChar(n % 10)]
  }

  predicate AllDigits(s: string) {
    forall k :: 0 <= k < |s| ==> IsDigit(s[k])
  }

  /** Reading back a zero-padded field gives the number that was written. */
  lemma {:induction false} PadValue(n: nat, width: nat)
    requires n < Pow10(width)
    ensures AllDigits(Pad(n, width)) && DecimalValue(Pad(n, width)) == n
  {
    if width > 0 {
      PadValue(n / 10, width - 1);
      var p := Pad(n, width);
      assert p[..width - 1] == Pad(n / 10, width - 1);
    }
  }
}
