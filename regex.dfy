/**
 * The regular expressions of bot/nlu.py as matchers. `re.search(p, s)` tries
 * positions 0, 1, ... and returns the first one at which the pattern matches;
 * at one position the engine tries the alternatives of the pattern in its
 * backtracking order. Each `...At(s, i)` function below is one pattern tried at
 * one position, returning what the caller reads from the match (`group()` or a
 * numbered group), and `Search` is the leftmost scan.
 */
module Regex {
  import opened Common
  import opened Text

  /** A match: where it starts and what the caller reads from it. */
  datatype Found<T> = Found(start: nat, hit: T)

  /** `re.search` from position `from`: the leftmost position at which `p` matches. */
  function Search<T>(p: (string, nat) -> Option<T>, s: string, from: nat): (r: Option<Found<T>>)
    ensures r.Some? ==> from <= r.value.start <= |s| && p(s, r.value.start) == Some(r.value.hit)
    ensures r.Some? ==> forall j :: from <= j < r.value.start ==> p(s, j).None?
    ensures r.None? ==> forall j :: from <= j <= |s| ==> p(s, j).None?
    decreases |s| + 1 - from
  {
    if from > |s| then None
    else match p(s, from)
      case Some(h) => Some(Found(from, h))
      case None => Search(p, s, from + 1)
  }

  /** What the caller reads from a search result: the match's group, or None. */
  function Hit<T>(r: Option<Found<T>>): Option<T> {
    match r
    case Some(f) => Some(f.hit)
    case None => None
  }

  /** A position at which the pattern matches, with no match before it, is the one `re.search` finds. */
  lemma {:induction false} SearchFinds<T>(p: (string, nat) -> Option<T>, s: string, from: nat, k: nat)
    requires from <= k <= |s| && p(s, k).Some?
    requires forall j :: from <= j < k ==> p(s, j).None?
    ensures Search(p, s, from) == Some(Found(k, p(s, k).value))
    decreases k - from
  {
    if from < k {
      SearchFinds(p, s, from + 1, k);
    }
  }

  // ---------------------------------------------------------------------------
  // PHONE_REGEX = (\+91[\-\s]?)?\d{10}

  /** The separator class `[\-\s]` of the phone pattern. */
  predicate IsPhoneSeparator(c: char) { c == '-' || IsSpace(c) }

  /** `\d{n}` at position `i`. */
  predicate DigitsAt(s: string, i: nat, n: nat) {
    i + n <= |s| && forall k :: i <= k < i + n ==> IsDigit(s[k])
  }

  /** The three shapes the whole phone pattern can match. */
  predicate IsPhone(p: string) {
    (|p| == 10 && DigitsAt(p, 0, 10))
    || (|p| == 13 && p[..3] == "+91" && DigitsAt(p, 3, 10))
    || (|p| == 14 && p[..3] == "+91" && IsPhoneSeparator(p[3]) && DigitsAt(p, 4, 10))
  }

  /**
   * PHONE_REGEX tried at `i`, in the engine's order: country code and separator,
   * country code alone, then no country code.
   */
  function PhoneAt(s: string, i: nat): (r: Option<string>)
    ensures r.Some? ==> OccursAt(s, r.value, i) && IsPhone(r.value)
    ensures OccursAt(s, "+91", i) && i + 3 < |s| && IsPhoneSeparator(s[i + 3]) && DigitsAt(s, i + 4, 10)
            ==> r == Some(s[i..i + 14])
    ensures OccursAt(s, "+91", i) && DigitsAt(s, i + 3, 10) ==> r == Some(s[i..i + 13])
    ensures DigitsAt(s, i, 10) ==> r == Some(s[i..i + 10])
  {
    if OccursAt(s, "+91", i) && i + 3 < |s| && IsPhoneSeparator(s[i + 3]) && DigitsAt(s, i + 4, 10) then
      Some(s[i..i + 14])
    else if OccursAt(s, "+91", i) && DigitsAt(s, i + 3, 10) then
      assert s[i] == s[i..i + 3][0];
      Some(s[i..i + 13])
    else if DigitsAt(s, i, 10) then
      Some(s[i..i + 10])
    else
      None
  }

  // ---------------------------------------------------------------------------
  // UUID_REGEX = [0-9a-fA-F]{8}-[0-9a-fA-F]{4}-[0-9a-fA-F]{4}-[0-9a-fA-F]{4}-[0-9a-fA-F]{12}

  /** The canonical 8-4-4-4-12 hexadecimal shape. */
  predicate IsUuid(u: string) {
    |u| == 36 &&
    forall k :: 0 <= k < 36 ==>
      if k == 8 || k == 13 || k == 18 || k == 23 then u[k] == '-' else IsHexDigit(u[k])
  }

  /** UUID_REGEX at `i`: it matches exactly the UUID-shaped text that starts there. */
  function UuidAt(s: string, i: nat): (r: Option<string>)
    ensures r.Some? ==> OccursAt(s, r.value, i) && IsUuid(r.value)
    ensures forall u :: OccursAt(s, u, i) && IsUuid(u) ==> r == Some(u)
  {
    if i + 36 <= |s| && IsUuid(s[i..i + 36]) then Some(s[i..i + 36]) else None
  }

  // ---------------------------------------------------------------------------
  // at (.+?)(?:\.|$)   with re.IGNORECASE; the hit is group 1

  /** `(?:\.|$)` matches at `x`: a period, the end, or a final newline. */
  predicate GroupStop(s: string, x: nat)
    requires x <= |s|
  {
    x == |s| || s[x] == '.' || (x == |s| - 1 && s[x] == '\n')
  }

  /** A `.+` group that has grown to end at `x`, with its first character before `e`: no newline in it. */
  predicate GroupFits(s: string, e: nat, x: nat) {
    1 <= e <= x <= |s| && forall k :: e - 1 <= k < x ==> s[k] != '\n'
  }

  /**
   * The lazy `.+?` followed by `(?:\.|$)`: the group has grown to end at `e`;
   * stop at the first `e` where a period follows or the string ends (`$` also
   * matches before a final newline), and fail if the group would have to take a
   * newline or run past the end.
   */
  function LazyGroupEnd(s: string, e: nat): (r: Option<nat>)
    ensures r.Some? ==> GroupFits(s, e, r.value) && GroupStop(s, r.value)
    ensures r.Some? ==> forall x :: e <= x < r.value ==> !GroupStop(s, x)
    ensures r.None? ==> forall x :: e <= x <= |s| && GroupFits(s, e, x) ==> !GroupStop(s, x)
    decreases |s| - e
  {
    if e == 0 || e > |s| || s[e - 1] == '\n' then None
    else if e == |s| || s[e] == '.' || (e == |s| - 1 && s[e] == '\n') then Some(e)
    else LazyGroupEnd(s, e + 1)
  }

  /** The at-clause pattern tried at `i`: "at " in any case, then the shortest phrase up to a period or the end. */
  function AtClauseAt(s: string, i: nat): (r: Option<string>)
    ensures r.Some? ==> i + 3 < |s| && LowerChar(s[i]) == 'a' && LowerChar(s[i + 1]) == 't' && s[i + 2] == ' '
    ensures r.Some? ==>
      var e := i + 3 + |r.value|;
      |r.value| >= 1 && OccursAt(s, r.value, i + 3) && GroupStop(s, e)
      && (forall k :: i + 3 <= k < e ==> s[k] != '\n')
      && (forall k :: i + 4 <= k < e ==> s[k] != '.')
    ensures (i + 3 <= |s| && LowerChar(s[i]) == 'a' && LowerChar(s[i + 1]) == 't' && s[i + 2] == ' '
             && exists x :: GroupFits(s, i + 4, x) && GroupStop(s, x)) ==> r.Some?
  {
    if i + 3 <= |s| && LowerChar(s[i]) == 'a' && LowerChar(s[i + 1]) == 't' && s[i + 2] == ' ' then
      match LazyGroupEnd(s, i + 4)
      case Some(e) =>
        assert forall k :: i + 4 <= k < e ==> s[k] != '.' by {
          forall k | i + 4 <= k < e
            ensures s[k] != '.'
          {
            assert !GroupStop(s, k);
          }
        }
        Some(s[i + 3..e])
      case None => None
    else None
  }

  // ---------------------------------------------------------------------------
  // notes[:\-]?\s*(.*)   with re.IGNORECASE; the hit is group 1

  /** The optional `[:\-]` after "notes". */
  predicate IsNotesMark(c: char) { c == ':' || c == '-' }

  /**
   * `[:\-]?\s*` after "notes" at `i` ends at `k`: one ':' or '-' if it stands
   * there, then all the whitespace that follows, newlines included.
   */
  predicate NotesGroupStart(s: string, i: nat, k: nat) {
    i + 5 <= k <= |s|
    && (forall m :: i + 5 <= m < k ==> IsSpace(s[m]) || (m == i + 5 && IsNotesMark(s[m])))
    && (k == i + 5 && k < |s| ==> !IsNotesMark(s[k]))
    && (k == |s| || !IsSpace(s[k]))
  }

  /**
   * The notes pattern at `i`: it matches wherever "notes" stands in any case,
   * and the group is the rest of that line, or of the next non-blank one,
   * from its first non-blank character.
   */
  function NotesAt(s: string, i: nat): (r: Option<string>)
    ensures r.Some? <==> OccursAt(Lower(s), "notes", i)
    ensures r.Some? ==> r.value == [] || !IsSpace(r.value[0])
    ensures r.Some? ==> exists k: nat :: NotesGroupStart(s, i, k) && OccursAt(s, r.value, k)
                                       && (forall m :: k <= m < k + |r.value| ==> s[m] != '\n')
                                       && (k + |r.value| == |s| || s[k + |r.value|] == '\n')
  {
    if OccursAt(Lower(s), "notes", i) then
      var j := if i + 5 < |s| && IsNotesMark(s[i + 5]) then i + 6 else i + 5;
      var k := RunEnd(s, j, IsSpace);
      var e := RunEnd(s, k, NotNewline);
      assert NotesGroupStart(s, i, k);
      assert OccursAt(s, s[k..e], k);
      Some(s[k..e])
    else None
  }

  /** The end of `[:\-]?\s*` is determined: the notes group has one possible start. */
  lemma NotesStartUnique(s: string, i: nat, k1: nat, k2: nat)
    requires NotesGroupStart(s, i, k1) && NotesGroupStart(s, i, k2)
    ensures k1 == k2
  {
  }

  // ---------------------------------------------------------------------------
  // (?:name\s)?([A-Z][a-z]+\s[A-Z][a-z]+)   case-sensitive; the hit is group 1

  /**
   * `[A-Z][a-z]+\s[A-Z][a-z]+` at `i`. Both `[a-z]+` runs are taken whole: a
   * shorter first run would leave a lower-case letter where `\s` must match.
   */
  function BareNameAt(s: string, i: nat): (r: Option<string>)
    ensures r.Some? ==> OccursAt(s, r.value, i) && IsTwoWordName(r.value)
    ensures r.Some? ==> i + |r.value| == |s| || !IsAsciiLower(s[i + |r.value|])
  {
    if i < |s| && IsAsciiUpper(s[i]) then
      var e1 := RunEnd(s, i + 1, IsAsciiLower);
      if e1 > i + 1 && e1 + 1 < |s| && IsSpace(s[e1]) && IsAsciiUpper(s[e1 + 1]) then
        var e2 := RunEnd(s, e1 + 2, IsAsciiLower);
        if e2 > e1 + 2 then
          var w := s[i..e2];
          assert NameSplitAt(w, e1 - i);
          Some(w)
        else None
      else None
    else None
  }

  /**
   * A two-word capitalised name standing at `i` is always matched there, and
   * when no small letter follows it, the match is exactly that name.
   */
  lemma BareNameFound(s: string, i: nat, j: nat)
    requires i < j <= |s| && IsTwoWordName(s[i..j])
    ensures BareNameAt(s, i).Some?
    ensures j == |s| || !IsAsciiLower(s[j]) ==> BareNameAt(s, i) == Some(s[i..j])
  {
    var e1 := TwoWordNameRuns(s, i, j);
    if j == |s| || !IsAsciiLower(s[j]) {
      RunEndIs(s, e1 + 2, j, IsAsciiLower);
    }
  }

  /**
   * A two-word name standing at `i` has the runs `BareNameAt` reads there: a
   * capital, small letters up to the whitespace at `e1`, a capital and at
   * least one small letter.
   */
  lemma TwoWordNameRuns(s: string, i: nat, j: nat) returns (e1: nat)
    requires i < j <= |s| && IsTwoWordName(s[i..j])
    ensures i < |s| && IsAsciiUpper(s[i])
    ensures e1 == RunEnd(s, i + 1, IsAsciiLower)
    ensures e1 > i + 1 && e1 + 1 < |s| && IsSpace(s[e1]) && IsAsciiUpper(s[e1 + 1])
    ensures RunEnd(s, e1 + 2, IsAsciiLower) > e1 + 2
    ensures e1 + 2 < j && forall k :: e1 + 2 <= k < j ==> IsAsciiLower(s[k])
  {
    var n := NameSplit(s, i, j);
    SpaceNotLetter(s[i + n]);
    RunEndIs(s, i + 1, i + n, IsAsciiLower);
    RunEndPast(s, i + n + 2, IsAsciiLower);
    e1 := i + n;
  }

  /** The two words of a name standing at `i`, character by character; the separator is at `i + n`. */
  lemma NameSplit(s: string, i: nat, j: nat) returns (n: nat)
    requires i < j <= |s| && IsTwoWordName(s[i..j])
    ensures 2 <= n && i + n + 2 < j
    ensures IsAsciiUpper(s[i]) && forall k :: i + 1 <= k < i + n ==> IsAsciiLower(s[k])
    ensures IsSpace(s[i + n]) && IsAsciiUpper(s[i + n + 1])
    ensures forall k :: i + n + 2 <= k < j ==> IsAsciiLower(s[k])
  {
    var w := s[i..j];
    var m: nat :| m < |w| && NameSplitAt(w, m);
    n := m;
    forall k | i + 1 <= k < i + n
      ensures IsAsciiLower(s[k])
    {
      assert s[k] == w[k - i];
    }
    forall k | i + n + 2 <= k < j
      ensures IsAsciiLower(s[k])
    {
      assert s[k] == w[k - i];
    }
    assert s[i] == w[0] && s[i + n] == w[n] && s[i + n + 1] == w[n + 1];
  }

  /** Whitespace is neither a capital nor a small letter. */
  lemma SpaceNotLetter(c: char)
    requires IsSpace(c)
    ensures !IsAsciiLower(c) && !IsAsciiUpper(c)
  {
  }


  /**
   * `w` splits at `n` into `[A-Z][a-z]+`, one whitespace character and
   * `[A-Z][a-z]+`: a capital, small letters up to `n`, the separator at `n`,
   * a capital and small letters to the end.
   */
  predicate NameSplitAt(w: string, n: nat) {
    2 <= n < |w| - 2
    && IsAsciiUpper(w[0]) && (forall k :: 1 <= k < n ==> IsAsciiLower(w[k]))
    && IsSpace(w[n])
    && IsAsciiUpper(w[n + 1]) && (forall k :: n + 2 <= k < |w| ==> IsAsciiLower(w[k]))
  }

  /** `[A-Z][a-z]+\s[A-Z][a-z]+` as a whole. */
  predicate IsTwoWordName(w: string) {
    exists n: nat :: n < |w| && NameSplitAt(w, n)
  }

  /** The name pattern at `i`: first with the optional "name" prefix, then without it. */
  function NameAt(s: string, i: nat): (r: Option<string>)
    ensures r.Some? ==> IsTwoWordName(r.value)
    ensures r.Some? ==>
      OccursAt(s, r.value, i) || (OccursAt(s, "name", i) && i + 4 < |s| && IsSpace(s[i + 4]) && OccursAt(s, r.value, i + 5))
    ensures BareNameAt(s, i).Some? ==> r.Some?
  {
    if OccursAt(s, "name", i) && i + 4 < |s| && IsSpace(s[i + 4]) && BareNameAt(s, i + 5).Some? then
      BareNameAt(s, i + 5)
    else
      BareNameAt(s, i)
  }

  /**
   * The optional "name" prefix never changes what the name pattern yields: the
   * group found by `re.search` is the leftmost two-word capitalised name.
   */
  lemma {:induction false} NamePrefixIrrelevant(s: string, from: nat)
    ensures Hit(Search(NameAt, s, from)) == Hit(Search(BareNameAt, s, from))
    decreases |s| + 1 - from
  {
    if from <= |s| {
      if NameAt(s, from).None? {
        NamePrefixIrrelevant(s, from + 1);
      } else if OccursAt(s, "name", from) && from + 4 < |s| && IsSpace(s[from + 4])
                && BareNameAt(s, from + 5).Some? {
        // "name" and the separator cannot start a capitalised word
        assert s[from..from + 4] == "name";
        forall j | from <= j < from + 5
          ensures BareNameAt(s, j).None?
        {
          if j < from + 4 {
            assert s[j] == s[from..from + 4][j - from];
          }
        }
        SearchFinds(BareNameAt, s, from, from + 5);
      } else {
        assert BareNameAt(s, from).Some?;
      }
    }
  }

  // ---------------------------------------------------------------------------
  // source\s+(\w+)   with re.IGNORECASE; the hit is group 1

  /** The source pattern at `i`: "source" in any case, whitespace, and the whole word after it. */
  function SourceAt(s: string, i: nat): (r: Option<string>)
    ensures r.Some? ==> OccursAt(Lower(s), "source", i)
    ensures r.Some? ==> |r.value| > 0 && forall m :: 0 <= m < |r.value| ==> IsWordChar(r.value[m])
    ensures r.Some? ==> exists k: nat :: i + 6 < k && OccursAt(s, r.value, k)
                                       && (forall m :: i + 6 <= m < k ==> IsSpace(s[m]))
                                       && (k + |r.value| == |s| || !IsWordChar(s[k + |r.value|]))
    ensures OccursAt(Lower(s), "source", i) && (exists k :: SourceWordAt(s, i, k)) ==> r.Some?
  {
    assert (OccursAt(Lower(s), "source", i) && exists k :: SourceWordAt(s, i, k))
           ==> var j := RunEnd(s, i + 6, IsSpace); j > i + 6 && RunEnd(s, j, IsWordChar) > j
    by {
      if OccursAt(Lower(s), "source", i) && exists k :: SourceWordAt(s, i, k) {
        var k :| SourceWordAt(s, i, k);
        WordAfterSpaces(s, i, k);
      }
    }
    if OccursAt(Lower(s), "source", i) then
      var j := RunEnd(s, i + 6, IsSpace);
      if j > i + 6 then
        var e := RunEnd(s, j, IsWordChar);
        if e > j then
          assert OccursAt(s, s[j..e], j);
          Some(s[j..e])
        else None
      else None
    else None
  }

  /**
   * After "source" at `i`, `\s+` can be followed by `\w` at `k`: at least one
   * whitespace character, then a word character.
   */
  predicate SourceWordAt(s: string, i: nat, k: nat) {
    i + 6 < k < |s| && (forall m :: i + 6 <= m < k ==> IsSpace(s[m])) && IsWordChar(s[k])
  }

  /** A word character after a run of whitespace: the whitespace run ends there and the word run does not. */
  lemma WordAfterSpaces(s: string, i: nat, k: nat)
    requires SourceWordAt(s, i, k)
    ensures RunEnd(s, i + 6, IsSpace) == k && RunEnd(s, k, IsWordChar) > k
  {
    RunEndIs(s, i + 6, k, IsSpace);
    RunEndPast(s, k, IsWordChar);
  }

  // ---------------------------------------------------------------------------
  // (\d{1,2})(?::(\d{2}))?\s*(am|pm)?   on lower-cased text

  /** The groups of the clock pattern: `int(group(1))`, `int(group(2))` if present, `group(3) == "pm"`. */
  datatype Clock = Clock(hour: nat, minute: Option<nat>, pm: bool)

  /** `\d{1,2}` at `i` ends at `h`: one or two digits, greedily. */
  predicate HourDigits(s: string, i: nat, h: nat) {
    i < h <= i + 2 && DigitsAt(s, i, h - i) && (h == i + 2 || h == |s| || !IsDigit(s[h]))
  }

  /** The greedy `\d{1,2}` has one possible end, so the hour is determined by the text. */
  lemma HourDigitsUnique(s: string, i: nat, h1: nat, h2: nat)
    requires HourDigits(s, i, h1) && HourDigits(s, i, h2)
    ensures h1 == h2
  {
  }

  /** `(?::(\d{2}))` matches at `h`: a colon and two digits. */
  predicate MinuteAt(s: string, h: nat) {
    h < |s| && s[h] == ':' && DigitsAt(s, h + 1, 2)
  }

  /**
   * The clock pattern at `i`: it matches wherever a digit stands, every later
   * part being optional. The hour is the value of the one or two digits there,
   * the minute the value of the two digits after a colon, if present, and the
   * pm flag says whether "pm" follows after any whitespace.
   */
  function ClockAt(s: string, i: nat): (r: Option<Clock>)
    ensures r.Some? <==> i < |s| && IsDigit(s[i])
    ensures r.Some? ==> r.value.hour < 100 && (r.value.minute.Some? ==> r.value.minute.value < 100)
    ensures r.Some? ==>
      exists h: nat :: HourDigits(s, i, h)
        && r.value.hour == DecimalValue(s[i..h])
        && (r.value.minute.Some? <==> MinuteAt(s, h))
        && (MinuteAt(s, h) ==> r.value.minute == Some(DecimalValue(s[h + 1..h + 3])))
        && (r.value.pm <==> OccursAt(s, "pm", RunEnd(s, if MinuteAt(s, h) then h + 3 else h, IsSpace)))
  {
    if i < |s| && IsDigit(s[i]) then
      var h := if i + 1 < |s| && IsDigit(s[i + 1]) then i + 2 else i + 1;
      var hasMinute := MinuteAt(s, h);
      var m := if hasMinute then h + 3 else h;
      var w := RunEnd(s, m, IsSpace);
      var pm := OccursAt(s, "pm", w);
      DecimalBound(s[i..h]);
      var minute := if hasMinute then DecimalBound(s[h + 1..m]); Some(DecimalValue(s[h + 1..m])) else None;
      assert HourDigits(s, i, h);
      Some(Clock(DecimalValue(s[i..h]), minute, pm))
    else None
  }

  /** At most two digits read back as a number below 100. */
  lemma DecimalBound(ds: string)
    requires |ds| <= 2
    ensures DecimalValue(ds) < 100
  {
    if ds != [] {
      assert DecimalValue(ds[..|ds| - 1]) < 10;
    }
  }
}
