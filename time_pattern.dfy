/**
 * The regular expression /(\d+)(?:-(\d+))?\s*(hour|minute)/i of `parseTimeEstimate`
 * in src/lib/progress-context.tsx, written out as a matcher anchored at one index.
 *
 * Each run is taken whole, without backtracking, and this agrees with a
 * backtracking engine: a shorter digit or white-space run would leave a digit
 * or a space where the next part of the pattern cannot begin, and "hour" and
 * "minute" differ in their first letter (`MatchAtComplete`).
 * The `i` flag folds ASCII letters only: JavaScript does not let a non-ASCII
 * character match an ASCII one without the `u` flag.
 */
module TimePattern {
  import opened Wrappers
  import opened Text

  datatype Unit = Hour | Minute

  /** One match of the pattern: its span [start, end) and its captured groups. */
  datatype Fragment = Fragment(start: nat, end: nat, min: nat, max: Option<nat>, unit: Unit)

  /** `\d`: an ASCII decimal digit. */
  predicate IsDigit(c: char) {
    '0' <= c <= '9'
  }

  /** `\s`: the white-space and line-terminator characters of JavaScript. */
  predicate IsSpace(c: char) {
    var n := c as int;
    n == 0x09 || n == 0x0A || n == 0x0B || n == 0x0C || n == 0x0D || n == 0x20
    || n == 0xA0 || n == 0x1680 || 0x2000 <= n <= 0x200A || n == 0x2028 || n == 0x2029
    || n == 0x202F || n == 0x205F || n == 0x3000 || n == 0xFEFF
  }

  /** Every character of `s[i..j]` satisfies `p`. */
  predicate Every(p: char -> bool, s: string, i: nat, j: nat)
    requires i <= j <= |s|
    decreases j - i
  {
    i == j || (p(s[i]) && Every(p, s, i + 1, j))
  }

  /** The end of the longest run of digits starting at `i`. */
  function DigitsEnd(s: string, i: nat): (j: nat)
    requires i <= |s|
    ensures i <= j <= |s|
    ensures j == |s| || !IsDigit(s[j])
    ensures Every(IsDigit, s, i, j)
    decreases |s| - i
  {
    if i < |s| && IsDigit(s[i]) then DigitsEnd(s, i + 1) else i
  }

  /** The end of the longest run of white space starting at `i`. */
  function SpacesEnd(s: string, i: nat): (j: nat)
    requires i <= |s|
    ensures i <= j <= |s|
    ensures j == |s| || !IsSpace(s[j])
    ensures Every(IsSpace, s, i, j)
    decreases |s| - i
  {
    if i < |s| && IsSpace(s[i]) then SpacesEnd(s, i + 1) else i
  }

  /** The value of decimal digit `c` (only ever asked of digits). */
  function DigitValue(c: char): (d: nat)
    ensures d <= 9
  {
    if IsDigit(c) then c as int - '0' as int else 0
  }

  /** `parseInt` of the run of decimal digits `s[i..j]`. */
  function DecimalValue(s: string, i: nat, j: nat): nat
    requires i <= j <= |s|
    decreases j - i
  {
    if j == i then 0 else DecimalValue(s, i, j - 1) * 10 + DigitValue(s[j - 1])
  }

  /** "hour", in any letter case, at index `w`. */
  predicate HourAt(s: string, w: nat) {
    w + 4 <= |s| && LowerChar(s[w]) == 'h' && LowerChar(s[w + 1]) == 'o'
    && LowerChar(s[w + 2]) == 'u' && LowerChar(s[w + 3]) == 'r'
  }

  /** "minute", in any letter case, at index `w`. */
  predicate MinuteAt(s: string, w: nat) {
    w + 6 <= |s| && LowerChar(s[w]) == 'm' && LowerChar(s[w + 1]) == 'i'
    && LowerChar(s[w + 2]) == 'n' && LowerChar(s[w + 3]) == 'u'
    && LowerChar(s[w + 4]) == 't' && LowerChar(s[w + 5]) == 'e'
  }

  /** The length of the word of the pattern's alternation that names unit `u`. */
  function UnitLength(u: Unit): nat {
    match u
    case Hour => 4
    case Minute => 6
  }

  /** `(hour|minute)` with the `i` flag: the unit whose word starts at index `w`. */
  function UnitAt(s: string, w: nat): (u: Option<Unit>)
    ensures u.Some? ==> w + UnitLength(u.value) <= |s|
    ensures u.None? <==> !HourAt(s, w) && !MinuteAt(s, w)
    ensures u == Some(Hour) <==> HourAt(s, w)
    ensures u == Some(Minute) <==> !HourAt(s, w) && MinuteAt(s, w)
  {
    if HourAt(s, w) then Some(Hour)
    else if MinuteAt(s, w) then Some(Minute)
    else None
  }

  /** `(?:-(\d+))?` takes part: a hyphen followed by a digit at index `j`. */
  predicate HasMax(s: string, j: nat) {
    j + 1 < |s| && s[j] == '-' && IsDigit(s[j + 1])
  }

  /** Where the optional `-max` part that may follow index `j` ends. */
  function RangeEnd(s: string, j: nat): (k: nat)
    requires j <= |s|
    ensures j <= k <= |s|
    ensures HasMax(s, j) ==> j + 1 < k && Every(IsDigit, s, j + 1, k)
    ensures !HasMax(s, j) ==> k == j
  {
    if HasMax(s, j) then DigitsEnd(s, j + 1) else j
  }

  /** The match of the pattern that starts exactly at index `i`, if there is one. */
  function MatchAt(s: string, i: nat): (r: Option<Fragment>)
    ensures r.Some? ==> r.value.start == i < r.value.end <= |s|
    ensures r.Some? ==> IsDigit(s[i])
    ensures r.Some? ==> UnitLength(r.value.unit) < r.value.end - i
                        && UnitAt(s, r.value.end - UnitLength(r.value.unit)) == Some(r.value.unit)
  {
    if |s| <= i || !IsDigit(s[i]) then None
    else
      var j := DigitsEnd(s, i);
      var k := RangeEnd(s, j);
      var w := SpacesEnd(s, k);
      match UnitAt(s, w)
      case None => None
      case Some(u) =>
        var max := if HasMax(s, j) then Some(DecimalValue(s, j + 1, k)) else None;
        Some(Fragment(i, w + UnitLength(u), DecimalValue(s, i, j), max, u))
  }

  /** A run of digits ending inside `s[a..b]` ends at the same place in the substring. */
  lemma {:induction false} DigitsEndSlice(s: string, a: nat, b: nat, p: nat)
    requires a <= p <= b <= |s| && DigitsEnd(s, p) <= b
    ensures DigitsEnd(s[a..b], p - a) == DigitsEnd(s, p) - a
    decreases b - p
  {
    if p < b && IsDigit(s[p]) {
      assert s[a..b][p - a] == s[p];
      DigitsEndSlice(s, a, b, p + 1);
    } else if p < b {
      assert s[a..b][p - a] == s[p];
    }
  }

  /** A run of white space ending inside `s[a..b]` ends at the same place in the substring. */
  lemma {:induction false} SpacesEndSlice(s: string, a: nat, b: nat, p: nat)
    requires a <= p <= b <= |s| && SpacesEnd(s, p) <= b
    ensures SpacesEnd(s[a..b], p - a) == SpacesEnd(s, p) - a
    decreases b - p
  {
    if p < b && IsSpace(s[p]) {
      assert s[a..b][p - a] == s[p];
      SpacesEndSlice(s, a, b, p + 1);
    } else if p < b {
      assert s[a..b][p - a] == s[p];
    }
  }

  /** A digit run inside `s[a..b]` has the same value in the substring. */
  lemma {:induction false} DecimalValueSlice(s: string, a: nat, b: nat, i: nat, j: nat)
    requires a <= i <= j <= b <= |s|
    ensures DecimalValue(s[a..b], i - a, j - a) == DecimalValue(s, i, j)
    decreases j - i
  {
    if i < j {
      DecimalValueSlice(s, a, b, i, j - 1);
      assert s[a..b][j - 1 - a] == s[j - 1];
    }
  }

  /** The unit read at `w` is read the same inside `s[a..b]` when its word ends there. */
  lemma UnitAtSlice(s: string, a: nat, b: nat, w: nat, u: Unit)
    requires a <= w <= b <= |s| && UnitAt(s, w) == Some(u) && w + UnitLength(u) <= b
    ensures UnitAt(s[a..b], w - a) == Some(u)
  {
    forall k | w <= k < w + UnitLength(u) ensures s[a..b][k - a] == s[k] {
    }
  }

  /** The optional `-max` part is read the same inside `s[a..b]` when it ends there. */
  lemma RangeEndSlice(s: string, a: nat, b: nat, j: nat)
    requires a <= j <= b <= |s| && RangeEnd(s, j) < b
    ensures HasMax(s[a..b], j - a) == HasMax(s, j)
    ensures RangeEnd(s[a..b], j - a) == RangeEnd(s, j) - a
  {
    if j + 1 < b {
      assert s[a..b][j - a] == s[j] && s[a..b][j + 1 - a] == s[j + 1];
    }
    if HasMax(s, j) {
      DigitsEndSlice(s, a, b, j + 1);
    }
  }

  /**
   * The match starting at `i` is made of a digit run ending at `j`, an
   * optional `-max` part ending at `k`, white space ending at `w` and unit `u`.
   */
  predicate Runs(s: string, i: nat, j: nat, k: nat, w: nat, u: Unit) {
    i < |s| && IsDigit(s[i]) && j == DigitsEnd(s, i) && k == RangeEnd(s, j)
    && w == SpacesEnd(s, k) && UnitAt(s, w) == Some(u)
  }

  /** The groups captured by the runs of `Runs(s, i, j, k, _, _)` are `min` and `max`. */
  predicate Groups(s: string, i: nat, j: nat, k: nat, min: nat, max: Option<nat>)
    requires i <= j <= k <= |s|
  {
    min == DecimalValue(s, i, j)
    && max == if HasMax(s, j) && j + 1 <= k then Some(DecimalValue(s, j + 1, k)) else None
  }

  /** A match assembled from its runs at the start of a string. */
  lemma MatchFromParts(t: string, j: nat, k: nat, w: nat, u: Unit, min: nat, max: Option<nat>)
    requires Runs(t, 0, j, k, w, u) && Groups(t, 0, j, k, min, max)
    ensures MatchAt(t, 0) == Some(Fragment(0, w + UnitLength(u), min, max, u))
  {
  }

  /** The runs and groups a match is made of. */
  lemma MatchParts(s: string, m: Fragment)
    requires MatchAt(s, m.start) == Some(m)
    ensures var j := DigitsEnd(s, m.start);
            var k := RangeEnd(s, j);
            var w := SpacesEnd(s, k);
            Runs(s, m.start, j, k, w, m.unit) && m.end == w + UnitLength(m.unit)
            && Groups(s, m.start, j, k, m.min, m.max)
  {
  }

  /**
   * Re-matching a matched substring, as the source's `forEach` does, captures
   * the same groups: the match depends only on the characters it spans.
   */
  lemma ReMatch(s: string, m: Fragment)
    requires MatchAt(s, m.start) == Some(m)
    ensures MatchAt(s[m.start..m.end], 0) == Some(Fragment(0, m.end - m.start, m.min, m.max, m.unit))
  {
    MatchParts(s, m);
    var j := DigitsEnd(s, m.start);
    var k := RangeEnd(s, j);
    ReMatchParts(s, m.start, m.end, j, k, SpacesEnd(s, k), m.unit, m.min, m.max);
  }

  /** `ReMatch`, over the runs that make up the match. */
  lemma ReMatchParts(s: string, i: nat, e: nat, j: nat, k: nat, w: nat, u: Unit, min: nat, max: Option<nat>)
    requires Runs(s, i, j, k, w, u) && e == w + UnitLength(u) && Groups(s, i, j, k, min, max)
    ensures i < e <= |s|
    ensures MatchAt(s[i..e], 0) == Some(Fragment(0, e - i, min, max, u))
  {
    PartsSlice(s, i, e, j, k, w, u, min, max);
    MatchFromParts(s[i..e], j - i, k - i, w - i, u, min, max);
  }

  /** The runs and groups of a match, found again in the matched substring. */
  lemma PartsSlice(s: string, i: nat, e: nat, j: nat, k: nat, w: nat, u: Unit, min: nat, max: Option<nat>)
    requires Runs(s, i, j, k, w, u) && e == w + UnitLength(u) && Groups(s, i, j, k, min, max)
    ensures i <= j <= k <= w < e <= |s|
    ensures Runs(s[i..e], 0, j - i, k - i, w - i, u) && Groups(s[i..e], 0, j - i, k - i, min, max)
  {
    RunsSlice(s, i, e, j, k, w, u);
    GroupsSlice(s, i, e, j, k, min, max);
  }

  /** The runs that make up a match are found at the same places in the matched substring. */
  lemma RunsSlice(s: string, i: nat, e: nat, j: nat, k: nat, w: nat, u: Unit)
    requires Runs(s, i, j, k, w, u) && e == w + UnitLength(u)
    ensures i <= j <= k <= w < e <= |s|
    ensures Runs(s[i..e], 0, j - i, k - i, w - i, u)
    ensures HasMax(s[i..e], j - i) == HasMax(s, j)
  {
    assert s[i..e][0] == s[i];
    DigitsEndSlice(s, i, e, i);
    RangeEndSlice(s, i, e, j);
    SpacesEndSlice(s, i, e, k);
    UnitAtSlice(s, i, e, w, u);
  }

  /** The numbers a match captures have the same values in the matched substring. */
  lemma GroupsSlice(s: string, i: nat, e: nat, j: nat, k: nat, min: nat, max: Option<nat>)
    requires i <= j <= k < e <= |s| && Groups(s, i, j, k, min, max)
    requires HasMax(s[i..e], j - i) == HasMax(s, j)
    ensures Groups(s[i..e], 0, j - i, k - i, min, max)
  {
    DecimalValueSlice(s, i, e, i, j);
    if j + 1 <= k {
      DecimalValueSlice(s, i, e, j + 1, k);
    }
  }

  /** A character of a run that satisfies `p` throughout satisfies `p`. */
  lemma {:induction false} EveryAt(p: char -> bool, s: string, i: nat, j: nat, m: nat)
    requires i <= m < j <= |s| && Every(p, s, i, j)
    ensures p(s[m])
    decreases m - i
  {
    if i < m {
      EveryAt(p, s, i + 1, j, m);
    }
  }

  /** A digit run `s[i..j]` followed by a non-digit is the run `DigitsEnd` finds. */
  lemma {:induction false} DigitsEndExact(s: string, i: nat, j: nat)
    requires i <= j <= |s| && Every(IsDigit, s, i, j) && (j == |s| || !IsDigit(s[j]))
    ensures DigitsEnd(s, i) == j
    decreases j - i
  {
    if i < j {
      DigitsEndExact(s, i + 1, j);
    }
  }

  /** A white-space run `s[i..j]` followed by a non-space is the run `SpacesEnd` finds. */
  lemma {:induction false} SpacesEndExact(s: string, i: nat, j: nat)
    requires i <= j <= |s| && Every(IsSpace, s, i, j) && (j == |s| || !IsSpace(s[j]))
    ensures SpacesEnd(s, i) == j
    decreases j - i
  {
    if i < j {
      SpacesEndExact(s, i + 1, j);
    }
  }

  /** The first letter of a unit word is neither a digit, nor white space, nor a hyphen. */
  lemma UnitLetter(c: char)
    requires LowerChar(c) == 'h' || LowerChar(c) == 'm'
    ensures !IsDigit(c) && !IsSpace(c) && c != '-'
  {
  }

  /**
   * The matcher misses no match a backtracking engine would find: whenever
   * `s[i..]` splits as the pattern allows (digits up to `j`, an optional
   * `-digits` up to `k`, white space up to `w`, then a unit word), `MatchAt`
   * matches at `i`, with the same end and the same groups. Taking each run
   * whole is therefore never wrong.
   */
  lemma MatchAtComplete(s: string, i: nat, j: nat, k: nat, w: nat)
    requires i < j <= k <= w <= |s| && Every(IsDigit, s, i, j)
    requires k == j || (s[j] == '-' && j + 1 < k && Every(IsDigit, s, j + 1, k))
    requires Every(IsSpace, s, k, w) && (HourAt(s, w) || MinuteAt(s, w))
    ensures MatchAt(s, i).Some?
    ensures MatchAt(s, i).value.end == w + UnitLength(UnitAt(s, w).value)
    ensures MatchAt(s, i).value.min == DecimalValue(s, i, j)
    ensures MatchAt(s, i).value.max == if k == j then None else Some(DecimalValue(s, j + 1, k))
  {
    UnitLetter(s[w]);
    EveryAt(IsDigit, s, i, j, i);
    // The digit run ends at `j`: what follows is a hyphen, white space or the unit word.
    if k > j {
      EveryAt(IsDigit, s, j + 1, k, j + 1);
    } else if w > j {
      EveryAt(IsSpace, s, k, w, j);
    }
    DigitsEndExact(s, i, j);
    // The range part ends at `k`.
    if k > j {
      assert HasMax(s, j);
      if w > k {
        EveryAt(IsSpace, s, k, w, k);
      }
      DigitsEndExact(s, j + 1, k);
    } else {
      assert !HasMax(s, j);
    }
    assert RangeEnd(s, j) == k;
    SpacesEndExact(s, k, w);
  }
}
