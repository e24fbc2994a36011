/**
 * `parseTimeEstimate` of src/lib/progress-context.tsx: the free-text time
 * estimate of a task ("1-2 hours", "30-45 minutes") read as a number of hours.
 *
 * The source writes its pattern twice: once with the global flag, to collect
 * every matched substring, and once without it, to read the groups of each
 * substring. The scanning below is written over any pattern `f` that matches
 * at an anchor (a `Matcher`); `TimePattern.MatchAt` is the source's pattern.
 */
module TimeEstimate {
  import opened Wrappers
  import opened Numeric
  import opened TimePattern

  /** A pattern, as the match it finds when anchored at each index of a string. */
  type Matcher = (string, nat) -> Option<Fragment>

  /** Every match of `f` starts where it was asked to and spans a non-empty part of the string. */
  ghost predicate Sticky(f: Matcher) {
    forall s: string, i: nat :: f(s, i).Some? ==> f(s, i).value.start == i < f(s, i).value.end <= |s|
  }

  lemma MatchAtSticky()
    ensures Sticky(MatchAt)
  {
  }

  /**
   * The matches a global regular expression finds from index `from` on:
   * the leftmost match, then the leftmost match after its end, and so on.
   */
  function Scan(f: Matcher, s: string, from: nat): (ms: seq<Fragment>)
    requires Sticky(f) && from <= |s|
    ensures forall k :: 0 <= k < |ms| ==> from <= ms[k].start < ms[k].end <= |s|
    ensures forall k :: 0 <= k < |ms| ==> f(s, ms[k].start) == Some(ms[k])
    ensures forall k, l :: 0 <= k < l < |ms| ==> ms[k].end <= ms[l].start
    decreases |s| - from
  {
    if from == |s| then []
    else
      match f(s, from)
      case Some(m) => [m] + Scan(f, s, m.end)
      case None => Scan(f, s, from + 1)
  }

  /** The first match at or after index `from`, as a regular expression without the global flag finds it. */
  function Leftmost(f: Matcher, s: string, from: nat): (r: Option<Fragment>)
    requires Sticky(f) && from <= |s|
    ensures r.Some? ==> from <= r.value.start && f(s, r.value.start) == r
    ensures r.Some? ==> forall p :: from <= p < r.value.start ==> f(s, p).None?
    ensures r.None? ==> forall p :: from <= p < |s| ==> f(s, p).None?
    decreases |s| - from
  {
    if from == |s| then None
    else if f(s, from).Some? then f(s, from)
    else Leftmost(f, s, from + 1)
  }

  /** The matched substrings, in order. */
  function Texts(s: string, ms: seq<Fragment>): (ts: seq<string>)
    requires forall k :: 0 <= k < |ms| ==> ms[k].start <= ms[k].end <= |s|
    ensures |ts| == |ms|
    ensures forall k :: 0 <= k < |ms| ==> ts[k] == s[ms[k].start..ms[k].end]
  {
    if ms == [] then [] else [s[ms[0].start..ms[0].end]] + Texts(s, ms[1..])
  }

  /** `s.match(f)` with the global flag: `null` when nothing matches. */
  function GlobalMatch(f: Matcher, s: string): (r: Option<seq<string>>)
    requires Sticky(f)
    ensures r.Some? ==> r.value != [] && forall k :: 0 <= k < |r.value| ==> r.value[k] != []
  {
    var ms := Scan(f, s, 0);
    if ms == [] then None else Some(Texts(s, ms))
  }

  /** The hours one fragment stands for: the midpoint of its range, in hours. */
  function FragmentHours(m: Fragment): (h: real)
    ensures h >= 0.0
  {
    var min := m.min as real;
    var max := if m.max.Some? then m.max.value as real else min;
    var avg := (min + max) / 2.0;
    if m.unit == Hour then avg else avg / 60.0
  }

  /** The body of the source's `forEach`: match one matched substring again and convert it. */
  function Contribution(f: Matcher, text: string): (h: real)
    requires Sticky(f)
    ensures h >= 0.0
  {
    match Leftmost(f, text, 0)
    case Some(parts) => FragmentHours(parts)
    case None => 0.0
  }

  /** The running total of the `forEach` after the first `n` substrings. */
  function SumContributions(f: Matcher, texts: seq<string>, n: nat): (h: real)
    requires Sticky(f) && n <= |texts|
    ensures h >= 0.0
  {
    if n == 0 then 0.0
    else SumContributions(f, texts, n - 1) + Contribution(f, texts[n - 1])
  }

  /** The sum of the hours of the given fragments, in order. */
  function SumFragments(ms: seq<Fragment>): (h: real)
    ensures h >= 0.0
  {
    if ms == [] then 0.0 else SumFragments(ms[..|ms| - 1]) + FragmentHours(ms[|ms| - 1])
  }

  /** `Math.round(totalHours * 10)`: the parsed estimate in tenths of an hour. */
  function ParsedTenths(f: Matcher, s: string): nat
    requires Sticky(f)
  {
    var matches := GlobalMatch(f, s);
    if matches.None? then 0
    else Round(SumContributions(f, matches.value, |matches.value|) * 10.0)
  }

  /** What `parseTimeEstimate(s)` returns: the tenths divided by 10. */
  function ParsedHours(f: Matcher, s: string): (hours: real)
    requires Sticky(f)
    ensures hours >= 0.0
    ensures (hours * 10.0).Floor as real == hours * 10.0
  {
    ParsedTenths(f, s) as real / 10.0
  }

  /**
   * `parseTimeEstimate`, with the source's accumulating loop; `pattern` is the
   * source's regular expression (`MatchAt`), applied with and without the global flag.
   */
  method ParseTimeEstimate(pattern: Matcher, timeEstimate: string) returns (hours: real)
    requires Sticky(pattern)
    ensures hours == ParsedHours(pattern, timeEstimate)
  {
    var matches := GlobalMatch(pattern, timeEstimate);
    if matches.None? {
      return 0.0;
    }
    var texts := matches.value;
    var totalHours := 0.0;
    var i := 0;
    while i < |texts|
      invariant 0 <= i <= |texts|
      invariant totalHours == SumContributions(pattern, texts, i)
    {
      ghost var before := totalHours;
      var parts := Leftmost(pattern, texts[i], 0);
      if parts.Some? {
        var min := parts.value.min as real;
        var max := if parts.value.max.Some? then parts.value.max.value as real else min;
        var avg := (min + max) / 2.0;
        if parts.value.unit == Hour {
          totalHours := totalHours + avg;
        } else {
          totalHours := totalHours + avg / 60.0;
        }
        assert totalHours == before + FragmentHours(parts.value);
      }
      SumContributionsStep(pattern, texts, i, before, totalHours);
      i := i + 1;
    }
    ParsedTenthsOfTotal(pattern, timeEstimate, totalHours);
    hours := Round(totalHours * 10.0) as real / 10.0;
  }

  lemma SumContributionsStep(f: Matcher, texts: seq<string>, i: nat, before: real, after: real)
    requires Sticky(f) && i < |texts|
    requires before == SumContributions(f, texts, i)
    requires after == before + Contribution(f, texts[i])
    ensures after == SumContributions(f, texts, i + 1)
  {
  }

  /** The rounding at the end of `parseTimeEstimate`, given the running total over every matched substring. */
  lemma ParsedTenthsOfTotal(f: Matcher, s: string, total: real)
    requires Sticky(f) && GlobalMatch(f, s).Some?
    requires total == SumContributions(f, GlobalMatch(f, s).value, |GlobalMatch(f, s).value|)
    ensures ParsedTenths(f, s) == Round(total * 10.0)
  {
  }

  /** The scan after a match continues at the match's end. */
  lemma ScanAfterMatch(f: Matcher, s: string, from: nat, m: Fragment)
    requires Sticky(f) && from < |s| && f(s, from) == Some(m)
    ensures Scan(f, s, from) == [m] + Scan(f, s, m.end)
  {
  }

  /** Where nothing matches, the scan moves on by one character. */
  lemma ScanAfterMiss(f: Matcher, s: string, from: nat)
    requires Sticky(f) && from < |s| && f(s, from).None?
    ensures Scan(f, s, from) == Scan(f, s, from + 1)
  {
  }

  /**
   * Leftmost, non-overlapping: every index at which the pattern matches is
   * covered by one of the fragments the scan returns.
   */
  lemma {:induction false} ScanCovers(f: Matcher, s: string, from: nat, p: nat) returns (k: nat)
    requires Sticky(f) && from <= p < |s| && f(s, p).Some?
    ensures k < |Scan(f, s, from)| && Scan(f, s, from)[k].start <= p < Scan(f, s, from)[k].end
    decreases |s| - from
  {
    var here := f(s, from);
    if here.Some? {
      var m := here.value;
      ScanAfterMatch(f, s, from, m);
      if p < m.end {
        k := 0;
      } else {
        var k' := ScanCovers(f, s, m.end, p);
        k := k' + 1;
      }
    } else {
      ScanAfterMiss(f, s, from);
      k := ScanCovers(f, s, from + 1, p);
    }
  }

  /** A match without the global flag finds the first fragment a global match finds. */
  lemma {:induction false} LeftmostIsFirstOfScan(f: Matcher, s: string, from: nat)
    requires Sticky(f) && from <= |s|
    ensures Leftmost(f, s, from) == if Scan(f, s, from) == [] then None else Some(Scan(f, s, from)[0])
    decreases |s| - from
  {
    if from < |s| && f(s, from).None? {
      ScanAfterMiss(f, s, from);
      LeftmostIsFirstOfScan(f, s, from + 1);
    }
  }

  /** The global match finds nothing exactly when the pattern matches nowhere in the string. */
  lemma NoMatchIff(f: Matcher, s: string)
    requires Sticky(f)
    ensures GlobalMatch(f, s).None? <==> forall p :: 0 <= p < |s| ==> f(s, p).None?
  {
    if Scan(f, s, 0) == [] {
      forall p | 0 <= p < |s| ensures f(s, p).None? {
        if f(s, p).Some? {
          var k := ScanCovers(f, s, 0, p);
        }
      }
    } else {
      var m := Scan(f, s, 0)[0];
      assert 0 <= m.start < |s| && f(s, m.start).Some?;
    }
  }

  /** A string in which the pattern matches nowhere parses to 0 hours ("Ongoing", "30 mins"). */
  lemma NoMatchParsesToZero(f: Matcher, s: string)
    requires Sticky(f) && forall p :: 0 <= p < |s| ==> f(s, p).None?
    ensures ParsedHours(f, s) == 0.0
  {
    NoMatchIff(f, s);
  }

  /** Matching each matched substring again yields its fragment's hours. */
  ghost predicate ReMatchesAgree(f: Matcher, s: string)
    requires Sticky(f)
  {
    var ms := Scan(f, s, 0);
    forall k :: 0 <= k < |ms| ==> Contribution(f, Texts(s, ms)[k]) == FragmentHours(ms[k])
  }

  /** Sums of agreeing contributions agree on every prefix. */
  lemma {:induction false} SumsAgree(f: Matcher, ms: seq<Fragment>, texts: seq<string>, n: nat)
    requires Sticky(f) && |texts| == |ms| && n <= |ms|
    requires forall k :: 0 <= k < |ms| ==> Contribution(f, texts[k]) == FragmentHours(ms[k])
    ensures SumContributions(f, texts, n) == SumFragments(ms[..n])
  {
    if n > 0 {
      SumsAgree(f, ms, texts, n - 1);
      assert ms[..n][..n - 1] == ms[..n - 1];
    }
  }

  /**
   * When matching again agrees with the global match, the result is the sum of
   * the fragments' hours rounded to one decimal.
   */
  lemma ParsedIsRoundedSum(f: Matcher, s: string)
    requires Sticky(f) && ReMatchesAgree(f, s)
    ensures ParsedTenths(f, s) == Round(SumFragments(Scan(f, s, 0)) * 10.0)
    ensures ParsedHours(f, s) == RoundToTenth(SumFragments(Scan(f, s, 0)))
  {
    ParsedTenthsOfSum(f, s);
  }

  /** The tenths before the final division: the fragment sum times ten, rounded. */
  lemma ParsedTenthsOfSum(f: Matcher, s: string)
    requires Sticky(f) && ReMatchesAgree(f, s)
    ensures ParsedTenths(f, s) == Round(SumFragments(Scan(f, s, 0)) * 10.0)
  {
    if Scan(f, s, 0) != [] {
      MatchedScanTenths(f, s);
    } else {
      EmptyScanParsesToZero(f, s);
    }
  }

  /** `ParsedTenthsOfSum` when the pattern matches somewhere. */
  lemma MatchedScanTenths(f: Matcher, s: string)
    requires Sticky(f) && ReMatchesAgree(f, s) && Scan(f, s, 0) != []
    ensures ParsedTenths(f, s) == Round(SumFragments(Scan(f, s, 0)) * 10.0)
  {
    GlobalSumIsFragmentSum(f, s);
    ParsedTenthsOfTotal(f, s, SumFragments(Scan(f, s, 0)));
  }

  /** With no match at all, both sides are zero tenths. */
  lemma EmptyScanParsesToZero(f: Matcher, s: string)
    requires Sticky(f) && Scan(f, s, 0) == []
    ensures ParsedTenths(f, s) == 0
    ensures Round(SumFragments(Scan(f, s, 0)) * 10.0) == 0
  {
    assert GlobalMatch(f, s).None?;
    assert SumFragments(Scan(f, s, 0)) == 0.0;
  }

  /** The running total over the globally matched substrings is the sum of the fragments' hours. */
  lemma GlobalSumIsFragmentSum(f: Matcher, s: string)
    requires Sticky(f) && ReMatchesAgree(f, s) && Scan(f, s, 0) != []
    ensures GlobalMatch(f, s) == Some(Texts(s, Scan(f, s, 0)))
    ensures SumContributions(f, GlobalMatch(f, s).value, |GlobalMatch(f, s).value|) == SumFragments(Scan(f, s, 0))
  {
    var ms := Scan(f, s, 0);
    SumsAgree(f, ms, Texts(s, ms), |ms|);
    assert ms[..|ms|] == ms;
  }

  /** Matching a matched substring again contributes the hours of the original fragment. */
  lemma ContributionOfMatch(s: string, m: Fragment)
    requires MatchAt(s, m.start) == Some(m)
    ensures Sticky(MatchAt)
    ensures Contribution(MatchAt, s[m.start..m.end]) == FragmentHours(m)
  {
    MatchAtSticky();
    ReMatch(s, m);
  }

  /** The source's pattern agrees with itself when it matches its own matches again. */
  lemma PatternReMatchesAgree(s: string)
    ensures Sticky(MatchAt)
    ensures ReMatchesAgree(MatchAt, s)
  {
    MatchAtSticky();
    var ms := Scan(MatchAt, s, 0);
    forall k | 0 <= k < |ms|
      ensures Contribution(MatchAt, Texts(s, ms)[k]) == FragmentHours(ms[k])
    {
      ContributionOfMatch(s, ms[k]);
    }
  }

  /**
   * `parseTimeEstimate`: each fragment the source's pattern finds contributes the
   * midpoint of its range, in hours (minutes divided by 60); the contributions
   * are summed and the sum is rounded to one decimal.
   */
  lemma ParsedHoursIsRoundedSum(s: string)
    ensures Sticky(MatchAt)
    ensures ParsedHours(MatchAt, s) == RoundToTenth(SumFragments(Scan(MatchAt, s, 0)))
  {
    PatternReMatchesAgree(s);
    ParsedIsRoundedSum(MatchAt, s);
  }

  /** A scan over a stretch where the pattern matches nowhere finds nothing. */
  lemma {:induction false} ScanOfNoMatch(f: Matcher, s: string, from: nat)
    requires Sticky(f) && from <= |s|
    requires forall p :: from <= p < |s| ==> f(s, p).None?
    ensures Scan(f, s, from) == []
    decreases |s| - from
  {
    if from < |s| {
      ScanAfterMiss(f, s, from);
      ScanOfNoMatch(f, s, from + 1);
    }
  }

  /**
   * A string that starts with a match and has no digit after it holds exactly
   * one fragment, and parses to that fragment's hours rounded to one decimal.
   */
  lemma ParsedSingleFragment(s: string, m: Fragment)
    requires MatchAt(s, 0) == Some(m)
    requires forall p :: m.end <= p < |s| ==> !IsDigit(s[p])
    ensures Sticky(MatchAt)
    ensures ParsedHours(MatchAt, s) == RoundToTenth(FragmentHours(m))
  {
    MatchAtSticky();
    ScanAfterMatch(MatchAt, s, 0, m);
    ScanOfNoMatch(MatchAt, s, m.end);
    ParsedHoursIsRoundedSum(s);
    assert SumFragments([m]) == FragmentHours(m);
  }
}
