/**
 * The estimates of the seed week of src/lib/progress-context.tsx, and two
 * strings without a fragment, parsed by `parseTimeEstimate`.
 */
module EstimateExamples {
  import opened Wrappers
  import opened Numeric
  import opened TimePattern
  import opened TimeEstimate

  lemma MatchOneToTwoHours()
    ensures MatchAt("1-2 hours", 0) == Some(Fragment(0, 8, 1, Some(2), Hour))
  {
    var s := "1-2 hours";
    assert DigitsEnd(s, 0) == 1 by { assert DigitsEnd(s, 1) == 1; }
    assert RangeEnd(s, 1) == 3 by { assert HasMax(s, 1) && DigitsEnd(s, 3) == 3; }
    assert SpacesEnd(s, 3) == 4 by { assert SpacesEnd(s, 4) == 4; }
    assert UnitAt(s, 4) == Some(Hour) by { assert HourAt(s, 4); }
    assert DecimalValue(s, 2, 3) == 2;
    MatchFromParts(s, 1, 3, 4, Hour, DecimalValue(s, 0, 1), Some(DecimalValue(s, 2, 3)));
  }

  /** "1-2 hours" is 1.5 hours. */
  lemma ParseOneToTwoHours()
    ensures Sticky(MatchAt)
    ensures ParsedHours(MatchAt, "1-2 hours") == 1.5
  {
    MatchOneToTwoHours();
    ParsedSingleFragment("1-2 hours", Fragment(0, 8, 1, Some(2), Hour));
    assert Round(15.0) == 15;
  }

  lemma MatchTwoToThreeHours()
    ensures MatchAt("2-3 hours", 0) == Some(Fragment(0, 8, 2, Some(3), Hour))
  {
    var s := "2-3 hours";
    assert DigitsEnd(s, 0) == 1 by { assert DigitsEnd(s, 1) == 1; }
    assert RangeEnd(s, 1) == 3 by { assert HasMax(s, 1) && DigitsEnd(s, 3) == 3; }
    assert SpacesEnd(s, 3) == 4 by { assert SpacesEnd(s, 4) == 4; }
    assert UnitAt(s, 4) == Some(Hour) by { assert HourAt(s, 4); }
    assert DecimalValue(s, 2, 3) == 3;
    MatchFromParts(s, 1, 3, 4, Hour, DecimalValue(s, 0, 1), Some(DecimalValue(s, 2, 3)));
  }

  /** "2-3 hours" is 2.5 hours. */
  lemma ParseTwoToThreeHours()
    ensures Sticky(MatchAt)
    ensures ParsedHours(MatchAt, "2-3 hours") == 2.5
  {
    MatchTwoToThreeHours();
    ParsedSingleFragment("2-3 hours", Fragment(0, 8, 2, Some(3), Hour));
    assert Round(25.0) == 25;
  }

  lemma MatchOneHour()
    ensures MatchAt("1 hour", 0) == Some(Fragment(0, 6, 1, None, Hour))
  {
    var s := "1 hour";
    assert DigitsEnd(s, 0) == 1 by { assert DigitsEnd(s, 1) == 1; }
    assert RangeEnd(s, 1) == 1 by { assert !HasMax(s, 1); }
    assert SpacesEnd(s, 1) == 2 by { assert SpacesEnd(s, 2) == 2; }
    assert UnitAt(s, 2) == Some(Hour) by { assert HourAt(s, 2); }
    MatchFromParts(s, 1, 1, 2, Hour, DecimalValue(s, 0, 1), None);
  }

  /** "1 hour" is 1 hour: without a maximum the range is the single value. */
  lemma ParseOneHour()
    ensures Sticky(MatchAt)
    ensures ParsedHours(MatchAt, "1 hour") == 1.0
  {
    MatchOneHour();
    ParsedSingleFragment("1 hour", Fragment(0, 6, 1, None, Hour));
    assert Round(10.0) == 10;
  }

  lemma MatchThirtyToFortyFiveMinutes()
    ensures MatchAt("30-45 minutes", 0) == Some(Fragment(0, 12, 30, Some(45), Minute))
  {
    var s := "30-45 minutes";
    assert DigitsEnd(s, 0) == 2 by { assert DigitsEnd(s, 2) == 2; }
    assert RangeEnd(s, 2) == 5 by { assert HasMax(s, 2) && DigitsEnd(s, 5) == 5; }
    assert SpacesEnd(s, 5) == 6 by { assert SpacesEnd(s, 6) == 6; }
    assert UnitAt(s, 6) == Some(Minute) by { assert !HourAt(s, 6) && MinuteAt(s, 6); }
    assert DecimalValue(s, 0, 2) == 30;
    assert DecimalValue(s, 3, 5) == 45;
    MatchFromParts(s, 2, 5, 6, Minute, 30, Some(45));
  }

  /**
   * "30-45 minutes" is 0.6 hours, not 0.625: the midpoint, 37.5 minutes, is
   * rounded to one decimal of an hour.
   */
  lemma ParseThirtyToFortyFiveMinutes()
    ensures Sticky(MatchAt)
    ensures ParsedHours(MatchAt, "30-45 minutes") == 0.6
  {
    MatchThirtyToFortyFiveMinutes();
    ParsedSingleFragment("30-45 minutes", Fragment(0, 12, 30, Some(45), Minute));
    assert FragmentHours(Fragment(0, 12, 30, Some(45), Minute)) == 0.625;
    assert Round(6.25) == 6;
  }

  /** "Ongoing" holds no number, so it parses to 0. */
  lemma ParseOngoing()
    ensures Sticky(MatchAt)
    ensures ParsedHours(MatchAt, "Ongoing") == 0.0
  {
    MatchAtSticky();
    var s := "Ongoing";
    forall p | 0 <= p < |s| ensures MatchAt(s, p).None? {
      assert !IsDigit(s[p]);
    }
    NoMatchParsesToZero(MatchAt, s);
  }

  /** "30 mins" is not "minute" spelled out, so it parses to 0. */
  lemma ParseThirtyMins()
    ensures Sticky(MatchAt)
    ensures ParsedHours(MatchAt, "30 mins") == 0.0
  {
    MatchAtSticky();
    var s := "30 mins";
    assert DigitsEnd(s, 0) == 2 && DigitsEnd(s, 1) == 2 by { assert DigitsEnd(s, 2) == 2; }
    assert SpacesEnd(s, 2) == 3 by { assert SpacesEnd(s, 3) == 3; }
    assert UnitAt(s, 3) == None by { assert !HourAt(s, 3) && !MinuteAt(s, 3); }
    forall p | 0 <= p < |s| ensures MatchAt(s, p).None? {
      if p >= 2 {
        assert !IsDigit(s[p]);
      }
    }
    NoMatchParsesToZero(MatchAt, s);
  }
}
