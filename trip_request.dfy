// The request body of the budget endpoint and the two constraints its
// schema places on it: at least one travel day, and a rating range of the
// form `min-max` with decimal numerals on both sides.

module TripRequest {
  import opened Wrappers
  import opened Text

  /** The body of a budget request, once the JSON field types have been checked. */
  datatype TripRequest = TripRequest(
    locations: seq<string>,
    package: string,
    totalDays: int,
    ratingRange: string,
    travelCompanion: string)

  /** The field constraints a request can violate, in the order the fields are declared. */
  datatype FieldError = TotalDaysBelowOne | RatingRangeMismatch

  /** `s[k]` is the dash of `\d+(\.\d+)?-\d+(\.\d+)?`. */
  predicate RangeDashAt(s: string, k: int) {
    0 <= k < |s| && s[k] == '-' && IsDecimalNumeral(s[..k]) && IsDecimalNumeral(s[k + 1..])
  }

  /** The whole string matches `^\d+(\.\d+)?-\d+(\.\d+)?$`. */
  predicate MatchesRangePattern(s: string) {
    exists k | 0 <= k < |s| :: RangeDashAt(s, k)
  }

  /**
    Schema validation: the request is accepted unchanged exactly when both
    constraints hold; otherwise every violated constraint is reported.
  */
  function Validate(req: TripRequest): (res: Result<TripRequest, seq<FieldError>>)
    ensures res.Success? <==> req.totalDays >= 1 && MatchesRangePattern(req.ratingRange)
    ensures res.Success? ==> res.value == req
    ensures res.Failure? ==>
      && 1 <= |res.error| <= 2
      && (TotalDaysBelowOne in res.error <==> req.totalDays < 1)
      && (RatingRangeMismatch in res.error <==> !MatchesRangePattern(req.ratingRange))
  {
    var errors :=
      (if req.totalDays >= 1 then [] else [TotalDaysBelowOne])
      + (if MatchesRangePattern(req.ratingRange) then [] else [RatingRangeMismatch]);
    if errors == [] then Success(req) else Failure(errors)
  }

  /** A range built from two numerals and a dash matches the pattern. */
  lemma RangeOfNumeralsMatches(lo: string, hi: string)
    requires IsDecimalNumeral(lo) && IsDecimalNumeral(hi)
    ensures MatchesRangePattern(lo + "-" + hi)
  {
    var s := lo + "-" + hi;
    assert s[..|lo|] == lo && s[|lo| + 1..] == hi;
    assert RangeDashAt(s, |lo|);
  }

  /**
    A string matches the pattern exactly when splitting it at `-` gives two
    pieces, both numerals; so the split the planner performs on an accepted
    range always yields a minimum and a maximum.
  */
  lemma RangePatternBySplit(s: string)
    ensures MatchesRangePattern(s) <==>
      |Split(s, '-')| == 2 && IsDecimalNumeral(Split(s, '-')[0]) && IsDecimalNumeral(Split(s, '-')[1])
  {
    if MatchesRangePattern(s) {
      var k :| 0 <= k < |s| && RangeDashAt(s, k);
      var lo, hi := s[..k], s[k + 1..];
      assert s == lo + ['-'] + hi;
      NumeralLacks(lo, '-');
      NumeralLacks(hi, '-');
      SplitAfterPiece(lo, '-', hi);
      SplitNoSeparator(hi, '-');
    }
    var parts := Split(s, '-');
    if |parts| == 2 && IsDecimalNumeral(parts[0]) && IsDecimalNumeral(parts[1]) {
      JoinSplit(s, '-');
      assert s == parts[0] + "-" + parts[1];
      RangeOfNumeralsMatches(parts[0], parts[1]);
    }
  }

  /** A dash inside the left numeral's place makes the left side a non-numeral. */
  lemma NotNumeralWith(s: string, j: nat)
    requires j < |s| && !IsDigit(s[j]) && s[j] != '.'
    ensures !IsDecimalNumeral(s)
  {
    assert !AllDigits(s);
    if IsDecimalNumeral(s) {
      NumeralLacks(s, s[j]);
    }
  }

  /** A numeral ends with a digit. */
  lemma NumeralEndsWithDigit(s: string)
    requires IsDecimalNumeral(s)
    ensures IsDigit(s[|s| - 1])
  {
    if !AllDigits(s) {
      var k := PointIndex(s);
      assert s[k + 1..][|s| - k - 2] == s[|s| - 1];
    }
  }

  /** Integer bounds are accepted, and they need not be ordered. */
  lemma RangePatternAcceptsIntegers()
    ensures MatchesRangePattern("3-5")
    ensures MatchesRangePattern("5-3")
  {
    var a, b := "3-5", "5-3";
    assert a[..1] == "3" && a[2..] == "5" && IsDecimalNumeral("3") && IsDecimalNumeral("5");
    assert RangeDashAt(a, 1);
    assert b[..1] == "5" && b[2..] == "3";
    assert RangeDashAt(b, 1);
  }

  /** Decimal bounds are accepted. */
  lemma RangePatternAcceptsDecimals()
    ensures MatchesRangePattern("3.0-5.0")
  {
    var s, lo, hi := "3.0-5.0", "3.0", "5.0";
    assert lo[..1] == "3" && lo[2..] == "0";
    assert hi[..1] == "5" && hi[2..] == "0";
    assert IsDecimalNumeral(lo) && IsDecimalNumeral(hi);
    assert s[..3] == lo && s[4..] == hi;
    assert RangeDashAt(s, 3);
  }

  /** A bound with a trailing point is rejected. */
  lemma RangePatternRejectsTrailingPoint()
    ensures !MatchesRangePattern("3.-5")
  {
    var a := "3.-5";
    forall k | 0 <= k < |a| ensures !RangeDashAt(a, k) {
      if k == 2 {
        assert a[..2] == "3.";
        if IsDecimalNumeral("3.") {
          NumeralEndsWithDigit("3.");
        }
      }
    }
  }

  /** A missing minimum is rejected. */
  lemma RangePatternRejectsMissingMinimum()
    ensures !MatchesRangePattern("-5")
  {
    var b := "-5";
    forall k | 0 <= k < |b| ensures !RangeDashAt(b, k) {
      if k == 0 {
        assert b[..0] == "";
      }
    }
  }

  /** A third part is rejected. */
  lemma RangePatternRejectsThreeParts()
    ensures !MatchesRangePattern("3-5-6")
  {
    var c := "3-5-6";
    forall k | 0 <= k < |c| ensures !RangeDashAt(c, k) {
      if k == 1 {
        assert c[2..] == "5-6";
        NotNumeralWith("5-6", 1);
      } else if k == 3 {
        assert c[..3] == "3-5";
        NotNumeralWith("3-5", 1);
      }
    }
  }
}
