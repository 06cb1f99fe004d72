// The preference form: its record of fields, the guards on the two rating
// selects, the parsing and checks done on submit, and the reset and sample
// buttons.

module BudgetForm {
  import opened Wrappers
  import opened Text
  import TR = TripRequest

  /**
    The form's record. `totalDays` is the value the number input holds; the
    ratings are the option strings the two selects hold.
  */
  datatype FormData = FormData(
    locations: string,
    package: string,
    totalDays: int,
    minRating: string,
    maxRating: string,
    travelCompanion: string)

  /** The defaults the form starts from and resets to. */
  const InitialForm := FormData("", "Moderate", 1, "3.0", "5.0", "Solo")

  /** The record the "Fill Sample" button loads. */
  const SampleForm := FormData("LOC_11, " + "LOC_42, " + "LOC_67", "Moderate", 5, "3.0", "5.0", "Family")

  /** The values both rating selects offer. */
  const RatingOptions: seq<string> := ["0.0", "1.0", "2.0", "3.0", "4.0", "5.0"]

  datatype ToastKind = ErrorToast | InfoToast | SuccessToast

  /** A notification shown to the user. */
  datatype Toast = Toast(kind: ToastKind, text: string)

  // Long messages are written as concatenations of shorter literals; each
  // concatenation is the whole message text.

  const MinAboveMaxMessage := "Minimum rating " + "cannot exceed " + "maximum rating."
  const MaxBelowMinMessage := "Maximum rating " + "cannot be less " + "than minimum rating."
  const NoLocationMessage := "Please enter at " + "least one location."
  const TooFewDaysMessage := "Total days must " + "be at least 1."
  const SubmitFailedMessage := "Something went " + "wrong."
  const ResetMessage := "Form reset to " + "defaults."
  const SampleMessage := "Sample data added!"

  /** One edit of a form control: the control's name and the value it hands over. */
  datatype Change =
    | SetLocations(text: string)
    | SetPackage(text: string)
    | SetTotalDays(days: int)
    | SetMinRating(text: string)
    | SetMaxRating(text: string)
    | SetTravelCompanion(text: string)

  /** The outcome of an edit: the new record, or the error toast and no change. */
  datatype ChangeOutcome = Accepted(form: FormData) | Rejected(message: string)

  // ---------------------------------------------------------------------------
  // ratings

  /**
    `parseFloat(a) > parseFloat(b)`; false as soon as either side is NaN,
    since every comparison with NaN is false.
  */
  predicate RatingAbove(a: string, b: string): (r: bool)
    ensures ParseDecimal(a).None? || ParseDecimal(b).None? ==> !r
    ensures r ==> a != b
  {
    ParseDecimal(a).Some? && ParseDecimal(b).Some? && ParseDecimal(a).value > ParseDecimal(b).value
  }

  /** Both ratings are numbers and the minimum does not exceed the maximum. */
  predicate RatingsOrdered(f: FormData) {
    ParseDecimal(f.minRating).Some? && ParseDecimal(f.maxRating).Some?
    && ParseDecimal(f.minRating).value <= ParseDecimal(f.maxRating).value
  }

  /** A numeral `d.0` has the value of its digit. */
  lemma OneDecimalValue(s: string)
    requires |s| == 3 && IsDigit(s[0]) && s[1] == '.' && s[2] == '0'
    ensures IsDecimalNumeral(s)
    ensures DecimalValue(s) == DigitValue(s[0]) as real
  {
    assert s[..1] == [s[0]] && s[2..] == "0";
    assert IsDecimalNumeral(s);
    var k := PointIndex(s);
    assert k == 1;
    assert DigitsValue([s[0]]) == DigitValue(s[0]) by {
      assert [s[0]][..0] == [];
    }
    assert DigitsValue("0") == 0 by {
      assert "0"[..0] == [];
    }
  }

  /** The option at position `i` is the rating `i`. */
  lemma RatingOptionValue(i: nat)
    requires i < |RatingOptions|
    ensures ParseDecimal(RatingOptions[i]) == Some(i as real)
  {
    var s := RatingOptions[i];
    OneDecimalValue(s);
  }

  /** The defaults and the sample both start with ordered ratings. */
  lemma PresetsOrdered()
    ensures RatingsOrdered(InitialForm)
    ensures RatingsOrdered(SampleForm)
  {
    RatingOptionValue(3);
    RatingOptionValue(5);
  }

  // ---------------------------------------------------------------------------
  // handleChange

  /**
    `handleChange`: a minimum above the current maximum, or a maximum below
    the current minimum, is refused with its toast and the record stays as it
    was; any other edit sets exactly its own field.
  */
  function ApplyChange(f: FormData, c: Change): (r: ChangeOutcome)
    ensures r.Rejected? <==>
      || (c.SetMinRating? && RatingAbove(c.text, f.maxRating))
      || (c.SetMaxRating? && RatingAbove(f.minRating, c.text))
    ensures r.Rejected? && c.SetMinRating? ==> r.message == MinAboveMaxMessage
    ensures r.Rejected? && c.SetMaxRating? ==> r.message == MaxBelowMinMessage
    ensures r.Accepted? ==> Changed(f, c, r.form)
  {
    match c
    case SetMinRating(v) =>
      if RatingAbove(v, f.maxRating) then Rejected(MinAboveMaxMessage) else Accepted(f.(minRating := v))
    case SetMaxRating(v) =>
      if RatingAbove(f.minRating, v) then Rejected(MaxBelowMinMessage) else Accepted(f.(maxRating := v))
    case SetLocations(v) => Accepted(f.(locations := v))
    case SetPackage(v) => Accepted(f.(package := v))
    case SetTotalDays(n) => Accepted(f.(totalDays := n))
    case SetTravelCompanion(v) => Accepted(f.(travelCompanion := v))
  }

  /** `g` is `f` with the field that `c` names set to its value and every other field as in `f`. */
  predicate Changed(f: FormData, c: Change, g: FormData) {
    && g.locations == (if c.SetLocations? then c.text else f.locations)
    && g.package == (if c.SetPackage? then c.text else f.package)
    && g.totalDays == (if c.SetTotalDays? then c.days else f.totalDays)
    && g.minRating == (if c.SetMinRating? then c.text else f.minRating)
    && g.maxRating == (if c.SetMaxRating? then c.text else f.maxRating)
    && g.travelCompanion == (if c.SetTravelCompanion? then c.text else f.travelCompanion)
  }

  /** The rating selects hand over numerals: the values of the option list. */
  predicate RatingChangeIsNumeral(c: Change) {
    (c.SetMinRating? || c.SetMaxRating?) ==> IsDecimalNumeral(c.text)
  }

  /**
    Every edit whose rating value is a numeral keeps the minimum at or below
    the maximum; with a value that is not a number the guard lets the edit
    through and the order can break.
  */
  lemma ChangeKeepsRatingsOrdered(f: FormData, c: Change)
    requires RatingsOrdered(f) && RatingChangeIsNumeral(c)
    ensures ApplyChange(f, c).Accepted? ==> RatingsOrdered(ApplyChange(f, c).form)
  {
  }

  /** Each value of the option list is a numeral, so the selects keep the order. */
  lemma OptionChangeKeepsRatingsOrdered(f: FormData, c: Change)
    requires RatingsOrdered(f)
    requires (c.SetMinRating? || c.SetMaxRating?) ==> c.text in RatingOptions
    ensures ApplyChange(f, c).Accepted? ==> RatingsOrdered(ApplyChange(f, c).form)
  {
    if c.SetMinRating? || c.SetMaxRating? {
      var i :| 0 <= i < |RatingOptions| && RatingOptions[i] == c.text;
      RatingOptionValue(i);
    }
    ChangeKeepsRatingsOrdered(f, c);
  }

  /** A non-numeric minimum is not compared at all, so it is accepted even above the maximum. */
  lemma NonNumericMinimumAccepted(f: FormData, v: string)
    requires !IsDecimalNumeral(v)
    ensures ApplyChange(f, SetMinRating(v)) == Accepted(f.(minRating := v))
  {
  }

  // ---------------------------------------------------------------------------
  // locations

  /** A location as the form sends it: non-empty, comma-free, no white space at either end. */
  predicate IsLocationName(s: string) {
    s != "" && ',' !in s && !IsSpace(s[0]) && !IsSpace(s[|s| - 1])
  }

  predicate AreLocationNames(parts: seq<string>) {
    forall k | 0 <= k < |parts| :: IsLocationName(parts[k])
  }

  /**
    The comma-separated pieces of the locations field, each trimmed, with the
    pieces that trim to nothing dropped, in their original order.
  */
  function ParseLocations(s: string): (r: seq<string>)
    ensures AreLocationNames(r)
  {
    KeepTrimmedNames(Split(s, ','));
    KeepTrimmed(Split(s, ','))
  }

  /** `pieces.map(trim).filter(Boolean)`. */
  function KeepTrimmed(pieces: seq<string>): (r: seq<string>)
    ensures |r| <= |pieces|
  {
    if pieces == [] then [] else Kept(pieces[0]) + KeepTrimmed(pieces[1..])
  }

  /** What one piece contributes: its trim, unless that is empty. */
  function Kept(piece: string): (r: seq<string>)
    ensures |r| <= 1
  {
    var t := Trim(piece);
    if t == "" then [] else [t]
  }

  /** Trimming keeps only characters of the original. */
  lemma TrimLacks(s: string, c: char)
    requires c !in s
    ensures c !in Trim(s)
  {
    var r := Trim(s);
    TrimIsPiece(s);
    var i :| IsTrimOf(s, r, i);
    forall j | 0 <= j < |r| ensures r[j] != c {
      assert r[j] == s[i + j];
    }
  }

  /** Comma-free pieces parse into location names. */
  lemma {:induction false} KeepTrimmedNames(pieces: seq<string>)
    requires forall k | 0 <= k < |pieces| :: ',' !in pieces[k]
    ensures AreLocationNames(KeepTrimmed(pieces))
  {
    if pieces != [] {
      assert forall k | 0 <= k < |pieces| - 1 :: ',' !in pieces[1..][k] by {
        forall k | 0 <= k < |pieces| - 1 ensures ',' !in pieces[1..][k] {
          assert pieces[1..][k] == pieces[k + 1];
        }
      }
      KeepTrimmedNames(pieces[1..]);
      KeptName(pieces[0]);
      NamesAppend(Kept(pieces[0]), KeepTrimmed(pieces[1..]));
    }
  }

  /** A comma-free piece contributes a location name or nothing. */
  lemma KeptName(piece: string)
    requires ',' !in piece
    ensures AreLocationNames(Kept(piece))
  {
    var t := Trim(piece);
    TrimLacks(piece, ',');
    if t != "" {
      assert Kept(piece) == [t];
      assert IsLocationName(t);
    }
  }

  lemma NamesAppend(a: seq<string>, b: seq<string>)
    requires AreLocationNames(a) && AreLocationNames(b)
    ensures AreLocationNames(a + b)
  {
    forall k | 0 <= k < |a + b| ensures IsLocationName((a + b)[k]) {
      if k < |a| {
        assert (a + b)[k] == a[k];
      } else {
        assert (a + b)[k] == b[k - |a|];
      }
    }
  }

  /** A trimmed piece is its own trim. */
  lemma LocationNameTrimmed(s: string)
    requires IsLocationName(s)
    ensures Trim(s) == s
  {
    TrimOfTrimmed(s);
  }

  /** Parsing a concatenation of piece lists parses each part in turn. */
  lemma {:induction false} KeepTrimmedAppend(a: seq<string>, b: seq<string>)
    ensures KeepTrimmed(a + b) == KeepTrimmed(a) + KeepTrimmed(b)
  {
    if a != [] {
      var head := Kept(a[0]);
      assert (a + b)[0] == a[0] && (a + b)[1..] == a[1..] + b;
      assert KeepTrimmed(a + b) == head + KeepTrimmed(a[1..] + b);
      KeepTrimmedAppend(a[1..], b);
      assert KeepTrimmed(a) == head + KeepTrimmed(a[1..]);
    } else {
      assert a + b == b;
    }
  }

  /** `x` is the trim of the piece at `k`. */
  predicate TrimsTo(pieces: seq<string>, k: int, x: string) {
    0 <= k < |pieces| && Trim(pieces[k]) == x
  }

  /** Exactly the pieces that do not trim to nothing appear in the result. */
  lemma {:induction false} KeepTrimmedKeeps(pieces: seq<string>, x: string)
    ensures x in KeepTrimmed(pieces) <==> x != "" && exists k :: TrimsTo(pieces, k, x)
  {
    if pieces != [] {
      var rest := pieces[1..];
      KeepTrimmedKeeps(rest, x);
      if exists k :: TrimsTo(pieces, k, x) {
        var k :| TrimsTo(pieces, k, x);
        if k > 0 {
          assert TrimsTo(rest, k - 1, x);
        }
      }
      if exists k :: TrimsTo(rest, k, x) {
        var k :| TrimsTo(rest, k, x);
        assert TrimsTo(pieces, k + 1, x);
      }
      if Trim(pieces[0]) == x {
        assert TrimsTo(pieces, 0, x);
      }
    }
  }

  /** Location names with a blank before each, as typed after a comma. */
  function Spaced(parts: seq<string>): (r: seq<string>)
    ensures |r| == |parts|
    ensures forall k | 0 <= k < |r| :: r[k] == " " + parts[k]
  {
    if parts == [] then [] else [" " + parts[0]] + Spaced(parts[1..])
  }

  lemma {:induction false} KeepTrimmedSpaced(parts: seq<string>)
    requires AreLocationNames(parts)
    ensures KeepTrimmed(Spaced(parts)) == parts
  {
    if parts != [] {
      NamesTail(parts);
      KeepTrimmedSpaced(parts[1..]);
      var sp := Spaced(parts);
      assert sp[0] == " " + parts[0] && sp[1..] == Spaced(parts[1..]);
      KeptSpacedName(parts[0]);
      assert KeepTrimmed(sp) == Kept(sp[0]) + KeepTrimmed(sp[1..]);
      assert parts == [parts[0]] + parts[1..];
    }
  }

  lemma NamesTail(parts: seq<string>)
    requires parts != [] && AreLocationNames(parts)
    ensures IsLocationName(parts[0]) && AreLocationNames(parts[1..])
  {
    forall k | 0 <= k < |parts| - 1 ensures IsLocationName(parts[1..][k]) {
      assert parts[1..][k] == parts[k + 1];
    }
  }

  lemma KeptSpacedName(p: string)
    requires IsLocationName(p)
    ensures Kept(" " + p) == [p]
  {
    TrimPadded(" ", p, "");
    assert " " + p + "" == " " + p;
  }

  /**
    Typing the names separated by `", "` and parsing the field gives back the
    names, in order.
  */
  lemma ParseLocationsRoundTrip(first: string, rest: seq<string>)
    requires IsLocationName(first) && AreLocationNames(rest)
    ensures ParseLocations(Join([first] + Spaced(rest), ',')) == [first] + rest
  {
    var pieces := [first] + Spaced(rest);
    forall k | 0 <= k < |pieces| ensures ',' !in pieces[k] {
      if k > 0 {
        assert pieces[k] == " " + rest[k - 1];
        assert IsLocationName(rest[k - 1]);
      }
    }
    SplitJoin(pieces, ',');
    KeepTrimmedSpaced(rest);
    KeepTrimmedAppend([first], Spaced(rest));
    LocationNameTrimmed(first);
    assert KeepTrimmed([first]) == [first] by {
      assert [first][1..] == [];
    }
  }

  /** The sample's locations field parses into its three location codes. */
  lemma SampleLocations()
    ensures ParseLocations(SampleForm.locations) == ["LOC_11", "LOC_42", "LOC_67"]
  {
    var a, b, c := "LOC_11", "LOC_42", "LOC_67";
    assert IsLocationName(a) && IsLocationName(b) && IsLocationName(c);
    assert AreLocationNames([b, c]);
    ParseLocationsRoundTrip(a, [b, c]);
    assert Spaced([b, c]) == [" " + b, " " + c];
    SampleLocationsTyped();
  }

  /** The sample's field is the three codes typed with `", "` between them. */
  lemma SampleLocationsTyped()
    ensures Join(["LOC_11", " " + "LOC_42", " " + "LOC_67"], ',') == SampleForm.locations
  {
    var a, b, c := "LOC_11", " " + "LOC_42", " " + "LOC_67";
    var pieces := [a, b, c];
    assert pieces[1..] == [b, c] && pieces[1..][1..] == [c];
    assert Join(pieces[1..], ',') == b + [','] + c;
    assert Join(pieces, ',') == a + [','] + (b + [','] + c);
  }

  // ---------------------------------------------------------------------------
  // handleSubmit

  /** The body handed to `onSubmit`: the record with parsed locations, the day count and the range. */
  datatype Payload = Payload(
    locations: seq<string>,
    package: string,
    totalDays: int,
    minRating: string,
    maxRating: string,
    ratingRange: string,
    travelCompanion: string)

  /**
    The checks and conversions of `handleSubmit`: no location, or fewer than
    one day, stops the submit with its message; otherwise the body carries
    the parsed locations and the range `min-max`.
  */
  function BuildPayload(f: FormData): (r: Result<Payload, string>)
    ensures r.Failure? <==> ParseLocations(f.locations) == [] || f.totalDays < 1
    ensures r.Failure? ==> r.error == (if ParseLocations(f.locations) == [] then NoLocationMessage else TooFewDaysMessage)
    ensures r.Success? ==>
      && r.value.locations == ParseLocations(f.locations) && r.value.locations != []
      && r.value.totalDays == f.totalDays >= 1
      && r.value.ratingRange == f.minRating + "-" + f.maxRating
      && r.value.package == f.package && r.value.travelCompanion == f.travelCompanion
      && r.value.minRating == f.minRating && r.value.maxRating == f.maxRating
  {
    var locations := ParseLocations(f.locations);
    if locations == [] then Failure(NoLocationMessage)
    else if f.totalDays < 1 then Failure(TooFewDaysMessage)
    else
      Success(Payload(locations, f.package, f.totalDays, f.minRating, f.maxRating,
                      f.minRating + "-" + f.maxRating, f.travelCompanion))
  }

  /** The request the server reads from a body; the two rating fields are extra and ignored. */
  function ToRequest(p: Payload): (req: TR.TripRequest)
    ensures req.locations == p.locations && req.totalDays == p.totalDays && req.ratingRange == p.ratingRange
    ensures req.package == p.package && req.travelCompanion == p.travelCompanion
  {
    TR.TripRequest(p.locations, p.package, p.totalDays, p.ratingRange, p.travelCompanion)
  }

  /**
    A body the form sends passes the server's schema whenever both ratings
    are numerals; the pattern does not ask for the minimum to be below the
    maximum.
  */
  lemma PayloadValidates(f: FormData)
    requires BuildPayload(f).Success?
    requires IsDecimalNumeral(f.minRating) && IsDecimalNumeral(f.maxRating)
    ensures TR.Validate(ToRequest(BuildPayload(f).value)) == Success(ToRequest(BuildPayload(f).value))
  {
    TR.RangeOfNumeralsMatches(f.minRating, f.maxRating);
  }

  /** Every range the two selects can form matches the server's pattern. */
  lemma OptionRangesMatch(i: nat, j: nat)
    requires i < |RatingOptions| && j < |RatingOptions|
    ensures TR.MatchesRangePattern(RatingOptions[i] + "-" + RatingOptions[j])
  {
    RatingOptionValue(i);
    RatingOptionValue(j);
    TR.RangeOfNumeralsMatches(RatingOptions[i], RatingOptions[j]);
  }

  // ---------------------------------------------------------------------------
  // the component

  /** The form component's state: its record, the loading flag and what it has shown and sent. */
  class BudgetFormState {
    var form: FormData
    var isLoading: bool
    /** The toasts shown so far, oldest first. */
    var toasts: seq<Toast>
    /** The bodies handed to `onSubmit` so far, oldest first. */
    var submitted: seq<Payload>

    constructor ()
      ensures form == InitialForm && !isLoading && toasts == [] && submitted == []
    {
      form, isLoading, toasts, submitted := InitialForm, false, [], [];
    }

    /** `handleChange`: an accepted edit updates the record, a refused one only shows its toast. */
    method HandleChange(c: Change)
      modifies this`form, this`toasts
      ensures ApplyChange(old(form), c).Accepted? ==>
        form == ApplyChange(old(form), c).form && toasts == old(toasts)
      ensures ApplyChange(old(form), c).Rejected? ==>
        form == old(form) && toasts == old(toasts) + [Toast(ErrorToast, ApplyChange(old(form), c).message)]
      ensures old(RatingsOrdered(form)) && RatingChangeIsNumeral(c) ==> RatingsOrdered(form)
    {
      var outcome := ApplyChange(form, c);
      if RatingsOrdered(form) && RatingChangeIsNumeral(c) {
        ChangeKeepsRatingsOrdered(form, c);
      }
      match outcome
      case Accepted(g) =>
        form := g;
      case Rejected(message) =>
        toasts := toasts + [Toast(ErrorToast, message)];
    }

    /**
      `handleSubmit`, with `onSubmitThrows` saying how the awaited call ends.
      A refused submit shows its message and sends nothing; an accepted one
      sends the body once and always ends with loading switched off.
    */
    method HandleSubmit(onSubmitThrows: bool)
      modifies this`isLoading, this`toasts, this`submitted
      ensures BuildPayload(form).Failure? ==>
        && toasts == old(toasts) + [Toast(ErrorToast, BuildPayload(form).error)]
        && submitted == old(submitted) && isLoading == old(isLoading)
      ensures BuildPayload(form).Success? ==>
        && submitted == old(submitted) + [BuildPayload(form).value]
        && toasts == old(toasts) + (if onSubmitThrows then [Toast(ErrorToast, SubmitFailedMessage)] else [])
        && !isLoading
    {
      match BuildPayload(form)
      case Failure(message) =>
        toasts := toasts + [Toast(ErrorToast, message)];
      case Success(body) =>
        isLoading := true;
        submitted := submitted + [body];
        if onSubmitThrows {
          toasts := toasts + [Toast(ErrorToast, SubmitFailedMessage)];
        }
        isLoading := false;
    }

    /** `handleReset`: back to the defaults, with an info toast. */
    method HandleReset()
      modifies this`form, this`toasts
      ensures form == InitialForm && RatingsOrdered(form)
      ensures toasts == old(toasts) + [Toast(InfoToast, ResetMessage)]
    {
      PresetsOrdered();
      form := InitialForm;
      toasts := toasts + [Toast(InfoToast, ResetMessage)];
    }

    /** `handleSample`: the sample record, with a success toast. */
    method HandleSample()
      modifies this`form, this`toasts
      ensures form == SampleForm && RatingsOrdered(form)
      ensures ParseLocations(form.locations) == ["LOC_11", "LOC_42", "LOC_67"]
      ensures toasts == old(toasts) + [Toast(SuccessToast, SampleMessage)]
    {
      PresetsOrdered();
      SampleLocations();
      form := SampleForm;
      toasts := toasts + [Toast(SuccessToast, SampleMessage)];
    }
  }
}
