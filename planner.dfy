// `predict_budget_multiple_options`: the request is checked and encoded, the
// dataset rows matching it are collected per location, and then up to
// `max_options` plans are drawn, each sharing the travel days among the
// locations and picking packages location by location.

module Planner {
  import opened Wrappers
  import opened Text
  import opened DayAllocation
  import opened PackageSelection
  import TR = TripRequest

  /** The keys of `travel_map`, in the order of their codes. */
  const CompanionNames: seq<string> := ["Solo", "Couple", "Family", "Friends"]

  /** The classes of the package-type encoder, in the order of their codes. */
  const PackageTypes: seq<string> := ["Basic", "Moderate", "Premium"]

  /** The default of `max_options`. */
  const DefaultMaxOptions := 3

  const InvalidCompanionMessage: string :=
    "Invalid travel " + "companion. Must be " + "one of: Solo, " + "Couple, Family, " + "Friends."

  const NoMatchesMessage: string :=
    "No matching " + "packages found for " + "given criteria."

  /** What the function hands back: the plans, an error dictionary, or an exception it lets through. */
  datatype Outcome = Options(plans: seq<Plan>) | Error(message: string) | Raised

  /** One plan: its records, the days they use, the budget they add up to, and the companion asked for. */
  datatype Plan = Plan(packages: seq<Package>, totalDays: int, totalBudgetCents: int, travelCompanion: string)

  // ---------------------------------------------------------------------------
  // encoding the request

  /** `travel_map.get(travel_companion, -1)`. */
  function CompanionCode(companion: string): (code: int)
    ensures code == -1 <==> companion !in CompanionNames
    ensures code != -1 ==> 0 <= code < |CompanionNames| && CompanionNames[code] == companion
  {
    if companion == "Solo" then 0
    else if companion == "Couple" then 1
    else if companion == "Family" then 2
    else if companion == "Friends" then 3
    else -1
  }

  /**
    `LabelEncoder.transform([name])[0]`: the position of `name` among the
    classes the encoder was fitted on; `None` where `transform` raises.
  */
  function Encode(classes: seq<string>, name: string): (code: Option<nat>)
    ensures code.Some? <==> name in classes
    ensures code.Some? ==> code.value < |classes| && classes[code.value] == name
  {
    if classes == [] then None
    else if classes[0] == name then Some(0)
    else
      assert classes == [classes[0]] + classes[1..];
      match Encode(classes[1..], name)
      case None => None
      case Some(c) => Some(c + 1)
  }

  /** `map(float, rating_range.split('-'))` unpacked into a minimum and a maximum; `None` where it raises. */
  function RatingBounds(range: string): (b: Option<(real, real)>)
    ensures b.Some? <==>
      |Split(range, '-')| == 2 && IsDecimalNumeral(Split(range, '-')[0]) && IsDecimalNumeral(Split(range, '-')[1])
  {
    var parts := Split(range, '-');
    if |parts| != 2 then None
    else
      match (ParseDecimal(parts[0]), ParseDecimal(parts[1]))
      case (Some(lo), Some(hi)) => Some((lo, hi))
      case _ => None
  }

  /**
    A range the request schema accepts always splits into two bounds, the
    values of the numerals on either side of its dash.
  */
  lemma ValidatedRangeHasBounds(range: string, k: nat)
    requires TR.RangeDashAt(range, k)
    ensures RatingBounds(range) == Some((DecimalValue(range[..k]), DecimalValue(range[k + 1..])))
  {
    var lo, hi := range[..k], range[k + 1..];
    assert range == lo + ['-'] + hi;
    NumeralLacks(lo, '-');
    NumeralLacks(hi, '-');
    SplitAfterPiece(lo, '-', hi);
    SplitNoSeparator(hi, '-');
    assert Split(range, '-') == [lo, hi];
  }

  // ---------------------------------------------------------------------------
  // matching rows

  /** The filter on the dataset: companion, location, package type, days and rating. */
  datatype Criteria = Criteria(companion: int, location: nat, packageCode: nat, totalDays: int, lo: real, hi: real)

  /** The row passes every comparison of the filter; `between` includes both bounds. */
  predicate Matches(r: Row, c: Criteria): (m: bool)
    ensures m ==> c.lo <= c.hi
  {
    && r.companionCode == c.companion
    && r.locationCode == c.location
    && r.packageCode == c.packageCode
    && r.days <= c.totalDays
    && c.lo <= r.avgRating <= c.hi
  }

  /** The rows of a data frame that pass the filter, in their order. */
  function MatchingRows(rows: seq<Row>, c: Criteria): (m: seq<Row>)
    ensures |m| <= |rows|
  {
    if rows == [] then []
    else (if Matches(rows[0], c) then [rows[0]] else []) + MatchingRows(rows[1..], c)
  }

  /** The filter keeps exactly the rows that match. */
  lemma {:induction false} MatchingRowsExact(rows: seq<Row>, c: Criteria)
    ensures forall r :: r in MatchingRows(rows, c) <==> r in rows && Matches(r, c)
  {
    if rows != [] {
      MatchingRowsExact(rows[1..], c);
      assert rows == [rows[0]] + rows[1..];
    }
  }

  /** The rows for one requested location: none when the location encoder does not know it. */
  function LocationRows(dataset: seq<Row>, classes: seq<string>, loc: string, c: Criteria): (rows: seq<Row>)
    ensures Encode(classes, loc).None? ==> rows == []
    ensures |rows| <= |dataset|
  {
    match Encode(classes, loc)
    case None => []
    case Some(code) => MatchingRows(dataset, c.(location := code))
  }

  /**
    `location_packages` after the loop over the requested locations: unknown
    locations and locations without a matching row are skipped.
  */
  function LocationPackages(dataset: seq<Row>, classes: seq<string>, locations: seq<string>, c: Criteria)
    : (lp: map<string, seq<Row>>)
    ensures forall loc | loc in lp :: loc in locations
  {
    if locations == [] then map[]
    else
      var lp := LocationPackages(dataset, classes, locations[..|locations| - 1], c);
      var loc := locations[|locations| - 1];
      match Encode(classes, loc)
      case None => lp
      case Some(code) =>
        var matching := MatchingRows(dataset, c.(location := code));
        if matching == [] then lp else lp[loc := matching]
  }

  /**
    A location has an entry exactly when it was requested and has matching
    rows, and its entry is those rows.
  */
  lemma {:induction false} LocationPackagesExact(dataset: seq<Row>, classes: seq<string>, locations: seq<string>, c: Criteria)
    ensures forall loc :: loc in LocationPackages(dataset, classes, locations, c) <==>
      loc in locations && LocationRows(dataset, classes, loc, c) != []
    ensures forall loc | loc in LocationPackages(dataset, classes, locations, c) ::
      LocationPackages(dataset, classes, locations, c)[loc] == LocationRows(dataset, classes, loc, c)
  {
    if locations != [] {
      var init := locations[..|locations| - 1];
      LocationPackagesExact(dataset, classes, init, c);
      assert locations == init + [locations[|locations| - 1]];
    }
  }

  /** The loop that fills `location_packages`. */
  method CollectLocationPackages(dataset: seq<Row>, classes: seq<string>, locations: seq<string>, c: Criteria)
    returns (lp: map<string, seq<Row>>)
    ensures lp == LocationPackages(dataset, classes, locations, c)
  {
    lp := map[];
    var i := 0;
    while i < |locations|
      invariant 0 <= i <= |locations|
      invariant lp == LocationPackages(dataset, classes, locations[..i], c)
    {
      var loc := locations[i];
      assert locations[..i + 1][..i] == locations[..i];
      var locId := Encode(classes, loc);
      if locId.None? {
        i := i + 1;
        continue;
      }
      var matching := MatchingRows(dataset, c.(location := locId.value));
      if matching == [] {
        i := i + 1;
        continue;
      }
      lp := lp[loc := matching];
      i := i + 1;
    }
    assert locations[..i] == locations;
  }

  // ---------------------------------------------------------------------------
  // the request, checked

  /** What the checks hand on to the option loop. */
  datatype Setting = Setting(
    locations: seq<string>,
    packages: map<string, seq<Row>>,
    typeName: string,
    totalDays: int,
    companion: string)

  /** The filter a request asks for, once its companion, range and package are known to encode. */
  function CriteriaOf(companion: string, package: string, totalDays: int, ratingRange: string): Criteria
    requires companion in CompanionNames && RatingBounds(ratingRange).Some? && package in PackageTypes
  {
    var b := RatingBounds(ratingRange).value;
    Criteria(CompanionCode(companion), 0, Encode(PackageTypes, package).value, totalDays, b.0, b.1)
  }

  /**
    Everything before the option loop: the companion check, the split of the
    range, the package encoding and the collected rows, in the order the function checks them.
  */
  function Prepare(dataset: seq<Row>, classes: seq<string>, locations: seq<string>, package: string,
                   totalDays: int, ratingRange: string, companion: string): (p: Result<Setting, Outcome>)
    ensures p.Success? ==> |p.value.locations| >= 1
  {
    if CompanionCode(companion) == -1 then Failure(Error(InvalidCompanionMessage))
    else if RatingBounds(ratingRange).None? || Encode(PackageTypes, package).None? then Failure(Raised)
    else
      var c := CriteriaOf(companion, package, totalDays, ratingRange);
      var lp := LocationPackages(dataset, classes, locations, c);
      if lp == map[] then Failure(Error(NoMatchesMessage))
      else
        assert exists loc :: loc in lp;
        var typeName := PackageTypes[Encode(PackageTypes, package).value];
        Success(Setting(locations, lp, typeName, totalDays, companion))
  }

  // ---------------------------------------------------------------------------
  // one option

  /**
    The random choices of one pass of the option loop: the shuffled order of
    `random.sample(locations, len(locations))` and, for each requested
    location in turn, the positions `sample` draws from its rows.
  */
  datatype Draw = Draw(order: seq<string>, samples: seq<seq<nat>>)

  predicate ValidDraw(s: Setting, d: Draw) {
    && IsShuffle(d.order, s.locations)
    && |d.samples| == |s.locations|
    && forall i | 0 <= i < |s.locations| && s.locations[i] in s.packages ::
         ValidSample(d.samples[i], |s.packages[s.locations[i]]|)
  }

  /** The records picked for the first `n` requested locations, one location after the other. */
  function Selection(s: Setting, d: Draw, alloc: map<string, int>, n: nat): (ps: seq<Package>)
    requires ValidDraw(s, d) && n <= |s.locations|
    requires forall i | 0 <= i < |s.locations| :: s.locations[i] in alloc
    ensures |ps| <= MaxSamples * n
    ensures forall q | q in ps :: q.packageType == s.typeName
  {
    if n == 0 then []
    else
      var prev := Selection(s, d, alloc, n - 1);
      var loc := s.locations[n - 1];
      if loc !in s.packages then prev
      else
        var cands := Sampled(s.packages[loc], d.samples[n - 1]);
        ScanLabels(loc, s.typeName, cands, alloc[loc]);
        prev + Scan(loc, s.typeName, cands, alloc[loc]).records
  }

  /** The allotment of one option's days. */
  function OptionAllocation(s: Setting, d: Draw): (alloc: map<string, int>)
    requires |s.locations| >= 1 && ValidDraw(s, d)
    ensures forall i | 0 <= i < |s.locations| :: s.locations[i] in alloc
  {
    var m := Allocation(s.locations, s.totalDays, d.order);
    assert forall i | 0 <= i < |s.locations| :: s.locations[i] in KeySet(s.locations);
    m
  }

  /** One pass of the option loop: a plan when anything was picked. */
  function OptionPlan(s: Setting, d: Draw): (p: Option<Plan>)
    requires |s.locations| >= 1 && ValidDraw(s, d)
    ensures p.Some? ==> 1 <= |p.value.packages| <= MaxSamples * |s.locations|
    ensures p.Some? ==> p.value.travelCompanion == s.companion
  {
    var ps := Selection(s, d, OptionAllocation(s, d), |s.locations|);
    if ps == [] then None else Some(Plan(ps, SumDays(ps), SumCents(ps), s.companion))
  }

  /** The loop over the requested locations, gathering `selected_packages` and `total_budget`. */
  method SelectPackages(s: Setting, d: Draw, daysPerLoc: map<string, int>) returns (selected: seq<Package>, totalBudget: int)
    requires ValidDraw(s, d)
    requires forall i | 0 <= i < |s.locations| :: s.locations[i] in daysPerLoc
    ensures selected == Selection(s, d, daysPerLoc, |s.locations|)
    ensures totalBudget == SumCents(selected)
  {
    selected, totalBudget := [], 0;
    var i := 0;
    while i < |s.locations|
      invariant 0 <= i <= |s.locations|
      invariant selected == Selection(s, d, daysPerLoc, i)
      invariant totalBudget == SumCents(selected)
    {
      var loc := s.locations[i];
      if loc !in s.packages {
        assert Selection(s, d, daysPerLoc, i + 1) == selected;
        i := i + 1;
        continue;
      }
      var locSelected, locDaysUsed, locBudget := SelectForLocation(loc, s.typeName, s.packages[loc], d.samples[i], daysPerLoc[loc]);
      assert Selection(s, d, daysPerLoc, i + 1) == selected + locSelected;
      SumsAppend(selected, locSelected);
      selected := selected + locSelected;
      totalBudget := totalBudget + locBudget;
      i := i + 1;
    }
  }

  /** The body of the option loop. */
  method BuildOption(s: Setting, d: Draw) returns (plan: Option<Plan>)
    requires |s.locations| >= 1 && ValidDraw(s, d)
    ensures plan == OptionPlan(s, d)
  {
    var daysPerLoc := AllocateDays(s.locations, s.totalDays, d.order);
    var selected, totalBudget := SelectPackages(s, d, daysPerLoc);
    if selected == [] {
      return None;
    }
    return Some(Plan(selected, SumDays(selected), totalBudget, s.companion));
  }

  // ---------------------------------------------------------------------------
  // the whole function

  /** The plans of the passes drawn so far, in order; a pass that picked nothing adds none. */
  function Plans(s: Setting, draws: seq<Draw>): (plans: seq<Plan>)
    requires |s.locations| >= 1
    requires forall k | 0 <= k < |draws| :: ValidDraw(s, draws[k])
    ensures |plans| <= |draws|
  {
    if draws == [] then []
    else
      var prev := Plans(s, draws[..|draws| - 1]);
      match OptionPlan(s, draws[|draws| - 1])
      case None => prev
      case Some(p) => prev + [p]
  }

  /** `range(max_options)` runs this many times. */
  function Passes(maxOptions: int): nat {
    if maxOptions < 0 then 0 else maxOptions
  }

  /** One draw per pass, each possible for the rows collected. */
  predicate ValidDraws(dataset: seq<Row>, classes: seq<string>, locations: seq<string>, package: string,
                       totalDays: int, ratingRange: string, companion: string, maxOptions: int, draws: seq<Draw>) {
    var p := Prepare(dataset, classes, locations, package, totalDays, ratingRange, companion);
    p.Success? ==> |draws| == Passes(maxOptions) && forall k | 0 <= k < |draws| :: ValidDraw(p.value, draws[k])
  }

  /** The result of `predict_budget_multiple_options`, given the dataset, the fitted location classes and the random draws. */
  function Predict(dataset: seq<Row>, classes: seq<string>, locations: seq<string>, package: string,
                   totalDays: int, ratingRange: string, companion: string, maxOptions: int, draws: seq<Draw>): (o: Outcome)
    requires ValidDraws(dataset, classes, locations, package, totalDays, ratingRange, companion, maxOptions, draws)
    ensures o.Options? ==> companion in CompanionNames && package in PackageTypes && |locations| >= 1
  {
    match Prepare(dataset, classes, locations, package, totalDays, ratingRange, companion)
    case Failure(o) => o
    case Success(s) => Options(Plans(s, draws))
  }

  /** The option loop: `range(max_options)` passes, each adding its plan when it picked anything. */
  method CollectPlans(s: Setting, maxOptions: int, draws: seq<Draw>) returns (plans: seq<Plan>)
    requires |s.locations| >= 1
    requires |draws| == Passes(maxOptions) && forall k | 0 <= k < |draws| :: ValidDraw(s, draws[k])
    ensures plans == Plans(s, draws)
  {
    plans := [];
    var k := 0;
    while k < maxOptions
      invariant 0 <= k <= Passes(maxOptions)
      invariant plans == Plans(s, draws[..k])
    {
      var next := draws[..k + 1];
      assert next[..k] == draws[..k] && next[k] == draws[k];
      var plan := BuildOption(s, draws[k]);
      if plan.Some? {
        assert Plans(s, next) == plans + [plan.value];
        plans := plans + [plan.value];
      } else {
        assert Plans(s, next) == plans;
      }
      k := k + 1;
    }
    assert draws[..k] == draws;
  }

  method PredictBudgetMultipleOptions(dataset: seq<Row>, classes: seq<string>, locations: seq<string>, package: string,
                                      totalDays: int, ratingRange: string, companion: string, maxOptions: int,
                                      draws: seq<Draw>)
    returns (out: Outcome)
    requires ValidDraws(dataset, classes, locations, package, totalDays, ratingRange, companion, maxOptions, draws)
    ensures out == Predict(dataset, classes, locations, package, totalDays, ratingRange, companion, maxOptions, draws)
  {
    var travelCode := CompanionCode(companion);
    if travelCode == -1 {
      return Error(InvalidCompanionMessage);
    }
    var bounds := RatingBounds(ratingRange);
    if bounds.None? {
      return Raised;
    }
    var packageId := Encode(PackageTypes, package);
    if packageId.None? {
      return Raised;
    }
    var c := Criteria(travelCode, 0, packageId.value, totalDays, bounds.value.0, bounds.value.1);
    var lp := CollectLocationPackages(dataset, classes, locations, c);
    if lp == map[] {
      return Error(NoMatchesMessage);
    }
    ghost var s := Prepare(dataset, classes, locations, package, totalDays, ratingRange, companion).value;
    var setting := Setting(locations, lp, PackageTypes[packageId.value], totalDays, companion);
    assert setting == s;
    var plans := CollectPlans(setting, maxOptions, draws);
    return Options(plans);
  }

  // ---------------------------------------------------------------------------
  // what the function promises

  /** The rows collected are empty exactly when no requested location has a matching row. */
  lemma NoPackagesIffNoRows(dataset: seq<Row>, classes: seq<string>, locations: seq<string>, c: Criteria)
    ensures LocationPackages(dataset, classes, locations, c) == map[] <==>
      forall i | 0 <= i < |locations| :: LocationRows(dataset, classes, locations[i], c) == []
  {
    var lp := LocationPackages(dataset, classes, locations, c);
    LocationPackagesExact(dataset, classes, locations, c);
    if lp != map[] {
      var loc :| loc in lp;
      var i :| 0 <= i < |locations| && locations[i] == loc;
      assert LocationRows(dataset, classes, locations[i], c) != [];
    }
    forall i | 0 <= i < |locations| && LocationRows(dataset, classes, locations[i], c) != []
      ensures lp != map[]
    {
      assert locations[i] in lp;
    }
  }

  /**
    The error cases, in the order the function checks them: an unknown companion is reported;
    a range that does not split into two numerals, or an unknown package type,
    raises; with no matching row anywhere the second message is reported;
    otherwise plans are returned.
  */
  lemma PredictOutcome(dataset: seq<Row>, classes: seq<string>, locations: seq<string>, package: string,
                       totalDays: int, ratingRange: string, companion: string, maxOptions: int, draws: seq<Draw>)
    requires ValidDraws(dataset, classes, locations, package, totalDays, ratingRange, companion, maxOptions, draws)
    ensures var o := Predict(dataset, classes, locations, package, totalDays, ratingRange, companion, maxOptions, draws);
      && (o == Error(InvalidCompanionMessage) <==> companion !in CompanionNames)
      && (o == Raised <==>
            companion in CompanionNames && (RatingBounds(ratingRange).None? || package !in PackageTypes))
      && (o == Error(NoMatchesMessage) <==>
            && companion in CompanionNames && RatingBounds(ratingRange).Some? && package in PackageTypes
            && forall i | 0 <= i < |locations| ::
                 LocationRows(dataset, classes, locations[i], CriteriaOf(companion, package, totalDays, ratingRange)) == [])
      && (o.Options? <==>
            && companion in CompanionNames && RatingBounds(ratingRange).Some? && package in PackageTypes
            && exists i | 0 <= i < |locations| ::
                 LocationRows(dataset, classes, locations[i], CriteriaOf(companion, package, totalDays, ratingRange)) != [])
  {
    assert InvalidCompanionMessage[0] != NoMatchesMessage[0];
    if companion in CompanionNames && RatingBounds(ratingRange).Some? && package in PackageTypes {
      NoPackagesIffNoRows(dataset, classes, locations, CriteriaOf(companion, package, totalDays, ratingRange));
    }
  }

  /** Every plan returned is the plan of one of the passes, pass `k`. */
  lemma {:induction false} PlansFromPasses(s: Setting, draws: seq<Draw>, j: nat) returns (k: nat)
    requires |s.locations| >= 1
    requires forall k | 0 <= k < |draws| :: ValidDraw(s, draws[k])
    requires j < |Plans(s, draws)|
    ensures k < |draws| && OptionPlan(s, draws[k]) == Some(Plans(s, draws)[j])
  {
    var n := |draws| - 1;
    var init := draws[..n];
    var prev := Plans(s, init);
    var last := OptionPlan(s, draws[n]);
    assert Plans(s, draws) == if last.None? then prev else prev + [last.value];
    if j < |prev| {
      assert Plans(s, draws)[j] == prev[j];
      k := PlansFromPasses(s, init, j);
      assert init[k] == draws[k];
    } else {
      k := n;
    }
  }

  /** When plans come back, the request encoded and they are the plans of the setting the checks built. */
  lemma PredictPlans(dataset: seq<Row>, classes: seq<string>, locations: seq<string>, package: string,
      totalDays: int, ratingRange: string, companion: string, maxOptions: int, draws: seq<Draw>)
    requires ValidDraws(dataset, classes, locations, package, totalDays, ratingRange, companion, maxOptions, draws)
    requires Predict(dataset, classes, locations, package, totalDays, ratingRange, companion, maxOptions, draws).Options?
    ensures companion in CompanionNames && RatingBounds(ratingRange).Some? && package in PackageTypes
    ensures var s := Prepare(dataset, classes, locations, package, totalDays, ratingRange, companion).value;
      && s == Setting(locations, LocationPackages(dataset, classes, locations, CriteriaOf(companion, package, totalDays, ratingRange)),
                      package, totalDays, companion)
      && Predict(dataset, classes, locations, package, totalDays, ratingRange, companion, maxOptions, draws).plans == Plans(s, draws)
  {
  }

  /** At most `max_options` plans come back. */
  lemma PlanCount(dataset: seq<Row>, classes: seq<string>, locations: seq<string>, package: string,
      totalDays: int, ratingRange: string, companion: string, maxOptions: int, draws: seq<Draw>)
    requires ValidDraws(dataset, classes, locations, package, totalDays, ratingRange, companion, maxOptions, draws)
    requires Predict(dataset, classes, locations, package, totalDays, ratingRange, companion, maxOptions, draws).Options?
    ensures |Predict(dataset, classes, locations, package, totalDays, ratingRange, companion, maxOptions, draws).plans| <= Passes(maxOptions)
  {
    PredictPlans(dataset, classes, locations, package, totalDays, ratingRange, companion, maxOptions, draws);
  }

  /** Called with the default `max_options`, as the prediction endpoint calls it, at most three plans come back. */
  lemma AtMostThreePlans(dataset: seq<Row>, classes: seq<string>, locations: seq<string>, package: string,
      totalDays: int, ratingRange: string, companion: string, draws: seq<Draw>)
    requires ValidDraws(dataset, classes, locations, package, totalDays, ratingRange, companion, DefaultMaxOptions, draws)
    requires Predict(dataset, classes, locations, package, totalDays, ratingRange, companion, DefaultMaxOptions, draws).Options?
    ensures |Predict(dataset, classes, locations, package, totalDays, ratingRange, companion, DefaultMaxOptions, draws).plans| <= 3
  {
    PlanCount(dataset, classes, locations, package, totalDays, ratingRange, companion, DefaultMaxOptions, draws);
  }

  /**
    No plan is empty; a plan's days and budget are those of its records
    added up, and it echoes the companion asked for.
  */
  lemma PlanShape(dataset: seq<Row>, classes: seq<string>, locations: seq<string>, package: string,
      totalDays: int, ratingRange: string, companion: string, maxOptions: int, draws: seq<Draw>, j: nat)
    requires ValidDraws(dataset, classes, locations, package, totalDays, ratingRange, companion, maxOptions, draws)
    requires Predict(dataset, classes, locations, package, totalDays, ratingRange, companion, maxOptions, draws).Options?
    requires j < |Predict(dataset, classes, locations, package, totalDays, ratingRange, companion, maxOptions, draws).plans|
    ensures var plan := Predict(dataset, classes, locations, package, totalDays, ratingRange, companion, maxOptions, draws).plans[j];
      && plan.packages != []
      && plan.totalDays == SumDays(plan.packages)
      && plan.totalBudgetCents == SumCents(plan.packages)
      && plan.travelCompanion == companion
  {
    PredictPlans(dataset, classes, locations, package, totalDays, ratingRange, companion, maxOptions, draws);
    var s := Prepare(dataset, classes, locations, package, totalDays, ratingRange, companion).value;
    var k := PlansFromPasses(s, draws, j);
  }

  /** A record picked for the first `n` locations comes from the collected rows of its location. */
  lemma {:induction false} SelectionRecord(s: Setting, d: Draw, alloc: map<string, int>, n: nat, q: Package)
    requires ValidDraw(s, d) && n <= |s.locations|
    requires forall i | 0 <= i < |s.locations| :: s.locations[i] in alloc
    requires q in Selection(s, d, alloc, n)
    ensures q.location in s.packages && q.packageType == s.typeName
    ensures exists r | r in s.packages[q.location] :: q == ToPackage(q.location, s.typeName, r)
  {
    var prev := Selection(s, d, alloc, n - 1);
    var loc := s.locations[n - 1];
    if q in prev {
      SelectionRecord(s, d, alloc, n - 1, q);
    } else {
      var cands := Sampled(s.packages[loc], d.samples[n - 1]);
      ScanRecordFromRow(loc, s.typeName, cands, alloc[loc], q);
      var r :| r in cands && q == ToPackage(loc, s.typeName, r);
      SampledFromRows(s.packages[loc], d.samples[n - 1], r);
    }
  }

  /**
    `q` is the record, under the type name `typeName`, of a dataset row that
    passes the filter `c` at the location code the encoder gives `q`'s location.
  */
  predicate RecordOfRow(q: Package, dataset: seq<Row>, classes: seq<string>, c: Criteria, typeName: string) {
    exists r | r in dataset ::
      && q == ToPackage(q.location, typeName, r)
      && Encode(classes, q.location) == Some(r.locationCode)
      && Matches(r, c.(location := r.locationCode))
  }

  /**
    Every record of every plan is the record of a dataset row that passed the
    filter: the companion's code, the package type asked for, at most
    `total_days` days, a rating within the range, and the code the encoder
    gives the record's location, which is one of the requested locations; the
    record's type is the name asked for.
  */
  lemma PlanRecordsMatch(dataset: seq<Row>, classes: seq<string>, locations: seq<string>, package: string,
      totalDays: int, ratingRange: string, companion: string, maxOptions: int, draws: seq<Draw>, j: nat, q: Package)
    requires ValidDraws(dataset, classes, locations, package, totalDays, ratingRange, companion, maxOptions, draws)
    requires Predict(dataset, classes, locations, package, totalDays, ratingRange, companion, maxOptions, draws).Options?
    requires j < |Predict(dataset, classes, locations, package, totalDays, ratingRange, companion, maxOptions, draws).plans| && q in Predict(dataset, classes, locations, package, totalDays, ratingRange, companion, maxOptions, draws).plans[j].packages
    ensures companion in CompanionNames && RatingBounds(ratingRange).Some? && package in PackageTypes
    ensures q.location in locations && q.packageType == package
    ensures RecordOfRow(q, dataset, classes, CriteriaOf(companion, package, totalDays, ratingRange), package)
  {
    PredictPlans(dataset, classes, locations, package, totalDays, ratingRange, companion, maxOptions, draws);
    var s := Prepare(dataset, classes, locations, package, totalDays, ratingRange, companion).value;
    var k := PlansFromPasses(s, draws, j);
    OptionRecord(dataset, classes, CriteriaOf(companion, package, totalDays, ratingRange), s, draws[k], q);
  }

  /**
    The activities of a plan's records, as the activity columns are chosen:
    for a Couple a record lists the companion column first; for any other
    companion it lists exactly the activities of its row. With
    `PlanRecordsMatch` this holds of every record of every plan returned.
  */
  lemma CompanionColumnInActivities(q: Package, dataset: seq<Row>, classes: seq<string>, package: string,
      totalDays: int, ratingRange: string, companion: string)
    requires companion in CompanionNames && RatingBounds(ratingRange).Some? && package in PackageTypes
    requires RecordOfRow(q, dataset, classes, CriteriaOf(companion, package, totalDays, ratingRange), package)
    ensures companion == "Couple" ==> |q.activities| >= 1 && q.activities[0] == CompanionColumn
    ensures companion != "Couple" ==> exists r | r in dataset :: q.activities == r.activities
  {
    var c := CriteriaOf(companion, package, totalDays, ratingRange);
    var r :| r in dataset && q == ToPackage(q.location, package, r) && Encode(classes, q.location) == Some(r.locationCode)
      && Matches(r, c.(location := r.locationCode));
    assert r.companionCode == CompanionCode(companion);
    ActivitiesOfRow(r);
  }

  lemma OptionRecord(dataset: seq<Row>, classes: seq<string>, c: Criteria, s: Setting, d: Draw, q: Package)
    requires |s.locations| >= 1 && ValidDraw(s, d)
    requires s.packages == LocationPackages(dataset, classes, s.locations, c)
    requires OptionPlan(s, d).Some? && q in OptionPlan(s, d).value.packages
    ensures q.location in s.locations && q.packageType == s.typeName
    ensures RecordOfRow(q, dataset, classes, c, s.typeName)
  {
    SelectionRecord(s, d, OptionAllocation(s, d), |s.locations|, q);
    var r :| r in s.packages[q.location] && q == ToPackage(q.location, s.typeName, r);
    LocationPackagesExact(dataset, classes, s.locations, c);
    var code := Encode(classes, q.location).value;
    MatchingRowsExact(dataset, c.(location := code));
    assert r in dataset && Matches(r, c.(location := code));
  }

  /** The days picked for the first `n` locations stay within their allotments added up. */
  lemma {:induction false} SelectionDays(s: Setting, d: Draw, alloc: map<string, int>, n: nat)
    requires ValidDraw(s, d) && n <= |s.locations|
    requires forall i | 0 <= i < |s.locations| :: s.locations[i] in alloc && alloc[s.locations[i]] >= 0
    ensures SumDays(Selection(s, d, alloc, n)) <= SumOver(s.locations[..n], alloc)
  {
    if n > 0 {
      var prefix := s.locations[..n];
      SelectionDays(s, d, alloc, n - 1);
      SumOverLast(prefix, alloc);
      assert prefix[..n - 1] == s.locations[..n - 1];
      var loc := s.locations[n - 1];
      if loc in s.packages {
        var cands := Sampled(s.packages[loc], d.samples[n - 1]);
        ScanWithinCap(loc, s.typeName, cands, alloc[loc]);
        SumsAppend(Selection(s, d, alloc, n - 1), Scan(loc, s.typeName, cands, alloc[loc]).records);
      }
    }
  }

  /**
    With no location repeated and at least one day per location, the
    allotments add up to `total_days`, so no plan uses more days than were
    asked for.
  */
  lemma PlanFitsRequestedDays(dataset: seq<Row>, classes: seq<string>, locations: seq<string>, package: string,
      totalDays: int, ratingRange: string, companion: string, maxOptions: int, draws: seq<Draw>, j: nat)
    requires ValidDraws(dataset, classes, locations, package, totalDays, ratingRange, companion, maxOptions, draws)
    requires Predict(dataset, classes, locations, package, totalDays, ratingRange, companion, maxOptions, draws).Options?
    requires Distinct(locations) && totalDays >= |locations|
    requires j < |Predict(dataset, classes, locations, package, totalDays, ratingRange, companion, maxOptions, draws).plans|
    ensures Predict(dataset, classes, locations, package, totalDays, ratingRange, companion, maxOptions, draws).plans[j].totalDays <= totalDays
  {
    PredictPlans(dataset, classes, locations, package, totalDays, ratingRange, companion, maxOptions, draws);
    var s := Prepare(dataset, classes, locations, package, totalDays, ratingRange, companion).value;
    var k := PlansFromPasses(s, draws, j);
    OptionFits(s, draws[k]);
  }

  lemma OptionFits(s: Setting, d: Draw)
    requires |s.locations| >= 1 && ValidDraw(s, d)
    requires Distinct(s.locations) && s.totalDays >= |s.locations|
    ensures OptionPlan(s, d).Some? ==> OptionPlan(s, d).value.totalDays <= s.totalDays
  {
    var alloc := OptionAllocation(s, d);
    forall i | 0 <= i < |s.locations| ensures alloc[s.locations[i]] >= 0 {
      AllocationValues(s.locations, s.totalDays, d.order, s.locations[i]);
    }
    SelectionDays(s, d, alloc, |s.locations|);
    assert s.locations[..|s.locations|] == s.locations;
    SumOverDistinct(s.locations, alloc);
    AllocationSum(s.locations, s.totalDays, d.order);
  }
}
