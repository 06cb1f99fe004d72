// The per-location step of a plan: up to five randomly drawn candidate
// packages are examined in the drawn order, and a package is taken whenever
// it still fits into the location's day allotment; the step ends as soon
// as the allotment is used up.

module PackageSelection {

  /**
    One row of the filtered dataset, with the regression model's prediction
    attached (in cents, already rounded to two decimals).
  */
  datatype Row = Row(
    packageId: string,
    locationCode: int,
    packageCode: int,
    days: int,
    accommodation: string,
    foodTransport: string,
    avgRating: real,
    companionCode: int,
    activities: seq<string>,
    predictedCents: int)

  /** One record of a plan, with the location and package type decoded. */
  datatype Package = Package(
    location: string,
    packageId: string,
    packageType: string,
    days: int,
    accommodation: string,
    foodTransport: string,
    avgRating: real,
    activities: seq<string>,
    predictedCents: int)

  /** `DataFrame.sample(n=min(5, len(rows)))` examines at most this many rows. */
  const MaxSamples := 5

  /**
    A draw of `sample(n=min(5, size))`: that many distinct positions of the
    location's rows, in the drawn order.
  */
  predicate ValidSample(idx: seq<nat>, size: nat) {
    && |idx| == (if size < MaxSamples then size else MaxSamples)
    && (forall j | 0 <= j < |idx| :: idx[j] < size)
    && (forall i, j | 0 <= i < j < |idx| :: idx[i] != idx[j])
  }

  /** The drawn rows, in the drawn order. */
  function Sampled(rows: seq<Row>, idx: seq<nat>): (s: seq<Row>)
    requires forall j | 0 <= j < |idx| :: idx[j] < |rows|
    ensures |s| == |idx|
  {
    if idx == [] then [] else [rows[idx[0]]] + Sampled(rows, idx[1..])
  }

  /** Drawn row `j` is the row at the `j`-th drawn position. */
  lemma {:induction false} SampledAt(rows: seq<Row>, idx: seq<nat>, j: nat)
    requires forall j | 0 <= j < |idx| :: idx[j] < |rows|
    requires j < |idx|
    ensures Sampled(rows, idx)[j] == rows[idx[j]]
  {
    if j > 0 {
      SampledAt(rows, idx[1..], j - 1);
    }
  }

  /**
    The dataset column that holds the companion's code. It is not among the
    columns excluded from the activity columns, so a record lists it as an
    activity whenever its value is 1, which is the code of a Couple.
  */
  const CompanionColumn := "Travel_Companion"

  /**
    `[a for a in activity_columns if pkg.get(a) == 1]`: the activity columns
    in the frame's column order, the companion column first and the one-hot
    activity columns after it. The row's `activities` are the one-hot
    columns it has set.
  */
  function ActivitiesOf(r: Row): seq<string> {
    (if r.companionCode == 1 then [CompanionColumn] else []) + r.activities
  }

  /**
    A Couple's row (companion code 1) lists the companion column first; the
    row's own activity columns follow, in order, for every row.
  */
  lemma ActivitiesOfRow(r: Row)
    ensures var acts := ActivitiesOf(r);
      && |acts| == |r.activities| + (if r.companionCode == 1 then 1 else 0)
      && (r.companionCode == 1 ==> acts[0] == CompanionColumn)
      && acts[|acts| - |r.activities|..] == r.activities
      && (forall a | a in r.activities :: a in acts)
  {
  }

  /** The record a kept row becomes. */
  function ToPackage(location: string, typeName: string, r: Row): (p: Package)
    ensures p.days == r.days && p.predictedCents == r.predictedCents
  {
    Package(location, r.packageId, typeName, r.days, r.accommodation, r.foodTransport,
            r.avgRating, ActivitiesOf(r), r.predictedCents)
  }

  /** `sum(Days)` over records. */
  function SumDays(ps: seq<Package>): int {
    if ps == [] then 0 else ps[0].days + SumDays(ps[1..])
  }

  /** The predicted budgets of records, added up. */
  function SumCents(ps: seq<Package>): int {
    if ps == [] then 0 else ps[0].predictedCents + SumCents(ps[1..])
  }

  lemma {:induction false} SumsAppend(a: seq<Package>, b: seq<Package>)
    ensures SumDays(a + b) == SumDays(a) + SumDays(b)
    ensures SumCents(a + b) == SumCents(a) + SumCents(b)
  {
    if a != [] {
      assert (a + b)[0] == a[0] && (a + b)[1..] == a[1..] + b;
      SumsAppend(a[1..], b);
    } else {
      assert a + b == b;
    }
  }

  /**
    Where the loop over one location's rows stands: the records kept so far
    (`loc_selected`), the days they use (`loc_days_used`), their predicted
    budgets added up, and whether the loop has stopped.
  */
  datatype Scanned = Scanned(records: seq<Package>, used: int, budget: int, stopped: bool)

  /**
    The loop after the rows `cands`, in order: a row that would push the days
    used past `cap` is skipped; a kept row becomes a record; once the days
    used reach `cap` the loop stops. The days and the budget are those of the
    kept records.
  */
  function Scan(location: string, typeName: string, cands: seq<Row>, cap: int): (s: Scanned)
    ensures s.used == SumDays(s.records) && s.budget == SumCents(s.records)
    ensures |s.records| <= |cands|
  {
    if cands == [] then Scanned([], 0, 0, false)
    else
      var before := Scan(location, typeName, cands[..|cands| - 1], cap);
      var r := cands[|cands| - 1];
      if before.stopped || before.used + r.days > cap then before
      else
        var p := ToPackage(location, typeName, r);
        SumsAppend(before.records, [p]);
        assert [p][1..] == [];
        var used := before.used + r.days;
        Scanned(before.records + [p], used, before.budget + r.predictedCents, used >= cap)
  }

  /** One more row: the step `Scan` takes after the rows before position `j`. */
  lemma ScanNext(location: string, typeName: string, cands: seq<Row>, cap: int, j: nat)
    requires j < |cands|
    ensures var before := Scan(location, typeName, cands[..j], cap);
      var r := cands[j];
      Scan(location, typeName, cands[..j + 1], cap)
        == if before.stopped || before.used + r.days > cap then before
           else Scanned(before.records + [ToPackage(location, typeName, r)], before.used + r.days,
                        before.budget + r.predictedCents, before.used + r.days >= cap)
  {
    assert cands[..j + 1][..j] == cands[..j];
  }

  /** The loop over one location's drawn rows, as `iterrows` runs it, with its `continue` and `break`. */
  method SelectForLocation(location: string, typeName: string, rows: seq<Row>, idx: seq<nat>, cap: int)
    returns (selected: seq<Package>, used: int, budget: int)
    requires ValidSample(idx, |rows|)
    ensures var s := Scan(location, typeName, Sampled(rows, idx), cap);
      selected == s.records && used == s.used && budget == s.budget
  {
    var samples := Sampled(rows, idx);
    selected, used, budget := [], 0, 0;
    var j := 0;
    while j < |samples|
      invariant 0 <= j <= |samples|
      invariant Scan(location, typeName, samples[..j], cap) == Scanned(selected, used, budget, false)
    {
      var pkg := samples[j];
      ScanNext(location, typeName, samples, cap, j);
      if used + pkg.days > cap {
        j := j + 1;
        continue;
      }
      selected := selected + [ToPackage(location, typeName, pkg)];
      used := used + pkg.days;
      budget := budget + pkg.predictedCents;
      if used >= cap {
        ScanStopped(location, typeName, samples, cap, j + 1);
        break;
      }
      j := j + 1;
    }
    assert j == |samples| ==> samples[..j] == samples;
  }

  /** Once the loop has stopped, the remaining rows change nothing. */
  lemma {:induction false} ScanStopped(location: string, typeName: string, cands: seq<Row>, cap: int, k: nat)
    requires k <= |cands|
    requires Scan(location, typeName, cands[..k], cap).stopped
    ensures Scan(location, typeName, cands, cap) == Scan(location, typeName, cands[..k], cap)
    decreases |cands|
  {
    if k < |cands| {
      var init := cands[..|cands| - 1];
      assert init[..k] == cands[..k];
      ScanStopped(location, typeName, init, cap, k);
    } else {
      assert cands[..k] == cands;
    }
  }

  // ---------------------------------------------------------------------------
  // what the selection promises

  /** The kept records never use more days than the allotment, once anything is kept. */
  lemma {:induction false} ScanWithinCap(location: string, typeName: string, cands: seq<Row>, cap: int)
    ensures var s := Scan(location, typeName, cands, cap);
      s.records != [] ==> s.used <= cap
  {
    if cands != [] {
      ScanWithinCap(location, typeName, cands[..|cands| - 1], cap);
    }
  }

  /** The loop stops exactly when the days used have reached the allotment. */
  lemma {:induction false} ScanStopsAtCap(location: string, typeName: string, cands: seq<Row>, cap: int)
    ensures var s := Scan(location, typeName, cands, cap);
      s.stopped <==> s.records != [] && s.used >= cap
  {
    if cands != [] {
      ScanStopsAtCap(location, typeName, cands[..|cands| - 1], cap);
    }
  }

  /**
    Before every kept record but the first, the days used were still below
    the allotment: nothing is kept after the allotment is reached.
  */
  lemma {:induction false} ScanKeepsOnlyBelowCap(location: string, typeName: string, cands: seq<Row>, cap: int, k: nat)
    requires 1 <= k < |Scan(location, typeName, cands, cap).records|
    ensures SumDays(Scan(location, typeName, cands, cap).records[..k]) < cap
  {
    var init := cands[..|cands| - 1];
    var before := Scan(location, typeName, init, cap);
    var s := Scan(location, typeName, cands, cap);
    if s != before {
      assert s.records == before.records + [ToPackage(location, typeName, cands[|cands| - 1])];
      assert s.records[..k] == before.records[..k] || k == |before.records|;
      if k < |before.records| {
        ScanKeepsOnlyBelowCap(location, typeName, init, cap, k);
      } else {
        assert s.records[..k] == before.records;
        ScanStopsAtCap(location, typeName, init, cap);
      }
    } else {
      ScanKeepsOnlyBelowCap(location, typeName, init, cap, k);
    }
  }

  /**
    The records come from the rows in the rows' order: record `k` is the
    record of row `pos[k]`, and the positions increase.
  */
  lemma {:induction false} ScanInOrder(location: string, typeName: string, cands: seq<Row>, cap: int)
    returns (pos: seq<nat>)
    ensures var s := Scan(location, typeName, cands, cap);
      && |pos| == |s.records|
      && (forall k | 0 <= k < |pos| :: pos[k] < |cands| && s.records[k] == ToPackage(location, typeName, cands[pos[k]]))
      && (forall k, l | 0 <= k < l < |pos| :: pos[k] < pos[l])
  {
    if cands == [] {
      pos := [];
    } else {
      var init := cands[..|cands| - 1];
      pos := ScanInOrder(location, typeName, init, cap);
      if Scan(location, typeName, cands, cap) != Scan(location, typeName, init, cap) {
        pos := pos + [|cands| - 1];
      }
    }
  }

  /** Every kept record carries the location and the type name it was made under. */
  lemma {:induction false} ScanLabels(location: string, typeName: string, cands: seq<Row>, cap: int)
    ensures forall q | q in Scan(location, typeName, cands, cap).records :: q.location == location && q.packageType == typeName
  {
    if cands != [] {
      ScanLabels(location, typeName, cands[..|cands| - 1], cap);
    }
  }

  /** Every kept record is the record of one of the rows. */
  lemma ScanRecordFromRow(location: string, typeName: string, cands: seq<Row>, cap: int, q: Package)
    requires q in Scan(location, typeName, cands, cap).records
    ensures exists r | r in cands :: q == ToPackage(location, typeName, r)
  {
    var pos := ScanInOrder(location, typeName, cands, cap);
    var records := Scan(location, typeName, cands, cap).records;
    var k :| 0 <= k < |records| && records[k] == q;
    assert cands[pos[k]] in cands;
  }

  /** The drawn rows are rows of the location. */
  lemma SampledFromRows(rows: seq<Row>, idx: seq<nat>, r: Row)
    requires forall j | 0 <= j < |idx| :: idx[j] < |rows|
    requires r in Sampled(rows, idx)
    ensures r in rows
  {
    var j :| 0 <= j < |Sampled(rows, idx)| && Sampled(rows, idx)[j] == r;
    SampledAt(rows, idx, j);
  }

  /** When all rows together fit below the allotment, every one of them is kept. */
  lemma {:induction false} ScanTakesAllWhenRoom(location: string, typeName: string, cands: seq<Row>, cap: int)
    requires forall k | 0 <= k < |cands| :: cands[k].days >= 0
    requires RowDays(cands) < cap
    ensures |Scan(location, typeName, cands, cap).records| == |cands|
    ensures Scan(location, typeName, cands, cap).used == RowDays(cands)
  {
    if cands != [] {
      var init := cands[..|cands| - 1];
      RowDaysLast(cands);
      RowDaysNonNegative([cands[|cands| - 1]]);
      ScanTakesAllWhenRoom(location, typeName, init, cap);
    }
  }

  /** The days of a list of rows. */
  function RowDays(rs: seq<Row>): int {
    if rs == [] then 0 else rs[0].days + RowDays(rs[1..])
  }

  lemma {:induction false} RowDaysLast(rs: seq<Row>)
    requires rs != []
    ensures RowDays(rs) == RowDays(rs[..|rs| - 1]) + rs[|rs| - 1].days
  {
    if |rs| > 1 {
      RowDaysLast(rs[1..]);
      assert rs[1..][..|rs| - 2] == rs[..|rs| - 1][1..];
    }
  }

  lemma {:induction false} RowDaysNonNegative(rs: seq<Row>)
    requires forall k | 0 <= k < |rs| :: rs[k].days >= 0
    ensures RowDays(rs) >= 0
  {
    if rs != [] {
      RowDaysNonNegative(rs[1..]);
    }
  }

  /** At most five rows are examined, so at most five records are kept for a location. */
  lemma AtMostFiveKept(location: string, typeName: string, rows: seq<Row>, idx: seq<nat>, cap: int)
    requires ValidSample(idx, |rows|)
    ensures |Scan(location, typeName, Sampled(rows, idx), cap).records| <= MaxSamples
  {
  }
}
