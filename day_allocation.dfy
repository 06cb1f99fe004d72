// How a plan's travel days are shared among the requested locations: every
// location gets `max(1, total_days // len(locations))` days, and what is
// left over is handed out one day at a time in a random order of the
// locations while any is left.

module DayAllocation {
  import opened Text

  /** The set of listed locations: the keys of a dictionary built from the list. */
  function KeySet(xs: seq<string>): set<string> {
    set x | x in xs
  }

  /**
    `max(1, total_days // len(locations))`. Python's `//` rounds down, as
    Dafny's `/` does for a positive divisor.
  */
  function BaseDays(totalDays: int, count: nat): (b: int)
    requires count >= 1
    ensures b >= 1
    ensures b == 1 || b * count <= totalDays < (b + 1) * count
  {
    if totalDays / count >= 1 then totalDays / count else 1
  }

  /** `{loc: base for loc in locations}`. */
  function Initial(locations: seq<string>, base: int): (m: map<string, int>)
    ensures m.Keys == KeySet(locations)
    ensures forall l | l in m :: m[l] == base
  {
    map l | l in locations :: base
  }

  /**
    The loop over the shuffled locations: while `extra` is positive the next
    location gets one more day and `extra` goes down by one.
  */
  function AddExtra(days: map<string, int>, order: seq<string>, extra: int): (r: map<string, int>)
    requires forall i | 0 <= i < |order| :: order[i] in days
    ensures r.Keys == days.Keys
  {
    if order == [] then days
    else if extra > 0 then AddExtra(days[order[0] := days[order[0]] + 1], order[1..], extra - 1)
    else AddExtra(days, order[1..], extra)
  }

  /** `order` lists the same locations as `locations`, as `random.sample(locations, len(locations))` does. */
  predicate IsShuffle(order: seq<string>, locations: seq<string>) {
    multiset(order) == multiset(locations)
  }

  lemma ShuffleMembers(order: seq<string>, locations: seq<string>)
    requires IsShuffle(order, locations)
    ensures |order| == |locations|
    ensures forall x :: x in order <==> x in locations
  {
    assert |multiset(order)| == |multiset(locations)|;
    forall x ensures x in order <==> x in locations {
      assert x in order <==> x in multiset(order);
      assert x in locations <==> x in multiset(locations);
    }
  }

  /**
    The allotments of one plan: `days_per_loc` after the extra days are
    handed out. `extra` starts as `total_days - sum(days_per_loc.values())`,
    and every initial value is `base`.
  */
  function Allocation(locations: seq<string>, totalDays: int, order: seq<string>): (m: map<string, int>)
    requires |locations| >= 1
    requires IsShuffle(order, locations)
    ensures m.Keys == KeySet(locations)
  {
    ShuffleMembers(order, locations);
    var base := BaseDays(totalDays, |locations|);
    AddExtra(Initial(locations, base), order, totalDays - base * |KeySet(locations)|)
  }

  /** The dictionary comprehension and the loop that hands out the extra days. */
  method AllocateDays(locations: seq<string>, totalDays: int, order: seq<string>) returns (days: map<string, int>)
    requires |locations| >= 1
    requires IsShuffle(order, locations)
    ensures days == Allocation(locations, totalDays, order)
  {
    ShuffleMembers(order, locations);
    var base := BaseDays(totalDays, |locations|);
    days := Initial(locations, base);
    // every value is `base`, so this is `total_days - sum(days_per_loc.values())`
    var extra := totalDays - base * |KeySet(locations)|;
    ghost var target := Allocation(locations, totalDays, order);
    assert order[0..] == order;
    assert forall j | 0 <= j < |order| :: order[j] in days by {
      forall j | 0 <= j < |order| ensures order[j] in days {
        assert order[j] in order;
      }
    }
    var i := 0;
    while i < |order|
      invariant 0 <= i <= |order|
      invariant forall j | 0 <= j < |order| :: order[j] in days
      invariant AddExtra(days, order[i..], extra) == target
    {
      AddExtraStep(days, order, i, extra);
      if extra > 0 {
        days := days[order[i] := days[order[i]] + 1];
        extra := extra - 1;
      }
      i := i + 1;
    }
  }

  /** One turn of the hand-out loop, at position `i` of the order. */
  lemma AddExtraStep(days: map<string, int>, order: seq<string>, i: nat, extra: int)
    requires forall j | 0 <= j < |order| :: order[j] in days
    requires i < |order|
    ensures AddExtra(days, order[i..], extra) ==
      if extra > 0 then AddExtra(days[order[i] := days[order[i]] + 1], order[i + 1..], extra - 1)
      else AddExtra(days, order[i + 1..], extra)
  {
    assert order[i..][0] == order[i] && order[i..][1..] == order[i + 1..];
  }

  // ---------------------------------------------------------------------------
  // what the allocation hands out

  /** `n` cut into `0..len`. */
  function Clamp(e: int, len: nat): (c: nat)
    ensures c <= len
  {
    if e <= 0 then 0 else if e >= len then len else e
  }

  /**
    With no location repeated, a location gets one extra day exactly when it
    is among the first `extra` of the shuffled order.
  */
  lemma {:induction false} AddExtraEffect(days: map<string, int>, order: seq<string>, extra: int, k: string)
    requires forall i | 0 <= i < |order| :: order[i] in days
    requires Distinct(order) && k in days
    ensures AddExtra(days, order, extra)[k] == days[k] + (if k in order[..Clamp(extra, |order|)] then 1 else 0)
  {
    if order != [] {
      var o, rest := order[0], order[1..];
      assert Distinct(rest) by {
        forall i, j | 0 <= i < j < |rest| ensures rest[i] != rest[j] {
          assert rest[i] == order[i + 1] && rest[j] == order[j + 1];
        }
      }
      assert o !in rest by {
        forall j | 0 <= j < |rest| ensures rest[j] != o {
          assert rest[j] == order[j + 1];
        }
      }
      if extra > 0 {
        var d := days[o := days[o] + 1];
        AddExtraEffect(d, rest, extra - 1, k);
        var c := Clamp(extra - 1, |rest|);
        assert order[..Clamp(extra, |order|)] == [o] + rest[..c];
        if k == o {
          assert k !in rest[..c] by {
            forall j | 0 <= j < c ensures rest[..c][j] != o {
              assert rest[..c][j] == rest[j];
            }
          }
        }
      } else {
        AddExtraEffect(days, rest, extra, k);
      }
    }
  }

  /** Nothing is handed out once `extra` is not positive. */
  lemma {:induction false} AddExtraNothingLeft(days: map<string, int>, order: seq<string>, extra: int)
    requires forall i | 0 <= i < |order| :: order[i] in days
    requires extra <= 0
    ensures AddExtra(days, order, extra) == days
  {
    if order != [] {
      AddExtraNothingLeft(days, order[1..], extra);
    }
  }

  /**
    With distinct locations every allotment is the base share or one day
    more.
  */
  lemma AllocationValues(locations: seq<string>, totalDays: int, order: seq<string>, k: string)
    requires |locations| >= 1 && IsShuffle(order, locations) && Distinct(locations)
    requires k in locations
    ensures Allocation(locations, totalDays, order)[k] in
      {BaseDays(totalDays, |locations|), BaseDays(totalDays, |locations|) + 1}
  {
    ShuffleMembers(order, locations);
    DistinctShuffle(locations, order);
    var base := BaseDays(totalDays, |locations|);
    AddExtraEffect(Initial(locations, base), order, totalDays - base * |KeySet(locations)|, k);
  }

  /** With fewer days than locations, every location gets exactly one day. */
  lemma AllocationFewerDays(locations: seq<string>, totalDays: int, order: seq<string>, k: string)
    requires |locations| >= 1 && IsShuffle(order, locations) && Distinct(locations)
    requires totalDays < |locations| && k in locations
    ensures Allocation(locations, totalDays, order)[k] == 1
  {
    ShuffleMembers(order, locations);
    DistinctKeys(locations);
    var base := BaseDays(totalDays, |locations|);
    assert base == 1;
    AddExtraNothingLeft(Initial(locations, base), order, totalDays - base * |KeySet(locations)|);
  }

  /**
    With distinct locations and at least as many days as locations, the
    allotments add up to exactly `total_days`.
  */
  lemma AllocationSum(locations: seq<string>, totalDays: int, order: seq<string>)
    requires |locations| >= 1 && IsShuffle(order, locations) && Distinct(locations)
    requires totalDays >= |locations|
    ensures SumValues(Allocation(locations, totalDays, order)) == totalDays
  {
    var n := |locations|;
    ShuffleMembers(order, locations);
    DistinctShuffle(locations, order);
    DistinctKeys(locations);
    var base := BaseDays(totalDays, n);
    var extra := totalDays - base * n;
    ExtraDaysRange(totalDays, n);
    var m := Allocation(locations, totalDays, order);
    forall i | 0 <= i < |order| ensures m[order[i]] == base + (if i < extra then 1 else 0) {
      AllocationAt(locations, totalDays, order, i);
    }
    SumOverSteps(order, m, base, extra);
    assert KeySet(order) == KeySet(locations);
    SumOverDistinct(order, m);
  }

  /**
    Without distinct locations an allotment can exceed `base + 1`: a
    location listed twice gets an extra day on each of its turns. For
    `["A", "A", "B"]` and 7 days the base is 2 and 3 days are left over,
    so "A" ends with 4 days.
  */
  lemma RepeatedLocationGetsTwoExtra()
    ensures var locations := ["A", "A", "B"];
      BaseDays(7, |locations|) == 2 && Allocation(locations, 7, locations)["A"] == 4
  {
    var locations := ["A", "A", "B"];
    assert KeySet(locations) == {"A", "B"};
    assert |KeySet(locations)| == 2;
    assert BaseDays(7, 3) == 2;
    var m := Initial(locations, 2);
    assert m == map["A" := 2, "B" := 2];
    var m1 := m["A" := 3];
    var m2 := m1["A" := 4];
    assert AddExtra(m2, locations[2..], 1) == m2["B" := 3];
    assert AddExtra(m1, locations[1..], 2) == AddExtra(m2, locations[2..], 1);
    assert AddExtra(m, locations, 3) == AddExtra(m1, locations[1..], 2);
  }

  /** The location at position `i` of the shuffled order gets an extra day exactly when `i` is below `extra`. */
  lemma AllocationAt(locations: seq<string>, totalDays: int, order: seq<string>, i: nat)
    requires |locations| >= 1 && IsShuffle(order, locations) && Distinct(locations)
    requires totalDays >= |locations| && i < |order|
    ensures order[i] in Allocation(locations, totalDays, order)
    ensures var base := BaseDays(totalDays, |locations|);
      Allocation(locations, totalDays, order)[order[i]] ==
        base + (if i < totalDays - base * |locations| then 1 else 0)
  {
    ShuffleMembers(order, locations);
    DistinctShuffle(locations, order);
    DistinctKeys(locations);
    var base := BaseDays(totalDays, |locations|);
    var extra := totalDays - base * |locations|;
    ExtraDaysRange(totalDays, |locations|);
    assert order[i] in order;
    AddExtraEffect(Initial(locations, base), order, extra, order[i]);
    DistinctIndex(order, extra, i);
  }

  /** With at least as many days as locations, fewer days than locations are left over. */
  lemma ExtraDaysRange(totalDays: int, n: nat)
    requires n >= 1 && totalDays >= n
    ensures 0 <= totalDays - BaseDays(totalDays, n) * n < n
  {
  }

  // ---------------------------------------------------------------------------
  // sums

  /** `sum(m.values())`. */
  ghost function SumValues(m: map<string, int>): int {
    SumSet(m.Keys, m)
  }

  ghost function SumSet(keys: set<string>, m: map<string, int>): int
    requires keys <= m.Keys
  {
    if keys == {} then 0
    else
      var k :| k in keys;
      m[k] + SumSet(keys - {k}, m)
  }

  /** A set sum can take out any of its members first. */
  lemma SumSetRemove(keys: set<string>, m: map<string, int>, x: string)
    requires keys <= m.Keys && x in keys
    ensures SumSet(keys, m) == m[x] + SumSet(keys - {x}, m)
    decreases keys
  {
    var k :| k in keys && SumSet(keys, m) == m[k] + SumSet(keys - {k}, m);
    if k != x {
      SumSetRemove(keys - {k}, m, x);
      SumSetRemove(keys - {x}, m, k);
      assert keys - {k} - {x} == keys - {x} - {k};
    }
  }

  /** The sum of `m` over the locations of a list, in list order. */
  function SumOver(xs: seq<string>, m: map<string, int>): int
    requires forall i | 0 <= i < |xs| :: xs[i] in m
  {
    if xs == [] then 0 else m[xs[0]] + SumOver(xs[1..], m)
  }

  /** The list sum, taking the last location off. */
  lemma {:induction false} SumOverLast(xs: seq<string>, m: map<string, int>)
    requires forall i | 0 <= i < |xs| :: xs[i] in m
    requires xs != []
    ensures SumOver(xs, m) == SumOver(xs[..|xs| - 1], m) + m[xs[|xs| - 1]]
  {
    if |xs| > 1 {
      SumOverLast(xs[1..], m);
      assert xs[1..][..|xs| - 2] == xs[..|xs| - 1][1..];
    }
  }

  /** Over a list without repeats, the list sum is the set sum. */
  lemma {:induction false} SumOverDistinct(xs: seq<string>, m: map<string, int>)
    requires forall i | 0 <= i < |xs| :: xs[i] in m
    requires Distinct(xs)
    ensures KeySet(xs) <= m.Keys
    ensures SumOver(xs, m) == SumSet(KeySet(xs), m)
  {
    if xs != [] {
      var rest := xs[1..];
      assert Distinct(rest) by {
        forall i, j | 0 <= i < j < |rest| ensures rest[i] != rest[j] {
          assert rest[i] == xs[i + 1] && rest[j] == xs[j + 1];
        }
      }
      SumOverDistinct(rest, m);
      assert KeySet(xs) - {xs[0]} == KeySet(rest) by {
        forall x ensures x in KeySet(rest) <==> x in KeySet(xs) && x != xs[0] {
          if x in rest {
            var j :| 0 <= j < |rest| && rest[j] == x;
            assert xs[j + 1] == x;
          }
          if x in xs && x != xs[0] {
            var j :| 0 <= j < |xs| && xs[j] == x;
            assert rest[j - 1] == x;
          }
        }
      }
      SumSetRemove(KeySet(xs), m, xs[0]);
    }
  }

  /** A list whose `i`-th value is `base`, plus one for the first `extra`, sums to `len * base + extra`. */
  lemma {:induction false} SumOverSteps(xs: seq<string>, m: map<string, int>, base: int, extra: nat)
    requires forall i | 0 <= i < |xs| :: xs[i] in m && m[xs[i]] == base + (if i < extra then 1 else 0)
    requires extra <= |xs|
    ensures SumOver(xs, m) == |xs| * base + extra
  {
    if xs != [] {
      var rest := xs[1..];
      var e := if extra > 0 then extra - 1 else 0;
      forall i | 0 <= i < |rest| ensures rest[i] in m && m[rest[i]] == base + (if i < e then 1 else 0) {
        assert rest[i] == xs[i + 1];
      }
      SumOverSteps(rest, m, base, e);
    }
  }

  /** In a list without repeats, `xs[i]` is among the first `n` exactly when `i < n`. */
  lemma DistinctIndex(xs: seq<string>, n: nat, i: nat)
    requires Distinct(xs) && n <= |xs| && i < |xs|
    ensures xs[i] in xs[..n] <==> i < n
  {
    if i < n {
      assert xs[..n][i] == xs[i];
    } else {
      forall j | 0 <= j < n ensures xs[..n][j] != xs[i] {
        assert xs[..n][j] == xs[j];
      }
    }
  }

  // ---------------------------------------------------------------------------
  // counting

  /** A list without repeats has as many keys as entries. */
  lemma {:induction false} DistinctKeys(xs: seq<string>)
    requires Distinct(xs)
    ensures |KeySet(xs)| == |xs|
  {
    if xs != [] {
      var rest := xs[1..];
      assert Distinct(rest) by {
        forall i, j | 0 <= i < j < |rest| ensures rest[i] != rest[j] {
          assert rest[i] == xs[i + 1] && rest[j] == xs[j + 1];
        }
      }
      DistinctKeys(rest);
      assert KeySet(xs) == {xs[0]} + KeySet(rest) by {
        forall x | x in xs ensures x == xs[0] || x in rest {
          var j :| 0 <= j < |xs| && xs[j] == x;
          if j > 0 { assert rest[j - 1] == x; }
        }
      }
      assert xs[0] !in KeySet(rest) by {
        forall j | 0 <= j < |rest| ensures rest[j] != xs[0] {
          assert rest[j] == xs[j + 1];
        }
      }
    }
  }

  /** In a list without repeats, nothing occurs twice. */
  lemma {:induction false} DistinctOnce(xs: seq<string>, v: string)
    requires Distinct(xs)
    ensures multiset(xs)[v] <= 1
  {
    if xs != [] {
      var rest := xs[1..];
      assert xs == [xs[0]] + rest;
      assert Distinct(rest) by {
        forall i, j | 0 <= i < j < |rest| ensures rest[i] != rest[j] {
          assert rest[i] == xs[i + 1] && rest[j] == xs[j + 1];
        }
      }
      DistinctOnce(rest, v);
      if v == xs[0] {
        assert v !in rest by {
          forall j | 0 <= j < |rest| ensures rest[j] != v {
            assert rest[j] == xs[j + 1];
          }
        }
      }
    }
  }

  /** A shuffle of a list without repeats has no repeats. */
  lemma DistinctShuffle(xs: seq<string>, ys: seq<string>)
    requires Distinct(xs) && multiset(xs) == multiset(ys)
    ensures Distinct(ys)
  {
    forall i, j | 0 <= i < j < |ys| ensures ys[i] != ys[j] {
      if ys[i] == ys[j] {
        var v := ys[i];
        assert ys == ys[..j] + ys[j..];
        assert v in ys[..j] by { assert ys[..j][i] == v; }
        assert v in ys[j..] by { assert ys[j..][0] == v; }
        assert multiset(ys)[v] == multiset(ys[..j])[v] + multiset(ys[j..])[v];
        DistinctOnce(xs, v);
        assert false;
      }
    }
  }
}
