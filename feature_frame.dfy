// Aligning the filtered rows with the regression model's inputs: every
// feature the model was trained on that the frame lacks is added to the
// frame as a column of zeros, and the frame's columns are then read out in
// the model's feature order.

module FeatureFrame {
  import opened Text

  /** A column of `n` zeros. */
  function Zeros(n: nat): (z: seq<real>)
    ensures |z| == n && forall i | 0 <= i < n :: z[i] == 0.0
  {
    seq(n, i => 0.0)
  }

  /** The column names after the loop has looked at `features`, in order: a name not yet present is appended. */
  function Extended(columns: seq<string>, features: seq<string>): (r: seq<string>)
    ensures |r| >= |columns|
  {
    if features == [] then columns
    else
      var before := Extended(columns, features[..|features| - 1]);
      var f := features[|features| - 1];
      if f in before then before else before + [f]
  }

  /** The columns' values after the loop has looked at `features`: an absent feature gets zeros. */
  function Filled(data: map<string, seq<real>>, features: seq<string>, height: nat): (r: map<string, seq<real>>)
    ensures forall c | c in data :: c in r && r[c] == data[c]
  {
    if features == [] then data
    else
      var before := Filled(data, features[..|features| - 1], height);
      var f := features[|features| - 1];
      if f in before then before else before[f := Zeros(height)]
  }

  /**
    What the model is given: for each feature in the model's order, the
    frame's column of that name, or zeros when the frame has none.
  */
  function Aligned(data: map<string, seq<real>>, height: nat, features: seq<string>): (r: seq<seq<real>>)
    ensures |r| == |features|
  {
    seq(|features|, i requires 0 <= i < |features| =>
      if features[i] in data then data[features[i]] else Zeros(height))
  }

  /** A frame's columns and their values, `height` rows each. */
  class Frame {
    var columns: seq<string>
    var data: map<string, seq<real>>
    var height: nat

    /** Column names are distinct, each names exactly one stored column, and every column has `height` values. */
    ghost predicate Valid()
      reads this
    {
      && Distinct(columns)
      && (forall c :: c in data <==> c in columns)
      && (forall c | c in data :: |data[c]| == height)
    }

    constructor (columns: seq<string>, data: map<string, seq<real>>, height: nat)
      requires Distinct(columns)
      requires forall c :: c in data <==> c in columns
      requires forall c | c in data :: |data[c]| == height
      ensures this.columns == columns && this.data == data && this.height == height
      ensures Valid()
    {
      this.columns := columns;
      this.data := data;
      this.height := height;
    }

    /** The loop over the model's features, adding each one the frame lacks as a column of zeros. */
    method AddMissing(features: seq<string>)
      requires Valid()
      modifies this`columns, this`data
      ensures Valid()
      ensures columns == Extended(old(columns), features)
      ensures data == Filled(old(data), features, height)
    {
      var j := 0;
      while j < |features|
        invariant 0 <= j <= |features|
        invariant Valid()
        invariant columns == Extended(old(columns), features[..j])
        invariant data == Filled(old(data), features[..j], height)
      {
        var feature := features[j];
        assert features[..j + 1][..j] == features[..j];
        if feature !in columns {
          columns := columns + [feature];
          data := data[feature := Zeros(height)];
        }
        j := j + 1;
      }
      assert features[..j] == features;
    }

    /** `frame[features]`: the named columns, in the order named. */
    function Select(features: seq<string>): (r: seq<seq<real>>)
      reads this
      requires forall k | 0 <= k < |features| :: features[k] in data
      ensures |r| == |features|
      ensures forall k | 0 <= k < |features| :: r[k] == data[features[k]]
    {
      var d := data;
      seq(|features|, k requires 0 <= k < |features| => d[features[k]])
    }
  }

  /**
    `prepare_input_for_prediction`: the frame gains the missing features in
    place, and the model receives exactly its features, in its order, with
    the absent ones zero.
  */
  method PrepareInput(frame: Frame, features: seq<string>) returns (r: seq<seq<real>>)
    requires frame.Valid()
    modifies frame
    ensures r == Aligned(old(frame.data), frame.height, features)
    ensures frame.Valid() && frame.height == old(frame.height)
    ensures frame.columns == Extended(old(frame.columns), features)
    ensures frame.data == Filled(old(frame.data), features, frame.height)
  {
    frame.AddMissing(features);
    forall k | 0 <= k < |features|
      ensures features[k] in frame.data
      ensures frame.data[features[k]] == Aligned(old(frame.data), frame.height, features)[k]
    {
      FilledAt(old(frame.data), features, frame.height, k);
    }
    r := frame.Select(features);
  }

  // ---------------------------------------------------------------------------
  // what the alignment promises

  /** After the loop, feature `k` is stored: its old column if it had one, zeros otherwise. */
  lemma {:induction false} FilledAt(data: map<string, seq<real>>, features: seq<string>, height: nat, k: nat)
    requires k < |features|
    ensures var m := Filled(data, features, height);
      features[k] in m && m[features[k]] == if features[k] in data then data[features[k]] else Zeros(height)
  {
    var init := features[..|features| - 1];
    if k < |features| - 1 {
      assert init[k] == features[k];
      FilledAt(data, init, height, k);
    } else if features[k] !in data {
      FilledNew(data, init, height, features[k]);
    }
  }

  /** A name the frame did not have is either still absent or holds zeros. */
  lemma {:induction false} FilledNew(data: map<string, seq<real>>, features: seq<string>, height: nat, f: string)
    requires f !in data
    ensures f in Filled(data, features, height) ==> Filled(data, features, height)[f] == Zeros(height)
  {
    if features != [] {
      FilledNew(data, features[..|features| - 1], height, f);
    }
  }

  /** The loop only adds columns: the frame's columns come first, in their order. */
  lemma {:induction false} ExtendedKeepsColumns(columns: seq<string>, features: seq<string>)
    ensures Extended(columns, features)[..|columns|] == columns
  {
    if features != [] {
      ExtendedKeepsColumns(columns, features[..|features| - 1]);
    }
  }

  /**
    After the loop the frame has a column for every feature, and every
    column it has is an old column or a feature.
  */
  lemma {:induction false} ExtendedNames(columns: seq<string>, features: seq<string>, c: string)
    ensures c in Extended(columns, features) <==> c in columns || c in features
  {
    if features != [] {
      var init := features[..|features| - 1];
      ExtendedNames(columns, init, c);
      assert features == init + [features[|features| - 1]];
    }
  }

  /** The loop never adds a name twice. */
  lemma {:induction false} ExtendedDistinct(columns: seq<string>, features: seq<string>)
    requires Distinct(columns)
    ensures Distinct(Extended(columns, features))
  {
    if features != [] {
      ExtendedDistinct(columns, features[..|features| - 1]);
    }
  }

  /** Columns the model does not use make no difference to what it is given. */
  lemma AlignedIgnoresOtherColumns(data: map<string, seq<real>>, other: map<string, seq<real>>, height: nat,
                                   features: seq<string>)
    requires forall k | 0 <= k < |features| :: (features[k] in data <==> features[k] in other)
    requires forall k | 0 <= k < |features| && features[k] in data :: data[features[k]] == other[features[k]]
    ensures Aligned(data, height, features) == Aligned(other, height, features)
  {
  }
}
