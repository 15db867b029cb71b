/** The feature preprocessing of the classifier (classifier/ml_pipeline.py):
    per feature column, fill missing values with a reference or batch
    median, then clip to the interquartile fences. */
module Preprocess {
  import opened Wrappers
  import opened Seqs
  import opened Stats
  import opened Frames

  /** A numeric column; `None` is pandas' NaN. */
  type Column = seq<Option<real>>

  /** Training-time reference medians per feature; a stored value may itself
      be NaN (`None`). */
  type Medians = map<string, Option<real>>

  const LowerQuartile: real := 0.25
  const UpperQuartile: real := 0.75
  /** How many interquartile ranges the fences lie beyond the quartiles. */
  const FenceFactor: real := 1.5

  /** A column of `n` missing values. */
  function Missing(n: nat): (col: Column)
    ensures |col| == n && forall i :: 0 <= i < n ==> col[i] == None
  {
    seq(n, _ => None)
  }

  /** The non-missing entries of a column, in order: what pandas'
      NaN-skipping reductions see. */
  function Observed(col: Column): (vs: seq<real>)
    ensures |vs| <= |col|
    ensures forall k :: 0 <= k < |vs| ==> Some(vs[k]) in col
    ensures forall i :: 0 <= i < |col| && col[i].Some? ==> col[i].value in vs
  {
    if col == [] then []
    else (if col[0].Some? then [col[0].value] else []) + Observed(col[1..])
  }

  /** `Series.median()`: the median of the observed values, NaN if there
      are none. */
  function BatchMedian(col: Column): (m: Option<real>)
    ensures m.None? <==> forall i :: 0 <= i < |col| ==> col[i].None?
  {
    var vs := Observed(col);
    if vs == [] then None else Some(Median(Sort(vs)))
  }

  /** The value used to fill a column's gaps: the reference median when the
      feature has a stored entry, else the batch median, and 0.0 when the
      chosen value is NaN. */
  function FillValue(medians: Medians, c: string, col: Column): (v: real)
    ensures c in medians && medians[c].Some? ==> v == medians[c].value
    ensures c in medians && medians[c].None? ==> v == 0.0
    ensures c !in medians && (forall i :: 0 <= i < |col| ==> col[i].None?) ==> v == 0.0
  {
    var chosen := if c in medians then medians[c] else BatchMedian(col);
    chosen.GetOr(0.0)
  }

  /** `fillna(fill)`. */
  function Impute(col: Column, fill: real): (r: seq<real>)
    ensures |r| == |col|
    ensures forall i :: 0 <= i < |col| && col[i].Some? ==> r[i] == col[i].value
    ensures forall i :: 0 <= i < |col| && col[i].None? ==> r[i] == fill
  {
    seq(|col|, i requires 0 <= i < |col| => col[i].GetOr(fill))
  }

  function Q1(xs: seq<real>): real
    requires |xs| > 0
  {
    Quantile(Sort(xs), LowerQuartile)
  }

  function Q3(xs: seq<real>): real
    requires |xs| > 0
  {
    Quantile(Sort(xs), UpperQuartile)
  }

  /** Clipping happens only when the interquartile range is defined (the
      column is not empty) and strictly positive. */
  predicate ClipApplies(xs: seq<real>) {
    |xs| > 0 && Q3(xs) - Q1(xs) > 0.0
  }

  function LowerFence(xs: seq<real>): real
    requires |xs| > 0
  {
    Q1(xs) - FenceFactor * (Q3(xs) - Q1(xs))
  }

  function UpperFence(xs: seq<real>): real
    requires |xs| > 0
  {
    Q3(xs) + FenceFactor * (Q3(xs) - Q1(xs))
  }

  /** `np.clip(x, lo, hi)`. */
  function Clip(x: real, lo: real, hi: real): (y: real)
    ensures lo <= hi ==> lo <= y <= hi
    ensures lo <= x <= hi ==> y == x
    ensures y == x || y == lo || y == hi
  {
    if x < lo then lo else if x > hi then hi else x
  }

  /** Winsorisation of an imputed column to its interquartile fences. */
  function Winsorize(xs: seq<real>): (r: seq<real>)
    ensures |r| == |xs|
    ensures !ClipApplies(xs) ==> r == xs
    ensures ClipApplies(xs) ==> forall i :: 0 <= i < |xs| ==>
      && LowerFence(xs) <= r[i] <= UpperFence(xs)
      && (LowerFence(xs) <= xs[i] <= UpperFence(xs) ==> r[i] == xs[i])
      && (xs[i] > UpperFence(xs) ==> r[i] == UpperFence(xs))
      && (xs[i] < LowerFence(xs) ==> r[i] == LowerFence(xs))
  {
    if ClipApplies(xs) then
      var lo, hi := LowerFence(xs), UpperFence(xs);
      seq(|xs|, i requires 0 <= i < |xs| => Clip(xs[i], lo, hi))
    else
      xs
  }

  /** A column of numbers as a column that has no NaN. */
  function Lift(xs: seq<real>): (col: Column)
    ensures |col| == |xs| && forall i :: 0 <= i < |xs| ==> col[i] == Some(xs[i])
  {
    seq(|xs|, i requires 0 <= i < |xs| => Some(xs[i]))
  }

  /** One feature column after imputation and clipping. */
  function ProcessColumn(medians: Medians, c: string, col: Column): (r: Column)
    ensures |r| == |col|
    ensures forall i :: 0 <= i < |r| ==> r[i].Some?
  {
    Lift(Winsorize(Impute(col, FillValue(medians, c, col))))
  }

  /** One iteration of the loop over the feature names: a feature that is a
      column of the frame has that column replaced by its processed form. */
  function Step(medians: Medians, df: Frame<Option<real>>, c: string): (r: Frame<Option<real>>)
    requires df.WellFormed()
    ensures r.WellFormed() && r.columns == df.columns && r.height == df.height
    ensures r.data.Keys == df.data.Keys
  {
    if c in df.data then
      var processed := ProcessColumn(medians, c, df.data[c]);
      var r := df.(data := df.data[c := processed]);
      assert r.data.Keys == df.data.Keys;
      assert forall d :: d in r.data ==> |r.data[d]| == r.height;
      r
    else df
  }

  /** The frame after the loop has visited `names` in order. */
  function Preprocessed(names: seq<string>, medians: Medians, df: Frame<Option<real>>): (r: Frame<Option<real>>)
    requires df.WellFormed()
    ensures r.WellFormed() && r.columns == df.columns && r.height == df.height
    ensures r.data.Keys == df.data.Keys
    decreases |names|
  {
    if names == [] then df
    else Step(medians, Preprocessed(names[..|names| - 1], medians, df), names[|names| - 1])
  }

  /** The classifier input built from a frame: the feature columns in the
      order of `names`; a feature the frame lacks is a column of NaN. */
  function Projected(names: seq<string>, df: Frame<Option<real>>): (x: Frame<Option<real>>)
    requires df.WellFormed() && Distinct(names)
    ensures x.WellFormed() && x.columns == names && x.height == df.height
  {
    Frame(names, map c | c in names :: if c in df.data then df.data[c] else Missing(df.height), df.height)
  }

  /** `fillna(0)` followed by the row-major matrix the classifier receives,
      columns in frame order. */
  function Rows(x: Frame<Option<real>>): (m: seq<seq<real>>)
    requires x.WellFormed()
    ensures |m| == x.height
    ensures forall i :: 0 <= i < |m| ==> |m[i]| == |x.columns|
  {
    seq(x.height, i requires 0 <= i < x.height =>
      seq(|x.columns|, k requires 0 <= k < |x.columns| => x.data[x.columns[k]][i].GetOr(0.0)))
  }

  /** What the classifier is given for a frame: projection, preprocessing,
      zero-fill. */
  function FeatureMatrix(names: seq<string>, medians: Medians, df: Frame<Option<real>>): (m: seq<seq<real>>)
    requires df.WellFormed() && Distinct(names)
    ensures |m| == df.height
    ensures forall i :: 0 <= i < |m| ==> |m[i]| == |names|
  {
    Rows(Preprocessed(names, medians, Projected(names, df)))
  }

  // ---------------------------------------------------------------------
  // Imputation

  /** The batch median lies between the least and the greatest observed
      entry of the column. */
  lemma {:induction false} BatchMedianWithinObserved(col: Column, i0: nat)
    requires i0 < |col| && col[i0].Some?
    ensures BatchMedian(col).Some?
    ensures exists i :: 0 <= i < |col| && col[i].Some? && col[i].value <= BatchMedian(col).value
    ensures exists j :: 0 <= j < |col| && col[j].Some? && BatchMedian(col).value <= col[j].value
  {
    var vs := Observed(col);
    assert col[i0].value in vs;
    var s := Sort(vs);
    MedianIsHalfQuantile(s);
    QuantileWithinRange(s, 0.5);
    SortEnds(vs);
    assert Some(s[0]) in col;
    assert Some(s[|s| - 1]) in col;
    var i :| 0 <= i < |col| && col[i] == Some(s[0]);
    var j :| 0 <= j < |col| && col[j] == Some(s[|s| - 1]);
    assert col[i].value <= BatchMedian(col).value <= col[j].value;
  }

  /** The fill value follows the reference median whenever the feature has
      an entry, even a NaN one (then 0.0); only without an entry does the
      batch decide, and then the value lies within the observed values, or
      is 0.0 when nothing is observed. */
  lemma {:induction false} FillValueChoice(medians: Medians, c: string, col: Column)
    ensures c in medians ==> FillValue(medians, c, col) == medians[c].GetOr(0.0)
    ensures c !in medians && (forall i :: 0 <= i < |col| ==> col[i].None?) ==>
      FillValue(medians, c, col) == 0.0
    ensures c !in medians && (exists i :: 0 <= i < |col| && col[i].Some?) ==>
      (exists i :: 0 <= i < |col| && col[i].Some? && col[i].value <= FillValue(medians, c, col)) &&
      (exists j :: 0 <= j < |col| && col[j].Some? && FillValue(medians, c, col) <= col[j].value)
  {
    if c !in medians && (exists i :: 0 <= i < |col| && col[i].Some?) {
      var i0 :| 0 <= i0 < |col| && col[i0].Some?;
      BatchMedianWithinObserved(col, i0);
    }
  }

  // ---------------------------------------------------------------------
  // Clipping

  lemma {:induction false} QuartilesOrdered(xs: seq<real>)
    requires |xs| > 0
    ensures Q1(xs) <= Q3(xs)
    ensures LowerFence(xs) <= Q1(xs) && Q3(xs) <= UpperFence(xs)
  {
    QuantileMonotone(Sort(xs), LowerQuartile, UpperQuartile);
  }

  /** Clipping preserves the order of the values within a column. */
  lemma {:induction false} WinsorizeMonotone(xs: seq<real>, i: nat, j: nat)
    requires i < |xs| && j < |xs| && xs[i] <= xs[j]
    ensures Winsorize(xs)[i] <= Winsorize(xs)[j]
  {
    if ClipApplies(xs) {
      QuartilesOrdered(xs);
    }
  }

  /** Values between the two quartiles are never moved. */
  lemma {:induction false} WinsorizeKeepsQuartileRange(xs: seq<real>, i: nat)
    requires i < |xs| && Q1(xs) <= xs[i] <= Q3(xs)
    ensures Winsorize(xs)[i] == xs[i]
  {
    QuartilesOrdered(xs);
  }

  /** Clipping never produces a value outside the range of the column: the
      fences lie beyond the quartiles, which lie within the data. */
  lemma {:induction false} WinsorizeWithinSampleRange(xs: seq<real>, i: nat)
    requires i < |xs|
    ensures Sort(xs)[0] <= Winsorize(xs)[i] <= Sort(xs)[|xs| - 1]
  {
    SortEnds(xs);
    if ClipApplies(xs) {
      QuartilesOrdered(xs);
      QuantileWithinRange(Sort(xs), LowerQuartile);
      QuantileWithinRange(Sort(xs), UpperQuartile);
    }
  }

  /** A constant column has no spread, so it passes through unclipped. */
  lemma {:induction false} ConstantColumnUnclipped(xs: seq<real>, c: real)
    requires forall i :: 0 <= i < |xs| ==> xs[i] == c
    ensures !ClipApplies(xs)
    ensures Winsorize(xs) == xs
  {
    if |xs| > 0 {
      SortOfConstant(xs, c);
      QuantileOfConstant(Sort(xs), LowerQuartile, c);
      QuantileOfConstant(Sort(xs), UpperQuartile, c);
    }
  }

  /** A single-row batch is never clipped. */
  lemma {:induction false} SingleRowUnclipped(xs: seq<real>)
    requires |xs| == 1
    ensures Winsorize(xs) == xs
  {
    ConstantColumnUnclipped(xs, xs[0]);
  }

  // ---------------------------------------------------------------------
  // The loop over the feature names

  /** With distinct feature names, each feature column of the frame is
      processed once from its original values, and every other column is
      left as it was. */
  lemma {:induction false} PreprocessedColumns(names: seq<string>, medians: Medians, df: Frame<Option<real>>)
    requires df.WellFormed() && Distinct(names)
    ensures forall c :: c in df.data && c !in names ==>
      Preprocessed(names, medians, df).data[c] == df.data[c]
    ensures forall c :: c in df.data && c in names ==>
      Preprocessed(names, medians, df).data[c] == ProcessColumn(medians, c, df.data[c])
    decreases |names|
  {
    if names != [] {
      var init := names[..|names| - 1];
      var last := names[|names| - 1];
      assert Distinct(init);
      PreprocessedColumns(init, medians, df);
      assert last !in init;
      forall c | c in names ensures c in init || c == last {
        var k :| 0 <= k < |names| && names[k] == c;
        if k < |names| - 1 { assert init[k] == c; }
      }
      forall c | c in init ensures c in names {
        var k :| 0 <= k < |init| && init[k] == c;
        assert names[k] == c;
      }
    }
  }

  /** Every feature column that the frame has is free of NaN afterwards. */
  lemma {:induction false} PreprocessedComplete(names: seq<string>, medians: Medians, df: Frame<Option<real>>, c: string, i: nat)
    requires df.WellFormed() && Distinct(names)
    requires c in names && c in df.data && i < df.height
    ensures Preprocessed(names, medians, df).data[c][i].Some?
  {
    PreprocessedColumns(names, medians, df);
  }

  // ---------------------------------------------------------------------
  // What the classifier receives

  /** The projection keeps every schema feature the input has, as it is,
      and makes every other schema feature a column of NaN. */
  lemma {:induction false} ProjectedColumns(names: seq<string>, df: Frame<Option<real>>)
    requires df.WellFormed() && Distinct(names)
    ensures forall c :: c in names && c in df.data ==> Projected(names, df).data[c] == df.data[c]
    ensures forall c :: c in names && c !in df.data ==> Projected(names, df).data[c] == Missing(df.height)
    ensures forall c :: c in Projected(names, df).data <==> c in names
  {
  }

  /** The classifier input has one row per input row and one entry per
      feature, the zero-fill changes nothing, and each entry is the
      feature's processed value. */
  lemma {:induction false} FeatureMatrixEntries(names: seq<string>, medians: Medians, df: Frame<Option<real>>, i: nat, k: nat)
    requires df.WellFormed() && Distinct(names)
    requires i < df.height && k < |names|
    ensures |FeatureMatrix(names, medians, df)| == df.height
    ensures |FeatureMatrix(names, medians, df)[i]| == |names|
    ensures var x := Projected(names, df);
      Preprocessed(names, medians, x).data[names[k]][i] == Some(FeatureMatrix(names, medians, df)[i][k])
    ensures var x := Projected(names, df);
      FeatureMatrix(names, medians, df)[i][k] == Winsorize(Impute(x.data[names[k]], FillValue(medians, names[k], x.data[names[k]])))[i]
  {
    var x := Projected(names, df);
    PreprocessedColumns(names, medians, x);
    PreprocessedComplete(names, medians, x, names[k], i);
  }

  /** A feature present in the input reaches the classifier as its column
      after imputation and clipping. */
  lemma {:induction false} PresentFeatureValue(names: seq<string>, medians: Medians, df: Frame<Option<real>>, i: nat, k: nat)
    requires df.WellFormed() && Distinct(names)
    requires i < df.height && k < |names| && names[k] in df.data
    ensures FeatureMatrix(names, medians, df)[i][k] ==
      Winsorize(Impute(df.data[names[k]], FillValue(medians, names[k], df.data[names[k]])))[i]
  {
    FeatureMatrixEntries(names, medians, df, i, k);
  }

  /** An all-missing column is processed into its fill value: the
      reference median when there is a usable one, 0.0 otherwise. */
  lemma {:induction false} MissingColumnProcessed(medians: Medians, f: string, n: nat, i: nat)
    requires i < n
    ensures |Winsorize(Impute(Missing(n), FillValue(medians, f, Missing(n))))| == n
    ensures Winsorize(Impute(Missing(n), FillValue(medians, f, Missing(n))))[i] ==
      (if f in medians then medians[f].GetOr(0.0) else 0.0)
  {
    var col := Missing(n);
    var fill := FillValue(medians, f, col);
    FillValueChoice(medians, f, col);
    var xs := Impute(col, fill);
    ConstantColumnUnclipped(xs, fill);
  }

  /** A feature absent from the input reaches the classifier as its
      reference median in every row, or 0.0 when it has no usable one. */
  lemma {:induction false} AbsentFeatureValue(names: seq<string>, medians: Medians, df: Frame<Option<real>>, i: nat, k: nat)
    requires df.WellFormed() && Distinct(names)
    requires i < df.height && k < |names| && names[k] !in df.data
    ensures FeatureMatrix(names, medians, df)[i][k] ==
      (if names[k] in medians then medians[names[k]].GetOr(0.0) else 0.0)
  {
    FeatureMatrixEntries(names, medians, df, i, k);
    assert Projected(names, df).data[names[k]] == Missing(df.height);
    MissingColumnProcessed(medians, names[k], df.height, i);
  }
}
