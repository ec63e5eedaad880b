/**
 * StandardScaler as the predictor uses it: fitted once on the training feature
 * frame (one mean and one non-zero scale per column, remembering the column
 * names), then applied to new frames, which must carry the same names in the
 * same order.
 */
module Scaling {
  import opened Outcomes
  import opened Columns

  type PosReal = r: real | r > 0.0 witness 1.0

  /** A column's `mean_` and `scale_` (its standard deviation, or 1 for a constant column). */
  datatype Stat = Stat(mean: real, scale: PosReal)

  datatype Scaler = Unfitted | Fitted(names: seq<ColumnName>, stats: seq<Stat>)

  /** A fitted scaler has one statistic per column name. */
  predicate WellFormed(s: Scaler) {
    s.Fitted? ==> |s.stats| == |s.names|
  }

  type ValidScaler = s: Scaler | WellFormed(s) witness Unfitted

  /** A frame cell: a number, or text that `transform` rejects. */
  datatype Cell = Num(x: real) | Str

  /** `fit`: the column-wise statistics, as the numeric library estimates them. */
  function Fit(names: seq<ColumnName>, columns: seq<seq<real>>, estimate: seq<real> -> Stat): (s: Scaler)
    requires |columns| == |names|
    ensures s.Fitted? && s.names == names && WellFormed(s)
    ensures forall j :: 0 <= j < |names| ==> s.stats[j] == estimate(columns[j])
  {
    Fitted(names, seq(|names|, j requires 0 <= j < |names| => estimate(columns[j])))
  }

  function Standardise(x: real, st: Stat): real {
    (x - st.mean) / st.scale
  }

  function Unstandardise(z: real, st: Stat): real {
    z * st.scale + st.mean
  }

  /** Standardising is invertible: the two maps undo each other. */
  lemma StandardiseRoundTrip(x: real, z: real, st: Stat)
    ensures Unstandardise(Standardise(x, st), st) == x
    ensures Standardise(Unstandardise(z, st), st) == z
  {
  }

  /** Standardising preserves order and maps the mean to 0. */
  lemma StandardiseMonotone(x: real, y: real, st: Stat)
    ensures x < y <==> Standardise(x, st) < Standardise(y, st)
    ensures Standardise(st.mean, st) == 0.0
  {
  }

  /** One row of numbers, standardised column by column. */
  function ScaleRow(stats: seq<Stat>, row: seq<real>): (r: seq<real>)
    requires |row| == |stats|
    ensures |r| == |row|
  {
    seq(|row|, j requires 0 <= j < |row| => Standardise(row[j], stats[j]))
  }

  /** `inverse_transform` of one row. */
  function UnscaleRow(stats: seq<Stat>, row: seq<real>): (r: seq<real>)
    requires |row| == |stats|
    ensures |r| == |row|
  {
    seq(|row|, j requires 0 <= j < |row| => Unstandardise(row[j], stats[j]))
  }

  lemma ScaleRowRoundTrip(stats: seq<Stat>, row: seq<real>)
    requires |row| == |stats|
    ensures UnscaleRow(stats, ScaleRow(stats, row)) == row
    ensures ScaleRow(stats, UnscaleRow(stats, row)) == row
  {
    var a := UnscaleRow(stats, ScaleRow(stats, row));
    forall j | 0 <= j < |row| ensures a[j] == row[j] {
      StandardiseRoundTrip(row[j], row[j], stats[j]);
    }
    var b := ScaleRow(stats, UnscaleRow(stats, row));
    forall j | 0 <= j < |row| ensures b[j] == row[j] {
      StandardiseRoundTrip(row[j], row[j], stats[j]);
    }
  }

  predicate AllNumeric(frame: seq<seq<Cell>>) {
    forall i, j :: 0 <= i < |frame| && 0 <= j < |frame[i]| ==> frame[i][j].Num?
  }

  /** Column `j` holds text in some row. */
  predicate TextAt(frame: seq<seq<Cell>>, j: nat) {
    exists i :: 0 <= i < |frame| && j < |frame[i]| && frame[i][j].Str?
  }

  /** The first of the columns `from..width` that holds text, if any. */
  function FirstTextColumn(frame: seq<seq<Cell>>, from: nat, width: nat): (r: Option<nat>)
    requires forall i :: 0 <= i < |frame| ==> |frame[i]| == width
    requires from <= width
    ensures r.Some? ==> from <= r.value < width && TextAt(frame, r.value)
    ensures r.None? ==> forall i, j :: 0 <= i < |frame| && from <= j < width ==> frame[i][j].Num?
    decreases width - from
  {
    if from == width then None
    else if TextAt(frame, from) then Some(from)
    else FirstTextColumn(frame, from + 1, width)
  }

  function Numbers(row: seq<Cell>): (r: seq<real>)
    requires forall j :: 0 <= j < |row| ==> row[j].Num?
    ensures |r| == |row| && forall j :: 0 <= j < |row| ==> r[j] == row[j].x
  {
    seq(|row|, j requires 0 <= j < |row| && row[j].Num? => row[j].x)
  }

  /**
   * `transform` of a frame whose columns are `names`, checked in the library's
   * order: fitted, the same feature names, at least one row, numbers only.
   */
  function Transform(s: Scaler, names: seq<ColumnName>, frame: seq<seq<Cell>>): (r: Result<seq<seq<real>>>)
    requires WellFormed(s)
    requires forall i :: 0 <= i < |frame| ==> |frame[i]| == |names|
    ensures r == Failure(ScalerNotFitted) <==> s.Unfitted?
    ensures r == Failure(FeatureNamesMismatch) <==> s.Fitted? && s.names != names
    ensures r == Failure(EmptyBatch) <==> s.Fitted? && s.names == names && |frame| == 0
    ensures r.Failure? ==>
      || r.error.ScalerNotFitted? || r.error.FeatureNamesMismatch? || r.error.EmptyBatch?
      || (r.error.NonNumericFeature? && exists j :: 0 <= j < |names| && names[j] == r.error.column && TextAt(frame, j))
    ensures r.Success? <==> s.Fitted? && s.names == names && |frame| > 0 && AllNumeric(frame)
    ensures r.Success? ==> |r.value| == |frame| && forall i :: 0 <= i < |frame| ==>
      |r.value[i]| == |names| && forall j :: 0 <= j < |names| ==>
        frame[i][j] == Num(Unstandardise(r.value[i][j], s.stats[j]))
  {
    if s.Unfitted? then Failure(ScalerNotFitted)
    else if s.names != names then Failure(FeatureNamesMismatch)
    else if |frame| == 0 then Failure(EmptyBatch)
    else
      var text := FirstTextColumn(frame, 0, |names|);
      if text.Some? then Failure(NonNumericFeature(names[text.value]))
      else
        var out := seq(|frame|, i requires 0 <= i < |frame| && AllNumeric(frame) => ScaleRow(s.stats, Numbers(frame[i])));
        assert forall i :: 0 <= i < |frame| ==> UnscaleRow(s.stats, out[i]) == Numbers(frame[i]) by {
          forall i | 0 <= i < |frame| ensures UnscaleRow(s.stats, out[i]) == Numbers(frame[i]) {
            ScaleRowRoundTrip(s.stats, Numbers(frame[i]));
          }
        }
        Success(out)
  }
}
