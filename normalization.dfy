/**
 * The value maps of `DigitalTwinModel.dataframe_to_tensor` (src/temp_pre.py):
 * per-column normalisation by column name, the global clip to [0,1], and the
 * trailing row window. A table is a sequence of rows of exact reals, one
 * cell per column name.
 */
module Normalization {
  import opened Results
  import opened ColumnSelection

  /** `clip(0, 1)`: the point of [0,1] nearest to `v`. */
  function Clip(v: real): (r: real)
    ensures 0.0 <= r <= 1.0
    ensures 0.0 <= v <= 1.0 ==> r == v
    ensures forall y: real :: 0.0 <= y <= 1.0 ==> Dist(r, v) <= Dist(y, v)
  {
    if v < 0.0 then 0.0 else if v > 1.0 then 1.0 else v
  }

  function Dist(a: real, b: real): real
  {
    if a < b then b - a else a - b
  }

  /** Maps a temperature in degrees Celsius onto the model's scale: exactly [10,45] lands in [0,1]. */
  function NormalizeTemperature(v: real): (r: real)
    ensures 10.0 <= v <= 45.0 <==> 0.0 <= r <= 1.0
  {
    (v - 10.0) / 35.0
  }

  /** Maps a value on the model's scale back to degrees Celsius, undoing `NormalizeTemperature`. */
  function DenormalizeTemperature(t: real): (r: real)
    ensures NormalizeTemperature(r) == t
    ensures 0.0 <= t <= 1.0 <==> 10.0 <= r <= 45.0
  {
    t * 35.0 + 10.0
  }

  /** Shifts a sine or cosine from [-1,1] onto exactly [0,1]. */
  function ShiftCyclical(v: real): (r: real)
    ensures -1.0 <= v <= 1.0 <==> 0.0 <= r <= 1.0
  {
    (v + 1.0) / 2.0
  }

  /** The two temperature maps are inverse to each other, and [10,45] is exactly what lands in [0,1]. */
  lemma TemperatureRoundTrip(x: real)
    ensures DenormalizeTemperature(NormalizeTemperature(x)) == x
    ensures NormalizeTemperature(DenormalizeTemperature(x)) == x
    ensures 10.0 <= x <= 45.0 <==> 0.0 <= NormalizeTemperature(x) <= 1.0
  {
  }

  function TemperatureStage(name: string, v: real): real
  {
    if IsTemperature(name) then NormalizeTemperature(v) else v
  }

  function PirStage(name: string, v: real): real
  {
    if IsPir(name) then Clip(v) else v
  }

  function CyclicalStage(name: string, v: real): real
  {
    if name in CyclicalColumns then ShiftCyclical(v) else v
  }

  /**
   * One cell after the three per-column passes and the global clip, applied
   * in the order the source applies them.
   */
  function NormalizeCell(name: string, v: real): (r: real)
    ensures 0.0 <= r <= 1.0
  {
    Clip(CyclicalStage(name, PirStage(name, TemperatureStage(name, v))))
  }

  /** A temperature column keeps every reading in [10,45] exactly, recoverable by denormalising. */
  lemma TemperatureCell(name: string, x: real)
    requires IsTemperature(name) && 10.0 <= x <= 45.0
    ensures NormalizeCell(name, x) == NormalizeTemperature(x)
    ensures DenormalizeTemperature(NormalizeCell(name, x)) == x
  {
    NotCyclical(name);
  }

  /** A PIR column that is not also a temperature column is clipped to [0,1] and nothing more. */
  lemma PirCell(name: string, v: real)
    requires IsPir(name) && !IsTemperature(name)
    ensures NormalizeCell(name, v) == Clip(v)
    ensures 0.0 <= v <= 1.0 ==> NormalizeCell(name, v) == v
  {
    NotCyclical(name);
  }

  /** A time-encoding value in [-1,1] is shifted into [0,1] and the clip leaves it there. */
  lemma CyclicalCell(name: string, v: real)
    requires name in CyclicalColumns && -1.0 <= v <= 1.0
    ensures NormalizeCell(name, v) == ShiftCyclical(v)
    ensures 0.0 <= NormalizeCell(name, v) <= 1.0
  {
    CyclicalNamesNeutral(name);
  }

  /** Any other column, a setpoint without `temperature` in its name for one, is only clipped. */
  lemma OtherCell(name: string, v: real)
    requires !IsTemperature(name) && !IsPir(name) && name !in CyclicalColumns
    ensures NormalizeCell(name, v) == Clip(v)
  {
  }

  /** Every row has one cell per column. */
  predicate Rectangular(rows: seq<seq<real>>, width: nat)
  {
    forall i :: 0 <= i < |rows| ==> |rows[i]| == width
  }

  /** `df[col] = f(df[col])` for the column at index `j`. */
  function MapColumn(rows: seq<seq<real>>, j: nat, f: real -> real): (r: seq<seq<real>>)
    requires forall i :: 0 <= i < |rows| ==> j < |rows[i]|
    ensures |r| == |rows|
    ensures forall i :: 0 <= i < |rows| ==> |r[i]| == |rows[i]|
    ensures forall i, k :: 0 <= i < |rows| && 0 <= k < |rows[i]| ==>
      r[i][k] == if k == j then f(rows[i][k]) else rows[i][k]
  {
    seq(|rows|, i requires 0 <= i < |rows| => rows[i][j := f(rows[i][j])])
  }

  /** `df[name] = f(df[name])`: every column labelled `name`. */
  function MapNamed(rows: seq<seq<real>>, names: seq<string>, name: string, f: real -> real): (r: seq<seq<real>>)
    requires Rectangular(rows, |names|)
    ensures |r| == |rows| && Rectangular(r, |names|)
    ensures forall i, k :: 0 <= i < |rows| && 0 <= k < |names| ==>
      r[i][k] == if names[k] == name then f(rows[i][k]) else rows[i][k]
  {
    seq(|rows|, i requires 0 <= i < |rows| =>
      seq(|names|, k requires 0 <= k < |names| => if names[k] == name then f(rows[i][k]) else rows[i][k]))
  }

  /** `df.clip(0, 1)` over the whole table. */
  function ClipAll(rows: seq<seq<real>>): (r: seq<seq<real>>)
    ensures |r| == |rows|
    ensures forall i :: 0 <= i < |rows| ==> |r[i]| == |rows[i]|
    ensures forall i, k :: 0 <= i < |rows| && 0 <= k < |rows[i]| ==> r[i][k] == Clip(rows[i][k])
  {
    seq(|rows|, i requires 0 <= i < |rows| => seq(|rows[i]|, k requires 0 <= k < |rows[i]| => Clip(rows[i][k])))
  }

  /** The table with every cell normalised according to its column's name. */
  function NormalizeRows(names: seq<string>, rows: seq<seq<real>>): (r: seq<seq<real>>)
    requires Rectangular(rows, |names|)
    ensures |r| == |rows| && Rectangular(r, |names|)
    ensures forall i, k :: 0 <= i < |rows| && 0 <= k < |names| ==> r[i][k] == NormalizeCell(names[k], rows[i][k])
  {
    seq(|rows|, i requires 0 <= i < |rows| =>
      seq(|names|, k requires 0 <= k < |names| => NormalizeCell(names[k], rows[i][k])))
  }

  /**
   * Where Python's slice `[-offset:]` starts in a sequence of length `len`:
   * `-0` is `0`, so an offset of 0 starts at the beginning.
   */
  function NegativeSliceStart(offset: nat, len: nat): nat
  {
    if offset == 0 then 0 else if offset <= len then len - offset else 0
  }

  /**
   * The row window: `df.iloc[-lookback:]` when the table has more than
   * `lookback` rows, the table itself otherwise. A lookback of 0 keeps every row.
   */
  function Window<T>(rows: seq<T>, lookback: nat): (r: seq<T>)
    ensures |r| == if 0 < lookback < |rows| then lookback else |rows|
    ensures r == rows[|rows| - |r|..]
  {
    if |rows| > lookback then rows[NegativeSliceStart(lookback, |rows|)..] else rows
  }

  /** Why `dataframe_to_tensor` can fail: a time-encoding column it shifts is absent. */
  datatype TensorError = MissingColumn(name: string)

  /** The first of the four time-encoding columns absent from `names`, if any. */
  function MissingCyclical(names: seq<string>): (r: Option<string>)
    ensures r.None? <==> forall c :: c in CyclicalColumns ==> c in names
    ensures r.Some? ==> r.value in CyclicalColumns && r.value !in names
  {
    if CyclicalColumns[0] !in names then Some(CyclicalColumns[0])
    else if CyclicalColumns[1] !in names then Some(CyclicalColumns[1])
    else if CyclicalColumns[2] !in names then Some(CyclicalColumns[2])
    else if CyclicalColumns[3] !in names then Some(CyclicalColumns[3])
    else None
  }

  /**
   * The tensor `dataframe_to_tensor` produces from a table with these column
   * names and rows. It fails exactly when a time-encoding column is absent;
   * otherwise it has the table's width and the trailing `lookback` rows, or
   * every row when the table is not longer (no padding).
   */
  function Tensor(names: seq<string>, rows: seq<seq<real>>, lookback: nat): (r: Result<seq<seq<real>>, TensorError>)
    requires Rectangular(rows, |names|)
    ensures r.Err? <==> exists c :: c in CyclicalColumns && c !in names
    ensures r.Ok? ==> |r.value| == (if 0 < lookback < |rows| then lookback else |rows|)
    ensures r.Ok? ==> Rectangular(r.value, |names|)
  {
    match MissingCyclical(names)
    case Some(c) => Err(MissingColumn(c))
    case None => Ok(Window(NormalizeRows(names, rows), lookback))
  }

  /**
   * Whatever the input values, every cell of a tensor lies in [0,1], and it is
   * the cell of the table's matching trailing row, normalised by its column's name.
   */
  lemma TensorShape(names: seq<string>, rows: seq<seq<real>>, lookback: nat, t: seq<seq<real>>)
    requires Rectangular(rows, |names|)
    requires Tensor(names, rows, lookback) == Ok(t)
    ensures forall i, k :: 0 <= i < |t| && 0 <= k < |names| ==> 0.0 <= t[i][k] <= 1.0
    ensures forall i, k :: 0 <= i < |t| && 0 <= k < |names| ==>
      t[i][k] == NormalizeCell(names[k], rows[|rows| - |t| + i][k])
  {
    TensorRows(names, rows, lookback, t);
    var all := NormalizeRows(names, rows);
    forall i, k | 0 <= i < |t| && 0 <= k < |names|
      ensures 0.0 <= t[i][k] <= 1.0 && t[i][k] == NormalizeCell(names[k], rows[|rows| - |t| + i][k])
    {
      assert t[i] == all[|rows| - |t| + i];
    }
  }

  /** The tensor's rows are the last normalised rows of the table, in order. */
  lemma TensorRows(names: seq<string>, rows: seq<seq<real>>, lookback: nat, t: seq<seq<real>>)
    requires Rectangular(rows, |names|)
    requires Tensor(names, rows, lookback) == Ok(t)
    ensures |t| == if 0 < lookback < |rows| then lookback else |rows|
    ensures forall i :: 0 <= i < |t| ==> t[i] == NormalizeRows(names, rows)[|rows| - |t| + i]
  {
    TensorIsWindow(names, rows, lookback, t);
    WindowRows(NormalizeRows(names, rows), lookback, t);
  }

  /** A successful conversion is the window of the normalised table. */
  lemma TensorIsWindow(names: seq<string>, rows: seq<seq<real>>, lookback: nat, t: seq<seq<real>>)
    requires Rectangular(rows, |names|)
    requires Tensor(names, rows, lookback) == Ok(t)
    ensures t == Window(NormalizeRows(names, rows), lookback)
  {
    assert MissingCyclical(names).None?;
  }

  /** Each element of a window is the matching element of the trailing rows. */
  lemma WindowRows<T>(xs: seq<T>, lookback: nat, w: seq<T>)
    requires w == Window(xs, lookback)
    ensures forall i :: 0 <= i < |w| ==> w[i] == xs[|xs| - |w| + i]
  {
    forall i | 0 <= i < |w| ensures w[i] == xs[|xs| - |w| + i] {
      assert w[i] == xs[|xs| - |w|..][i];
    }
  }
}
