/**
 * `DigitalTwinModel` (src/temp_pre.py): the state the forecaster keeps
 * between its steps (`target_rooms`, `input_dim`, the network and its
 * training flag) and the four operations that set or use it.
 */
module TempPre {
  import opened Results
  import opened ColumnSelection
  import opened Normalization
  import opened Forecasting

  /** Widths of the two hidden layers of the dense stack. */
  const HiddenWidth1: nat := 1024
  const HiddenWidth2: nat := 512

  /**
   * What the model needs of the network: the width of its first and of its
   * last layer, and whether the weights came from a file.
   */
  datatype Network = Network(inputWidth: nat, outputWidth: nat, weightsLoaded: bool)
  {
    /**
     * The layer widths, input to output: the flattened window, two hidden
     * layers narrowing from 1024 to 512, then one output per room and step.
     */
    function Widths(): (w: seq<nat>)
      ensures |w| == 4 && w[0] == inputWidth && w[3] == outputWidth
      ensures w[1] == HiddenWidth1 && w[2] == HiddenWidth2
    {
      [inputWidth, HiddenWidth1, HiddenWidth2, outputWidth]
    }
  }

  /** The column layout `prepare_clean_df` produces and the resampling aggregation per feature. */
  datatype PreparedFrame = PreparedFrame(columns: seq<string>, aggregation: map<string, Aggregation>)

  /** `init_network` before `dataframe_to_tensor`: `lookback_steps * None` fails. */
  datatype InitError = InputDimUnset

  /** `predict_future` without a network, or with an output that does not reshape. */
  datatype PredictError = NoNetwork | ShapeMismatch

  class DigitalTwinModel {
    const lookbackSteps: nat
    const forecastSteps: nat
    var inputDim: Option<nat>
    var targetRooms: seq<string>
    var net: Option<Network>
    var training: bool

    constructor (lookbackSteps: nat := 144, forecastSteps: nat := 18)
      ensures this.lookbackSteps == lookbackSteps && this.forecastSteps == forecastSteps
      ensures inputDim == None && targetRooms == [] && net == None && training
    {
      this.lookbackSteps := lookbackSteps;
      this.forecastSteps := forecastSteps;
      inputDim := None;
      targetRooms := [];
      net := None;
      training := true;
    }

    /**
     * The column side of `prepare_clean_df` for a table with columns
     * `columns`: records the target rooms and returns the columns of the
     * resampled table with their aggregations. Every returned column is free
     * of watermeter names and every target room is one of them.
     */
    method PrepareCleanDf(columns: seq<string>) returns (prepared: PreparedFrame)
      modifies this`targetRooms
      ensures targetRooms == PreparedTargetRooms(columns)
      ensures prepared.columns == PreparedColumns(columns)
      ensures prepared.aggregation == Aggregations(SelectedColumns(columns))
      ensures forall c :: c in prepared.columns ==> !IsWatermeter(c)
      ensures forall c :: c in targetRooms ==> c in prepared.columns
    {
      var cols := IndexColumns(columns);
      cols := WithoutWatermeter(cols);
      targetRooms := TargetRooms(cols);
      var features := FeatureColumns(cols);
      var aggregation := Aggregations(features);
      prepared := PreparedFrame(features + CyclicalColumns, aggregation);
      PreparedHasNoWatermeter(columns);
      TargetRoomsAmongFeatures(cols);
    }

    /**
     * `dataframe_to_tensor`: normalises the table column by column, clips it
     * to [0,1], keeps the trailing `lookbackSteps` rows and records the width.
     */
    method DataFrameToTensor(names: seq<string>, rows: seq<seq<real>>) returns (r: Result<seq<seq<real>>, TensorError>)
      requires Rectangular(rows, |names|)
      modifies this`inputDim
      ensures r == Tensor(names, rows, lookbackSteps)
      ensures inputDim == if r.Ok? then Some(|names|) else old(inputDim)
    {
      var temperature := NormalizeTemperatureColumns(names, rows);
      var pir := ClipPirColumns(names, temperature);
      var shifted := ShiftCyclicalColumns(names, pir);
      if shifted.Err? {
        return Err(shifted.error);
      }
      var df := ClipAll(shifted.value);
      StagesCompose(names, rows, temperature, pir, shifted.value, df);
      if |df| > lookbackSteps {
        df := df[NegativeSliceStart(lookbackSteps, |df|)..];
      }
      inputDim := Some(|names|);
      r := Ok(df);
    }

    /**
     * `init_network`: builds the dense stack from `lookbackSteps * inputDim`
     * inputs to one output per target room and forecast step, and loads the
     * weights when a non-empty path to an existing file is given, which also
     * switches the model out of training mode. `pathExists` is what
     * `os.path.exists` answers for that path. The result says which of the
     * two cases happened.
     */
    method InitNetwork(modelPath: Option<string>, pathExists: bool) returns (r: Result<bool, InitError>)
      modifies this`net, this`training
      ensures old(inputDim).None? ==> r == Err(InputDimUnset) && net == old(net) && training == old(training)
      ensures old(inputDim).Some? ==>
        var loaded := modelPath.Some? && modelPath.value != "" && pathExists;
        && r == Ok(loaded)
        && net == Some(Network(lookbackSteps * inputDim.value, |targetRooms| * forecastSteps, loaded))
        && training == (old(training) && !loaded)
    {
      var numTargets := |targetRooms|;
      var outputDim := numTargets * forecastSteps;
      if inputDim.None? {
        return Err(InputDimUnset);
      }
      var loaded := modelPath.Some? && modelPath.value != "" && pathExists;
      net := Some(Network(lookbackSteps * inputDim.value, outputDim, loaded));
      if loaded {
        training := false;
      }
      r := Ok(loaded);
    }

    /**
     * `predict_future`, given `rawOut`, the flat output of the forward pass:
     * fails without a network or when the output does not reshape into one
     * row of `forecastSteps` values per target room; otherwise returns the
     * decoded forecast for every target room, in order.
     */
    method PredictFuture(rawOut: seq<real>) returns (r: Result<ForecastResult, PredictError>)
      ensures net.None? ==> r == Err(NoNetwork)
      ensures net.Some? && |rawOut| != |targetRooms| * forecastSteps ==> r == Err(ShapeMismatch)
      ensures net.Some? && |rawOut| == |targetRooms| * forecastSteps ==>
        r == Ok(ForecastResult(ForecastMeta, Decode(targetRooms, forecastSteps, rawOut)))
    {
      if net.None? {
        return Err(NoNetwork);
      }
      if |rawOut| != |targetRooms| * forecastSteps {
        return Err(ShapeMismatch);
      }
      var rooms: seq<RoomForecast> := [];
      var i := 0;
      while i < |targetRooms|
        invariant 0 <= i <= |targetRooms|
        invariant |rooms| == i
        invariant forall k :: 0 <= k < i ==>
          rooms[k] == RoomForecast(targetRooms[k], RoomPoints(RoomRow(rawOut, forecastSteps, |targetRooms|, k)))
      {
        var row := RoomRow(rawOut, forecastSteps, |targetRooms|, i);
        var actualTemps := seq(|row|, j requires 0 <= j < |row| => DenormalizeTemperature(row[j]));
        var points := seq(|actualTemps|, j requires 0 <= j < |actualTemps| => Point((j + 1) * StepMinutes, actualTemps[j]));
        assert points == RoomPoints(row);
        rooms := rooms + [RoomForecast(targetRooms[i], points)];
        i := i + 1;
      }
      assert rooms == Decode(targetRooms, forecastSteps, rawOut);
      r := Ok(ForecastResult(ForecastMeta, rooms));
    }
  }

  /** The three column passes followed by the table-wide clip normalise every cell by its column's name. */
  lemma StagesCompose(names: seq<string>, rows: seq<seq<real>>, temperature: seq<seq<real>>,
                      pir: seq<seq<real>>, shifted: seq<seq<real>>, clipped: seq<seq<real>>)
    requires Rectangular(rows, |names|)
    requires |temperature| == |rows| && Rectangular(temperature, |names|)
    requires forall i, k :: 0 <= i < |rows| && 0 <= k < |names| ==>
      temperature[i][k] == TemperatureStage(names[k], rows[i][k])
    requires |pir| == |rows| && Rectangular(pir, |names|)
    requires forall i, k :: 0 <= i < |rows| && 0 <= k < |names| ==>
      pir[i][k] == PirStage(names[k], temperature[i][k])
    requires |shifted| == |rows| && Rectangular(shifted, |names|)
    requires forall i, k :: 0 <= i < |rows| && 0 <= k < |names| ==>
      shifted[i][k] == CyclicalStage(names[k], pir[i][k])
    requires clipped == ClipAll(shifted)
    ensures clipped == NormalizeRows(names, rows)
  {
    var all := NormalizeRows(names, rows);
    forall i | 0 <= i < |rows| ensures clipped[i] == all[i] {
      forall k | 0 <= k < |names| ensures clipped[i][k] == all[i][k] { }
    }
  }

  /** The loop over the temperature-named columns: `df[col] = (df[col] - 10) / 35`. */
  method NormalizeTemperatureColumns(names: seq<string>, rows: seq<seq<real>>) returns (df: seq<seq<real>>)
    requires Rectangular(rows, |names|)
    ensures |df| == |rows| && Rectangular(df, |names|)
    ensures forall i, k :: 0 <= i < |rows| && 0 <= k < |names| ==>
      df[i][k] == TemperatureStage(names[k], rows[i][k])
  {
    df := rows;
    var j := 0;
    while j < |names|
      invariant 0 <= j <= |names|
      invariant |df| == |rows| && Rectangular(df, |names|)
      invariant forall i, k {:trigger df[i][k]} :: 0 <= i < |rows| && 0 <= k < |names| ==>
        df[i][k] == if k < j then TemperatureStage(names[k], rows[i][k]) else rows[i][k]
    {
      if IsTemperature(names[j]) {
        df := MapColumn(df, j, NormalizeTemperature);
      }
      j := j + 1;
    }
  }

  /** The loop over the PIR-named columns: `df[col] = df[col].clip(0, 1)`. */
  method ClipPirColumns(names: seq<string>, rows: seq<seq<real>>) returns (df: seq<seq<real>>)
    requires Rectangular(rows, |names|)
    ensures |df| == |rows| && Rectangular(df, |names|)
    ensures forall i, k :: 0 <= i < |rows| && 0 <= k < |names| ==>
      df[i][k] == PirStage(names[k], rows[i][k])
  {
    df := rows;
    var j := 0;
    while j < |names|
      invariant 0 <= j <= |names|
      invariant |df| == |rows| && Rectangular(df, |names|)
      invariant forall i, k {:trigger df[i][k]} :: 0 <= i < |rows| && 0 <= k < |names| ==>
        df[i][k] == if k < j then PirStage(names[k], rows[i][k]) else rows[i][k]
    {
      if IsPir(names[j]) {
        df := MapColumn(df, j, Clip);
      }
      j := j + 1;
    }
  }

  /**
   * The loop over the four time-encoding columns: `df[col] = (df[col] + 1) / 2`,
   * which fails on the first of them that the table lacks.
   */
  method ShiftCyclicalColumns(names: seq<string>, rows: seq<seq<real>>) returns (r: Result<seq<seq<real>>, TensorError>)
    requires Rectangular(rows, |names|)
    ensures MissingCyclical(names).Some? ==> r == Err(MissingColumn(MissingCyclical(names).value))
    ensures MissingCyclical(names).None? ==> r.Ok? && |r.value| == |rows| && Rectangular(r.value, |names|)
    ensures r.Ok? ==> forall i, k :: 0 <= i < |rows| && 0 <= k < |names| ==>
      r.value[i][k] == CyclicalStage(names[k], rows[i][k])
  {
    var df := rows;
    var t := 0;
    while t < |CyclicalColumns|
      invariant 0 <= t <= |CyclicalColumns|
      invariant forall u :: 0 <= u < t ==> CyclicalColumns[u] in names
      invariant |df| == |rows| && Rectangular(df, |names|)
      invariant forall i, k {:trigger df[i][k]} :: 0 <= i < |rows| && 0 <= k < |names| ==>
        df[i][k] == if names[k] in CyclicalColumns[..t] then ShiftCyclical(rows[i][k]) else rows[i][k]
    {
      var col := CyclicalColumns[t];
      if col !in names {
        return Err(MissingColumn(col));
      }
      df := MapNamed(df, names, col, ShiftCyclical);
      t := t + 1;
    }
    assert CyclicalColumns[..t] == CyclicalColumns;
    r := Ok(df);
  }

  /**
   * The tensor fills the network's input exactly when the table had at least
   * `lookback` rows: a shorter table is passed on unpadded and is too narrow.
   */
  lemma ShortWindowMisfits(names: seq<string>, rows: seq<seq<real>>, lookback: nat, t: seq<seq<real>>)
    requires Rectangular(rows, |names|) && |names| > 0 && lookback > 0
    requires Tensor(names, rows, lookback) == Ok(t)
    ensures |t| * |names| == lookback * |names| <==> |rows| >= lookback
  {
    TensorShape(names, rows, lookback, t);
  }
}
