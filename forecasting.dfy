/**
 * The decode half of `DigitalTwinModel.predict_future` (src/temp_pre.py):
 * the network's flat output is read as one row of `forecast_steps` values per
 * target room, each value is denormalised to degrees Celsius and paired with
 * its offset in minutes.
 */
module Forecasting {
  import opened Normalization

  /** One predicted temperature, `offset_min` minutes ahead. */
  datatype Point = Point(offsetMin: nat, temp: real)

  /** The forecast of one room, in time order. */
  datatype RoomForecast = RoomForecast(room: string, points: seq<Point>)

  datatype Meta = Meta(kind: string, horizon: string, resolution: string)

  /**
   * The result dictionary: `meta`, then `rooms` as an ordered list of
   * (room, points) entries.
   */
  datatype ForecastResult = ForecastResult(meta: Meta, rooms: seq<RoomForecast>)

  /** The fixed `meta` block; the horizon text does not follow `forecast_steps`. */
  const ForecastMeta: Meta := Meta("Multi-Room Prediction (No Watermeter)", "3 Hours", "10 min")

  /** The resolution of a forecast, in minutes. */
  const StepMinutes: nat := 10

  lemma MulSucc(a: nat, steps: nat)
    ensures (a + 1) * steps == a * steps + steps
  {
  }

  /** Row `i` of an `n`-row matrix ends within the matrix. */
  lemma {:induction false} RowBound(i: nat, n: nat, steps: nat)
    requires i < n
    ensures i * steps + steps <= n * steps
    decreases n
  {
    MulSucc(n - 1, steps);
    if i < n - 1 {
      RowBound(i, n - 1, steps);
    }
  }

  /** `raw.view(n, steps)[i]`: the `i`-th row of a row-major `n` by `steps` matrix. */
  function RoomRow(raw: seq<real>, steps: nat, n: nat, i: nat): (row: seq<real>)
    requires i < n && |raw| == n * steps
    ensures |row| == steps
  {
    RowBound(i, n, steps);
    raw[i * steps..i * steps + steps]
  }

  /** The points of one room from its row of normalised outputs. */
  function RoomPoints(row: seq<real>): seq<Point>
  {
    seq(|row|, j requires 0 <= j < |row| => Point((j + 1) * StepMinutes, DenormalizeTemperature(row[j])))
  }

  /**
   * The `rooms` part of the result of `predict_future` for a flat output `raw`:
   * one entry per target room, in order, each with exactly `steps` points.
   */
  function Decode(rooms: seq<string>, steps: nat, raw: seq<real>): (r: seq<RoomForecast>)
    requires |raw| == |rooms| * steps
    ensures |r| == |rooms|
    ensures forall i :: 0 <= i < |rooms| ==> r[i].room == rooms[i] && |r[i].points| == steps
  {
    seq(|rooms|, i requires 0 <= i < |rooms| => RoomForecast(rooms[i], RoomPoints(RoomRow(raw, steps, |rooms|, i))))
  }

  /** The normalised values of a room's points, in time order. */
  function Temps(points: seq<Point>): seq<real>
  {
    seq(|points|, j requires 0 <= j < |points| => NormalizeTemperature(points[j].temp))
  }

  /** The flat network output a list of room forecasts was decoded from. */
  function Encode(rooms: seq<RoomForecast>): seq<real>
  {
    if rooms == [] then [] else Temps(rooms[0].points) + Encode(rooms[1..])
  }

  /** One decoded point: the denormalised output at row `i`, column `j`, with offset `(j+1)*10`. */
  lemma DecodeCell(rooms: seq<string>, steps: nat, raw: seq<real>, i: nat, j: nat)
    requires |raw| == |rooms| * steps && i < |rooms| && j < steps
    ensures i * steps + j < |raw|
    ensures |Decode(rooms, steps, raw)[i].points| == steps
    ensures Decode(rooms, steps, raw)[i].points[j] == Point((j + 1) * 10, raw[i * steps + j] * 35.0 + 10.0)
  {
    RowBound(i, |rooms|, steps);
    var row := RoomRow(raw, steps, |rooms|, i);
    assert Decode(rooms, steps, raw)[i].points == RoomPoints(row);
    assert row[j] == raw[i * steps + j];
  }

  /** Within every room the offsets rise strictly, from 10 up to `steps * 10`. */
  lemma OffsetsIncrease(rooms: seq<string>, steps: nat, raw: seq<real>)
    requires |raw| == |rooms| * steps
    ensures forall i, j, k :: 0 <= i < |rooms| && 0 <= j < k < steps ==>
      Decode(rooms, steps, raw)[i].points[j].offsetMin < Decode(rooms, steps, raw)[i].points[k].offsetMin
    ensures forall i :: 0 <= i < |rooms| && steps > 0 ==>
      Decode(rooms, steps, raw)[i].points[0].offsetMin == 10 &&
      Decode(rooms, steps, raw)[i].points[steps - 1].offsetMin == steps * 10
  {
    forall i, j | 0 <= i < |rooms| && 0 <= j < steps {
      DecodeCell(rooms, steps, raw, i, j);
    }
  }

  /** Row `i+1` of a matrix is row `i` of the matrix without its first row. */
  lemma RowShift(raw: seq<real>, steps: nat, n: nat, i: nat)
    requires i + 1 < n && |raw| == n * steps
    ensures |raw[steps..]| == (n - 1) * steps
    ensures RoomRow(raw, steps, n, i + 1) == RoomRow(raw[steps..], steps, n - 1, i)
  {
    MulSucc(n - 1, steps);
    MulSucc(i, steps);
    RowBound(i, n - 1, steps);
    RowBound(i + 1, n, steps);
    var start := i * steps;
    assert (i + 1) * steps == start + steps;
    assert raw[steps..][start..start + steps] == raw[steps + start..steps + start + steps];
  }

  /** Dropping the first room of a decoded result is decoding the rest of the output. */
  lemma DecodeTail(rooms: seq<string>, steps: nat, raw: seq<real>)
    requires |rooms| > 0 && |raw| == |rooms| * steps
    ensures |raw[steps..]| == |rooms[1..]| * steps
    ensures Decode(rooms, steps, raw)[1..] == Decode(rooms[1..], steps, raw[steps..])
  {
    var n := |rooms|;
    MulSucc(n - 1, steps);
    var a := Decode(rooms, steps, raw)[1..];
    var b := Decode(rooms[1..], steps, raw[steps..]);
    forall i | 0 <= i < n - 1 ensures a[i] == b[i] {
      RowShift(raw, steps, n, i);
    }
  }

  /** Denormalising a row into points and normalising back gives the row. */
  lemma TempsOfPoints(row: seq<real>)
    ensures Temps(RoomPoints(row)) == row
  {
    forall j | 0 <= j < |row| ensures Temps(RoomPoints(row))[j] == row[j] {
      TemperatureRoundTrip(row[j]);
    }
  }

  /**
   * Decoding loses nothing: flattening the rooms' normalised temperatures in
   * room order gives back the network's output.
   */
  lemma {:induction false} DecodeRoundTrip(rooms: seq<string>, steps: nat, raw: seq<real>)
    requires |raw| == |rooms| * steps
    ensures Encode(Decode(rooms, steps, raw)) == raw
    decreases |rooms|
  {
    if rooms != [] {
      var n := |rooms|;
      MulSucc(n - 1, steps);
      calc {
        Encode(Decode(rooms, steps, raw));
      == { EncodeUnfold(Decode(rooms, steps, raw)); }
        Temps(Decode(rooms, steps, raw)[0].points) + Encode(Decode(rooms, steps, raw)[1..]);
      == { FirstRow(rooms, steps, raw); TempsOfPoints(raw[..steps]); }
        raw[..steps] + Encode(Decode(rooms, steps, raw)[1..]);
      == { DecodeTail(rooms, steps, raw); }
        raw[..steps] + Encode(Decode(rooms[1..], steps, raw[steps..]));
      == { DecodeRoundTrip(rooms[1..], steps, raw[steps..]); }
        raw[..steps] + raw[steps..];
      }
      assert raw == raw[..steps] + raw[steps..];
    }
  }

  lemma EncodeUnfold(rooms: seq<RoomForecast>)
    requires rooms != []
    ensures Encode(rooms) == Temps(rooms[0].points) + Encode(rooms[1..])
  {
  }

  /** The first room's points come from the first `steps` outputs. */
  lemma FirstRow(rooms: seq<string>, steps: nat, raw: seq<real>)
    requires rooms != [] && |raw| == |rooms| * steps
    ensures steps <= |raw|
    ensures Decode(rooms, steps, raw)[0].points == RoomPoints(raw[..steps])
  {
    RowBound(0, |rooms|, steps);
    assert RoomRow(raw, steps, |rooms|, 0) == raw[..steps];
  }
}
