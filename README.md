# Indoor temperature forecaster: a Dafny model

This project models two Python files. The first is `src/temp_pre.py`, the `DigitalTwinModel` of a multi-room indoor temperature forecaster. The second is `src/api_call.py`, the helpers that fetch and flatten the sensor readings it learns from.

The model covers the following parts of `DigitalTwinModel`:

- **`prepare_clean_df`**: the name-based column choices. It drops watermeter columns, records the target rooms, keeps the feature columns, picks a resampling aggregation per column, and appends the four time-encoding columns.
- **`dataframe_to_tensor`**: normalising by column name, clipping to [0,1], keeping the trailing row window, and recording the input width.
- **`init_network`**: the layer widths and whether stored weights are loaded.
- **`predict_future`**: reading the network's flat output as one row per target room and turning it back into degrees Celsius at 10-minute offsets.

From `api_call.py` it covers:

- the URL that `query_endpoint` builds, and the sentinel strings it returns for failed requests;
- `datetime_to_unix`;
- `extract_reading_data`, which flattens an API payload into one record per reading.

Modules (one file each):

- `Results`: the `Option` and `Result` datatypes.
- `TextUtil`: string operations behaving like Python's `str.lower`, `in`, `endswith`, `split` on one character, and `str(int)`/`int(str)`.
- `ColumnSelection`: the column filters of `prepare_clean_df`.
- `Normalization`: cell-level and table-level maps of `dataframe_to_tensor`, and the function `Tensor` that specifies its result.
- `Forecasting`: the decoding of `predict_future` (`Decode`) and its inverse (`Encode`).
- `TempPre`: the class `DigitalTwinModel`. Its fields are `inputDim`, `targetRooms`, `net` and `training`. Each method is proved against the functions above, and the loops of `dataframe_to_tensor` are separate methods with loop invariants.
- `ApiCall`:
  - time conversion, request classification and the URL;
  - the extraction loops, proved against the recursive definition `Flatten`.

Tables are sequences of rows of exact reals, one cell per column name. The network's forward pass is not modelled. `PredictFuture` receives its flat output as a parameter, and `InitNetwork` receives `os.path.exists` as a parameter. The HTTP request is not modelled either: its outcome (a body, a timeout, an HTTP status error, another request error) is a parameter of `QueryEndpoint`.

Behaviour of the code that the model keeps and states:

- A lookback of 0 keeps every row: Python reads `df.iloc[-0:]` as the whole table (`Window`).
- A table with fewer rows than the lookback is passed on unpadded. The tensor then does not fill the network's input (`ShortWindowMisfits`). The code has no "insufficient data" error and no padding. The model follows the code.
- `eval()` is only called when weights are loaded. With random weights the model stays in training mode (`InitNetwork` ensures `training` is unchanged then).
- A setpoint column without `temperature` in its name is only clipped, never normalised (`OtherCell`).
- The `horizon` text of the result is always `"3 Hours"`, whatever `forecast_steps` is.
- A series key without `|` fails the whole extraction, because `key_parts[1]` raises (`Flatten`).
- A sensor key equal to `SensorID`, `SensorType` or `Timestamp` overwrites that field of the record (`MakeRecord`).
- `query_endpoint` returns the sentinel strings for failed requests, not `None` as its docstring says (`Classify`).

## Model

| member | source | states |
|---|---|---|
| TextUtil.Lower | src/temp_pre.py:27 | lower-casing keeps the length and maps each character by itself |
| TextUtil.Contains | src/temp_pre.py:27 | `w in s`: the empty word is in every string, and a word in `s` is no longer than `s` |
| TextUtil.ContainsAt | src/temp_pre.py:27 | an occurrence of `w` at any position makes `w in s` true |
| TextUtil.ContainsWitness | src/temp_pre.py:27 | when `w in s` holds there is a position where `w` occurs |
| TextUtil.EndsWith | src/temp_pre.py:31 | `s.endswith(t)` holds exactly when `t` is no longer than `s` and matches the end of `s` character by character |
| TextUtil.EndsWithContains | src/temp_pre.py:31-35 | a string ending in a word contains it |
| TextUtil.Split | src/api_call.py:82-83 | `split` yields at least one piece, no piece holds the separator, and there is one piece exactly when the separator is absent |
| TextUtil.SplitJoin | src/api_call.py:82 | joining the pieces of a split with the separator gives back the string |
| TextUtil.SplitHead | src/api_call.py:83 | the first piece is everything before the first separator |
| TextUtil.NatToDecimal | src/api_call.py:46 | the decimal rendering is non-empty, all digits, and starts with `0` only when it is exactly `"0"` |
| TextUtil.IntToDecimal | src/api_call.py:46 | `str(i)` is an optional minus sign, present exactly for a negative `i`, then digits that start with `0` only when the whole rendering is `"0"`, and it parses back to `i` |
| ColumnSelection.Keep | src/temp_pre.py:27 | a list-comprehension filter keeps exactly the names the test accepts and is no longer than its input |
| ColumnSelection.KeepAppend | src/temp_pre.py:27 | filtering distributes over concatenation, so the original column order is kept |
| ColumnSelection.KeepNarrow | src/temp_pre.py:31-35 | filtering by a weaker test first leaves a stronger test's result unchanged |
| ColumnSelection.IndexColumns | src/temp_pre.py:21-23 | moving `Timestamp` to the index removes exactly that name from the columns |
| ColumnSelection.WithoutWatermeter | src/temp_pre.py:27 | a name survives exactly when its lower-cased form does not contain `watermeter` |
| ColumnSelection.TargetRooms | src/temp_pre.py:31 | a name is a target room exactly when its lower-cased form ends in `temperature` |
| ColumnSelection.FeatureColumns | src/temp_pre.py:34-36 | a name is a feature exactly when its lower-cased form contains `temperature`, `set` or `pir` |
| ColumnSelection.Aggregations | src/temp_pre.py:39-41 | every feature column gets an aggregation, and it is `max` exactly for the names containing `pir` |
| ColumnSelection.AggregationFor | src/temp_pre.py:40 | a column is aggregated by `max` exactly when its lower-cased name contains `pir`, and by `mean` otherwise |
| ColumnSelection.SelectedColumns | src/temp_pre.py:21-36 | the selected columns are exactly the non-index names that mention no watermeter and contain a feature keyword |
| ColumnSelection.PreparedColumns | src/temp_pre.py:36-48 | the prepared table has the selected columns, then the four time encodings as its last four columns |
| ColumnSelection.PreparedTargetRooms | src/temp_pre.py:21-31 | the target rooms are exactly the non-index names that mention no watermeter and end in `temperature`, and each is a selected column |
| ColumnSelection.WatermeterDroppedInAnyCase | src/temp_pre.py:26-27 | a name holding `watermeter` in any letter case, at any position, is dropped |
| ColumnSelection.CyclicalNamesNeutral | src/temp_pre.py:45-48 | no time-encoding column name matches the watermeter, temperature, PIR or target-room tests |
| ColumnSelection.NotCyclical | src/temp_pre.py:56-67 | a name the temperature or PIR loop touches is not shifted as a time encoding |
| ColumnSelection.PreparedHasNoWatermeter | src/temp_pre.py:26-50 | no column of the prepared table mentions a watermeter |
| ColumnSelection.TargetRoomIsNotSetpoint | src/temp_pre.py:29-31 | a target room never ends in `.set`, as the comment above the filter claims |
| ColumnSelection.TargetRoomsAmongFeatures | src/temp_pre.py:31-36 | every target room is a feature column, and the target rooms picked from the features are the same ordered list |
| Normalization.Clip | src/temp_pre.py:62 | `clip(0, 1)` lies in [0,1], is the identity on [0,1] and returns the nearest point of [0,1] |
| Normalization.NormalizeTemperature | src/temp_pre.py:58 | `(v-10)/35` lands in [0,1] exactly for readings in [10,45] degrees |
| Normalization.DenormalizeTemperature | src/temp_pre.py:124 | `t*35+10` undoes the normalisation, and maps [0,1] exactly onto [10,45] degrees |
| Normalization.ShiftCyclical | src/temp_pre.py:67 | `(v+1)/2` maps exactly [-1,1] onto [0,1] |
| Normalization.TemperatureRoundTrip | src/temp_pre.py:55-58 | normalising and denormalising a temperature are inverse, and exactly [10,45] degrees maps into [0,1] |
| Normalization.NormalizeCell | src/temp_pre.py:56-69 | every normalised cell lies in [0,1] |
| Normalization.TemperatureCell | src/temp_pre.py:56-58 | in a temperature column a reading in [10,45] survives the clip and denormalises back to itself |
| Normalization.PirCell | src/temp_pre.py:60-62 | a PIR column that is not a temperature column is only clipped |
| Normalization.CyclicalCell | src/temp_pre.py:65-67 | a time-encoding value in [-1,1] is shifted into [0,1] and not clipped further |
| Normalization.OtherCell | src/temp_pre.py:69 | any other column is only clipped by the final table-wide clip |
| Normalization.MapColumn | src/temp_pre.py:58 | updating one column changes that column's cells by the map and leaves every other cell |
| Normalization.MapNamed | src/temp_pre.py:67 | updating a named column changes exactly the cells under that name |
| Normalization.ClipAll | src/temp_pre.py:69 | the table-wide clip clips every cell and keeps the shape |
| Normalization.NormalizeRows | src/temp_pre.py:56-69 | every cell is normalised by its own column's name |
| Normalization.Window | src/temp_pre.py:71-72 | the window is the last `lookback` rows when there are more, otherwise every row, always a suffix |
| Normalization.MissingCyclical | src/temp_pre.py:65-67 | reports a time-encoding column exactly when one is absent, and the one it reports is absent |
| Normalization.Tensor | src/temp_pre.py:52-75 | the conversion fails exactly when a time-encoding column is missing; otherwise it has the table's width and the last `lookback` rows, or every row of a table that is not longer |
| Normalization.TensorRows | src/temp_pre.py:71-72 | the tensor rows are the table's last normalised rows in order |
| Normalization.TensorShape | src/temp_pre.py:56-72 | every tensor value lies in [0,1], whatever the input, and each cell is the matching trailing cell of the table, normalised by its column's name |
| Forecasting.RoomRow | src/temp_pre.py:110 | each room's row of the reshaped output has `forecast_steps` values |
| Forecasting.Decode | src/temp_pre.py:122-129 | the decoded rooms are one entry per target room, in order, each with exactly `forecast_steps` points |
| Forecasting.DecodeCell | src/temp_pre.py:110-129 | point `j` of room `i` is the output at `i*steps+j`, denormalised, at offset `(j+1)*10` minutes |
| Forecasting.OffsetsIncrease | src/temp_pre.py:126-128 | offsets rise strictly within a room, from 10 to `forecast_steps*10` |
| Forecasting.DecodeTail | src/temp_pre.py:110 | dropping the first room is decoding the output without its first row |
| Forecasting.TempsOfPoints | src/temp_pre.py:124 | denormalised points normalise back to the row |
| Forecasting.DecodeRoundTrip | src/temp_pre.py:110-129 | decoding loses nothing: re-encoding the rooms gives back the flat output |
| TempPre.DigitalTwinModel.constructor | src/temp_pre.py:9-17 | a new model keeps its step counts, has no input width, no target rooms, no network, and is in training mode |
| TempPre.DigitalTwinModel.PrepareCleanDf | src/temp_pre.py:19-50 | records the target rooms and returns the feature columns plus the time encodings with their aggregations, with no watermeter column, and with every target room among the columns |
| TempPre.DigitalTwinModel.DataFrameToTensor | src/temp_pre.py:52-75 | returns exactly the specified tensor and records the width only when the conversion succeeds |
| TempPre.DigitalTwinModel.InitNetwork | src/temp_pre.py:77-97 | fails without an input width; otherwise builds a network from `lookback*input_dim` inputs to `rooms*forecast_steps` outputs, loads weights exactly for a non-empty existing path, and leaves training mode only then |
| TempPre.DigitalTwinModel.PredictFuture | src/temp_pre.py:102-131 | fails without a network or on an output of the wrong size; otherwise returns the fixed meta block and the decoded forecast of every target room |
| TempPre.Network.Widths | src/temp_pre.py:82-90 | the dense stack has four widths: the flattened window, 1024, 512, and the output width |
| TempPre.NormalizeTemperatureColumns | src/temp_pre.py:56-58 | the temperature loop normalises exactly the temperature-named columns |
| TempPre.ClipPirColumns | src/temp_pre.py:60-62 | the PIR loop clips exactly the PIR-named columns |
| TempPre.ShiftCyclicalColumns | src/temp_pre.py:65-67 | the time-encoding loop fails on the first missing column, else shifts exactly the four time-encoding columns |
| TempPre.StagesCompose | src/temp_pre.py:56-69 | the three column loops followed by the table-wide clip normalise every cell by its column's name |
| TempPre.ShortWindowMisfits | src/temp_pre.py:71-84 | the tensor fills the network input exactly when the table has at least `lookback` rows |
| ApiCall.DatetimeToUnix | src/api_call.py:64-75 | fails exactly for a naive datetime; otherwise gives whole seconds since the epoch, truncated toward zero |
| ApiCall.UtcMicros | src/api_call.py:71 | a clock ahead of UTC reads later than the instant it denotes, and a UTC clock reads the instant itself |
| ApiCall.TruncDiv | src/api_call.py:75 | `int()` of the quotient truncates toward zero: the quotient times the divisor falls short of the dividend's magnitude by less than the divisor |
| ApiCall.SameInstantSameUnix | src/api_call.py:70-75 | the same instant in any two zones gives the same timestamp |
| ApiCall.UnixRoundTrip | src/api_call.py:71-75 | a timestamp turned into a UTC datetime converts back to itself, and a whole-second instant survives the trip |
| ApiCall.Classify | src/api_call.py:48-60 | a body passes through, and each kind of failure has its own sentinel |
| ApiCall.ClassifyInjective | src/api_call.py:52-60 | different request outcomes never give the same reply |
| ApiCall.QueryEndpoint | src/api_call.py:17-60 | raises exactly when both bounds are given and one is naive; otherwise requests the built URL and returns the classified reply |
| ApiCall.UrlPathReadsBack | src/api_call.py:36-41 | after the base, the path splits at `/` into `assets`, then the asset id exactly when one is given, then the endpoint |
| ApiCall.UrlPath | src/api_call.py:36-41 | the path starts with the base and `/assets`, ends with `/` and the endpoint, and holds a `?` only if the endpoint or the asset id does |
| ApiCall.RequestUrl | src/api_call.py:36-46 | the URL starts with the path, and is the path alone exactly when there are no bounds |
| ApiCall.QueryString | src/api_call.py:46 | the query string holds exactly one `?`, at its start |
| ApiCall.Param | src/api_call.py:46 | a query parameter adds no `&` or `?` beyond those in its name |
| ApiCall.ParamReadsBack | src/api_call.py:46 | a query parameter splits at `=` into its name and its decimal value |
| ApiCall.QuerySplit | src/api_call.py:41-46 | a path followed by the query string splits at `?` into the path and the parameters |
| ApiCall.UrlSplitsAtQuery | src/api_call.py:36-46 | the URL has a query part exactly when both bounds are given |
| ApiCall.QueryStringReadsBack | src/api_call.py:46 | the query parameters split back into the two bounds, which parse to the timestamps they came from |
| ApiCall.SensorKeyOf | src/api_call.py:82-83 | the sensor key of a key made of a bar-free prefix, a bar, a bar-free and `#`-free name `s` and then `#`, a bar or nothing, is `s` |
| ApiCall.SensorKeyExample | src/api_call.py:83 | a key of the form prefix, bar, `battery#1` has the sensor key `battery` |
| ApiCall.SensorKey | src/api_call.py:82-83 | a series key has a sensor key exactly when it holds a vertical bar, and a sensor key holds neither `#` nor a bar |
| ApiCall.MakeRecord | src/api_call.py:87 | a record holds the reading under the sensor key, and id, type and timestamp unless the sensor key collides with one of them, the later dictionary entry winning |
| ApiCall.EntryRecords | src/api_call.py:84-87 | one record per entry, in order, the `k`-th built from the `k`-th entry |
| ApiCall.SeriesRecords | src/api_call.py:82-87 | one series fails with its key when the key has no vertical bar, and otherwise yields one record per entry |
| ApiCall.SourceRecords | src/api_call.py:81-87 | a source succeeds exactly when all its keys hold a vertical bar, and then yields one record per entry |
| ApiCall.Flatten | src/api_call.py:77-88 | extraction succeeds exactly when every series key holds a vertical bar, and then yields as many records as there are entries over all series |
| ApiCall.SourceRecordsPrefixErr | src/api_call.py:81-83 | a malformed key fails every longer list of series in the same way |
| ApiCall.FlattenPrefixErr | src/api_call.py:79-83 | a failing source fails every longer list of sources in the same way |
| ApiCall.AppendEntries | src/api_call.py:84-87 | the entry loop appends one record per entry, in order |
| ApiCall.AppendSeries | src/api_call.py:81-87 | one series fails on a key without a vertical bar, else appends its records |
| ApiCall.AppendSource | src/api_call.py:81-87 | the series loop appends each series' records in order and fails on the first malformed key |
| ApiCall.ExtractReadingData | src/api_call.py:77-88 | the extraction returns exactly the flattened records of all sources, or the first failure |
| ApiCall.SeriesRecordAt | src/api_call.py:82-87 | record `k` of a series is built from its `k`-th entry with the source's name and the series' sensor key |

## Left out

- The HTTP request, the API token and its header, the `timeout_seconds` parameter, and `load_assets_from_json` are left out: they are I/O. The request's outcome is a parameter of `QueryEndpoint`.
- The `dry_run` and `header` parameters of `query_endpoint` are never read by the code: the request is always issued, with the module-level headers. `QueryEndpoint` has no such parameters and always issues the request.
- `Classify`, `ClassifyInjective`: `Classify` returns a tagged `Reply`, and `ClassifyInjective` holds only because of the tag. Python returns either the parsed JSON or a plain string, so a JSON body that is itself the string `"Timeout"` would be indistinguishable there.
- `DatetimeToUnix` works on a wall-clock reading already counted in microseconds and on a given UTC offset. Calendar arithmetic and `ZoneInfo` lookup are left out.
- `DatetimeToUnix` truncates the exact quotient of microseconds by 10^6. The source truncates `total_seconds()`, a double rounded to nearest. The two agree within 2^34 seconds (about 544 years) of the epoch. Farther out, half an ulp exceeds one microsecond, so a fraction of .999999 rounds up to the next whole second. Example: 2999-12-31T23:59:59.999999+00:00 gives 32503680000 in Python and 32503679999 in the model.
- `prepare_clean_df` is modelled on column names only. Timestamp parsing, time-zone conversion, 10-minute resampling, interpolation, forward and backward filling, and the sine/cosine values are pandas and numpy numerics on the row values.
- The network's forward pass, dropout, `torch.load`/`load_state_dict` errors, and `torch.float32` rounding are left out. Tables are exact reals.
- `NormalizeCell`, `TensorShape`: missing values (NaN) are not modelled, so the [0,1] guarantee covers non-missing values only. In the source a channel with no samples stays NaN through `interpolate().ffill().bfill()`, `(NaN-10)/35` is NaN, and `clip(0, 1)` leaves NaN as it is.
- `PredictFuture`: the forecast values are not rounded to two decimals, because there is no float rounding on reals.
- `PredictFuture` returns the rooms as an ordered list. The Python dictionary would merge two target rooms with the same name. Column names are taken to be distinct throughout.
- `TextUtil.Lower` only folds the ASCII letters A-Z, whereas Python's `str.lower` is full Unicode.
- `DataFrameToTensor`'s per-column loops run once per column position. With duplicate column labels pandas would update every column of that label once per occurrence, which is not modelled.
- `InitNetwork` records only the layer widths and whether weights were loaded, not the weights.
- Negative `lookback_steps` and `forecast_steps` are excluded by typing them as natural numbers.
