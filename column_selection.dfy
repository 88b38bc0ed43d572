/**
 * The name-based column choices of `DigitalTwinModel.prepare_clean_df`
 * (src/temp_pre.py): each list comprehension over `df.columns` keeps the
 * names a predicate accepts, in their original order.
 */
module ColumnSelection {
  import opened TextUtil

  /** How `resample('10min')` aggregates one column. */
  datatype Aggregation = Mean | Max

  /** The four time-encoding columns appended after resampling. */
  const CyclicalColumns: seq<string> := ["hour_sin", "hour_cos", "day_sin", "day_cos"]

  predicate NotTimestamp(c: string) { c != "Timestamp" }

  predicate IsWatermeter(c: string) { Contains(Lower(c), "watermeter") }

  predicate NotWatermeter(c: string) { !IsWatermeter(c) }

  /** A living-space temperature channel: the lower-cased name ends in `temperature`. */
  predicate IsTargetRoom(c: string) { EndsWith(Lower(c), "temperature") }

  predicate IsTemperature(c: string) { Contains(Lower(c), "temperature") }

  predicate IsPir(c: string) { Contains(Lower(c), "pir") }

  /** A name containing one of the keywords `temperature`, `set`, `pir`. */
  predicate IsFeature(c: string)
  {
    IsTemperature(c) || Contains(Lower(c), "set") || IsPir(c)
  }

  /** `[c for c in cols if p(c)]`. */
  function Keep(cols: seq<string>, p: string -> bool): (r: seq<string>)
    ensures |r| <= |cols|
    ensures forall c :: c in r <==> c in cols && p(c)
    decreases |cols|
  {
    if cols == [] then []
    else (if p(cols[0]) then [cols[0]] else []) + Keep(cols[1..], p)
  }

  /** Filtering distributes over concatenation, so the kept names stay in their original order. */
  lemma {:induction false} KeepAppend(a: seq<string>, b: seq<string>, p: string -> bool)
    ensures Keep(a + b, p) == Keep(a, p) + Keep(b, p)
    decreases |a|
  {
    if a == [] {
      assert a + b == b;
    } else {
      var head := if p(a[0]) then [a[0]] else [];
      calc {
        Keep(a + b, p);
      == { KeepUnfold(a + b, p); assert (a + b)[0] == a[0] && (a + b)[1..] == a[1..] + b; }
        head + Keep(a[1..] + b, p);
      == { KeepAppend(a[1..], b, p); }
        head + (Keep(a[1..], p) + Keep(b, p));
      == { KeepUnfold(a, p); }
        Keep(a, p) + Keep(b, p);
      }
    }
  }

  lemma KeepUnfold(cols: seq<string>, p: string -> bool)
    requires cols != []
    ensures Keep(cols, p) == (if p(cols[0]) then [cols[0]] else []) + Keep(cols[1..], p)
  {
  }

  /** Filtering by a weaker test first does not change the result of a stronger one. */
  lemma {:induction false} KeepNarrow(cols: seq<string>, p: string -> bool, q: string -> bool)
    requires forall c :: q(c) ==> p(c)
    ensures Keep(Keep(cols, p), q) == Keep(cols, q)
    decreases |cols|
  {
    if cols != [] {
      KeepNarrow(cols[1..], p, q);
      var kept := Keep(cols, p);
      if p(cols[0]) {
        assert kept == [cols[0]] + Keep(cols[1..], p);
        assert kept != [] && kept[0] == cols[0] && kept[1..] == Keep(cols[1..], p);
        assert Keep(kept, q) == (if q(cols[0]) then [cols[0]] else []) + Keep(kept[1..], q);
      } else {
        assert kept == Keep(cols[1..], p);
        assert !q(cols[0]);
      }
    }
  }

  /** `set_index('Timestamp')` takes the timestamp column out of the columns. */
  function IndexColumns(cols: seq<string>): (r: seq<string>)
    ensures forall c :: c in r <==> c in cols && c != "Timestamp"
  {
    Keep(cols, NotTimestamp)
  }

  /** Step 1 of `prepare_clean_df`: drop every column whose name mentions a watermeter. */
  function WithoutWatermeter(cols: seq<string>): (r: seq<string>)
    ensures forall c :: c in r <==> c in cols && !Contains(Lower(c), "watermeter")
  {
    Keep(cols, NotWatermeter)
  }

  /** Step 2: the target rooms, the names whose lower-cased form ends in `temperature`. */
  function TargetRooms(cols: seq<string>): (r: seq<string>)
    ensures forall c :: c in r <==> c in cols && EndsWith(Lower(c), "temperature")
  {
    Keep(cols, IsTargetRoom)
  }

  /** Step 3: the feature columns, the names containing `temperature`, `set` or `pir`. */
  function FeatureColumns(cols: seq<string>): (r: seq<string>)
    ensures forall c :: c in r <==>
      c in cols && (Contains(Lower(c), "temperature") || Contains(Lower(c), "set") || Contains(Lower(c), "pir"))
  {
    Keep(cols, IsFeature)
  }

  /** The aggregation of one column: `max` exactly when its lower-cased name contains `pir`. */
  function AggregationFor(c: string): (r: Aggregation)
    ensures r == Max <==> Contains(Lower(c), "pir")
    ensures r == Mean <==> !Contains(Lower(c), "pir")
  {
    if IsPir(c) then Max else Mean
  }

  /** Step 4: the aggregation dictionary handed to `resample(...).agg`. */
  function Aggregations(cols: seq<string>): (r: map<string, Aggregation>)
    ensures r.Keys == set c | c in cols
    ensures forall c :: c in r ==> (r[c] == Max <==> Contains(Lower(c), "pir"))
  {
    map c | c in cols :: AggregationFor(c)
  }

  /**
   * The feature columns of a raw table, before the time encodings are
   * appended: the names other than `Timestamp` that mention no watermeter and
   * contain a feature keyword.
   */
  function SelectedColumns(raw: seq<string>): (r: seq<string>)
    ensures forall c :: c in r <==> c in raw && c != "Timestamp" && !IsWatermeter(c) && IsFeature(c)
  {
    FeatureColumns(WithoutWatermeter(IndexColumns(raw)))
  }

  /** The columns `prepare_clean_df` returns: the features, then the four time encodings last. */
  function PreparedColumns(raw: seq<string>): (r: seq<string>)
    ensures |r| == |SelectedColumns(raw)| + 4
    ensures r[|r| - 4..] == CyclicalColumns
    ensures forall c :: c in r <==> c in SelectedColumns(raw) || c in CyclicalColumns
  {
    SelectedColumns(raw) + CyclicalColumns
  }

  /**
   * The target rooms `prepare_clean_df` records for a raw table: the names
   * other than `Timestamp` that mention no watermeter and end in
   * `temperature`, every one of them a feature column.
   */
  function PreparedTargetRooms(raw: seq<string>): (r: seq<string>)
    ensures forall c :: c in r <==> c in raw && c != "Timestamp" && !IsWatermeter(c) && IsTargetRoom(c)
    ensures forall c :: c in r ==> c in SelectedColumns(raw)
  {
    TargetRoomsAmongFeatures(WithoutWatermeter(IndexColumns(raw)));
    TargetRooms(WithoutWatermeter(IndexColumns(raw)))
  }

  /**
   * A name holding `watermeter` in any letter case, at any position, never
   * survives the filter.
   */
  lemma WatermeterDroppedInAnyCase(cols: seq<string>, c: string, u: string, i: nat)
    requires Lower(u) == "watermeter"
    requires i + |u| <= |c| && c[i..i + |u|] == u
    ensures c !in WithoutWatermeter(cols)
  {
    LowerSlice(c, i, i + |u|);
    ContainsAt(Lower(c), "watermeter", i);
  }

  /** No time-encoding column name holds any of the keywords the filters look for. */
  lemma CyclicalNamesNeutral(c: string)
    requires c in CyclicalColumns
    ensures !IsWatermeter(c) && !IsTemperature(c) && !IsPir(c) && !IsTargetRoom(c)
  {
    CyclicalNamesShort(c);
    LowerAvoids(c, 'p');
    AbsentFirstCharNotContained(Lower(c), "pir");
  }

  /** The time-encoding names are at most eight characters long and hold no `p` in either case. */
  lemma CyclicalNamesShort(c: string)
    requires c in CyclicalColumns
    ensures |c| <= 8 && 'p' !in c && 'P' !in c
  {
  }

  /** A name the temperature or PIR tests accept is not a time-encoding column. */
  lemma NotCyclical(c: string)
    requires IsTemperature(c) || IsPir(c)
    ensures c !in CyclicalColumns
  {
    forall x | x in CyclicalColumns ensures x != c {
      CyclicalNamesNeutral(x);
    }
  }

  /** Every column `prepare_clean_df` returns is free of watermeter names. */
  lemma PreparedHasNoWatermeter(raw: seq<string>)
    ensures forall c :: c in PreparedColumns(raw) ==> !IsWatermeter(c)
  {
    forall c | c in PreparedColumns(raw)
      ensures !IsWatermeter(c)
    {
      if c in CyclicalColumns { CyclicalNamesNeutral(c); }
    }
  }

  /** A target room never ends in `.set`: the suffix `temperature` rules that out. */
  lemma TargetRoomIsNotSetpoint(c: string)
    requires IsTargetRoom(c)
    ensures !EndsWith(Lower(c), ".set")
  {
    var s := Lower(c);
    assert s[|s| - 1] == "temperature"[10] == 'e';
  }

  /**
   * Every target room is a feature column, and picking the target rooms out of
   * the feature columns gives the same ordered list as picking them out of all
   * remaining columns.
   */
  lemma TargetRoomsAmongFeatures(cols: seq<string>)
    ensures Keep(FeatureColumns(cols), IsTargetRoom) == TargetRooms(cols)
    ensures forall c :: c in TargetRooms(cols) ==> c in FeatureColumns(cols)
  {
    forall c | IsTargetRoom(c) ensures IsFeature(c) {
      EndsWithContains(Lower(c), "temperature");
    }
    KeepNarrow(cols, IsFeature, IsTargetRoom);
  }
}
