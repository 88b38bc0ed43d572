/**
 * The request and payload helpers of src/api_call.py: the URL that
 * `query_endpoint` builds and the sentinel it returns for a failed request,
 * `datetime_to_unix`, and `extract_reading_data`. The HTTP request itself is
 * not modelled; its outcome is a parameter.
 */
module ApiCall {
  import opened Results
  import opened TextUtil

  const BaseUrl: string := "https://api.calculus.group/v3"

  const MicrosPerSecond: int := 1000000

  /* ---------------------------------------------------------------- time */

  /** A tzinfo: what its `utcoffset(dt)` answers, in microseconds, or None. */
  datatype TzInfo = TzInfo(utcOffset: Option<int>)

  /**
   * A datetime: its wall-clock reading, counted in microseconds from
   * 1970-01-01 00:00 on that same clock, and its tzinfo, if any.
   */
  datatype DateTime = DateTime(wallMicros: int, tzinfo: Option<TzInfo>)

  /** The exception `datetime_to_unix` raises for a naive datetime. */
  datatype ValueError = ValueError(message: string)

  /** An aware datetime: it has a tzinfo and that tzinfo gives an offset. */
  predicate IsAware(dt: DateTime)
  {
    dt.tzinfo.Some? && dt.tzinfo.value.utcOffset.Some?
  }

  /**
   * The instant an aware datetime denotes, in microseconds since the UTC
   * epoch: a clock ahead of UTC (positive offset) reads later than the
   * instant, and a UTC clock reads the instant itself.
   */
  function UtcMicros(dt: DateTime): (r: int)
    requires IsAware(dt)
    ensures dt.tzinfo.value.utcOffset.value > 0 <==> r < dt.wallMicros
    ensures dt.tzinfo.value.utcOffset.value == 0 <==> r == dt.wallMicros
  {
    dt.wallMicros - dt.tzinfo.value.utcOffset.value
  }

  /**
   * `int(a / b)` for `b > 0`: Python's `int` of a float truncates toward zero,
   * so the quotient times `b` never overshoots `a` in magnitude and falls
   * short of it by less than `b`.
   */
  function TruncDiv(a: int, b: int): (r: int)
    requires b > 0
    ensures a >= 0 ==> 0 <= a - r * b < b
    ensures a < 0 ==> 0 <= r * b - a < b
  {
    if a >= 0 then a / b
    else
      var q := (-a) / b;
      assert -a == q * b + (-a) % b;
      -q
  }

  /**
   * `datetime_to_unix`: fails for a naive datetime; otherwise the whole
   * seconds from the UTC epoch to the instant, truncated toward zero (so
   * toward the epoch for instants before it).
   */
  function DatetimeToUnix(dt: DateTime): (r: Result<int, ValueError>)
    ensures r.Err? <==> dt.tzinfo.None? || dt.tzinfo.value.utcOffset.None?
    ensures r.Ok? && UtcMicros(dt) >= 0 ==> 0 <= UtcMicros(dt) - r.value * MicrosPerSecond < MicrosPerSecond
    ensures r.Ok? && UtcMicros(dt) < 0 ==> 0 <= r.value * MicrosPerSecond - UtcMicros(dt) < MicrosPerSecond
  {
    if !IsAware(dt) then Err(ValueError("Datetime object must have time zone information"))
    else Ok(TruncDiv(UtcMicros(dt), MicrosPerSecond))
  }

  /** Two representations of the same instant, in whatever zones, give the same timestamp. */
  lemma SameInstantSameUnix(a: DateTime, b: DateTime)
    requires IsAware(a) && IsAware(b) && UtcMicros(a) == UtcMicros(b)
    ensures DatetimeToUnix(a) == DatetimeToUnix(b)
  {
  }

  /** The UTC datetime of a Unix timestamp. */
  function UnixToUtc(seconds: int): DateTime
  {
    DateTime(seconds * MicrosPerSecond, Some(TzInfo(Some(0))))
  }

  /**
   * A timestamp converted to a datetime converts back to itself, and an
   * instant on a whole second survives the trip to a timestamp and back.
   */
  lemma UnixRoundTrip(seconds: int, dt: DateTime)
    ensures DatetimeToUnix(UnixToUtc(seconds)) == Ok(seconds)
    ensures IsAware(dt) && UtcMicros(dt) % MicrosPerSecond == 0 ==>
      UtcMicros(UnixToUtc(DatetimeToUnix(dt).value)) == UtcMicros(dt)
  {
    var u := seconds * MicrosPerSecond;
    if seconds >= 0 {
      assert u / MicrosPerSecond == seconds;
    } else {
      assert (-u) / MicrosPerSecond == -seconds;
    }
    if IsAware(dt) && UtcMicros(dt) % MicrosPerSecond == 0 {
      var v := UtcMicros(dt);
      var q := v / MicrosPerSecond;
      assert v == q * MicrosPerSecond;
      if v < 0 {
        assert (-v) / MicrosPerSecond == -q;
      }
    }
  }

  /* ------------------------------------------------------- the request */

  /** What the HTTP request produced: a parsed body, or the exception it raised. */
  datatype Transport<J> = Responded(body: J) | TimedOut | HttpStatusError | OtherRequestError

  /** What `query_endpoint` returns after issuing the request: the body or a sentinel string. */
  datatype Reply<J> = Json(body: J) | Sentinel(message: string)

  /**
   * The `try`/`except` chain: a timeout, an HTTP status error and any other
   * request exception each become their own sentinel; a body passes through.
   */
  function Classify<J>(t: Transport<J>): (r: Reply<J>)
    ensures r.Json? <==> t.Responded?
    ensures t.Responded? ==> r.body == t.body
    ensures r == Sentinel("Timeout") <==> t.TimedOut?
    ensures r == Sentinel("HTTP Error") <==> t.HttpStatusError?
    ensures r == Sentinel("Other API Error") <==> t.OtherRequestError?
  {
    match t
    case Responded(body) => Json(body)
    case TimedOut => Sentinel("Timeout")
    case HttpStatusError => Sentinel("HTTP Error")
    case OtherRequestError => Sentinel("Other API Error")
  }

  /** The classification loses nothing: different outcomes give different replies. */
  lemma ClassifyInjective<J>(a: Transport<J>, b: Transport<J>)
    requires Classify(a) == Classify(b)
    ensures a == b
  {
  }

  /** The names of the two query parameters. */
  const StartParam: string := "unixTimestampStart"
  const EndParam: string := "unixTimestampEnd"

  /** One `name=value` query parameter with a decimal value; it adds no `&` or `?` of its own. */
  function Param(name: string, value: int): (r: string)
    ensures '&' !in name && '?' !in name ==> '&' !in r && '?' !in r
  {
    DecimalAvoids(value, '&');
    DecimalAvoids(value, '?');
    name + "=" + IntToDecimal(value)
  }

  /** The two bounds as parameters, `&`-separated. */
  function QueryBody(start: int, end: int): string
  {
    Param(StartParam, start) + "&" + Param(EndParam, end)
  }

  /** The query string carrying the two bounds: it holds one `?`, at its start. */
  function QueryString(start: int, end: int): (r: string)
    ensures |r| > 1 && r[0] == '?' && '?' !in r[1..]
  {
    QueryBodyPlain(start, end);
    var r := "?" + QueryBody(start, end);
    assert r[1..] == QueryBody(start, end);
    r
  }

  /**
   * The path part of the URL: the base and `/assets`, the asset segment only
   * when an asset id is given, and the endpoint last. It holds a `?` only if
   * the endpoint or the asset id does.
   */
  function UrlPath(endpoint: string, assetId: Option<string>): (r: string)
    ensures StartsWith(r, BaseUrl + "/assets")
    ensures EndsWith(r, "/" + endpoint)
    ensures '?' !in endpoint && (assetId.Some? ==> '?' !in assetId.value) ==> '?' !in r
  {
    BaseUrl + "/assets" + (if assetId.Some? then "/" + assetId.value else "") + "/" + endpoint
  }

  /** The whole URL: the path, followed by a query string exactly when there are bounds. */
  function RequestUrl(endpoint: string, assetId: Option<string>, bounds: Option<(int, int)>): (r: string)
    ensures StartsWith(r, UrlPath(endpoint, assetId))
    ensures r == UrlPath(endpoint, assetId) <==> bounds.None?
  {
    UrlPath(endpoint, assetId) + (if bounds.Some? then QueryString(bounds.value.0, bounds.value.1) else "")
  }

  /** What `query_endpoint` does: raise before any request, or issue it and report the reply. */
  datatype QueryOutcome<J> = Raised(error: ValueError) | Requested(url: string, reply: Reply<J>)

  /**
   * `query_endpoint`: builds the URL piece by piece, adds the time bounds
   * only when both are given (converting them may raise), then issues the
   * request, whose outcome is `transport`, and classifies it.
   */
  method QueryEndpoint<J>(endpoint: string, assetId: Option<string>, startTime: Option<DateTime>,
                          endTime: Option<DateTime>, transport: Transport<J>) returns (r: QueryOutcome<J>)
    ensures r.Raised? <==> startTime.Some? && endTime.Some? && !(IsAware(startTime.value) && IsAware(endTime.value))
    ensures r.Requested? ==> r.reply == Classify(transport)
    ensures r.Requested? && startTime.Some? && endTime.Some? ==>
      r.url == RequestUrl(endpoint, assetId,
        Some((DatetimeToUnix(startTime.value).value, DatetimeToUnix(endTime.value).value)))
    ensures r.Requested? && (startTime.None? || endTime.None?) ==> r.url == RequestUrl(endpoint, assetId, None)
  {
    var url := BaseUrl + "/assets";
    if assetId.Some? {
      url := url + "/" + assetId.value;
    }
    url := url + "/" + endpoint;
    assert url == UrlPath(endpoint, assetId);
    if startTime.Some? && endTime.Some? {
      var startUnix := DatetimeToUnix(startTime.value);
      if startUnix.Err? {
        return Raised(startUnix.error);
      }
      var endUnix := DatetimeToUnix(endTime.value);
      if endUnix.Err? {
        return Raised(endUnix.error);
      }
      url := url + QueryString(startUnix.value, endUnix.value);
      assert url == RequestUrl(endpoint, assetId, Some((startUnix.value, endUnix.value)));
    } else {
      assert url == RequestUrl(endpoint, assetId, None);
    }
    r := Requested(url, Classify(transport));
  }

  /** Two separator-free strings joined by the separator split back into the two. */
  lemma PairSplit(a: string, b: string, d: char)
    requires d !in a && d !in b
    ensures Split(a + [d] + b, d) == [a, b]
  {
    SplitAfterFirst(a, b, d);
  }

  /** A parameter splits at `=` into its name and its decimal value. */
  lemma ParamReadsBack(name: string, value: int)
    requires '=' !in name
    ensures Split(Param(name, value), '=') == [name, IntToDecimal(value)]
  {
    DecimalAvoids(value, '=');
    assert Param(name, value) == name + ['='] + IntToDecimal(value);
    PairSplit(name, IntToDecimal(value), '=');
  }

  lemma ParamNamesPlain()
    ensures '=' !in StartParam && '&' !in StartParam && '?' !in StartParam
    ensures '=' !in EndParam && '&' !in EndParam && '?' !in EndParam
  {
  }

  /** The query body holds no `?`. */
  lemma QueryBodyPlain(start: int, end: int)
    ensures '?' !in QueryBody(start, end)
  {
    ParamNamesPlain();
  }

  /** A path without `?` followed by a query string splits at `?` into the path and the body. */
  lemma QuerySplit(path: string, start: int, end: int)
    requires '?' !in path
    ensures Split(path + QueryString(start, end), '?') == [path, QueryBody(start, end)]
  {
    QueryBodyPlain(start, end);
    PrefixedSplit(path, QueryBody(start, end), '?');
  }

  /** `a`, the separator, then `b`, split back into `a` and `b`. */
  lemma PrefixedSplit(a: string, b: string, d: char)
    requires d !in a && d !in b
    ensures Split(a + ([d] + b), d) == [a, b]
  {
    assert a + ([d] + b) == a + [d] + b;
    PairSplit(a, b, d);
  }

  /**
   * The URL has a query string exactly when bounds are given: split at `?`,
   * it is the path alone, or the path and the query string after its `?`.
   */
  lemma UrlSplitsAtQuery(endpoint: string, assetId: Option<string>, bounds: Option<(int, int)>)
    requires '?' !in endpoint && (assetId.Some? ==> '?' !in assetId.value)
    ensures bounds.None? ==> Split(RequestUrl(endpoint, assetId, bounds), '?') == [UrlPath(endpoint, assetId)]
    ensures bounds.Some? ==>
      Split(RequestUrl(endpoint, assetId, bounds), '?') ==
      [UrlPath(endpoint, assetId), QueryBody(bounds.value.0, bounds.value.1)]
  {
    var path := UrlPath(endpoint, assetId);
    assert '?' !in BaseUrl && '?' !in "/assets" && '?' !in "/";
    assert '?' !in path;
    if bounds.Some? {
      QuerySplit(path, bounds.value.0, bounds.value.1);
    } else {
      assert RequestUrl(endpoint, assetId, bounds) == path;
    }
  }

  /**
   * The path reads back as its segments: after the base, split at `/`, it is
   * `assets`, then the asset id exactly when one is given, then the endpoint.
   */
  lemma UrlPathReadsBack(endpoint: string, assetId: Option<string>)
    requires '/' !in endpoint && (assetId.Some? ==> '/' !in assetId.value)
    ensures |BaseUrl| <= |UrlPath(endpoint, assetId)|
    ensures Split(UrlPath(endpoint, assetId)[|BaseUrl|..], '/') ==
      ["", "assets"] + (if assetId.Some? then [assetId.value] else []) + [endpoint]
  {
    var rest := (if assetId.Some? then assetId.value + "/" else "") + endpoint;
    UrlPathTail(endpoint, assetId);
    RestSegments(endpoint, assetId, rest);
    assert '/' !in "assets";
    LeadingSegments("assets", rest);
  }

  /** After the base, the path is `/assets/`, the asset id and `/` when given, then the endpoint. */
  lemma UrlPathTail(endpoint: string, assetId: Option<string>)
    ensures |BaseUrl| <= |UrlPath(endpoint, assetId)|
    ensures UrlPath(endpoint, assetId)[|BaseUrl|..] ==
      ['/'] + "assets" + ['/'] + ((if assetId.Some? then assetId.value + "/" else "") + endpoint)
  {
    var tail := ['/'] + "assets" + ['/'] + ((if assetId.Some? then assetId.value + "/" else "") + endpoint);
    assert UrlPath(endpoint, assetId) == BaseUrl + tail;
  }

  /** The segments after `/assets/`: the asset id when given, then the endpoint. */
  lemma RestSegments(endpoint: string, assetId: Option<string>, rest: string)
    requires '/' !in endpoint && (assetId.Some? ==> '/' !in assetId.value)
    requires rest == (if assetId.Some? then assetId.value + "/" else "") + endpoint
    ensures Split(rest, '/') == (if assetId.Some? then [assetId.value] else []) + [endpoint]
  {
    if assetId.Some? {
      assert rest == assetId.value + ['/'] + endpoint;
      SplitAfterFirst(assetId.value, endpoint, '/');
    } else {
      assert rest == endpoint;
    }
  }

  /** `/`, a separator-free `a`, `/` and a rest split into an empty piece, `a`, then the pieces of the rest. */
  lemma LeadingSegments(a: string, rest: string)
    requires '/' !in a
    ensures Split(['/'] + a + ['/'] + rest, '/') == ["", a] + Split(rest, '/')
  {
    var inner := a + ['/'] + rest;
    assert ['/'] + a + ['/'] + rest == [] + ['/'] + inner;
    SplitAfterFirst([], inner, '/');
    SplitAfterFirst(a, rest, '/');
  }

  /**
   * The query string reads back as the bounds it carries: two `&`-separated
   * parameters, each its name, `=`, and a decimal timestamp that parses to
   * the bound it came from.
   */
  lemma QueryStringReadsBack(start: int, end: int)
    ensures Split(QueryBody(start, end), '&') == [Param(StartParam, start), Param(EndParam, end)]
    ensures Split(Param(StartParam, start), '=') == [StartParam, IntToDecimal(start)]
    ensures Split(Param(EndParam, end), '=') == [EndParam, IntToDecimal(end)]
    ensures IsIntLiteral(IntToDecimal(start)) && ParseInt(IntToDecimal(start)) == start
    ensures IsIntLiteral(IntToDecimal(end)) && ParseInt(IntToDecimal(end)) == end
  {
    ParamNamesPlain();
    ParamReadsBack(StartParam, start);
    ParamReadsBack(EndParam, end);
    assert QueryString(start, end)[1..] == QueryBody(start, end);
    PairSplit(Param(StartParam, start), Param(EndParam, end), '&');
  }

  /* ------------------------------------------------------ the payload */

  /** One time-keyed value of a data series. */
  datatype Entry<T, V> = Entry(key: T, value: V)

  /** A data series: its compound key and its values. */
  datatype Series<T, V> = Series(key: string, value: seq<Entry<T, V>>)

  /** A data source: its name (the sensor type) and its series. */
  datatype DataSource<T, V> = DataSource(name: string, dataSeries: seq<Series<T, V>>)

  datatype Payload<T, V> = Payload(dataSources: seq<DataSource<T, V>>)

  /** A value of the record dictionary. */
  datatype Field<T, V> = Text(text: string) | Stamp(stamp: T) | Reading(reading: V)

  /** A record dictionary, keyed by column name. */
  type Record<T, V> = map<string, Field<T, V>>

  /** `extract_reading_data` fails on a series key without `|`: `key_parts[1]` is out of range. */
  datatype ExtractError = MalformedKey(key: string)

  /**
   * The sensor key of a compound series key: its second `|`-piece up to the
   * first `#`. A key has one exactly when it holds a `|`, and a sensor key
   * never holds `#` or `|`.
   */
  function SensorKey(seriesKey: string): (r: Option<string>)
    ensures r.Some? <==> '|' in seriesKey
    ensures r.Some? ==> '#' !in r.value && '|' !in r.value
  {
    var parts := Split(seriesKey, '|');
    if |parts| < 2 then None
    else
      SplitPieceWithin(parts[1], '#');
      Some(Split(parts[1], '#')[0])
  }

  /** The first piece of a split uses only characters of the whole. */
  lemma SplitPieceWithin(s: string, d: char)
    ensures forall c :: c in Split(s, d)[0] ==> c in s
  {
    if d in s {
      var i := IndexOf(s, d);
      assert Split(s, d)[0] == s[..i];
    }
  }

  /** Splitting at a first separator that follows `a` gives `a`, then the pieces of the rest. */
  lemma SplitAfterFirst(a: string, rest: string, d: char)
    requires d !in a
    ensures Split(a + [d] + rest, d) == [a] + Split(rest, d)
  {
    var x := a + [d] + rest;
    assert x[|a|] == d;
    var i := IndexOf(x, d);
    assert x[..|a|] == a;
    assert i == |a|;
    assert x[..i] == a && x[i + 1..] == rest;
  }

  /**
   * When `s` holds no separator and `t` does not start with one, the first
   * piece of `s + t` is `s` followed by a non-empty start of `t`.
   */
  lemma FirstPieceExtends(s: string, t: string, d: char) returns (u: string)
    requires d !in s && t != [] && t[0] != d
    ensures Split(s + t, d)[0] == s + u && u != [] && u[0] == t[0]
  {
    var x := s + t;
    if d in x {
      var i := IndexOf(x, d);
      assert forall k :: 0 <= k < |s| ==> x[k] == s[k];
      assert x[|s|] == t[0];
      assert i > |s|;
      u := x[|s|..i];
      assert x[..i] == s + u;
    } else {
      u := t;
    }
  }

  /**
   * The sensor key of `a|s…` is `s` when `s` is followed by `#`, by `|`, or by
   * nothing.
   */
  lemma SensorKeyOf(a: string, s: string, tail: string)
    requires '|' !in a && '|' !in s && '#' !in s
    requires tail == [] || tail[0] == '#' || tail[0] == '|'
    ensures SensorKey(a + "|" + s + tail) == Some(s)
  {
    var key := a + "|" + s + tail;
    assert key == a + ['|'] + (s + tail);
    SplitAfterFirst(a, s + tail, '|');
    var second := Split(key, '|')[1];
    assert second == Split(s + tail, '|')[0];
    if tail == [] {
      assert s + tail == s;
      assert second == s;
    } else if tail[0] == '|' {
      SplitHead(s, '|', tail);
      assert second == s;
    } else {
      var u := FirstPieceExtends(s, tail, '|');
      SplitHead(s, '#', u);
    }
  }

  /** A key of the shape the payloads use: the sensor key is the name before the channel number. */
  lemma SensorKeyExample()
    ensures SensorKey("a|battery#1") == Some("battery")
  {
    SensorKeyOf("a", "battery", "#1");
    assert "a" + "|" + "battery" + "#1" == "a|battery#1";
  }

  /**
   * The record of one entry: the value under the sensor key and the asset id,
   * the source's name and the entry's timestamp under their own names, except
   * where the sensor key is one of those names: the later entry of the
   * dictionary literal wins.
   */
  function MakeRecord<T, V>(pid: string, sensorType: string, sensorKey: string, e: Entry<T, V>): (rec: Record<T, V>)
    ensures rec.Keys == {"SensorID", "SensorType", "Timestamp", sensorKey}
    ensures rec[sensorKey] == Reading(e.value)
    ensures sensorKey != "SensorID" ==> rec["SensorID"] == Text(pid)
    ensures sensorKey != "SensorType" ==> rec["SensorType"] == Text(sensorType)
    ensures sensorKey != "Timestamp" ==> rec["Timestamp"] == Stamp(e.key)
  {
    map["SensorID" := Text(pid), "SensorType" := Text(sensorType), "Timestamp" := Stamp(e.key)][sensorKey := Reading(e.value)]
  }

  /** One record per entry, in order, all with the same id, type and sensor key. */
  function EntryRecords<T, V>(pid: string, sensorType: string, sensorKey: string, entries: seq<Entry<T, V>>): (r: seq<Record<T, V>>)
    ensures |r| == |entries|
    ensures forall i :: 0 <= i < |entries| ==> r[i] == MakeRecord(pid, sensorType, sensorKey, entries[i])
  {
    seq(|entries|, i requires 0 <= i < |entries| => MakeRecord(pid, sensorType, sensorKey, entries[i]))
  }

  /**
   * The records of one series: a key without `|` fails; otherwise there is
   * one record per entry.
   */
  function SeriesRecords<T, V>(pid: string, sensorType: string, series: Series<T, V>): (r: Result<seq<Record<T, V>>, ExtractError>)
    ensures r.Ok? <==> '|' in series.key
    ensures r.Err? ==> r.error == MalformedKey(series.key)
    ensures r.Ok? ==> |r.value| == |series.value|
  {
    match SensorKey(series.key)
    case None => Err(MalformedKey(series.key))
    case Some(k) => Ok(EntryRecords(pid, sensorType, k, series.value))
  }

  /**
   * The records of a list of series of one source, in order; the first
   * malformed key fails it. It succeeds exactly when every key holds a `|`,
   * and then yields one record per entry.
   */
  function SourceRecords<T, V>(pid: string, sensorType: string, series: seq<Series<T, V>>): (r: Result<seq<Record<T, V>>, ExtractError>)
    ensures r.Ok? <==> KeysHaveBar(series)
    ensures r.Ok? ==> |r.value| == SeriesEntryCount(series)
    decreases |series|
  {
    if series == [] then Ok([])
    else
      assert forall j :: 0 <= j < |series| - 1 ==> series[..|series| - 1][j] == series[j];
      match SourceRecords(pid, sensorType, series[..|series| - 1])
      case Err(e) => Err(e)
      case Ok(before) =>
        match SeriesRecords(pid, sensorType, series[|series| - 1])
        case Err(e) => Err(e)
        case Ok(last) => Ok(before + last)
  }

  /**
   * The records of a list of sources, in source, series, entry order. It
   * succeeds exactly when every series key holds a `|`, and then yields one
   * record per value entry: the sum of the series lengths.
   */
  function Flatten<T, V>(pid: string, sources: seq<DataSource<T, V>>): (r: Result<seq<Record<T, V>>, ExtractError>)
    ensures r.Ok? <==> WellKeyed(sources)
    ensures r.Ok? ==> |r.value| == EntryCount(sources)
    decreases |sources|
  {
    if sources == [] then Ok([])
    else
      assert forall i :: 0 <= i < |sources| - 1 ==> sources[..|sources| - 1][i] == sources[i];
      match Flatten(pid, sources[..|sources| - 1])
      case Err(e) => Err(e)
      case Ok(before) =>
        match SourceRecords(pid, sources[|sources| - 1].name, sources[|sources| - 1].dataSeries)
        case Err(e) => Err(e)
        case Ok(last) => Ok(before + last)
  }

  /** Once a prefix of the series fails, the whole list fails the same way. */
  lemma {:induction false} SourceRecordsPrefixErr<T, V>(pid: string, sensorType: string, series: seq<Series<T, V>>, k: nat)
    requires k <= |series| && SourceRecords(pid, sensorType, series[..k]).Err?
    ensures SourceRecords(pid, sensorType, series) == SourceRecords(pid, sensorType, series[..k])
    decreases |series|
  {
    if k < |series| {
      assert series[..|series| - 1][..k] == series[..k];
      SourceRecordsPrefixErr(pid, sensorType, series[..|series| - 1], k);
    } else {
      assert series[..k] == series;
    }
  }

  /** Once a prefix of the sources fails, the whole list fails the same way. */
  lemma {:induction false} FlattenPrefixErr<T, V>(pid: string, sources: seq<DataSource<T, V>>, k: nat)
    requires k <= |sources| && Flatten(pid, sources[..k]).Err?
    ensures Flatten(pid, sources) == Flatten(pid, sources[..k])
    decreases |sources|
  {
    if k < |sources| {
      assert sources[..|sources| - 1][..k] == sources[..k];
      FlattenPrefixErr(pid, sources[..|sources| - 1], k);
    } else {
      assert sources[..k] == sources;
    }
  }

  /** `SourceRecords` of one more series: the earlier ones, then this one. */
  lemma SourceRecordsSnoc<T, V>(pid: string, sensorType: string, series: seq<Series<T, V>>, d: nat)
    requires d < |series|
    ensures SourceRecords(pid, sensorType, series[..d + 1]) ==
      if SourceRecords(pid, sensorType, series[..d]).Err? then SourceRecords(pid, sensorType, series[..d])
      else if SeriesRecords(pid, sensorType, series[d]).Err? then Err(SeriesRecords(pid, sensorType, series[d]).error)
      else Ok(SourceRecords(pid, sensorType, series[..d]).value + SeriesRecords(pid, sensorType, series[d]).value)
  {
    assert series[..d + 1][..d] == series[..d];
  }

  /**
   * One step of the loop over the series: a failing series fails the whole
   * source, a succeeding one extends the records so far.
   */
  lemma SourceStep<T, V>(pid: string, sensorType: string, series: seq<Series<T, V>>, d: nat, done: seq<Record<T, V>>)
    requires d < |series| && SourceRecords(pid, sensorType, series[..d]) == Ok(done)
    ensures SeriesRecords(pid, sensorType, series[d]).Err? ==>
      SourceRecords(pid, sensorType, series) == Err(SeriesRecords(pid, sensorType, series[d]).error)
    ensures SeriesRecords(pid, sensorType, series[d]).Ok? ==>
      SourceRecords(pid, sensorType, series[..d + 1]) == Ok(done + SeriesRecords(pid, sensorType, series[d]).value)
  {
    SourceRecordsSnoc(pid, sensorType, series, d);
    if SeriesRecords(pid, sensorType, series[d]).Err? {
      SourceRecordsPrefixErr(pid, sensorType, series, d + 1);
    }
  }

  /** `Flatten` of one more source: the earlier ones, then this one. */
  lemma FlattenSnoc<T, V>(pid: string, sources: seq<DataSource<T, V>>, s: nat)
    requires s < |sources|
    ensures Flatten(pid, sources[..s + 1]) ==
      if Flatten(pid, sources[..s]).Err? then Flatten(pid, sources[..s])
      else if SourceRecords(pid, sources[s].name, sources[s].dataSeries).Err? then
        Err(SourceRecords(pid, sources[s].name, sources[s].dataSeries).error)
      else Ok(Flatten(pid, sources[..s]).value + SourceRecords(pid, sources[s].name, sources[s].dataSeries).value)
  {
    assert sources[..s + 1][..s] == sources[..s];
  }

  /** The innermost loop of `extract_reading_data`: one record per entry of a series, appended in order. */
  method AppendEntries<T, V>(readingData: seq<Record<T, V>>, pid: string, sensorName: string, sensorKey: string,
                             entries: seq<Entry<T, V>>) returns (out: seq<Record<T, V>>)
    ensures out == readingData + EntryRecords(pid, sensorName, sensorKey, entries)
  {
    ghost var records := EntryRecords(pid, sensorName, sensorKey, entries);
    out := readingData;
    var e := 0;
    while e < |entries|
      invariant 0 <= e <= |entries|
      invariant out == readingData + records[..e]
    {
      var entry := entries[e];
      assert records[..e + 1] == records[..e] + [MakeRecord(pid, sensorName, sensorKey, entry)];
      out := out + [MakeRecord(pid, sensorName, sensorKey, entry)];
      e := e + 1;
    }
    assert records[..e] == records;
  }

  /**
   * The body of the loop over the series: splits the key, fails on a key
   * without `|`, and otherwise appends one record per entry.
   */
  method AppendSeries<T, V>(readingData: seq<Record<T, V>>, pid: string, sensorName: string, series: Series<T, V>)
    returns (r: Result<seq<Record<T, V>>, ExtractError>)
    ensures var expected := SeriesRecords(pid, sensorName, series);
      r == if expected.Ok? then Ok(readingData + expected.value) else Err(expected.error)
  {
    var keyParts := Split(series.key, '|');
    if |keyParts| < 2 {
      return Err(MalformedKey(series.key));
    }
    var sensorKey := Split(keyParts[1], '#')[0];
    var out := AppendEntries(readingData, pid, sensorName, sensorKey, series.value);
    r := Ok(out);
  }

  /**
   * One turn of the loop over the series: appends the records of series `d`
   * to those of the series before it, or fails as the whole source does.
   */
  method AppendNextSeries<T, V>(readingData: seq<Record<T, V>>, out: seq<Record<T, V>>, pid: string, sensorName: string,
                                series: seq<Series<T, V>>, d: nat, ghost done: seq<Record<T, V>>)
    returns (next: Result<seq<Record<T, V>>, ExtractError>, ghost done': seq<Record<T, V>>)
    requires d < |series| && SourceRecords(pid, sensorName, series[..d]) == Ok(done) && out == readingData + done
    ensures next.Err? ==> SourceRecords(pid, sensorName, series).Err? && next == Err(SourceRecords(pid, sensorName, series).error)
    ensures next.Ok? ==> SourceRecords(pid, sensorName, series[..d + 1]) == Ok(done') && next.value == readingData + done'
  {
    ghost var records := SeriesRecords(pid, sensorName, series[d]);
    next := AppendSeries(out, pid, sensorName, series[d]);
    SourceStep(pid, sensorName, series, d, done);
    if records.Ok? {
      done' := done + records.value;
      assert next.value == readingData + done';
    } else {
      done' := done;
    }
  }

  /**
   * The loop over the series of one source: appends the records of each
   * series in order, and fails on the first key without `|`.
   */
  method AppendSource<T, V>(readingData: seq<Record<T, V>>, pid: string, source: DataSource<T, V>)
    returns (r: Result<seq<Record<T, V>>, ExtractError>)
    ensures var expected := SourceRecords(pid, source.name, source.dataSeries);
      r == if expected.Ok? then Ok(readingData + expected.value) else Err(expected.error)
  {
    var sensorName := source.name;
    var series := source.dataSeries;
    var out := readingData;
    ghost var done: seq<Record<T, V>> := [];
    var d := 0;
    while d < |series|
      invariant 0 <= d <= |series|
      invariant SourceRecords(pid, sensorName, series[..d]) == Ok(done)
      invariant out == readingData + done
    {
      var next;
      next, done := AppendNextSeries(readingData, out, pid, sensorName, series, d, done);
      if next.Err? {
        return next;
      }
      out := next.value;
      d := d + 1;
    }
    assert series[..d] == series;
    r := Ok(out);
  }

  /**
   * `extract_reading_data`: one record per value entry, walking the sources,
   * their series and their entries in order; a series key without `|` fails
   * the whole call.
   */
  method ExtractReadingData<T, V>(data: Payload<T, V>, pid: string) returns (r: Result<seq<Record<T, V>>, ExtractError>)
    ensures r == Flatten(pid, data.dataSources)
  {
    var sources := data.dataSources;
    var readingData: seq<Record<T, V>> := [];
    var s := 0;
    while s < |sources|
      invariant 0 <= s <= |sources|
      invariant Flatten(pid, sources[..s]) == Ok(readingData)
    {
      var source := sources[s];
      FlattenSnoc(pid, sources, s);
      var appended := AppendSource(readingData, pid, source);
      if appended.Err? {
        FlattenPrefixErr(pid, sources, s + 1);
        return appended;
      }
      readingData := appended.value;
      s := s + 1;
    }
    assert sources[..s] == sources;
    r := Ok(readingData);
  }

  /** The number of value entries over all series of all sources. */
  function EntryCount<T, V>(sources: seq<DataSource<T, V>>): nat
  {
    if sources == [] then 0 else EntryCount(sources[..|sources| - 1]) + SeriesEntryCount(sources[|sources| - 1].dataSeries)
  }

  function SeriesEntryCount<T, V>(series: seq<Series<T, V>>): nat
  {
    if series == [] then 0 else SeriesEntryCount(series[..|series| - 1]) + |series[|series| - 1].value|
  }

  /** Whether every series key holds a `|`. */
  predicate KeysHaveBar<T, V>(series: seq<Series<T, V>>)
  {
    forall j :: 0 <= j < |series| ==> '|' in series[j].key
  }

  /** Whether every series key of every source holds a `|`. */
  predicate WellKeyed<T, V>(sources: seq<DataSource<T, V>>)
  {
    forall i, j :: 0 <= i < |sources| && 0 <= j < |sources[i].dataSeries| ==> '|' in sources[i].dataSeries[j].key
  }

  /**
   * The records of one well-keyed series: the `k`-th is built from its
   * `k`-th entry, with the source's name and the series' sensor key.
   */
  lemma SeriesRecordAt<T, V>(pid: string, sensorType: string, series: Series<T, V>, k: nat)
    requires '|' in series.key && k < |series.value|
    ensures SeriesRecords(pid, sensorType, series).Ok?
    ensures SeriesRecords(pid, sensorType, series).value[k] ==
      MakeRecord(pid, sensorType, SensorKey(series.key).value, series.value[k])
  {
  }
}
