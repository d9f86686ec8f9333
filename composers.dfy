/** The composers that turn one raw sample into output metrics: DefaultMetricsComposer
    passes the value through, CounterMetricsComposer emits the increase since the cached
    sample, SummaryMetricsComposer emits count and sum increases and their ratio. The two
    delta composers overwrite the cached sample afterwards. */
module Composers {
  import opened Common
  import opened Domain
  import opened Cache

  /** The exceptions a composer can raise: an index past the end of the sample's values
      array (or of the cached sample's). */
  datatype ComposeError = MissingValue(index: nat) | MissingCachedValue(index: nat)

  /** An output metric for data: the given name and value, the sample's time formatted by
      format (SimpleDateFormat), and host, port and the sample's tags. */
  function MetricFor(data: RawData, name: string, value: real, format: int -> string): MetricData
  {
    MetricData(name, BaseTags(data.host, data.port, TagsOrEmpty(data)), format(data.time), value)
  }

  /** The reset guard: the increase over the cached reading when there is one and the new
      reading is not below it, the reading itself otherwise. */
  function Delta(cur: real, prev: Option<real>): (r: real)
    ensures prev.Some? && prev.value <= cur ==> r == cur - prev.value && r >= 0.0
    ensures prev.None? || cur < prev.value ==> r == cur
  {
    match prev
    case Some(p) => if cur >= p then cur - p else cur
    case None => cur
  }

  /** sum / count, and 0 when count is 0. */
  function Rate(count: real, sum: real): (r: real)
    ensures count != 0.0 ==> r * count == sum
    ensures count == 0.0 ==> r == 0.0
  {
    if count == 0.0 then 0.0 else sum / count
  }

  /** DefaultMetricsComposer.apply. */
  function DefaultCompose(data: RawData, format: int -> string): Result<seq<MetricData>, ComposeError>
  {
    if |data.values| < 1 then Err(MissingValue(0))
    else Ok([MetricFor(data, data.name, data.values[0], format)])
  }

  /** The first value of the cached sample, read only when there is one. */
  function CachedFirst(prev: Option<RawData>): Result<Option<real>, ComposeError>
  {
    match prev
    case None => Ok(None)
    case Some(cached) => if |cached.values| < 1 then Err(MissingCachedValue(0)) else Ok(Some(cached.values[0]))
  }

  /** CounterMetricsComposer.apply, given what the cache held for the sample's key. It
      fails exactly when the sample or the cached sample has no value. Otherwise it emits
      the default composer's single metric with the value replaced: the increase over the
      cached value when that is not larger, the raw value when nothing is cached or the
      counter was reset. With nothing cached it is the default composer. */
  function CounterCompose(data: RawData, prev: Option<RawData>, format: int -> string): (r: Result<seq<MetricData>, ComposeError>)
    ensures r.Ok? <==> data.values != [] && (prev.None? || prev.value.values != [])
    ensures r.Ok? ==>
              && |r.value| == 1
              && r.value[0] == DefaultCompose(data, format).value[0].(value := r.value[0].value)
              && (prev.None? ==> r.value[0].value == data.values[0])
              && (prev.Some? && data.values[0] < prev.value.values[0] ==> r.value[0].value == data.values[0])
              && (prev.Some? && data.values[0] >= prev.value.values[0] ==>
                    r.value[0].value == data.values[0] - prev.value.values[0] && r.value[0].value >= 0.0)
    ensures prev.None? ==> r == DefaultCompose(data, format)
  {
    if |data.values| < 1 then Err(MissingValue(0))
    else match CachedFirst(prev)
      case Err(e) => Err(e)
      case Ok(p) => Ok([MetricFor(data, data.name, Delta(data.values[0], p), format)])
  }

  /** The three metrics of a summary: "<name>_count", "<name>_sum" and the bare name with
      the rate. */
  function SummaryMetrics(data: RawData, count: real, sum: real, format: int -> string): seq<MetricData>
  {
    [ MetricFor(data, data.name + "_count", count, format),
      MetricFor(data, data.name + "_sum", sum, format),
      MetricFor(data, data.name, Rate(count, sum), format) ]
  }

  /** The count and sum a summary reports: increases over the cached sample when its
      count is not larger, the raw readings otherwise. The cached sum is read only when
      that guard passes. */
  function SummaryReadings(data: RawData, prev: Option<RawData>): Result<(real, real), ComposeError>
  {
    if |data.values| < 1 then Err(MissingValue(0))
    else if |data.values| < 2 then Err(MissingValue(1))
    else
      var count := data.values[0];
      var sum := data.values[1];
      match prev
      case None => Ok((count, sum))
      case Some(cached) =>
        if |cached.values| < 1 then Err(MissingCachedValue(0))
        else if count >= cached.values[0] then
          if |cached.values| < 2 then Err(MissingCachedValue(1))
          else Ok((count - cached.values[0], sum - cached.values[1]))
        else Ok((count, sum))
  }

  /** SummaryMetricsComposer.apply, given what the cache held for the sample's key. It
      fails exactly when the sample lacks count or sum, the cached sample lacks a count, or
      the guard passes and the cached sample lacks a sum. Otherwise it emits
      "<name>_count", "<name>_sum" and "<name>" with one timestamp and one tag map; count
      and sum are increases when the cached count is not larger, raw values otherwise, and
      the third value times the count is the sum (0 for a zero count). */
  function SummaryCompose(data: RawData, prev: Option<RawData>, format: int -> string): (r: Result<seq<MetricData>, ComposeError>)
    ensures r.Ok? <==>
              && |data.values| >= 2
              && (prev.Some? ==> |prev.value.values| >= 1
                                 && (data.values[0] >= prev.value.values[0] ==> |prev.value.values| >= 2))
    ensures r.Ok? ==>
              var reset := prev.None? || data.values[0] < prev.value.values[0];
              && |r.value| == 3
              && r.value[0].metric == data.name + "_count"
              && r.value[1].metric == data.name + "_sum"
              && r.value[2].metric == data.name
              && (forall k :: 0 <= k < 3 ==>
                    r.value[k].timestamp == format(data.time) && r.value[k].tags == BaseTags(data.host, data.port, TagsOrEmpty(data)))
              && (reset ==> r.value[0].value == data.values[0] && r.value[1].value == data.values[1])
              && (!reset ==> r.value[0].value == data.values[0] - prev.value.values[0]
                             && r.value[1].value == data.values[1] - prev.value.values[1]
                             && r.value[0].value >= 0.0)
              && (r.value[0].value != 0.0 ==> r.value[2].value * r.value[0].value == r.value[1].value)
              && (r.value[0].value == 0.0 ==> r.value[2].value == 0.0)
  {
    match SummaryReadings(data, prev)
    case Err(e) => Err(e)
    case Ok(cs) => Ok(SummaryMetrics(data, cs.0, cs.1, format))
  }

  /** The default composer fails only on an empty values array; otherwise it emits exactly
      one metric named as the sample, with its first value, its formatted time, and host,
      port and the sample's tags. */
  lemma DefaultShape(data: RawData, format: int -> string)
    ensures DefaultCompose(data, format).Err? <==> data.values == []
    ensures DefaultCompose(data, format).Ok? ==>
              var r := DefaultCompose(data, format).value;
              && |r| == 1
              && r[0].metric == data.name
              && r[0].value == data.values[0]
              && r[0].timestamp == format(data.time)
              && r[0].tags == BaseTags(data.host, data.port, TagsOrEmpty(data))
              && |r[0].tags| >= 2 && Keys(r[0].tags)[..2] == ["host", "port"]
              && (data.tags.None? ==> Keys(r[0].tags) == ["host", "port"])
  {
    if data.values != [] {
      BaseTagsKeys(data.host, data.port, TagsOrEmpty(data));
      if data.tags.None? {
        var t := BaseTags(data.host, data.port, []);
        assert t == HostPort(data.host, data.port);
        HostPortShape(data.host, data.port);
      }
    }
  }

  lemma SummaryFromReadings(data: RawData, prev: Option<RawData>, format: int -> string, count: real, sum: real)
    requires SummaryReadings(data, prev) == Ok((count, sum))
    ensures SummaryCompose(data, prev, format) == Ok(SummaryMetrics(data, count, sum, format))
  {
  }

  /** Readings never decrease from one to the next. */
  predicate NonDecreasing(xs: seq<real>)
  {
    forall i, j :: 0 <= i < j < |xs| ==> xs[i] <= xs[j]
  }

  /** The values a counter composer emits for successive readings of one key, added up;
      prev is the reading cached before the first. */
  function Emitted(xs: seq<real>, prev: Option<real>): real
  {
    if xs == [] then 0.0 else Delta(xs[0], prev) + Emitted(xs[1..], Some(xs[0]))
  }

  /** Telescoping: over readings that never decrease and start no lower than the cached
      one, the emitted increases add up to the last reading minus the cached one (to the
      last reading when nothing was cached). */
  lemma {:induction false} EmittedTotal(xs: seq<real>, prev: Option<real>)
    requires xs != [] && NonDecreasing(xs)
    requires prev.Some? ==> prev.value <= xs[0]
    ensures Emitted(xs, prev) == xs[|xs| - 1] - (if prev.Some? then prev.value else 0.0)
  {
    if |xs| > 1 {
      EmittedTotal(xs[1..], Some(xs[0]));
      assert xs[1..][|xs[1..]| - 1] == xs[|xs| - 1];
    }
  }

  /** CounterMetricsComposer: the counter composer bound to the shared cache. */
  class CounterMetricsComposer {
    const cacheService: CacheService

    constructor(cacheService: CacheService)
      ensures this.cacheService == cacheService
    {
      this.cacheService := cacheService;
    }

    /** apply: compose against the cached sample, then cache the new one. An exception
        leaves the cache untouched. */
    method Apply(data: RawData, format: int -> string) returns (r: Result<seq<MetricData>, ComposeError>)
      modifies cacheService
      requires cacheService.Valid()
      ensures cacheService.Valid()
      ensures r == CounterCompose(data, old(cacheService.Get(data)), format)
      ensures r.Ok? ==> cacheService.datas == Domain.Put(old(cacheService.datas), KeyOf(data), data)
      ensures r.Err? ==> cacheService.datas == old(cacheService.datas)
      ensures cacheService.file == old(cacheService.file)
    {
      var oldData := cacheService.Get(data);
      if |data.values| < 1 {
        return Err(MissingValue(0));
      }
      var value := data.values[0];
      if oldData.Some? {
        if |oldData.value.values| < 1 {
          return Err(MissingCachedValue(0));
        }
        if data.values[0] >= oldData.value.values[0] {
          value := data.values[0] - oldData.value.values[0];
        }
      }
      assert CachedFirst(oldData).Ok? && value == Delta(data.values[0], CachedFirst(oldData).value);
      r := Ok([MetricFor(data, data.name, value, format)]);
      cacheService.Put(data);
    }
  }

  /** The first half of SummaryMetricsComposer.apply: read count and sum, then replace
      them by their increases when the cached count is not larger. */
  method ReadSummary(data: RawData, oldData: Option<RawData>) returns (r: Result<(real, real), ComposeError>)
    ensures r == SummaryReadings(data, oldData)
  {
    if |data.values| < 1 {
      return Err(MissingValue(0));
    }
    if |data.values| < 2 {
      return Err(MissingValue(1));
    }
    var count := data.values[0];
    var sum := data.values[1];
    if oldData.Some? {
      if |oldData.value.values| < 1 {
        return Err(MissingCachedValue(0));
      }
      if data.values[0] >= oldData.value.values[0] {
        if |oldData.value.values| < 2 {
          return Err(MissingCachedValue(1));
        }
        count := data.values[0] - oldData.value.values[0];
        sum := data.values[1] - oldData.value.values[1];
      }
    }
    return Ok((count, sum));
  }

  /** SummaryMetricsComposer: the summary composer bound to the shared cache. */
  class SummaryMetricsComposer {
    const cacheService: CacheService

    constructor(cacheService: CacheService)
      ensures this.cacheService == cacheService
    {
      this.cacheService := cacheService;
    }

    /** apply: compose against the cached sample, then cache the new one. An exception
        leaves the cache untouched. */
    method Apply(data: RawData, format: int -> string) returns (r: Result<seq<MetricData>, ComposeError>)
      modifies cacheService
      requires cacheService.Valid()
      ensures cacheService.Valid()
      ensures r == SummaryCompose(data, old(cacheService.Get(data)), format)
      ensures r.Ok? ==> cacheService.datas == Domain.Put(old(cacheService.datas), KeyOf(data), data)
      ensures r.Err? ==> cacheService.datas == old(cacheService.datas)
      ensures cacheService.file == old(cacheService.file)
    {
      var oldData := cacheService.Get(data);
      var readings := ReadSummary(data, oldData);
      if readings.Err? {
        return Err(readings.error);
      }
      var (count, sum) := readings.value;
      var rate := Rate(count, sum);
      var list := [MetricFor(data, data.name + "_count", count, format)];
      list := list + [MetricFor(data, data.name + "_sum", sum, format)];
      list := list + [MetricFor(data, data.name, rate, format)];
      assert list == SummaryMetrics(data, count, sum, format);
      r := Ok(list);
      SummaryFromReadings(data, oldData, format, count, sum);
      cacheService.Put(data);
    }
  }
}
