/** MetricService: the older, combined iteration of the composers and the cache, written
    against the value1/value2 sample shape with the tags as one string. It dispatches on
    the kind, keeps its own last-sample table and its own snapshot file. */
module MetricService {
  import opened Common
  import opened Domain
  import opened Retention
  import TagParsing
  import Composers

  function LegacyTime(d: LegacySample): int
  {
    d.time
  }

  /** An output metric for d: host, port and the tags parsed out of d's tag string. */
  function LegacyMetric(d: LegacySample, name: string, value: real, format: int -> string): MetricData
  {
    MetricData(name, BaseTags(d.host, d.port, TagsParsing(d)), format(d.time), value)
  }

  /** extractTags(rawData.getTags()). */
  function TagsParsing(d: LegacySample): OrderedMap<string>
  {
    TagParsing.TagsOf(d.tags)
  }

  /** The cached value1, when a sample is cached. */
  function CachedValue1(prev: Option<LegacySample>): Option<real>
  {
    match prev
    case None => None
    case Some(p) => Some(p.value1)
  }

  /** compose, given what the table held under d's key: one metric for COUNTER and GAUGE,
      three for SUMMARY, null (None) for any other kind. */
  function LegacyCompose(d: LegacySample, prev: Option<LegacySample>, format: int -> string): (r: Option<seq<MetricData>>)
    ensures r.None? <==> d.kind !in {COUNTER, SUMMARY, GAUGE}
  {
    match d.kind
    case COUNTER => Some([LegacyMetric(d, d.name, Composers.Delta(d.value1, CachedValue1(prev)), format)])
    case SUMMARY => Some(LegacySummary(d, prev, format))
    case GAUGE => Some([LegacyMetric(d, d.name, d.value1, format)])
    case _ => None
  }

  /** Every metric compose emits carries d's formatted time, host, port and parsed tags;
      a GAUGE passes value1 through, a COUNTER emits the increase over the cached value1
      unless nothing is cached or the counter was reset, and a SUMMARY emits count, sum
      and their ratio under the three names. */
  lemma LegacyShape(d: LegacySample, prev: Option<LegacySample>, format: int -> string)
    ensures LegacyCompose(d, prev, format).Some? ==> forall k :: 0 <= k < |LegacyCompose(d, prev, format).value| ==>
              LegacyCompose(d, prev, format).value[k].timestamp == format(d.time) && LegacyCompose(d, prev, format).value[k].tags == BaseTags(d.host, d.port, TagsParsing(d))
    ensures d.kind == GAUGE ==> LegacyCompose(d, prev, format) == Some([LegacyMetric(d, d.name, d.value1, format)])
    ensures d.kind == COUNTER ==> LegacyCompose(d, prev, format).Some? && |LegacyCompose(d, prev, format).value| == 1 && LegacyCompose(d, prev, format).value[0].metric == d.name
    ensures d.kind == COUNTER && prev.Some? && prev.value.value1 <= d.value1 ==>
              LegacyCompose(d, prev, format).Some? && LegacyCompose(d, prev, format).value[0].value == d.value1 - prev.value.value1
    ensures d.kind == COUNTER && (prev.None? || d.value1 < prev.value.value1) ==>
              LegacyCompose(d, prev, format).Some? && LegacyCompose(d, prev, format).value[0].value == d.value1
    ensures d.kind == SUMMARY ==>
              && LegacyCompose(d, prev, format).Some? && |LegacyCompose(d, prev, format).value| == 3
              && LegacyCompose(d, prev, format).value[0].metric == d.name + "_count"
              && LegacyCompose(d, prev, format).value[1].metric == d.name + "_sum"
              && LegacyCompose(d, prev, format).value[2].metric == d.name
              && (LegacyCompose(d, prev, format).value[0].value != 0.0 ==> LegacyCompose(d, prev, format).value[2].value * LegacyCompose(d, prev, format).value[0].value == LegacyCompose(d, prev, format).value[1].value)
              && (LegacyCompose(d, prev, format).value[0].value == 0.0 ==> LegacyCompose(d, prev, format).value[2].value == 0.0)
  {
    var r := LegacyCompose(d, prev, format);
    var tags := BaseTags(d.host, d.port, TagsParsing(d));
    if d.kind == SUMMARY {
      var (count, sum) := LegacyReadings(d, prev);
      var ms := LegacySummary(d, prev, format);
      assert r == Some(ms);
      assert ms[0] == MetricData(d.name + "_count", tags, format(d.time), count);
      assert ms[1] == MetricData(d.name + "_sum", tags, format(d.time), sum);
      assert ms[2] == MetricData(d.name, tags, format(d.time), Composers.Rate(count, sum));
    } else if d.kind == COUNTER {
      assert r == Some([MetricData(d.name, tags, format(d.time), Composers.Delta(d.value1, CachedValue1(prev)))]);
    } else if d.kind == GAUGE {
      assert r == Some([MetricData(d.name, tags, format(d.time), d.value1)]);
    } else {
      assert r.None?;
    }
  }

  /** composeSummary: the "_count", "_sum" and rate metrics. */
  function LegacySummary(d: LegacySample, prev: Option<LegacySample>, format: int -> string): seq<MetricData>
  {
    var (count, sum) := LegacyReadings(d, prev);
    [ LegacyMetric(d, d.name + "_count", count, format),
      LegacyMetric(d, d.name + "_sum", sum, format),
      LegacyMetric(d, d.name, Composers.Rate(count, sum), format) ]
  }

  /** composeSummary's count and sum: increases when the cached value1 is not larger, raw
      values otherwise. */
  function LegacyReadings(d: LegacySample, prev: Option<LegacySample>): (real, real)
  {
    match prev
    case Some(p) => if d.value1 >= p.value1 then (d.value1 - p.value1, d.value2 - p.value2) else (d.value1, d.value2)
    case None => (d.value1, d.value2)
  }

  /** Whether compose writes the sample to the table: COUNTER and SUMMARY do, GAUGE and the
      kinds compose refuses do not. */
  predicate Caches(kind: Type)
  {
    kind == COUNTER || kind == SUMMARY
  }

  /** The same sample in the current RawData shape: the tag string parsed, value1 and
      value2 as the values array. */
  function Current(d: LegacySample): RawData
  {
    RawData(d.host, d.port, d.time, d.kind, d.name, Some(TagsParsing(d)), [d.value1, d.value2])
  }

  function CurrentOpt(prev: Option<LegacySample>): Option<RawData>
  {
    match prev
    case None => None
    case Some(p) => Some(Current(p))
  }

  /** The older service and the current composers agree once the sample is carried over
      to the current shape: a COUNTER composes as CounterMetricsComposer would. */
  lemma LegacyCounterAgrees(d: LegacySample, prev: Option<LegacySample>, format: int -> string)
    requires d.kind == COUNTER
    ensures LegacyCompose(d, prev, format) == Some(Composers.CounterCompose(Current(d), CurrentOpt(prev), format).value)
  {
    var c := Current(d);
    var v := Composers.Delta(d.value1, CachedValue1(prev));
    assert Composers.CachedFirst(CurrentOpt(prev)) == Ok(CachedValue1(prev));
    assert Composers.MetricFor(c, d.name, v, format) == LegacyMetric(d, d.name, v, format);
  }

  /** A SUMMARY composes as SummaryMetricsComposer would. */
  lemma LegacySummaryAgrees(d: LegacySample, prev: Option<LegacySample>, format: int -> string)
    requires d.kind == SUMMARY
    ensures LegacyCompose(d, prev, format) == Some(Composers.SummaryCompose(Current(d), CurrentOpt(prev), format).value)
  {
    var c := Current(d);
    var (count, sum) := LegacyReadings(d, prev);
    assert Composers.SummaryReadings(c, CurrentOpt(prev)) == Ok((count, sum));
    Composers.SummaryFromReadings(c, CurrentOpt(prev), format, count, sum);
    assert Composers.MetricFor(c, d.name + "_count", count, format) == LegacyMetric(d, d.name + "_count", count, format);
    assert Composers.MetricFor(c, d.name + "_sum", sum, format) == LegacyMetric(d, d.name + "_sum", sum, format);
    assert Composers.MetricFor(c, d.name, Composers.Rate(count, sum), format)
        == LegacyMetric(d, d.name, Composers.Rate(count, sum), format);
  }

  /** A GAUGE composes as DefaultMetricsComposer would. */
  lemma LegacyGaugeAgrees(d: LegacySample, prev: Option<LegacySample>, format: int -> string)
    requires d.kind == GAUGE
    ensures LegacyCompose(d, prev, format) == Some(Composers.DefaultCompose(Current(d), format).value)
  {
    assert Composers.MetricFor(Current(d), d.name, d.value1, format) == LegacyMetric(d, d.name, d.value1, format);
  }

  /** The metrics of composeSummary, given the sample cached under d's key. */
  method SummaryList(d: LegacySample, prev: Option<LegacySample>, format: int -> string) returns (list: seq<MetricData>)
    ensures list == LegacySummary(d, prev, format)
  {
    var tags := TagParsing.ExtractTags(d.tags);
    var count := d.value1;
    var sum := d.value2;
    if prev.Some? && d.value1 >= prev.value.value1 {
      count := d.value1 - prev.value.value1;
      sum := d.value2 - prev.value.value2;
    }
    assert (count, sum) == LegacyReadings(d, prev);
    var rate := Composers.Rate(count, sum);
    var base := BaseTags(d.host, d.port, tags);
    assert base == BaseTags(d.host, d.port, TagsParsing(d));
    list := [MetricData(d.name + "_count", base, format(d.time), count)];
    list := list + [MetricData(d.name + "_sum", base, format(d.time), sum)];
    list := list + [MetricData(d.name, base, format(d.time), rate)];
    assert list == [LegacyMetric(d, d.name + "_count", count, format),
                    LegacyMetric(d, d.name + "_sum", sum, format),
                    LegacyMetric(d, d.name, rate, format)];
  }

  class MetricService {
    /** The datas map, in iteration order. */
    var datas: OrderedMap<LegacySample>
    /** The lines of the snapshot file, None while it does not exist. */
    var file: Option<seq<string>>

    /** Every sample is stored under its own key. */
    ghost predicate Valid()
      reads this
    {
      Keyed(datas, LegacyKeyOf)
    }

    constructor(file: Option<seq<string>>)
      ensures Valid() && datas == [] && this.file == file
    {
      datas := [];
      this.file := file;
    }

    /** The loading half of init: each snapshot line that deserialises is put under its
        key. */
    method Init(decode: string -> Option<LegacySample>)
      modifies this
      requires Valid()
      ensures Valid() && file == old(file)
      ensures datas == if file.Some? then Load(old(datas), file.value, decode, LegacyKeyOf) else old(datas)
    {
      if file.None? {
        return;
      }
      var lines := file.value;
      for i := 0 to |lines|
        invariant file == old(file)
        invariant datas == Load(old(datas), lines[..i], decode, LegacyKeyOf)
      {
        assert lines[..i + 1][..i] == lines[..i];
        var data := decode(lines[i]);
        if data.Some? {
          datas := Domain.Put(datas, LegacyKeyOf(data.value), data.value);
        }
      }
      assert lines[..|lines|] == lines;
      LoadKeyed(old(datas), lines, decode, LegacyKeyOf);
    }

    /** The task init schedules every ten seconds: write the fresh entries that serialise
        (only when there is at least one) and remove the stale ones. */
    method Sweep(now: int, encode: LegacySample -> Option<string>)
      modifies this
      requires Valid()
      ensures Valid()
      ensures datas == Kept(old(datas), now, LegacyTime)
      ensures file == if Snapshot(old(datas), now, LegacyTime, encode) != []
                      then Some(Snapshot(old(datas), now, LegacyTime, encode)) else old(file)
    {
      var s, removes := SnapshotPass(now, encode);
      if |s| > 0 {
        file := Some(s);
      }
      ghost var before := datas;
      RemoveAll(removes);
      SweepRemoves(before, now, LegacyTime);
      KeptKeyed(before, now, LegacyTime, LegacyKeyOf);
    }

    /** The loop over the entries: the snapshot lines of the fresh entries that serialise
        and the keys of the stale ones. */
    method SnapshotPass(now: int, encode: LegacySample -> Option<string>) returns (s: seq<string>, removes: seq<string>)
      ensures s == Snapshot(datas, now, LegacyTime, encode)
      ensures removes == StaleKeys(datas, now, LegacyTime)
    {
      s := [];
      removes := [];
      for i := 0 to |datas|
        invariant s == Snapshot(datas[..i], now, LegacyTime, encode)
        invariant removes == StaleKeys(datas[..i], now, LegacyTime)
      {
        assert datas[..i + 1][..i] == datas[..i];
        var entry := datas[i];
        if now - entry.1.time < RetentionMillis {
          var json := encode(entry.1);
          if json.Some? {
            s := s + [json.value];
          }
        } else {
          removes := removes + [entry.0];
        }
      }
      assert datas[..|datas|] == datas;
    }

    /** The removal loop after the snapshot is written. */
    method RemoveAll(removes: seq<string>)
      modifies this
      ensures datas == Without(old(datas), removes) && file == old(file)
    {
      WithoutNothing(datas);
      for j := 0 to |removes|
        invariant datas == Without(old(datas), removes[..j]) && file == old(file)
      {
        RemoveWithout(old(datas), removes[..j], removes[j]);
        assert removes[..j + 1] == removes[..j] + [removes[j]];
        datas := RemoveKey(datas, removes[j]);
      }
      assert removes[..|removes|] == removes;
    }

    /** compose: dispatch on the kind; COUNTER and SUMMARY read the sample cached under
        d's key and then overwrite it, GAUGE leaves the table alone, and any other kind
        yields null. */
    method Compose(d: LegacySample, format: int -> string) returns (r: Option<seq<MetricData>>)
      modifies this
      requires Valid()
      ensures Valid() && file == old(file)
      ensures r == LegacyCompose(d, old(Domain.Get(datas, LegacyKeyOf(d))), format)
      ensures datas == if Caches(d.kind) then Domain.Put(old(datas), LegacyKeyOf(d), d) else old(datas)
    {
      if d.kind == COUNTER {
        var metric := ComposeCounter(d, format);
        r := Some([metric]);
      } else if d.kind == SUMMARY {
        var list := ComposeSummary(d, format);
        r := Some(list);
      } else if d.kind == GAUGE {
        var metric := ComposeGauge(d, format);
        r := Some([metric]);
      } else {
        r := None;
      }
    }

    /** composeCounter: the gauge metric, with the increase over the cached value1 when
        that is not larger; the sample is then cached. */
    method ComposeCounter(d: LegacySample, format: int -> string) returns (metric: MetricData)
      modifies this
      requires Valid()
      ensures Valid() && file == old(file)
      ensures metric == LegacyMetric(d, d.name, Composers.Delta(d.value1, CachedValue1(old(Domain.Get(datas, LegacyKeyOf(d))))), format)
      ensures datas == Domain.Put(old(datas), LegacyKeyOf(d), d)
    {
      metric := ComposeGauge(d, format);
      var key := LegacyKeyOf(d);
      var oldData := Domain.Get(datas, key);
      if oldData.Some? && d.value1 >= oldData.value.value1 {
        metric := metric.(value := d.value1 - oldData.value.value1);
      }
      StoreSample(d);
    }

    /** composeSummary: count and sum (increases when the cached value1 is not larger),
        their ratio, and the sample cached afterwards. */
    method ComposeSummary(d: LegacySample, format: int -> string) returns (list: seq<MetricData>)
      modifies this
      requires Valid()
      ensures Valid() && file == old(file)
      ensures list == LegacySummary(d, old(Domain.Get(datas, LegacyKeyOf(d))), format)
      ensures datas == Domain.Put(old(datas), LegacyKeyOf(d), d)
    {
      var key := LegacyKeyOf(d);
      var oldData := Domain.Get(datas, key);
      list := SummaryList(d, oldData, format);
      StoreSample(d);
    }

    /** composeGauge: the sample's value1 with host, port and its parsed tags. */
    method ComposeGauge(d: LegacySample, format: int -> string) returns (metric: MetricData)
      ensures metric == LegacyMetric(d, d.name, d.value1, format)
    {
      var tags := TagParsing.ExtractTags(d.tags);
      var base := HostPort(d.host, d.port);
      metric := MetricData(d.name, PutAll(base, Lift(tags)), format(d.time), d.value1);
    }

    /** datas.put(getKey(d), d). */
    method StoreSample(d: LegacySample)
      modifies this
      requires Valid()
      ensures Valid() && file == old(file)
      ensures datas == Domain.Put(old(datas), LegacyKeyOf(d), d)
    {
      PutUnique(datas, LegacyKeyOf(d), d);
      PutEntriesFrom(datas, LegacyKeyOf(d), d);
      datas := Domain.Put(datas, LegacyKeyOf(d), d);
    }
  }
}
