/** BeatService: the older poller. Once per period it fetches every configured host URL,
    picks a driver by the URL's path, parses the body into samples of the value1/value2
    shape, stamps them with the URL's host and port and the fetch time, and enqueues
    each non-empty batch. */
module BeatService {
  import opened Common
  import opened Domain

  /** The parts of java.net.URI the poller reads; port is -1 when the URI has none, path
      is null for an opaque URI. */
  datatype Uri = Uri(host: Option<string>, port: int, path: Option<string>)

  /** The outcome of restTemplate.getForObject: an exception, or a body that may be null
      (which StringBuilder.append writes as "null"). */
  datatype Fetch = Failed | Fetched(body: Option<string>)

  /** The exception parsing lets escape to beat(), which logs it: a JSON null unboxed into
      value1. (A malformed URI, the other one, is World.parse answering None.) */
  datatype BeatError = NullValue(key: string)

  /** The registered drivers. */
  datatype Driver = SpringBootDriver | PrometheusDriver

  const CounterPrefix: string := "counter."

  /** DRIVERS.get(uri.getPath()): "/metrics" and "/actuator/prometheus" only. */
  function DriverFor(path: Option<string>): (r: Option<Driver>)
    ensures r == Some(SpringBootDriver) <==> path == Some("/metrics")
    ensures r == Some(PrometheusDriver) <==> path == Some("/actuator/prometheus")
  {
    match path
    case None => None
    case Some(p) =>
      if p == "/metrics" then Some(SpringBootDriver)
      else if p == "/actuator/prometheus" then Some(PrometheusDriver)
      else None
  }

  /** The content buffer after the fetch: empty when it failed. */
  function ContentOf(f: Fetch): string
  {
    match f
    case Failed => ""
    case Fetched(None) => "null"
    case Fetched(Some(b)) => b
  }

  /** The samples of the entries of the decoded Map<String, Double>: COUNTER for a
      "counter." name, GAUGE otherwise, with the value as value1. */
  function LegacyEntries(entries: seq<(string, Option<real>)>): Result<seq<LegacySample>, BeatError>
  {
    if entries == [] then Ok([])
    else match entries[0].1
      case None => Err(NullValue(entries[0].0))
      case Some(v) =>
        var kind := if StartsWith(entries[0].0, CounterPrefix) then COUNTER else GAUGE;
        AppendOk([LegacySample(None, 0, 0, kind, entries[0].0, None, v, 0.0)], LegacyEntries(entries[1..]))
  }

  /** parseSpringBootRawData: empty content or content Jackson cannot read as a map (decode
      is None) gives no samples. That Jackson reads the JSON literal null as no map is left
      to the decode parameter. */
  function ParseSpringBoot(content: string, decode: string -> Option<seq<(string, Option<real>)>>)
    : Result<seq<LegacySample>, BeatError>
  {
    if |content| == 0 then Ok([])
    else match decode(content)
      case None => Ok([])
      case Some(entries) => LegacyEntries(entries)
  }

  /** parseSpringBootRawData's loop over the decoded map's entries. */
  method ParseSpringBootRawData(content: string, decode: string -> Option<seq<(string, Option<real>)>>)
    returns (r: Result<seq<LegacySample>, BeatError>)
    ensures r == ParseSpringBoot(content, decode)
  {
    if |content| == 0 {
      return Ok([]);
    }
    var decoded := decode(content);
    if decoded.None? {
      return Ok([]);
    }
    var entries := decoded.value;
    var list: seq<LegacySample> := [];
    AppendNil(LegacyEntries(entries));
    assert entries[0..] == entries;
    for i := 0 to |entries|
      invariant LegacyEntries(entries) == AppendOk(list, LegacyEntries(entries[i..]))
    {
      assert entries[i..][0] == entries[i] && entries[i..][1..] == entries[i + 1..];
      var (name, value) := entries[i];
      if value.None? {
        return Err(NullValue(name));
      }
      var kind := if StartsWith(name, CounterPrefix) then COUNTER else GAUGE;
      var data := LegacySample(None, 0, 0, kind, name, None, value.value, 0.0);
      AppendAssoc(list, [data], LegacyEntries(entries[i + 1..]));
      list := list + [data];
    }
    assert list + [] == list;
    return Ok(list);
  }

  /** parsePrometheusRawData: a stub that parses nothing. */
  function ParsePrometheus(content: string): seq<LegacySample>
  {
    []
  }

  /** Each sample stamped with the URI's host and port and the time taken before the
      fetch. */
  function Stamp(ds: seq<LegacySample>, uri: Uri, time: int): (r: seq<LegacySample>)
    ensures |r| == |ds|
    ensures forall k :: 0 <= k < |ds| ==> r[k] == ds[k].(host := uri.host, port := uri.port, time := time)
  {
    if ds == [] then [] else [ds[0].(host := uri.host, port := uri.port, time := time)] + Stamp(ds[1..], uri, time)
  }

  /** The samples beat(host) produces, before the enqueue decision. */
  function HostSamples(uri: Uri, time: int, fetch: Fetch, decode: string -> Option<seq<(string, Option<real>)>>)
    : Result<seq<LegacySample>, BeatError>
  {
    match DriverFor(uri.path)
    case None => Ok([])
    case Some(PrometheusDriver) => Ok(Stamp(ParsePrometheus(ContentOf(fetch)), uri, time))
    case Some(SpringBootDriver) =>
      match ParseSpringBoot(ContentOf(fetch), decode)
      case Err(e) => Err(e)
      case Ok(ds) => Ok(Stamp(ds, uri, time))
  }

  /** The poller's counters and what it has handed to the queue. */
  datatype BeatState = BeatState(beats: nat, errors: nat, inQueue: nat, enqueued: seq<seq<LegacySample>>)

  /** The environment of one tick: URI parsing, the fetch outcome per URI, the time taken
      before each fetch, and Jackson's reading of a body. */
  datatype World = World(
    parse: string -> Option<Uri>,
    fetch: Uri -> Fetch,
    clock: string -> int,
    decode: string -> Option<seq<(string, Option<real>)>>)

  /** beat(host): count the fetch as ok or failed, then enqueue the samples when there are
      any. A malformed URI stops before the fetch. */
  function BeatHost(st: BeatState, host: string, w: World): BeatState
  {
    match w.parse(host)
    case None => st
    case Some(uri) =>
      var f := w.fetch(uri);
      var counted := if f.Failed? then st.(errors := st.errors + 1) else st.(beats := st.beats + 1);
      match HostSamples(uri, w.clock(host), f, w.decode)
      case Err(_) => counted
      case Ok(ds) =>
        if |ds| > 0 then counted.(inQueue := counted.inQueue + |ds|, enqueued := counted.enqueued + [ds])
        else counted
  }

  /** The hosts polled in list order (the source polls them in parallel). */
  function BeatAll(st: BeatState, hosts: seq<string>, w: World): BeatState
  {
    if hosts == [] then st else BeatHost(BeatAll(st, hosts[..|hosts| - 1], w), hosts[|hosts| - 1], w)
  }

  /** The number of samples in some batches. */
  function BatchesSize(bs: seq<seq<LegacySample>>): nat
  {
    if bs == [] then 0 else |bs[0]| + BatchesSize(bs[1..])
  }

  /** The batch beat(host) hands to the queue: the host's stamped samples when its URI
      parses, the samples parse and there are some; nothing otherwise. */
  function HostBatch(host: string, w: World): (r: seq<seq<LegacySample>>)
  {
    match w.parse(host)
    case None => []
    case Some(uri) =>
      match HostSamples(uri, w.clock(host), w.fetch(uri), w.decode)
      case Err(_) => []
      case Ok(ds) => if |ds| > 0 then [ds] else []
  }

  /** The batches of some hosts, host by host in list order. */
  function Batches(hosts: seq<string>, w: World): seq<seq<LegacySample>>
  {
    if hosts == [] then [] else Batches(hosts[..|hosts| - 1], w) + HostBatch(hosts[|hosts| - 1], w)
  }

  /** How many of the hosts have a URI that parses and, when failed is true, a fetch that
      fails (when false, one that succeeds). */
  function Fetches(hosts: seq<string>, w: World, failed: bool): nat
  {
    if hosts == [] then 0
    else
      var h := hosts[|hosts| - 1];
      var here := if w.parse(h).Some? && w.fetch(w.parse(h).value).Failed? == failed then 1 else 0;
      Fetches(hosts[..|hosts| - 1], w, failed) + here
  }

  /** beat(host): a URI that does not parse changes nothing; otherwise exactly one fetch is
      counted, as an error when it failed and as a beat otherwise, and the queue receives
      exactly the host's stamped samples when there are any, counted into in.queue.count. */
  lemma BeatHostStep(st: BeatState, host: string, w: World)
    ensures w.parse(host).None? ==> BeatHost(st, host, w) == st
    ensures w.parse(host).Some? ==>
              var f := w.fetch(w.parse(host).value);
              var r := BeatHost(st, host, w);
              && r.errors == st.errors + (if f.Failed? then 1 else 0)
              && r.beats == st.beats + (if f.Failed? then 0 else 1)
    ensures var r := BeatHost(st, host, w);
            && r.enqueued == st.enqueued + HostBatch(host, w)
            && r.inQueue == st.inQueue + BatchesSize(HostBatch(host, w))
    ensures w.parse(host).Some? && HostBatch(host, w) != [] ==>
              var uri := w.parse(host).value;
              && HostSamples(uri, w.clock(host), w.fetch(uri), w.decode).Ok?
              && HostBatch(host, w) == [HostSamples(uri, w.clock(host), w.fetch(uri), w.decode).value]
              && HostSamples(uri, w.clock(host), w.fetch(uri), w.decode).value != []
  {
    var b := HostBatch(host, w);
    if b != [] {
      assert BatchesSize(b) == |b[0]| + BatchesSize(b[1..]);
      assert b[1..] == [];
    } else {
      assert st.enqueued + b == st.enqueued;
    }
  }

  /** A tick's queue: the batches of the hosts, in list order, counted into in.queue.count. */
  lemma {:induction false} BeatAllQueue(st: BeatState, hosts: seq<string>, w: World)
    ensures var r := BeatAll(st, hosts, w);
            && r.enqueued == st.enqueued + Batches(hosts, w)
            && r.inQueue == st.inQueue + BatchesSize(Batches(hosts, w))
  {
    if hosts == [] {
      assert st.enqueued + [] == st.enqueued;
    } else {
      var init := hosts[..|hosts| - 1];
      var h := hosts[|hosts| - 1];
      BeatAllQueue(st, init, w);
      var mid := BeatAll(st, init, w);
      BeatHostStep(mid, h, w);
      BatchesAppend(Batches(init, w), HostBatch(h, w));
      SeqAssoc(st.enqueued, Batches(init, w), HostBatch(h, w));
    }
  }

  lemma {:induction false} BatchesAppend(bs: seq<seq<LegacySample>>, cs: seq<seq<LegacySample>>)
    ensures BatchesSize(bs + cs) == BatchesSize(bs) + BatchesSize(cs)
  {
    if bs == [] {
      assert bs + cs == cs;
    } else {
      assert (bs + cs)[0] == bs[0] && (bs + cs)[1..] == bs[1..] + cs;
      BatchesAppend(bs[1..], cs);
    }
  }

  /** Every batch a tick enqueues is non-empty. */
  lemma {:induction false} BatchesNonEmpty(hosts: seq<string>, w: World)
    ensures forall k :: 0 <= k < |Batches(hosts, w)| ==> Batches(hosts, w)[k] != []
  {
    if hosts != [] {
      var init := hosts[..|hosts| - 1];
      BatchesNonEmpty(init, w);
      var b := HostBatch(hosts[|hosts| - 1], w);
      assert b != [] ==> b[0] != [];
      assert forall k :: 0 <= k < |Batches(init, w)| ==> Batches(hosts, w)[k] == Batches(init, w)[k];
    }
  }

  /** A tick counts exactly one fetch per host whose URI parses: an error for each failed
      fetch and a beat for each other one. */
  lemma {:induction false} BeatAllCounts(st: BeatState, hosts: seq<string>, w: World)
    ensures var r := BeatAll(st, hosts, w);
            && r.errors == st.errors + Fetches(hosts, w, true)
            && r.beats == st.beats + Fetches(hosts, w, false)
  {
    if hosts != [] {
      var init := hosts[..|hosts| - 1];
      BeatAllCounts(st, init, w);
      BeatHostStep(BeatAll(st, init, w), hosts[|hosts| - 1], w);
    }
  }

  /** Each host is counted at most once, failed or not. */
  lemma {:induction false} FetchesBound(hosts: seq<string>, w: World)
    ensures Fetches(hosts, w, true) + Fetches(hosts, w, false) <= |hosts|
  {
    if hosts != [] {
      FetchesBound(hosts[..|hosts| - 1], w);
    }
  }

  /** A tick appends exactly the hosts' batches, in list order and each non-empty; the
      in-queue counter grows by exactly the samples they hold; and every host whose URI
      parses has its fetch counted once, as an error or as a beat. */
  lemma BeatAllShape(st: BeatState, hosts: seq<string>, w: World)
    ensures var r := BeatAll(st, hosts, w);
            && r.enqueued == st.enqueued + Batches(hosts, w)
            && (forall k :: 0 <= k < |Batches(hosts, w)| ==> Batches(hosts, w)[k] != [])
            && r.inQueue == st.inQueue + BatchesSize(Batches(hosts, w))
            && r.errors == st.errors + Fetches(hosts, w, true)
            && r.beats == st.beats + Fetches(hosts, w, false)
            && r.beats + r.errors <= st.beats + st.errors + |hosts|
  {
    BeatAllQueue(st, hosts, w);
    BatchesNonEmpty(hosts, w);
    BeatAllCounts(st, hosts, w);
    FetchesBound(hosts, w);
  }

  /** Every sample a tick enqueues for a host carries that host's URI host and port and
      its fetch time; samples from "/actuator/prometheus" never arrive (that driver parses
      nothing), and a host whose path has no driver enqueues nothing. */
  lemma HostSamplesShape(uri: Uri, time: int, fetch: Fetch, decode: string -> Option<seq<(string, Option<real>)>>)
    ensures HostSamples(uri, time, fetch, decode).Ok? ==>
              forall d :: d in HostSamples(uri, time, fetch, decode).value ==>
                d.host == uri.host && d.port == uri.port && d.time == time
    ensures DriverFor(uri.path) != Some(SpringBootDriver) ==> HostSamples(uri, time, fetch, decode) == Ok([])
    ensures fetch.Failed? ==> HostSamples(uri, time, fetch, decode) == Ok([])
  {
  }

  /** parseSpringBootRawData reads without error exactly when no value is null; then it
      gives one sample per entry, named by its key, with its value as value1, COUNTER for
      a "counter." name and GAUGE for any other. */
  lemma {:induction false} LegacyEntriesShape(entries: seq<(string, Option<real>)>)
    ensures LegacyEntries(entries).Ok? <==> forall k :: 0 <= k < |entries| ==> entries[k].1.Some?
    ensures LegacyEntries(entries).Ok? ==>
              var r := LegacyEntries(entries).value;
              && |r| == |entries|
              && forall k :: 0 <= k < |r| ==>
                   && r[k].name == entries[k].0 && r[k].value1 == entries[k].1.value
                   && r[k].tags.None? && r[k].host.None?
                   && (r[k].kind == COUNTER <==> StartsWith(entries[k].0, CounterPrefix))
                   && (r[k].kind != COUNTER ==> r[k].kind == GAUGE)
  {
    if entries != [] {
      LegacyEntriesShape(entries[1..]);
      var rest := LegacyEntries(entries[1..]);
      if entries[0].1.Some? && rest.Ok? {
        var r := LegacyEntries(entries).value;
        assert r[1..] == rest.value;
        forall k | 1 <= k < |r|
          ensures r[k].name == entries[k].0 && r[k].value1 == entries[k].1.value
        {
          assert r[k] == rest.value[k - 1] && entries[k] == entries[1..][k - 1];
        }
      }
      assert forall k :: 1 <= k < |entries| ==> entries[k] == entries[1..][k - 1];
    }
  }

  /** beatConfig.getPeriod() * 1000: a product of Java ints, so it wraps to 32 bits
      before it is widened for the comparison with the elapsed milliseconds. */
  function PeriodMillis(period: int): (r: int)
    ensures -0x8000_0000 <= r < 0x8000_0000
    ensures (period * 1000 - r) % 0x1_0000_0000 == 0
  {
    (period * 1000 + 0x8000_0000) % 0x1_0000_0000 - 0x8000_0000
  }

  /** Periods up to 2147483 seconds are multiplied exactly. */
  lemma PeriodMillisExact(period: int)
    requires -2147483 <= period <= 2147483
    ensures PeriodMillis(period) == period * 1000
  {
  }

  /** A period of 3000000 seconds wraps to a negative number of milliseconds, so every
      tick polls. */
  lemma PeriodMillisWraps()
    ensures PeriodMillis(3000000) == -1294967296
    ensures PeriodMillis(3000000) < 0
  {
  }

  class BeatService {
    /** lastRun: when the last tick ran, in milliseconds. */
    var lastRun: int
    /** beat.ok.count, beat.error.count, in.queue.count. */
    var beats: nat
    var errors: nat
    var inQueue: nat
    /** The batches handed to the queue service, in order. */
    var enqueued: seq<seq<LegacySample>>

    function State(): BeatState
      reads this
    {
      BeatState(beats, errors, inQueue, enqueued)
    }

    constructor()
      ensures lastRun == 0 && State() == BeatState(0, 0, 0, [])
    {
      lastRun := 0;
      beats := 0;
      errors := 0;
      inQueue := 0;
      enqueued := [];
    }

    /** beat(): the scheduled tick. It polls only when the host list is set and a period
        (in seconds, as a wrapped int of milliseconds) has passed since the last run, and
        only then moves lastRun. */
    method Beat(now: int, hosts: Option<seq<string>>, period: int, w: World)
      modifies this
      ensures hosts.Some? && now - old(lastRun) >= PeriodMillis(period) ==>
                lastRun == now && State() == BeatAll(old(State()), hosts.value, w)
      ensures !(hosts.Some? && now - old(lastRun) >= PeriodMillis(period)) ==>
                lastRun == old(lastRun) && State() == old(State())
    {
      if hosts.Some? && now - lastRun >= PeriodMillis(period) {
        var hs := hosts.value;
        for i := 0 to |hs|
          invariant State() == BeatAll(old(State()), hs[..i], w)
        {
          assert hs[..i + 1][..i] == hs[..i];
          BeatOne(hs[i], w);
        }
        assert hs[..|hs|] == hs;
        lastRun := now;
      }
    }

    /** beat(host). */
    method BeatOne(host: string, w: World)
      modifies this
      ensures State() == BeatHost(old(State()), host, w) && lastRun == old(lastRun)
    {
      var uri := w.parse(host);
      if uri.None? {
        return;
      }
      var time := w.clock(host);
      var f := w.fetch(uri.value);
      if f.Failed? {
        errors := errors + 1;
      } else {
        beats := beats + 1;
      }
      var datas := HostSamples(uri.value, time, f, w.decode);
      if datas.Err? {
        return;
      }
      if |datas.value| > 0 {
        enqueued := enqueued + [datas.value];
        inQueue := inQueue + |datas.value|;
      }
    }
  }
}
