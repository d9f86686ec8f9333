/** EndpointService: discovery of metrics endpoints from a Eureka registry. The registry's
    JSON is walked depth-first; every statusPageUrl is probed, path by path in the parsers'
    registration order, and the first path answering 200 gives the endpoint. */
module EndpointService {
  import opened Common
  import opened Domain

  /** The parsers the endpoint paths stand for. */
  datatype Parser = PrometheusParser | YammerParser | SpringBootParser

  /** The parsers as init registers them; the order is the probing priority. */
  const Registered: OrderedMap<Parser> :=
    [("/prometheus", PrometheusParser), ("/yammer/metrics", YammerParser),
     ("/actuator/prometheus", PrometheusParser), ("/metrics", SpringBootParser)]

  /** The parts of java.net.URL that findMetrics reads; port is -1 when the URL has none. */
  datatype Url = Url(protocol: string, host: string, port: int)

  /** The environment of discovery: new URL (None for MalformedURLException), the status of
      a HEAD request (None when it throws), and the text StringBuilder.append gives a number
      Jackson read (an Integer, Long or Double, which a real does not tell apart; only the
      status buffer, which nothing reads, and a URL that never parses see it). */
  datatype Network = Network(
    parseUrl: string -> Option<Url>,
    head: string -> Option<int>,
    numberText: real -> string)

  /** The exceptions that end a refresh: a null statusPageUrl (its toString throws), and a
      registry answer without a JSON object for a body. */
  datatype DiscoveryError = NullStatusPageUrl | NoRegistryMap

  /** The shared status buffer and the hosts found so far. */
  datatype Found = Found(hosts: seq<string>, status: string)

  /** connectionOk: only a 200 answer counts; other codes and exceptions do not. */
  predicate Reachable(url: string, w: Network)
  {
    w.head(url) == Some(200)
  }

  /** String.format("%s://%s:%s%s", protocol, host, port, path). */
  function EndpointUrl(u: Url, path: string): string
  {
    u.protocol + "://" + u.host + ":" + IntToString(u.port) + path
  }

  function Candidates(u: Url, paths: seq<string>): (r: seq<string>)
    ensures |r| == |paths| && forall k :: 0 <= k < |paths| ==> r[k] == EndpointUrl(u, paths[k])
  {
    seq(|paths|, k requires 0 <= k < |paths| => EndpointUrl(u, paths[k]))
  }

  /** The first reachable candidate: some candidate is reachable exactly when there is a
      result, and the result is the earliest reachable one. */
  function FirstReachable(cands: seq<string>, w: Network): (r: Option<string>)
    ensures r.Some? <==> exists k :: 0 <= k < |cands| && Reachable(cands[k], w)
    ensures r.Some? ==> exists k :: 0 <= k < |cands| && r.value == cands[k] && Reachable(cands[k], w)
                           && forall j :: 0 <= j < k ==> !Reachable(cands[j], w)
  {
    if cands == [] then None
    else if Reachable(cands[0], w) then Some(cands[0])
    else
      var r := FirstReachable(cands[1..], w);
      assert forall k :: 1 <= k < |cands| ==> cands[k] == cands[1..][k - 1];
      if r.Some? then
        var k :| 0 <= k < |cands[1..]| && r.value == cands[1..][k] && Reachable(cands[1..][k], w)
                 && forall j :: 0 <= j < k ==> !Reachable(cands[1..][j], w);
        assert r.value == cands[k + 1] && forall j :: 0 <= j < k + 1 ==> !Reachable(cands[j], w);
        r
      else r
  }

  /** findMetrics: null (None) for a malformed URL or when no path answers 200; otherwise
      the URL's protocol, host and port with the first registered path that answers 200. */
  function MetricsUrl(url: string, paths: seq<string>, w: Network): (r: Option<string>)
    ensures w.parseUrl(url).None? ==> r.None?
    ensures r.Some? ==> exists k :: 0 <= k < |paths| && r.value == EndpointUrl(w.parseUrl(url).value, paths[k])
                           && Reachable(r.value, w)
                           && forall j :: 0 <= j < k ==> !Reachable(EndpointUrl(w.parseUrl(url).value, paths[j]), w)
    ensures w.parseUrl(url).Some? && r.None? ==>
              forall k :: 0 <= k < |paths| ==> !Reachable(EndpointUrl(w.parseUrl(url).value, paths[k]), w)
  {
    match w.parseUrl(url)
    case None => None
    case Some(u) => FirstReachable(Candidates(u, paths), w)
  }

  /** findMetrics, probing in a loop that returns at the first success. */
  method FindMetrics(url: string, paths: seq<string>, w: Network) returns (r: Option<string>)
    ensures r == MetricsUrl(url, paths, w)
  {
    var u := w.parseUrl(url);
    if u.None? {
      return None;
    }
    var cands := Candidates(u.value, paths);
    for i := 0 to |paths|
      invariant FirstReachable(cands[i..], w) == FirstReachable(cands, w)
    {
      var s := EndpointUrl(u.value, paths[i]);
      if Reachable(s, w) {
        return Some(s);
      }
      assert cands[i..][1..] == cands[i + 1..];
    }
    return None;
  }

  /** The number of entries of an object or items of an array. */
  function Width(node: Json): nat
  {
    match node
    case JObject(fields) => |fields|
    case JArray(items) => |items|
    case _ => 0
  }

  predicate Container(node: Json)
  {
    node.JObject? || node.JArray?
  }

  /** Entry i of a container: an object entry has its key, an array item has none. */
  function EntryAt(node: Json, i: nat): (r: (Option<string>, Json))
    requires Container(node) && i < Width(node)
    ensures r.1 < node
  {
    if node.JObject? then
      assert node.fields[i] in node.fields;
      (Some(node.fields[i].0), node.fields[i].1)
    else
      assert node.items[i] in node.items;
      (None, node.items[i])
  }

  /** StringBuilder.append of a scalar (null appends "null"). */
  function ScalarText(v: Json, w: Network): string
  {
    match v
    case JString(s) => s
    case JNumber(x) => w.numberText(x)
    case JBool(b) => if b then "true" else "false"
    case _ => "null"
  }

  /** A scalar entry: "status" overwrites the buffer, "statusPageUrl" adds its endpoint when
      one is found; other keys, and scalars directly inside arrays, change nothing. */
  function Visit(key: Option<string>, v: Json, st: Found, paths: seq<string>, w: Network): Result<Found, DiscoveryError>
  {
    if key == Some("status") then Ok(st.(status := ScalarText(v, w)))
    else if key == Some("statusPageUrl") then
      if v.JNull? then Err(NullStatusPageUrl)
      else match MetricsUrl(ScalarText(v, w), paths, w)
        case Some(url) => if |url| > 0 then Ok(st.(hosts := st.hosts + [url])) else Ok(st)
        case None => Ok(st)
    else Ok(st)
  }

  /** lookup over the entries of node from index i on, depth-first. */
  function LookupFrom(node: Json, i: nat, st: Found, paths: seq<string>, w: Network): Result<Found, DiscoveryError>
    requires Container(node)
    decreases node, Width(node) - i
  {
    if i >= Width(node) then Ok(st)
    else
      var (key, v) := EntryAt(node, i);
      if Container(v) then
        match LookupFrom(v, 0, st, paths, w)
        case Err(e) => Err(e)
        case Ok(s) => LookupFrom(node, i + 1, s, paths, w)
      else
        match Visit(key, v, st, paths, w)
        case Err(e) => Err(e)
        case Ok(s) => LookupFrom(node, i + 1, s, paths, w)
  }

  /** Both lookup overloads: walk a map or a list, appending found endpoints to the hosts. */
  method Lookup(found: Found, node: Json, paths: seq<string>, w: Network) returns (r: Result<Found, DiscoveryError>)
    requires Container(node)
    ensures r == LookupFrom(node, 0, found, paths, w)
    decreases node
  {
    var st := found;
    var i := 0;
    while i < Width(node)
      invariant 0 <= i <= Width(node)
      invariant LookupFrom(node, i, st, paths, w) == LookupFrom(node, 0, found, paths, w)
    {
      var (key, v) := EntryAt(node, i);
      if Container(v) {
        var sub := Lookup(st, v, paths, w);
        if sub.Err? {
          return sub;
        }
        st := sub.value;
      } else if key == Some("status") {
        st := st.(status := ScalarText(v, w));
      } else if key == Some("statusPageUrl") {
        if v.JNull? {
          return Err(NullStatusPageUrl);
        }
        var url := FindMetrics(ScalarText(v, w), paths, w);
        if url.Some? && |url.value| > 0 {
          st := st.(hosts := st.hosts + [url.value]);
        }
      }
      i := i + 1;
    }
    return Ok(st);
  }

  /** getEurekaHosts: the registry's body must be a JSON object; the walk starts with no
      hosts and an empty status buffer. */
  function EurekaHosts(body: Option<Json>, paths: seq<string>, w: Network): Result<seq<string>, DiscoveryError>
  {
    match body
    case Some(JObject(fields)) =>
      (match LookupFrom(JObject(fields), 0, Found([], ""), paths, w)
       case Err(e) => Err(e)
       case Ok(st) => Ok(st.hosts))
    case _ => Err(NoRegistryMap)
  }

  predicate EndsWith(s: string, suffix: string)
  {
    |suffix| <= |s| && s[|s| - |suffix|..] == suffix
  }

  /** What lookup may add: a URL that answered 200 and ends with one of the paths. */
  predicate Discovered(h: string, paths: seq<string>, w: Network)
  {
    Reachable(h, w) && exists k :: 0 <= k < |paths| && EndsWith(h, paths[k])
  }

  lemma EndpointUrlEnds(u: Url, path: string)
    ensures EndsWith(EndpointUrl(u, path), path)
  {
    var a := u.protocol + "://" + u.host + ":" + IntToString(u.port);
    assert EndpointUrl(u, path) == a + path;
    assert (a + path)[|a|..] == path;
  }

  lemma VisitShape(key: Option<string>, v: Json, st: Found, paths: seq<string>, w: Network)
    ensures Visit(key, v, st, paths, w).Ok? ==>
              var r := Visit(key, v, st, paths, w).value;
              && (r.hosts == st.hosts || exists h :: r.hosts == st.hosts + [h] && Discovered(h, paths, w))
  {
    if key == Some("statusPageUrl") && !v.JNull? {
      var m := MetricsUrl(ScalarText(v, w), paths, w);
      if m.Some? {
        var k :| 0 <= k < |paths| && m.value == EndpointUrl(w.parseUrl(ScalarText(v, w)).value, paths[k])
                 && Reachable(m.value, w);
        EndpointUrlEnds(w.parseUrl(ScalarText(v, w)).value, paths[k]);
      }
    }
  }

  /** lookup only appends, and everything it appends is a discovered endpoint, in the
      order the walk meets the statusPageUrl entries. */
  lemma {:induction false} LookupAppends(node: Json, i: nat, st: Found, paths: seq<string>, w: Network)
    requires Container(node)
    ensures LookupFrom(node, i, st, paths, w).Ok? ==>
              var r := LookupFrom(node, i, st, paths, w).value;
              && |st.hosts| <= |r.hosts| && r.hosts[..|st.hosts|] == st.hosts
              && forall j :: |st.hosts| <= j < |r.hosts| ==> Discovered(r.hosts[j], paths, w)
    decreases node, Width(node) - i
  {
    if i < Width(node) {
      var (key, v) := EntryAt(node, i);
      var mid := if Container(v) then LookupFrom(v, 0, st, paths, w) else Visit(key, v, st, paths, w);
      if Container(v) {
        LookupAppends(v, 0, st, paths, w);
      } else {
        VisitShape(key, v, st, paths, w);
      }
      if mid.Ok? {
        LookupAppends(node, i + 1, mid.value, paths, w);
        var r := LookupFrom(node, i + 1, mid.value, paths, w);
        if r.Ok? {
          var m := mid.value.hosts;
          assert r.value.hosts[..|m|][..|st.hosts|] == r.value.hosts[..|st.hosts|];
          assert forall j :: |st.hosts| <= j < |m| ==> r.value.hosts[j] == m[j];
        }
      }
    }
  }

  /** The statusPageUrl values lookup meets, in depth-first order: each value of a
      statusPageUrl entry of a map that is not itself a map or a list. No state is
      threaded through. */
  function PageUrlsFrom(node: Json, i: nat): seq<Json>
    requires Container(node)
    decreases node, Width(node) - i
  {
    if i >= Width(node) then []
    else
      var (key, v) := EntryAt(node, i);
      var here := if Container(v) then PageUrlsFrom(v, 0) else if key == Some("statusPageUrl") then [v] else [];
      here + PageUrlsFrom(node, i + 1)
  }

  function PageUrls(node: Json): seq<Json>
    requires Container(node)
  {
    PageUrlsFrom(node, 0)
  }

  /** The endpoints findMetrics gives for some statusPageUrl values, in order; a value
      without one adds nothing. */
  function Endpoints(vs: seq<Json>, paths: seq<string>, w: Network): seq<string>
  {
    if vs == [] then []
    else
      var here := match MetricsUrl(ScalarText(vs[0], w), paths, w) case Some(u) => [u] case None => [];
      here + Endpoints(vs[1..], paths, w)
  }

  lemma {:induction false} EndpointsAppend(a: seq<Json>, b: seq<Json>, paths: seq<string>, w: Network)
    ensures Endpoints(a + b, paths, w) == Endpoints(a, paths, w) + Endpoints(b, paths, w)
  {
    if a == [] {
      assert a + b == b;
    } else {
      assert (a + b)[0] == a[0] && (a + b)[1..] == a[1..] + b;
      EndpointsAppend(a[1..], b, paths, w);
    }
  }

  /** An endpoint findMetrics finds is never empty, so isNotEmpty never drops one. */
  lemma MetricsUrlNonEmpty(url: string, paths: seq<string>, w: Network)
    ensures MetricsUrl(url, paths, w).Some? ==> |MetricsUrl(url, paths, w).value| > 0
  {
    var m := MetricsUrl(url, paths, w);
    if m.Some? {
      var k :| 0 <= k < |paths| && m.value == EndpointUrl(w.parseUrl(url).value, paths[k]);
      assert |EndpointUrl(w.parseUrl(url).value, paths[k])| >= 3;
    }
  }

  /** A scalar entry fails exactly on a null statusPageUrl and otherwise adds the endpoint
      of its statusPageUrl value, if it is one. */
  lemma VisitPages(key: Option<string>, v: Json, st: Found, paths: seq<string>, w: Network)
    ensures var here := if key == Some("statusPageUrl") then [v] else [];
            Walked(Visit(key, v, st, paths, w), st, here, paths, w)
  {
    if key == Some("statusPageUrl") {
      MetricsUrlNonEmpty(ScalarText(v, w), paths, w);
      assert [v][1..] == [];
    }
  }

  /** The outcome of walking past some statusPageUrl values from st: a failure exactly
      when one of them is null, else their endpoints appended in order. */
  predicate Walked(r: Result<Found, DiscoveryError>, st: Found, vs: seq<Json>, paths: seq<string>, w: Network)
  {
    && (r.Err? <==> JNull in vs)
    && (r.Err? ==> r.error == NullStatusPageUrl)
    && (r.Ok? ==> r.value.hosts == st.hosts + Endpoints(vs, paths, w))
  }

  /** Walking past here and then past rest is walking past both. */
  lemma WalkedThen(mid: Result<Found, DiscoveryError>, r: Result<Found, DiscoveryError>, st: Found,
                   here: seq<Json>, rest: seq<Json>, paths: seq<string>, w: Network)
    requires Walked(mid, st, here, paths, w)
    requires mid.Ok? ==> Walked(r, mid.value, rest, paths, w)
    ensures Walked(if mid.Err? then mid else r, st, here + rest, paths, w)
  {
    if mid.Err? {
      assert JNull in here + rest;
    } else {
      assert JNull in here + rest <==> JNull in rest;
      if r.Ok? {
        EndpointsAppend(here, rest, paths, w);
        calc {
          r.value.hosts;
          mid.value.hosts + Endpoints(rest, paths, w);
          (st.hosts + Endpoints(here, paths, w)) + Endpoints(rest, paths, w);
          { SeqAssoc(st.hosts, Endpoints(here, paths, w), Endpoints(rest, paths, w)); }
          st.hosts + Endpoints(here + rest, paths, w);
        }
      }
    }
  }

  /** lookup is complete as well as sound: it fails exactly when one of the statusPageUrl
      values it meets is null, and otherwise appends the endpoint of every statusPageUrl
      that has one, in depth-first order. */
  lemma {:induction false} LookupPages(node: Json, i: nat, st: Found, paths: seq<string>, w: Network)
    requires Container(node)
    ensures Walked(LookupFrom(node, i, st, paths, w), st, PageUrlsFrom(node, i), paths, w)
    decreases node, Width(node) - i
  {
    if i < Width(node) {
      var (key, v) := EntryAt(node, i);
      var here := if Container(v) then PageUrlsFrom(v, 0) else if key == Some("statusPageUrl") then [v] else [];
      var rest := PageUrlsFrom(node, i + 1);
      var mid := if Container(v) then LookupFrom(v, 0, st, paths, w) else Visit(key, v, st, paths, w);
      var r := if mid.Ok? then LookupFrom(node, i + 1, mid.value, paths, w) else mid;
      assert PageUrlsFrom(node, i) == here + rest;
      assert LookupFrom(node, i, st, paths, w) == if mid.Err? then mid else r;
      if Container(v) {
        LookupPages(v, 0, st, paths, w);
      } else {
        VisitPages(key, v, st, paths, w);
      }
      if mid.Ok? {
        LookupPages(node, i + 1, mid.value, paths, w);
      }
      WalkedThen(mid, r, st, here, rest, paths, w);
    }
  }

  /** getEurekaHosts: a registry map gives the endpoints of its statusPageUrl values in
      depth-first order, or fails when one of them is null. */
  lemma EurekaHostsPages(body: Option<Json>, paths: seq<string>, w: Network)
    ensures !(body.Some? && body.value.JObject?) ==> EurekaHosts(body, paths, w) == Err(NoRegistryMap)
    ensures body.Some? && body.value.JObject? ==>
              && (EurekaHosts(body, paths, w).Err? <==> JNull in PageUrls(body.value))
              && (EurekaHosts(body, paths, w).Err? ==> EurekaHosts(body, paths, w).error == NullStatusPageUrl)
              && (EurekaHosts(body, paths, w).Ok? ==> EurekaHosts(body, paths, w).value == Endpoints(PageUrls(body.value), paths, w))
  {
    if body.Some? && body.value.JObject? {
      LookupPages(body.value, 0, Found([], ""), paths, w);
      assert [] + Endpoints(PageUrls(body.value), paths, w) == Endpoints(PageUrls(body.value), paths, w);
    }
  }

  /** The status buffer is only written, never read: the hosts lookup finds, and whether it
      fails, do not depend on it. */
  lemma {:induction false} LookupIgnoresStatus(node: Json, i: nat, hosts: seq<string>, s1: string, s2: string,
                                               paths: seq<string>, w: Network)
    requires Container(node)
    ensures var r1 := LookupFrom(node, i, Found(hosts, s1), paths, w);
            var r2 := LookupFrom(node, i, Found(hosts, s2), paths, w);
            r1.Ok? == r2.Ok? && (r1.Ok? ==> r1.value.hosts == r2.value.hosts)
    decreases node, Width(node) - i
  {
    if i < Width(node) {
      var (key, v) := EntryAt(node, i);
      if Container(v) {
        LookupIgnoresStatus(v, 0, hosts, s1, s2, paths, w);
        var m1 := LookupFrom(v, 0, Found(hosts, s1), paths, w);
        var m2 := LookupFrom(v, 0, Found(hosts, s2), paths, w);
        if m1.Ok? {
          assert m1.value == Found(m1.value.hosts, m1.value.status);
          assert m2.value == Found(m1.value.hosts, m2.value.status);
          LookupIgnoresStatus(node, i + 1, m1.value.hosts, m1.value.status, m2.value.status, paths, w);
        }
      } else {
        var m1 := Visit(key, v, Found(hosts, s1), paths, w);
        var m2 := Visit(key, v, Found(hosts, s2), paths, w);
        if m1.Ok? {
          assert m1.value == Found(m1.value.hosts, m1.value.status);
          assert m2.value == Found(m1.value.hosts, m2.value.status);
          LookupIgnoresStatus(node, i + 1, m1.value.hosts, m1.value.status, m2.value.status, paths, w);
        }
      }
    }
  }

  /** Scalars directly inside a list are skipped, whatever their value. */
  lemma {:induction false} ListScalarsSkipped(items: seq<Json>, i: nat, st: Found, paths: seq<string>, w: Network)
    requires forall k :: 0 <= k < |items| ==> !Container(items[k])
    ensures LookupFrom(JArray(items), i, st, paths, w) == Ok(st)
    decreases |items| - i
  {
    if i < |items| {
      ListScalarsSkipped(items, i + 1, st, paths, w);
    }
  }

  /** A put whose key differs in length from every key present appends. */
  lemma {:induction false} PutOtherLength<V>(m: OrderedMap<V>, k: string, v: V)
    requires forall j :: 0 <= j < |m| ==> |m[j].0| != |k|
    ensures Put(m, k, v) == m + [(k, v)]
  {
    if m != [] {
      assert |m[0].0| != |k|;
      PutOtherLength(m[1..], k, v);
      assert m == [m[0]] + m[1..];
    }
  }

  /** Four puts of keys of pairwise different lengths into an empty map append them in
      order: no put replaces an earlier one. */
  lemma PutsInOrder<V>(R: OrderedMap<V>)
    requires |R| == 4
    requires forall i, j :: 0 <= j < i < 4 ==> |R[j].0| != |R[i].0|
    ensures Put(Put(Put(Put([], R[0].0, R[0].1), R[1].0, R[1].1), R[2].0, R[2].1), R[3].0, R[3].1) == R
  {
    var m1 := Put([], R[0].0, R[0].1);
    assert m1 == R[..1];
    var m2 := Put(m1, R[1].0, R[1].1);
    assert m2 == R[..2] by { PutNext(R, 1); }
    var m3 := Put(m2, R[2].0, R[2].1);
    assert m3 == R[..3] by { PutNext(R, 2); }
    assert Put(m3, R[3].0, R[3].1) == R by {
      PutNext(R, 3);
      assert R[..4] == R;
    }
  }

  lemma PutNext<V>(R: OrderedMap<V>, n: nat)
    requires n < |R|
    requires forall j :: 0 <= j < n ==> |R[j].0| != |R[n].0|
    ensures Put(R[..n], R[n].0, R[n].1) == R[..n + 1]
  {
    PutOtherLength(R[..n], R[n].0, R[n].1);
    assert R[..n] + [R[n]] == R[..n + 1];
  }

  /** The four puts of init on an empty map give the registration order: the paths have
      distinct lengths. */
  lemma RegisteredByPuts()
    ensures var R := Registered;
            Put(Put(Put(Put([], R[0].0, R[0].1), R[1].0, R[1].1), R[2].0, R[2].1), R[3].0, R[3].1) == R
  {
    var R := Registered;
    assert |R[0].0| == 11 && |R[1].0| == 15 && |R[2].0| == 20 && |R[3].0| == 8;
    PutsInOrder(R);
  }

  /** The probing order of the paths. */
  lemma RegisteredKeys()
    ensures Keys(Registered) == ["/prometheus", "/yammer/metrics", "/actuator/prometheus", "/metrics"]
  {
    var ks := Keys(Registered);
    assert ks[0] == "/prometheus" && ks[1] == "/yammer/metrics" && ks[2] == "/actuator/prometheus" && ks[3] == "/metrics";
  }

  class EndpointService {
    /** PARSERS: path to parser, in registration order. */
    var parsers: OrderedMap<Parser>
    /** The hosts of the last successful refresh. */
    var hosts: seq<string>

    constructor()
      ensures parsers == [] && hosts == []
    {
      parsers := [];
      hosts := [];
    }

    /** init: registers the four parsers, one put per path, once, on the fresh map. */
    method Init()
      modifies this
      requires parsers == []
      ensures parsers == Registered && hosts == old(hosts)
      ensures Keys(parsers) == ["/prometheus", "/yammer/metrics", "/actuator/prometheus", "/metrics"]
    {
      parsers := Put(parsers, "/prometheus", PrometheusParser);
      parsers := Put(parsers, "/yammer/metrics", YammerParser);
      parsers := Put(parsers, "/actuator/prometheus", PrometheusParser);
      parsers := Put(parsers, "/metrics", SpringBootParser);
      RegisteredByPuts();
      RegisteredKeys();
    }

    /** getEurekaHosts: the registry's answer is the body parameter. */
    method GetEurekaHosts(body: Option<Json>, w: Network) returns (r: Result<seq<string>, DiscoveryError>)
      ensures r == EurekaHosts(body, Keys(parsers), w)
      ensures r.Ok? ==> forall h :: h in r.value ==> Discovered(h, Keys(parsers), w)
      ensures !(body.Some? && body.value.JObject?) ==> r == Err(NoRegistryMap)
      ensures body.Some? && body.value.JObject? ==>
                && (r.Err? <==> JNull in PageUrls(body.value))
                && (r.Err? ==> r.error == NullStatusPageUrl)
                && (r.Ok? ==> r.value == Endpoints(PageUrls(body.value), Keys(parsers), w))
    {
      EurekaHostsPages(body, Keys(parsers), w);
      if body.None? || !body.value.JObject? {
        return Err(NoRegistryMap);
      }
      var found := Lookup(Found([], ""), body.value, Keys(parsers), w);
      LookupAppends(body.value, 0, Found([], ""), Keys(parsers), w);
      if found.Err? {
        return Err(found.error);
      }
      return Ok(found.value.hosts);
    }

    /** refresh: with a registry configured, the hosts become the discovered ones; with
        none, or when discovery throws, they stay as they were. */
    method Refresh(eureka: string, registry: string -> Option<Json>, w: Network)
      modifies this
      ensures parsers == old(parsers)
      ensures |eureka| > 0 && EurekaHosts(registry(eureka), Keys(parsers), w).Ok? ==>
                hosts == EurekaHosts(registry(eureka), Keys(parsers), w).value
      ensures !(|eureka| > 0 && EurekaHosts(registry(eureka), Keys(parsers), w).Ok?) ==> hosts == old(hosts)
    {
      if |eureka| > 0 {
        var found := GetEurekaHosts(registry(eureka), w);
        if found.Ok? {
          hosts := found.value;
        }
      }
    }
  }
}
