/** The collector's records: the sample kind, the raw sample (RawData), the stale
    value1/value2 sample shape the older services use, the output metric (MetricData),
    the ordered tag maps they carry, and the decoded JSON tree the JSON parsers walk. */
module Domain {
  import opened Common

  /** RawData.Type. */
  datatype Type = COUNTER | GAUGE | SUMMARY | HISTOGRAM | UNTYPED

  function TypeName(t: Type): string
  {
    match t
    case COUNTER => "COUNTER"
    case GAUGE => "GAUGE"
    case SUMMARY => "SUMMARY"
    case HISTOGRAM => "HISTOGRAM"
    case UNTYPED => "UNTYPED"
  }

  /** Type.valueOf(s): the constant named exactly s, None where Java throws. */
  function TypeValueOf(s: string): (r: Option<Type>)
    ensures r.Some? ==> TypeName(r.value) == s
    ensures r.None? ==> forall t :: TypeName(t) != s
  {
    if s == "COUNTER" then Some(COUNTER)
    else if s == "GAUGE" then Some(GAUGE)
    else if s == "SUMMARY" then Some(SUMMARY)
    else if s == "HISTOGRAM" then Some(HISTOGRAM)
    else if s == "UNTYPED" then Some(UNTYPED)
    else None
  }

  /** Distinct kinds have distinct names: the names differ in length or first letter. */
  lemma TypeNamesDistinct()
    ensures forall t, u :: TypeName(t) == TypeName(u) ==> t == u
  {
    forall t, u | TypeName(t) == TypeName(u)
      ensures t == u
    {
      assert |TypeName(t)| == |TypeName(u)|;
      assert TypeName(t)[0] == TypeName(u)[0];
    }
  }

  /** Type.valueOf(s.toUpperCase()) with UNTYPED where valueOf throws: the kind named by s,
      read case-insensitively, and UNTYPED for any other text. */
  function KindOf(s: string): (r: Type)
    ensures forall t :: UpperCase(s) == TypeName(t) ==> r == t
    ensures r == UNTYPED || UpperCase(s) == TypeName(r)
  {
    TypeNamesDistinct();
    match TypeValueOf(UpperCase(s))
    case Some(t) => t
    case None => UNTYPED
  }

  /** A Java Map in its iteration order: a LinkedHashMap, or a HashMap whose (unspecified)
      hash order is taken to be insertion order. */
  type OrderedMap<V> = seq<(string, V)>

  function Keys<V>(m: OrderedMap<V>): (r: seq<string>)
    ensures |r| == |m| && forall i :: 0 <= i < |m| ==> r[i] == m[i].0
  {
    if m == [] then [] else [m[0].0] + Keys(m[1..])
  }

  predicate UniqueKeys<V>(m: OrderedMap<V>)
  {
    NoDuplicates(Keys(m))
  }

  /** Map.get: the value stored under k. */
  function Get<V>(m: OrderedMap<V>, k: string): (r: Option<V>)
    ensures r.None? <==> k !in Keys(m)
    ensures r.Some? ==> (k, r.value) in m
  {
    if m == [] then None
    else if m[0].0 == k then Some(m[0].1)
    else Get(m[1..], k)
  }

  /** LinkedHashMap.put: an existing key keeps its place and takes the new value; a new key
      goes last. */
  function Put<V>(m: OrderedMap<V>, k: string, v: V): (r: OrderedMap<V>)
    ensures Keys(r) == if k in Keys(m) then Keys(m) else Keys(m) + [k]
  {
    if m == [] then [(k, v)]
    else if m[0].0 == k then [(k, v)] + m[1..]
    else
      assert Keys(m) == [m[0].0] + Keys(m[1..]);
      [m[0]] + Put(m[1..], k, v)
  }

  /** After put, get returns the new value at k and the old one everywhere else. */
  lemma {:induction false} PutGet<V>(m: OrderedMap<V>, k: string, v: V, k': string)
    ensures Get(Put(m, k, v), k') == if k' == k then Some(v) else Get(m, k')
  {
    if m != [] && m[0].0 != k {
      PutGet(m[1..], k, v, k');
    }
  }

  /** Putting a new key appends its entry. */
  lemma PutFresh<V>(m: OrderedMap<V>, k: string, v: V)
    requires k !in Keys(m)
    ensures Put(m, k, v) == m + [(k, v)]
  {
    if m != [] {
      assert Keys(m) == [m[0].0] + Keys(m[1..]);
      PutFresh(m[1..], k, v);
      assert m == [m[0]] + m[1..];
    }
  }

  /** In a map with unique keys, an entry's key does not occur before it. */
  lemma KeyNotInPrefix<V>(t: OrderedMap<V>, n: nat)
    requires UniqueKeys(t) && n < |t|
    ensures t[n].0 !in Keys(t[..n])
  {
    assert forall j :: 0 <= j < n ==> Keys(t[..n])[j] == Keys(t)[j];
  }

  lemma PutUnique<V>(m: OrderedMap<V>, k: string, v: V)
    requires UniqueKeys(m)
    ensures UniqueKeys(Put(m, k, v))
  {
  }

  /** Map.putAll: every entry of u put into m, in u's order. */
  function PutAll<V>(m: OrderedMap<V>, u: OrderedMap<V>): (r: OrderedMap<V>)
    decreases |u|
  {
    if u == [] then m else PutAll(Put(m, u[0].0, u[0].1), u[1..])
  }

  lemma {:induction false} PutAllPrefix<V>(m: OrderedMap<V>, u: OrderedMap<V>)
    ensures |m| <= |PutAll(m, u)| && Keys(PutAll(m, u))[..|m|] == Keys(m)
    decreases |u|
  {
    if u != [] {
      var m' := Put(m, u[0].0, u[0].1);
      PutAllPrefix(m', u[1..]);
      var ks := Keys(PutAll(m, u));
      assert ks[..|m'|] == Keys(m');
      assert Keys(m')[..|m|] == Keys(m);
      assert ks[..|m|] == ks[..|m'|][..|m|];
    }
  }

  lemma {:induction false} PutAllMembers<V>(m: OrderedMap<V>, u: OrderedMap<V>)
    ensures forall k :: k in Keys(PutAll(m, u)) <==> k in Keys(m) || k in Keys(u)
    decreases |u|
  {
    if u != [] {
      PutAllMembers(Put(m, u[0].0, u[0].1), u[1..]);
      assert Keys(u) == [u[0].0] + Keys(u[1..]);
    }
  }

  lemma {:induction false} PutAllUnique<V>(m: OrderedMap<V>, u: OrderedMap<V>)
    requires UniqueKeys(m)
    ensures UniqueKeys(PutAll(m, u))
    decreases |u|
  {
    if u != [] {
      PutUnique(m, u[0].0, u[0].1);
      PutAllUnique(Put(m, u[0].0, u[0].1), u[1..]);
    }
  }

  /** putAll keeps m's keys in place and appends u's new keys; a unique-keyed map stays so. */
  lemma PutAllKeys<V>(m: OrderedMap<V>, u: OrderedMap<V>)
    ensures |m| <= |PutAll(m, u)| && Keys(PutAll(m, u))[..|m|] == Keys(m)
    ensures forall k :: k in Keys(PutAll(m, u)) <==> k in Keys(m) || k in Keys(u)
    ensures UniqueKeys(m) ==> UniqueKeys(PutAll(m, u))
  {
    PutAllPrefix(m, u);
    PutAllMembers(m, u);
    if UniqueKeys(m) {
      PutAllUnique(m, u);
    }
  }

  /** After putAll, a key of u (whose keys are unique) has u's value and any other key keeps
      m's value. */
  lemma {:induction false} PutAllGet<V>(m: OrderedMap<V>, u: OrderedMap<V>, k: string)
    requires UniqueKeys(u)
    ensures Get(PutAll(m, u), k) == if k in Keys(u) then Get(u, k) else Get(m, k)
    decreases |u|
  {
    if u != [] {
      assert Keys(u) == [u[0].0] + Keys(u[1..]);
      PutAllGet(Put(m, u[0].0, u[0].1), u[1..], k);
      PutGet(m, u[0].0, u[0].1, k);
    }
  }

  /** A string map as the ordered map of its non-null values. */
  function Lift(t: OrderedMap<string>): (r: OrderedMap<Option<string>>)
    ensures Keys(r) == Keys(t)
  {
    if t == [] then [] else [(t[0].0, Some(t[0].1))] + Lift(t[1..])
  }

  lemma {:induction false} LiftGet(t: OrderedMap<string>, k: string)
    ensures Get(Lift(t), k) == if k in Keys(t) then Some(Get(t, k)) else None
  {
    if t != [] {
      LiftGet(t[1..], k);
    }
  }

  /** The tags every composer gives an output metric: "host", then "port" as decimal text,
      then the sample's own tags (which may overwrite host or port). */
  function BaseTags(host: Option<string>, port: int, extra: OrderedMap<string>): OrderedMap<Option<string>>
  {
    PutAll(HostPort(host, port), Lift(extra))
  }

  function HostPort(host: Option<string>, port: int): OrderedMap<Option<string>>
  {
    Put(Put([], "host", host), "port", Some(IntToString(port)))
  }

  lemma HostPortShape(host: Option<string>, port: int)
    ensures Keys(HostPort(host, port)) == ["host", "port"]
    ensures Get(HostPort(host, port), "host") == Some(host)
    ensures Get(HostPort(host, port), "port") == Some(Some(IntToString(port)))
  {
    PutGet(Put([], "host", host), "port", Some(IntToString(port)), "host");
    PutGet([], "host", host, "host");
    PutGet(Put([], "host", host), "port", Some(IntToString(port)), "port");
  }

  /** The composed tag map starts with host and port and holds exactly those keys and the
      sample's, each once. */
  lemma BaseTagsKeys(host: Option<string>, port: int, extra: OrderedMap<string>)
    ensures |BaseTags(host, port, extra)| >= 2
    ensures Keys(BaseTags(host, port, extra))[..2] == ["host", "port"]
    ensures forall k :: k in Keys(BaseTags(host, port, extra)) <==> k == "host" || k == "port" || k in Keys(extra)
    ensures UniqueKeys(BaseTags(host, port, extra))
  {
    var base := HostPort(host, port);
    HostPortShape(host, port);
    assert |base| == 2;
    assert UniqueKeys(base) by {
      assert Keys(base)[0] != Keys(base)[1];
    }
    PutAllKeys(base, Lift(extra));
    assert Keys(Lift(extra)) == Keys(extra);
  }

  /** Each sample tag keeps its value in the composed map; host and port keep theirs unless
      the sample carries a tag of the same name, which then wins. */
  lemma BaseTagsGet(host: Option<string>, port: int, extra: OrderedMap<string>, k: string)
    requires UniqueKeys(extra)
    ensures k in Keys(extra) ==> Get(BaseTags(host, port, extra), k) == Some(Get(extra, k))
    ensures k == "host" && k !in Keys(extra) ==> Get(BaseTags(host, port, extra), k) == Some(host)
    ensures k == "port" && k !in Keys(extra) ==> Get(BaseTags(host, port, extra), k) == Some(Some(IntToString(port)))
  {
    HostPortShape(host, port);
    assert UniqueKeys(Lift(extra));
    PutAllGet(HostPort(host, port), Lift(extra), k);
    LiftGet(extra, k);
  }

  /** RawData: one scraped observation. Java's null host and null tag map are None; a value
      array that was never set is the empty sequence. */
  datatype RawData = RawData(
    host: Option<string>,
    port: int,
    time: int,
    kind: Type,
    name: string,
    tags: Option<OrderedMap<string>>,
    values: seq<real>)

  /** A sample as a parser creates it: host, port and time still at Java's defaults. */
  function NewSample(name: string, kind: Type, tags: Option<OrderedMap<string>>, values: seq<real>): RawData
  {
    RawData(None, 0, 0, kind, name, tags, values)
  }

  /** The sample's own tags, with a null map read as none. */
  function TagsOrEmpty(d: RawData): OrderedMap<string>
  {
    match d.tags
    case None => []
    case Some(t) => t
  }

  /** The sample shape the stale MetricService and BeatService iterations use: two scalar
      values and the tags as one string. */
  datatype LegacySample = LegacySample(
    host: Option<string>,
    port: int,
    time: int,
    kind: Type,
    name: string,
    tags: Option<string>,
    value1: real,
    value2: real)

  /** MetricData: one output point, with an insertion-ordered tag map. */
  datatype MetricData = MetricData(
    metric: string,
    tags: OrderedMap<Option<string>>,
    timestamp: string,
    value: real)

  /** A decoded JSON document as Jackson hands it over (objects keep document order). */
  datatype Json =
    | JObject(fields: seq<(string, Json)>)
    | JArray(items: seq<Json>)
    | JString(str: string)
    | JNumber(num: real)
    | JBool(b: bool)
    | JNull

  function EntriesText(t: OrderedMap<string>): string
  {
    if t == [] then []
    else if |t| == 1 then t[0].0 + "=" + t[0].1
    else t[0].0 + "=" + t[0].1 + ", " + EntriesText(t[1..])
  }

  /** AbstractMap.toString of a possibly-null tag map: "{k1=v1, k2=v2}" or "null". */
  function TagsText(t: Option<OrderedMap<string>>): string
  {
    match t
    case None => "null"
    case Some(m) => "{" + EntriesText(m) + "}"
  }

  /** CacheService.getKey: String.format("%s_%s_%s_%s", host, port, name, tags). */
  function KeyOf(d: RawData): string
  {
    NullText(d.host) + "_" + IntToString(d.port) + "_" + d.name + "_" + TagsText(d.tags)
  }

  /** MetricService.getKey over the stale sample shape, whose tags are already a string. */
  function LegacyKeyOf(d: LegacySample): string
  {
    NullText(d.host) + "_" + IntToString(d.port) + "_" + d.name + "_" + NullText(d.tags)
  }
}
