/** SpringBootDataParser: the flat JSON object of Spring Boot 1.x's /metrics endpoint
    (metric name to number) read into raw samples, one per entry. */
module SpringBootDataParser {
  import opened Common
  import opened Domain

  /** The only exception the loop can raise: a JSON null unboxed into a double. */
  datatype ParseError = NullValue(key: string)

  const CounterPrefix: string := "counter."

  /** A metric named "counter.*" is a COUNTER, any other UNTYPED. */
  function KindOfName(name: string): (r: Type)
    ensures r == COUNTER <==> StartsWith(name, CounterPrefix)
    ensures r != COUNTER ==> r == UNTYPED
  {
    if StartsWith(name, CounterPrefix) then COUNTER else UNTYPED
  }

  /** The samples of a decoded Map<String, Double>, in its order; None is a JSON null. */
  function Samples(entries: seq<(string, Option<real>)>): Result<seq<RawData>, ParseError>
  {
    if entries == [] then Ok([])
    else match entries[0].1
      case None => Err(NullValue(entries[0].0))
      case Some(v) =>
        AppendOk([NewSample(entries[0].0, KindOfName(entries[0].0), None, [v])], Samples(entries[1..]))
  }

  /** SpringBootDataParser.apply: content that is empty or does not decode to a map of
      numbers gives no samples; decode stands for Jackson. */
  function Parse(content: string, decode: string -> Option<seq<(string, Option<real>)>>)
    : Result<seq<RawData>, ParseError>
  {
    if |content| == 0 then Ok([])
    else match decode(content)
      case None => Ok([])
      case Some(entries) => Samples(entries)
  }

  method Apply(content: string, decode: string -> Option<seq<(string, Option<real>)>>)
    returns (r: Result<seq<RawData>, ParseError>)
    ensures r == Parse(content, decode)
  {
    if |content| == 0 {
      return Ok([]);
    }
    var decoded := decode(content);
    if decoded.None? {
      return Ok([]);
    }
    var entries := decoded.value;
    var list: seq<RawData> := [];
    AppendNil(Samples(entries));
    assert entries[0..] == entries;
    for i := 0 to |entries|
      invariant Samples(entries) == AppendOk(list, Samples(entries[i..]))
    {
      assert entries[i..][0] == entries[i] && entries[i..][1..] == entries[i + 1..];
      var name := entries[i].0;
      if entries[i].1.None? {
        return Err(NullValue(name));
      }
      var data := NewSample(name, KindOfName(name), None, [entries[i].1.value]);
      AppendAssoc(list, [data], Samples(entries[i + 1..]));
      list := list + [data];
    }
    assert list + [] == list;
    return Ok(list);
  }

  /** The map reads without error exactly when no value is null; then there is one sample
      per entry, in order, named by the key, holding its value, typed by its name. */
  lemma {:induction false} SamplesShape(entries: seq<(string, Option<real>)>)
    ensures Samples(entries).Ok? <==> forall k :: 0 <= k < |entries| ==> entries[k].1.Some?
    ensures Samples(entries).Err? ==> exists k :: 0 <= k < |entries| && entries[k].1.None? && Samples(entries).error == NullValue(entries[k].0)
    ensures Samples(entries).Ok? ==>
              var r := Samples(entries).value;
              && |r| == |entries|
              && forall k :: 0 <= k < |r| ==>
                   r[k] == NewSample(entries[k].0, KindOfName(entries[k].0), None, [entries[k].1.value])
  {
    if entries != [] {
      SamplesShape(entries[1..]);
      var rest := Samples(entries[1..]);
      if entries[0].1.Some? {
        if rest.Ok? {
          var r := Samples(entries).value;
          forall k | 0 < k < |r|
            ensures r[k] == NewSample(entries[k].0, KindOfName(entries[k].0), None, [entries[k].1.value])
          {
            assert r[k] == rest.value[k - 1] && entries[k] == entries[1..][k - 1];
          }
        } else {
          var k :| 0 <= k < |entries[1..]| && entries[1..][k].1.None? && rest.error == NullValue(entries[1..][k].0);
          assert entries[k + 1] == entries[1..][k];
        }
        assert forall k :: 0 < k < |entries| ==> entries[k] == entries[1..][k - 1];
      }
    }
  }
}
