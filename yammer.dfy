/** YammerDataParser: a Yammer/Dropwizard metrics JSON document walked into raw samples.
    Nested objects extend a dotted path, a string entry under "type" sets the kind for the
    entries after it (and the objects nested in them), and each number is one sample. */
module YammerDataParser {
  import opened Common
  import opened Domain

  /** The path of an object nested under key. */
  function ChildPath(path: Option<string>, key: string): string
  {
    match path
    case None => key
    case Some(p) => p + "." + key
  }

  /** The kind a sample is stamped with: UNTYPED while no "type" entry has been seen. */
  function KindOrUntyped(kind: Option<Type>): Type
  {
    match kind
    case None => UNTYPED
    case Some(t) => t
  }

  /** The samples of obj's entries from index i on: objects are walked in place, a string
      under "type" changes the kind for the following entries, a number becomes a sample
      named path + "." + key (the path printed as "null" at the top level). Arrays,
      booleans, nulls and other strings are skipped. */
  function Walk(obj: Json, i: nat, path: Option<string>, kind: Option<Type>): seq<RawData>
    requires obj.JObject?
    decreases obj, |obj.fields| - i
  {
    if i >= |obj.fields| then []
    else
      var key := obj.fields[i].0;
      var value := obj.fields[i].1;
      match value
      case JObject(_) =>
        assert obj.fields[i] in obj.fields;
        Walk(value, 0, Some(ChildPath(path, key)), kind) + Walk(obj, i + 1, path, kind)
      case JString(s) =>
        Walk(obj, i + 1, path, if key == "type" then Some(KindOf(s)) else kind)
      case JNumber(x) =>
        [NewSample(NullText(path) + "." + key, KindOrUntyped(kind), None, [x])] + Walk(obj, i + 1, path, kind)
      case _ => Walk(obj, i + 1, path, kind)
  }

  /** The document Jackson yields as a Map: an object, from non-empty content only. */
  function Document(content: string, decode: string -> Option<Json>): Option<Json>
  {
    if |content| == 0 then None
    else match decode(content)
      case Some(JObject(fields)) => Some(JObject(fields))
      case _ => None
  }

  /** YammerDataParser.apply: a document that is empty or does not decode to an object
      gives no samples. */
  function Parse(content: string, decode: string -> Option<Json>): seq<RawData>
  {
    match Document(content, decode)
    case None => []
    case Some(obj) => Walk(obj, 0, None, None)
  }

  /** The private parse(datas, map, path, type): appends obj's samples to datas. */
  method ParseInto(datas: seq<RawData>, obj: Json, path: Option<string>, kind: Option<Type>) returns (out: seq<RawData>)
    requires obj.JObject?
    ensures out == datas + Walk(obj, 0, path, kind)
    decreases obj
  {
    out := datas;
    var t := kind;
    var i := 0;
    while i < |obj.fields|
      invariant 0 <= i <= |obj.fields|
      invariant out + Walk(obj, i, path, t) == datas + Walk(obj, 0, path, kind)
    {
      var key := obj.fields[i].0;
      var value := obj.fields[i].1;
      match value {
        case JObject(_) =>
          assert obj.fields[i] in obj.fields;
          var before := out;
          out := ParseInto(out, value, Some(ChildPath(path, key)), t);
          assert before + (Walk(value, 0, Some(ChildPath(path, key)), t) + Walk(obj, i + 1, path, t))
              == out + Walk(obj, i + 1, path, t);
        case JString(s) =>
          if key == "type" {
            t := Some(KindOf(s));
          }
        case JNumber(x) =>
          var d := NewSample(NullText(path) + "." + key, KindOrUntyped(t), None, [x]);
          assert out + ([d] + Walk(obj, i + 1, path, t)) == (out + [d]) + Walk(obj, i + 1, path, t);
          out := out + [d];
        case _ =>
      }
      i := i + 1;
    }
    assert Walk(obj, i, path, t) == [];
  }

  method Apply(content: string, decode: string -> Option<Json>) returns (datas: seq<RawData>)
    ensures datas == Parse(content, decode)
  {
    datas := [];
    var doc := Document(content, decode);
    if doc.Some? {
      datas := ParseInto(datas, doc.value, None, None);
    }
  }

  lemma PrefixOfLonger(s: string, a: string, b: string)
    requires StartsWith(s, a + b)
    ensures StartsWith(s, a)
  {
    assert s[..|a|] == (a + b)[..|a|];
  }

  /** Every sample is fresh from the parser (no host, port, time or tags) with exactly one
      value, and below a named path every sample name extends that path. */
  lemma {:induction false} WalkShape(obj: Json, i: nat, path: Option<string>, kind: Option<Type>)
    requires obj.JObject?
    ensures forall d :: d in Walk(obj, i, path, kind) ==>
              d.host.None? && d.port == 0 && d.time == 0 && d.tags.None? && |d.values| == 1
    ensures path.Some? ==> forall d :: d in Walk(obj, i, path, kind) ==> StartsWith(d.name, path.value + ".")
    decreases obj, |obj.fields| - i
  {
    if i < |obj.fields| {
      var key := obj.fields[i].0;
      var value := obj.fields[i].1;
      match value
      case JObject(_) =>
        assert obj.fields[i] in obj.fields;
        var child := Some(ChildPath(path, key));
        WalkShape(value, 0, child, kind);
        WalkShape(obj, i + 1, path, kind);
        if path.Some? {
          forall d | d in Walk(value, 0, child, kind) ensures StartsWith(d.name, path.value + ".") {
            assert child.value + "." == (path.value + ".") + (key + ".");
            PrefixOfLonger(d.name, path.value + ".", key + ".");
          }
        }
      case JString(s) =>
        WalkShape(obj, i + 1, path, if key == "type" then Some(KindOf(s)) else kind);
      case JNumber(x) =>
        WalkShape(obj, i + 1, path, kind);
        if path.Some? {
          var name := NullText(path) + "." + key;
          assert name[..|path.value + "."|] == path.value + ".";
        }
      case _ =>
        WalkShape(obj, i + 1, path, kind);
    }
  }

  /** The numbers of a document in depth-first document order. */
  function Leaves(obj: Json, i: nat): seq<real>
    requires obj.JObject?
    decreases obj, |obj.fields| - i
  {
    if i >= |obj.fields| then []
    else
      var value := obj.fields[i].1;
      match value
      case JObject(_) =>
        assert obj.fields[i] in obj.fields;
        Leaves(value, 0) + Leaves(obj, i + 1)
      case JNumber(x) => [x] + Leaves(obj, i + 1)
      case _ => Leaves(obj, i + 1)
  }

  /** The first value of each sample. */
  function FirstValues(ds: seq<RawData>): seq<real>
  {
    if ds == [] then []
    else (if ds[0].values == [] then [] else [ds[0].values[0]]) + FirstValues(ds[1..])
  }

  lemma {:induction false} FirstValuesAppend(a: seq<RawData>, b: seq<RawData>)
    ensures FirstValues(a + b) == FirstValues(a) + FirstValues(b)
  {
    if a != [] {
      assert (a + b)[0] == a[0] && (a + b)[1..] == a[1..] + b;
      FirstValuesAppend(a[1..], b);
    } else {
      assert a + b == b;
    }
  }

  /** The samples carry exactly the document's numbers, one each, in document order,
      whatever the path and kind. */
  lemma {:induction false} WalkValues(obj: Json, i: nat, path: Option<string>, kind: Option<Type>)
    requires obj.JObject?
    ensures FirstValues(Walk(obj, i, path, kind)) == Leaves(obj, i)
    ensures |Walk(obj, i, path, kind)| == |Leaves(obj, i)|
    decreases obj, |obj.fields| - i
  {
    if i < |obj.fields| {
      var key := obj.fields[i].0;
      var value := obj.fields[i].1;
      match value
      case JObject(_) =>
        assert obj.fields[i] in obj.fields;
        var inner := Walk(value, 0, Some(ChildPath(path, key)), kind);
        var rest := Walk(obj, i + 1, path, kind);
        assert Walk(obj, i, path, kind) == inner + rest;
        assert Leaves(obj, i) == Leaves(value, 0) + Leaves(obj, i + 1);
        WalkValues(value, 0, Some(ChildPath(path, key)), kind);
        WalkValues(obj, i + 1, path, kind);
        FirstValuesAppend(inner, rest);
      case JString(s) =>
        var kind' := if key == "type" then Some(KindOf(s)) else kind;
        assert Walk(obj, i, path, kind) == Walk(obj, i + 1, path, kind');
        assert Leaves(obj, i) == Leaves(obj, i + 1);
        WalkValues(obj, i + 1, path, kind');
      case JNumber(x) =>
        var d := NewSample(NullText(path) + "." + key, KindOrUntyped(kind), None, [x]);
        var rest := Walk(obj, i + 1, path, kind);
        assert Walk(obj, i, path, kind) == [d] + rest;
        assert Leaves(obj, i) == [x] + Leaves(obj, i + 1);
        WalkValues(obj, i + 1, path, kind);
        FirstValuesAppend([d], rest);
        assert FirstValues([d]) == [x];
      case _ =>
        assert Walk(obj, i, path, kind) == Walk(obj, i + 1, path, kind);
        assert Leaves(obj, i) == Leaves(obj, i + 1);
        WalkValues(obj, i + 1, path, kind);
    }
  }

  /** No string entry under "type" anywhere in obj from index i on. */
  predicate TypeFree(obj: Json, i: nat)
    requires obj.JObject?
    decreases obj, |obj.fields| - i
  {
    if i >= |obj.fields| then true
    else
      var value := obj.fields[i].1;
      match value
      case JObject(_) =>
        assert obj.fields[i] in obj.fields;
        TypeFree(value, 0) && TypeFree(obj, i + 1)
      case JString(_) => obj.fields[i].0 != "type" && TypeFree(obj, i + 1)
      case _ => TypeFree(obj, i + 1)
  }

  /** Without "type" entries every sample keeps the kind the walk started with (UNTYPED at
      the top of a document). */
  lemma {:induction false} WalkKind(obj: Json, i: nat, path: Option<string>, kind: Option<Type>)
    requires obj.JObject? && TypeFree(obj, i)
    ensures forall d :: d in Walk(obj, i, path, kind) ==> d.kind == KindOrUntyped(kind)
    decreases obj, |obj.fields| - i
  {
    if i < |obj.fields| {
      var key := obj.fields[i].0;
      var value := obj.fields[i].1;
      match value
      case JObject(_) =>
        assert obj.fields[i] in obj.fields;
        WalkKind(value, 0, Some(ChildPath(path, key)), kind);
        WalkKind(obj, i + 1, path, kind);
      case _ =>
        WalkKind(obj, i + 1, path, kind);
    }
  }

  /** A "type" entry sets the kind of the numbers after it in its object, but not of the
      entries after the object it sits in; a top-level number is named "null.<key>". */
  lemma WalkExample()
    ensures Walk(JObject([("jvm", JObject([("type", JString("gauge")), ("heap", JNumber(5.0))])),
                          ("uptime", JNumber(7.0))]), 0, None, None)
         == [NewSample("jvm.heap", GAUGE, None, [5.0]), NewSample("null.uptime", UNTYPED, None, [7.0])]
  {
    var inner := JObject([("type", JString("gauge")), ("heap", JNumber(5.0))]);
    var outer := JObject([("jvm", inner), ("uptime", JNumber(7.0))]);
    assert UpperCase("gauge") == "GAUGE";
    assert KindOf("gauge") == GAUGE;
    assert Walk(inner, 2, Some("jvm"), Some(GAUGE)) == [];
    assert NullText(Some("jvm")) + "." + "heap" == "jvm.heap";
    assert Walk(inner, 1, Some("jvm"), Some(GAUGE)) == [NewSample("jvm.heap", GAUGE, None, [5.0])];
    assert Walk(inner, 0, Some("jvm"), None) == [NewSample("jvm.heap", GAUGE, None, [5.0])];
    assert ChildPath(None, "jvm") == "jvm";
    assert Walk(outer, 2, None, None) == [];
    assert NullText(None) + "." + "uptime" == "null.uptime";
    assert Walk(outer, 1, None, None) == [NewSample("null.uptime", UNTYPED, None, [7.0])];
  }
}
