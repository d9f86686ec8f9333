/** extractTags, which PrometheusDataParser and MetricService carry in identical copies:
    the text between a sample line's braces, split on ',' and then on '=', into a tag map. */
module TagParsing {
  import opened Common
  import opened Domain

  /** One comma-separated element: a non-blank element with at least two '='-separated
      tokens puts (first token, second token without double quotes); anything else is
      skipped. */
  function AddElement(m: OrderedMap<string>, element: string): OrderedMap<string>
  {
    if IsNotBlank(element) then
      var kv := Split(element, '=');
      if |kv| > 1 then Put(m, kv[0], RemoveChar(kv[1], '"')) else m
    else m
  }

  /** The map after the elements have been visited left to right. */
  function TagsFold(elements: seq<string>): OrderedMap<string>
  {
    if elements == [] then []
    else AddElement(TagsFold(elements[..|elements| - 1]), elements[|elements| - 1])
  }

  /** extractTags(s): a null string (no braces on the line) gives the empty map. */
  function TagsOf(s: Option<string>): OrderedMap<string>
  {
    match s
    case None => []
    case Some(t) => TagsFold(Split(t, ','))
  }

  /** The loop of extractTags, filling the map element by element. */
  method ExtractTags(s: Option<string>) returns (tags: OrderedMap<string>)
    ensures tags == TagsOf(s)
  {
    tags := [];
    if s.None? {
      return;
    }
    var ary := Split(s.value, ',');
    var i := 0;
    while i < |ary|
      invariant 0 <= i <= |ary|
      invariant tags == TagsFold(ary[..i])
    {
      var element := ary[i];
      if IsNotBlank(element) {
        var kv := Split(element, '=');
        if |kv| > 1 {
          tags := Put(tags, kv[0], RemoveChar(kv[1], '"'));
        }
      }
      assert ary[..i + 1][..i] == ary[..i];
      i := i + 1;
    }
    assert ary[..|ary|] == ary;
  }

  lemma {:induction false} TagsFoldUnique(elements: seq<string>)
    ensures UniqueKeys(TagsFold(elements))
  {
    if elements != [] {
      var m := TagsFold(elements[..|elements| - 1]);
      TagsFoldUnique(elements[..|elements| - 1]);
      var e := elements[|elements| - 1];
      if IsNotBlank(e) && |Split(e, '=')| > 1 {
        PutUnique(m, Split(e, '=')[0], RemoveChar(Split(e, '=')[1], '"'));
      }
    }
  }

  /** Every extracted map has each key once, and no value keeps a double quote. */
  lemma {:induction false} TagsFoldValues(elements: seq<string>)
    ensures UniqueKeys(TagsFold(elements))
    ensures forall p :: p in TagsFold(elements) ==> '"' !in p.1 && p.0 != [] && '=' !in p.0 && '=' !in p.1
  {
    TagsFoldUnique(elements);
    if elements != [] {
      var m := TagsFold(elements[..|elements| - 1]);
      TagsFoldValues(elements[..|elements| - 1]);
      var e := elements[|elements| - 1];
      if IsNotBlank(e) && |Split(e, '=')| > 1 {
        var kv := Split(e, '=');
        assert kv[0] in kv && kv[1] in kv;
        PutEntries(m, kv[0], RemoveChar(kv[1], '"'));
      }
    }
  }

  /** Every entry after a put is (k, v) or was there before. */
  lemma {:induction false} PutEntries<V>(m: OrderedMap<V>, k: string, v: V)
    ensures forall p :: p in Put(m, k, v) ==> p == (k, v) || p in m
  {
    if m != [] && m[0].0 != k {
      PutEntries(m[1..], k, v);
      assert Put(m, k, v) == [m[0]] + Put(m[1..], k, v);
      assert forall p :: p in m[1..] ==> p in m;
    } else if m != [] {
      assert forall p :: p in m[1..] ==> p in m;
    }
  }

  lemma ExtractTagsShape(s: Option<string>)
    ensures UniqueKeys(TagsOf(s))
    ensures forall p :: p in TagsOf(s) ==> '"' !in p.1 && p.0 != [] && '=' !in p.0 && '=' !in p.1
  {
    if s.Some? {
      TagsFoldValues(Split(s.value, ','));
    }
  }

  /** A tag rendered the way the exposition format writes it: key="value". */
  function RenderTag(p: (string, string)): string
  {
    p.0 + ['='] + ("\"" + p.1 + "\"")
  }

  function RenderTags(t: OrderedMap<string>): seq<string>
  {
    seq(|t|, i requires 0 <= i < |t| => RenderTag(t[i]))
  }

  /** A tag set extractTags can read back: unique keys, none empty, and no ',', '=' in keys
      or values and no '"' in values. */
  predicate Renderable(t: OrderedMap<string>)
  {
    && UniqueKeys(t)
    && forall p :: p in t ==>
         && p.0 != [] && ',' !in p.0 && '=' !in p.0
         && ',' !in p.1 && '=' !in p.1 && '"' !in p.1
  }

  /** One rendered element puts back exactly its own entry. */
  lemma AddRendered(m: OrderedMap<string>, p: (string, string))
    requires p.0 != [] && ',' !in p.0 && '=' !in p.0 && '=' !in p.1 && '"' !in p.1
    requires p.0 !in Keys(m)
    ensures AddElement(m, RenderTag(p)) == m + [p]
  {
    var q := "\"" + p.1 + "\"";
    var e := RenderTag(p);
    assert e == JoinWith([p.0, q], '=');
    assert e[|p.0|] == '=' && !IsWhitespace(e[|p.0|]);
    SplitJoin([p.0, q], '=');
    assert RemoveChar(q, '"') == p.1 by {
      assert RemoveChar(q, '"') == RemoveChar(p.1 + "\"", '"') by {
        assert q[0] == '"' && q[1..] == p.1 + "\"";
      }
      RemoveAppendQuote(p.1);
    }
    PutFresh(m, p.0, p.1);
  }

  lemma {:induction false} RemoveAppendQuote(v: string)
    requires '"' !in v
    ensures RemoveChar(v + "\"", '"') == v
  {
    if v != [] {
      assert (v + "\"")[0] == v[0] && (v + "\"")[1..] == v[1..] + "\"";
      RemoveAppendQuote(v[1..]);
    } else {
      assert v + "\"" == "\"";
    }
  }

  lemma {:induction false} FoldRendered(t: OrderedMap<string>, n: nat)
    requires Renderable(t) && n <= |t|
    ensures TagsFold(RenderTags(t)[..n]) == t[..n]
  {
    if n > 0 {
      var es := RenderTags(t)[..n];
      var p := t[n - 1];
      assert es[..n - 1] == RenderTags(t)[..n - 1];
      assert es[n - 1] == RenderTag(p);
      assert TagsFold(es) == AddElement(TagsFold(es[..n - 1]), RenderTag(p));
      FoldRendered(t, n - 1);
      assert p.0 != [] && ',' !in p.0 && '=' !in p.0 && '=' !in p.1 && '"' !in p.1 by {
        assert p in t;
      }
      assert p.0 !in Keys(t[..n - 1]) by {
        KeyNotInPrefix(t, n - 1);
      }
      AddRendered(t[..n - 1], p);
      PrefixSnoc(t, n);
    }
  }

  /** No rendered element is empty or holds a comma. */
  lemma RenderedElements(t: OrderedMap<string>)
    requires Renderable(t)
    ensures forall e :: e in RenderTags(t) ==> e != [] && ',' !in e
  {
    forall e | e in RenderTags(t) ensures e != [] && ',' !in e {
      var i :| 0 <= i < |t| && e == RenderTag(t[i]);
      assert t[i] in t;
    }
  }

  /** Round trip: writing a tag set as key="value" elements joined by commas and extracting
      it again gives the same tags in the same order. */
  lemma ExtractRendered(t: OrderedMap<string>)
    requires Renderable(t)
    ensures TagsOf(Some(JoinWith(RenderTags(t), ','))) == t
  {
    var es := RenderTags(t);
    assert Split(JoinWith(es, ','), ',') == es by {
      RenderedElements(t);
      SplitJoin(es, ',');
    }
    assert TagsFold(es) == t by {
      FoldRendered(t, |t|);
      assert es[..|t|] == es;
      assert t[..|t|] == t;
    }
  }
}
