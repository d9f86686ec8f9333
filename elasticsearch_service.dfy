/** ElasticsearchService: a batch of metrics written to Elasticsearch's _bulk endpoint as
    newline-delimited JSON, an action line and a document line per metric, to one of the
    configured hosts; the response status feeds an ok counter or an error counter. */
module ElasticsearchService {
  import opened Common
  import opened Domain

  /** The exceptions of listener: nextInt(0) on an empty host list, or a metric Jackson
      cannot serialise (rethrown as a RuntimeException). */
  datatype WriteError = NoHost | EncodeFailed(metric: MetricData)

  /** The request write posts. */
  datatype BulkRequest = BulkRequest(url: string, body: string)

  /** The bulk action that precedes each document. */
  function ActionDoc(index: string): string
  {
    "{\"index\":{\"_index\":\"" + index + "\",\"_type\":\"metric\"}}"
  }

  /** The action line composeLine adds: the action followed by a newline. */
  function ActionLine(index: string): string
  {
    ActionDoc(index) + "\n"
  }

  /** Whether composeLine skips the metric: omitZero is set and the value is 0. */
  predicate Omitted(m: MetricData, omitZero: bool)
  {
    omitZero && m.value == 0.0
  }

  /** The metrics that are written, in batch order. */
  function Sent(metrics: seq<MetricData>, omitZero: bool): (r: seq<MetricData>)
    ensures |r| <= |metrics|
    ensures forall m :: m in r <==> m in metrics && !Omitted(m, omitZero)
  {
    if metrics == [] then []
    else (if Omitted(metrics[0], omitZero) then [] else [metrics[0]]) + Sent(metrics[1..], omitZero)
  }

  /** The lines composeLine adds for the metrics in turn; encode stands for Jackson's
      writeValueAsString, None where it throws. */
  function BulkLines(metrics: seq<MetricData>, index: string, omitZero: bool, encode: MetricData -> Option<string>)
    : Result<seq<string>, WriteError>
  {
    if metrics == [] then Ok([])
    else if Omitted(metrics[0], omitZero) then BulkLines(metrics[1..], index, omitZero, encode)
    else match encode(metrics[0])
      case None => Err(EncodeFailed(metrics[0]))
      case Some(json) => AppendOk([ActionLine(index), json + "\n"], BulkLines(metrics[1..], index, omitZero, encode))
  }

  /** write's request: the lines joined with nothing between them, posted to
      http://<host>/_bulk. */
  function Request(metrics: seq<MetricData>, index: string, host: string, omitZero: bool,
                   encode: MetricData -> Option<string>): Result<BulkRequest, WriteError>
  {
    match BulkLines(metrics, index, omitZero, encode)
    case Err(e) => Err(e)
    case Ok(lines) => Ok(BulkRequest("http://" + host + "/_bulk", Concat(lines)))
  }

  /** listener's host choice: the only host when there is one, otherwise the one at the
      random index pick mod size (Random.nextInt throws on an empty list). */
  function SelectHost(hosts: seq<string>, pick: nat): (r: Option<string>)
    ensures r.None? <==> hosts == []
    ensures r.Some? ==> r.value in hosts
    ensures |hosts| == 1 ==> r == Some(hosts[0])
  {
    if |hosts| == 1 then Some(hosts[0])
    else if hosts == [] then None
    else Some(hosts[pick % |hosts|])
  }

  /** HttpStatus.is2xxSuccessful. */
  predicate Successful(status: int)
  {
    200 <= status < 300
  }

  /** The lines fail to build exactly when a written metric does not serialise. */
  lemma {:induction false} BulkLinesOk(metrics: seq<MetricData>, index: string, omitZero: bool, encode: MetricData -> Option<string>)
    ensures BulkLines(metrics, index, omitZero, encode).Ok?
            <==> forall m :: m in Sent(metrics, omitZero) ==> encode(m).Some?
  {
    if metrics != [] {
      BulkLinesOk(metrics[1..], index, omitZero, encode);
      if !Omitted(metrics[0], omitZero) {
        assert Sent(metrics, omitZero) == [metrics[0]] + Sent(metrics[1..], omitZero);
      } else {
        assert Sent(metrics, omitZero) == Sent(metrics[1..], omitZero);
      }
    }
  }

  /** lines are two per metric of sent, in order: the action line, then the metric's
      JSON and a newline. */
  predicate Paired(lines: seq<string>, sent: seq<MetricData>, index: string, encode: MetricData -> Option<string>)
  {
    && |lines| == 2 * |sent|
    && forall k :: 0 <= k < |sent| ==>
         && encode(sent[k]).Some?
         && lines[2 * k] == ActionLine(index)
         && lines[2 * k + 1] == encode(sent[k]).value + "\n"
  }

  /** One more written metric in front adds its pair of lines in front. */
  lemma PairedCons(m: MetricData, tail: seq<MetricData>, r: seq<string>, index: string, encode: MetricData -> Option<string>)
    requires encode(m).Some? && Paired(r, tail, index, encode)
    ensures Paired([ActionLine(index), encode(m).value + "\n"] + r, [m] + tail, index, encode)
  {
    var lines := [ActionLine(index), encode(m).value + "\n"] + r;
    var sent := [m] + tail;
    forall k | 1 <= k < |sent|
      ensures encode(sent[k]).Some? && lines[2 * k] == ActionLine(index) && lines[2 * k + 1] == encode(sent[k]).value + "\n"
    {
      assert sent[k] == tail[k - 1];
      assert lines[2 * k] == r[2 * (k - 1)];
      assert lines[2 * k + 1] == r[2 * (k - 1) + 1];
    }
  }

  /** Built lines are two per written metric, in batch order: the action line, then the
      metric's JSON and a newline. */
  lemma {:induction false} BulkLinesLayout(metrics: seq<MetricData>, index: string, omitZero: bool, encode: MetricData -> Option<string>)
    requires BulkLines(metrics, index, omitZero, encode).Ok?
    ensures Paired(BulkLines(metrics, index, omitZero, encode).value, Sent(metrics, omitZero), index, encode)
  {
    if metrics != [] {
      var rest := metrics[1..];
      BulkLinesLayout(rest, index, omitZero, encode);
      if !Omitted(metrics[0], omitZero) {
        assert Sent(metrics, omitZero) == [metrics[0]] + Sent(rest, omitZero);
        var r := BulkLines(rest, index, omitZero, encode).value;
        assert BulkLines(metrics, index, omitZero, encode).value == [ActionLine(index), encode(metrics[0]).value + "\n"] + r;
        PairedCons(metrics[0], Sent(rest, omitZero), r, index, encode);
      } else {
        assert Sent(metrics, omitZero) == Sent(rest, omitZero);
      }
    }
  }

  /** With omitZero off every metric is written; with it on no written metric is 0. */
  lemma {:induction false} SentOmits(metrics: seq<MetricData>, omitZero: bool)
    ensures !omitZero ==> Sent(metrics, omitZero) == metrics
    ensures omitZero ==> forall m :: m in Sent(metrics, omitZero) ==> m.value != 0.0
  {
    if metrics != [] {
      SentOmits(metrics[1..], omitZero);
    }
  }

  /** The body reads back as its documents: splitting the concatenation of non-empty,
      newline-free documents, each followed by a newline, on newlines gives the documents. */
  lemma {:induction false} BodyLines(lines: seq<string>, docs: seq<string>)
    requires |lines| == |docs|
    requires forall k :: 0 <= k < |lines| ==> lines[k] == docs[k] + "\n" && docs[k] != [] && '\n' !in docs[k]
    ensures Split(Concat(lines), '\n') == docs
  {
    if lines != [] {
      var t := docs[0];
      var rest := "\n" + Concat(lines[1..]);
      assert Concat(lines) == t + rest;
      SplitFromSeparated(t, rest, '\n', []);
      assert [] + t == t;
      assert rest[1..] == Concat(lines[1..]);
      assert SplitFrom(rest, '\n', t) == [t] + SplitFrom(rest[1..], '\n', []);
      BodyLines(lines[1..], docs[1..]);
      assert docs == [t] + docs[1..];
    }
  }

  /** The JSON of a metric that serialises. */
  function DocOf(json: Option<string>): string
  {
    match json
    case Some(s) => s
    case None => ""
  }

  /** Round trip of the bulk body: when the index name and every document are non-empty
      and free of newlines, the body splits back into action, document, action, document,
      ... for the written metrics in order. */
  lemma BulkBody(metrics: seq<MetricData>, index: string, omitZero: bool, encode: MetricData -> Option<string>)
    requires '\n' !in index
    requires forall m :: m in metrics && encode(m).Some? ==> encode(m).value != [] && '\n' !in encode(m).value
    requires BulkLines(metrics, index, omitZero, encode).Ok?
    ensures var parts := Split(Concat(BulkLines(metrics, index, omitZero, encode).value), '\n');
            var sent := Sent(metrics, omitZero);
            && |parts| == 2 * |sent|
            && forall k :: 0 <= k < |sent| ==>
                 encode(sent[k]).Some? && parts[2 * k] == ActionDoc(index) && parts[2 * k + 1] == encode(sent[k]).value
  {
    var lines := BulkLines(metrics, index, omitZero, encode).value;
    var sent := Sent(metrics, omitZero);
    BulkLinesLayout(metrics, index, omitZero, encode);
    ActionDocClean(index);
    forall m | m in sent ensures encode(m).Some? ==> encode(m).value != [] && '\n' !in encode(m).value {
    }
    PairedBody(lines, sent, index, encode);
  }

  /** The body of the pairs (action line, document line) splits back into the action and
      the documents. */
  lemma PairedBody(lines: seq<string>, sent: seq<MetricData>, index: string, encode: MetricData -> Option<string>)
    requires ActionDoc(index) != [] && '\n' !in ActionDoc(index)
    requires forall m :: m in sent && encode(m).Some? ==> encode(m).value != [] && '\n' !in encode(m).value
    requires Paired(lines, sent, index, encode)
    ensures var parts := Split(Concat(lines), '\n');
            && |parts| == 2 * |sent|
            && forall k :: 0 <= k < |sent| ==>
                 parts[2 * k] == ActionDoc(index) && parts[2 * k + 1] == encode(sent[k]).value
  {
    var docs := PairDocs(sent, index, encode);
    PairDocsIndex(sent, index, encode);
    forall j | 0 <= j < |lines|
      ensures lines[j] == docs[j] + "\n" && docs[j] != [] && '\n' !in docs[j]
    {
      var h := j / 2;
      assert j == 2 * h || j == 2 * h + 1;
      assert sent[h] in sent;
    }
    BodyLines(lines, docs);
  }

  /** Action, document, action, document, ... for the metrics in order. */
  function PairDocs(sent: seq<MetricData>, index: string, encode: MetricData -> Option<string>): (r: seq<string>)
    ensures |r| == 2 * |sent|
  {
    if sent == [] then [] else [ActionDoc(index), DocOf(encode(sent[0]))] + PairDocs(sent[1..], index, encode)
  }

  lemma {:induction false} PairDocsIndex(sent: seq<MetricData>, index: string, encode: MetricData -> Option<string>)
    ensures forall k :: 0 <= k < |sent| ==>
              PairDocs(sent, index, encode)[2 * k] == ActionDoc(index)
              && PairDocs(sent, index, encode)[2 * k + 1] == DocOf(encode(sent[k]))
  {
    if sent != [] {
      PairDocsIndex(sent[1..], index, encode);
      var r := PairDocs(sent, index, encode);
      var rest := PairDocs(sent[1..], index, encode);
      forall k | 1 <= k < |sent|
        ensures r[2 * k] == ActionDoc(index) && r[2 * k + 1] == DocOf(encode(sent[k]))
      {
        assert r[2 * k] == rest[2 * (k - 1)];
        assert r[2 * k + 1] == rest[2 * (k - 1) + 1];
        assert sent[k] == sent[1..][k - 1];
      }
    }
  }

  lemma ActionDocClean(index: string)
    requires '\n' !in index
    ensures ActionDoc(index) != [] && '\n' !in ActionDoc(index)
  {
    var pre := "{\"index\":{\"_index\":\"";
    var post := "\",\"_type\":\"metric\"}}";
    assert ActionDoc(index) == pre + index + post;
    assert '\n' !in pre && '\n' !in post;
  }

  /** The lines of write's loop over the batch. */
  method ComposeLines(metrics: seq<MetricData>, index: string, omitZero: bool, encode: MetricData -> Option<string>)
    returns (r: Result<seq<string>, WriteError>)
    ensures r == BulkLines(metrics, index, omitZero, encode)
  {
    var lines: seq<string> := [];
    AppendNil(BulkLines(metrics, index, omitZero, encode));
    assert metrics[0..] == metrics;
    for i := 0 to |metrics|
      invariant BulkLines(metrics, index, omitZero, encode) == AppendOk(lines, BulkLines(metrics[i..], index, omitZero, encode))
    {
      var metric := metrics[i];
      assert metrics[i..][0] == metric && metrics[i..][1..] == metrics[i + 1..];
      if !(omitZero && metric.value == 0.0) {
        var json := encode(metric);
        if json.None? {
          return Err(EncodeFailed(metric));
        }
        var pair := [ActionLine(index), json.value + "\n"];
        AppendAssoc(lines, pair, BulkLines(metrics[i + 1..], index, omitZero, encode));
        lines := lines + pair;
      }
    }
    assert lines + [] == lines;
    return Ok(lines);
  }

  class ElasticsearchService {
    /** elasticsearch.write.ok.count. */
    var writeCount: nat
    /** elasticsearch.write.error.count. */
    var errorCount: nat

    constructor()
      ensures writeCount == 0 && errorCount == 0
    {
      writeCount := 0;
      errorCount := 0;
    }

    /** listener and write: pick a host, build the request, post it; status stands for the
        response's status code. A 2xx status counts a write, any other an error; an
        exception before the post counts neither. */
    method Listener(metrics: seq<MetricData>, index: string, hosts: seq<string>, pick: nat, omitZero: bool,
                    encode: MetricData -> Option<string>, status: int) returns (r: Result<BulkRequest, WriteError>)
      modifies this
      ensures SelectHost(hosts, pick).None? ==> r == Err(NoHost)
      ensures SelectHost(hosts, pick).Some? ==> r == Request(metrics, index, SelectHost(hosts, pick).value, omitZero, encode)
      ensures r.Err? ==> writeCount == old(writeCount) && errorCount == old(errorCount)
      ensures r.Ok? && Successful(status) ==> writeCount == old(writeCount) + 1 && errorCount == old(errorCount)
      ensures r.Ok? && !Successful(status) ==> writeCount == old(writeCount) && errorCount == old(errorCount) + 1
    {
      var host := SelectHost(hosts, pick);
      if host.None? {
        return Err(NoHost);
      }
      var lines := ComposeLines(metrics, index, omitZero, encode);
      if lines.Err? {
        return Err(lines.error);
      }
      var url := "http://" + host.value + "/_bulk";
      var body := Concat(lines.value);
      if 200 <= status < 300 {
        writeCount := writeCount + 1;
      } else {
        errorCount := errorCount + 1;
      }
      return Ok(BulkRequest(url, body));
    }
  }
}
