/** PrometheusDataParser: the text exposition format read into raw samples. Lines are
    grouped at each "# HELP " line; a group's first line names the metric and its kind
    ("# TYPE name kind"), and each further line is one sample (two for a SUMMARY). */
module PrometheusDataParser {
  import opened Common
  import opened Domain
  import TagParsing

  /** The exceptions apply can throw, by cause. */
  datatype ParseError =
    | NoOpenGroup          // a line before the first "# HELP " line (NullPointerException)
    | EmptyGroup           // a "# HELP " line followed directly by another one
    | NoTypeName           // a group's first line holds no name after "# TYPE "
    | BadNumber(text: string) // Double.valueOf refused the text after the last space
    | MissingSumLine       // a SUMMARY group whose last sample has no second line

  const HelpPrefix: string := "# HELP "
  const TypePrefix: string := "# TYPE "

  /** The document's lines: carriage returns removed, split on '\n', empty lines dropped. */
  function Lines(content: string): (r: seq<string>)
    ensures forall l :: l in r ==> l != [] && '\n' !in l
  {
    Split(RemoveChar(content, '\r'), '\n')
  }

  /** Splitting into lines loses only the line breaks. */
  lemma LinesKeepText(content: string)
    ensures Concat(Lines(content)) == RemoveChar(RemoveChar(content, '\r'), '\n')
  {
    SplitConcat(RemoveChar(content, '\r'), '\n');
  }

  predicate IsHelp(line: string)
  {
    StartsWith(line, HelpPrefix)
  }

  /** The grouping loop's state: the finished groups and the group being filled (g). */
  datatype Grouping = Grouping(closed: seq<seq<string>>, open: Option<seq<string>>)

  function Close(g: Grouping): seq<seq<string>>
  {
    match g.open
    case None => g.closed
    case Some(cur) => g.closed + [cur]
  }

  function GroupStep(g: Grouping, line: string): Result<Grouping, ParseError>
  {
    if IsHelp(line) then Ok(Grouping(Close(g), Some([])))
    else match g.open
      case None => Err(NoOpenGroup)
      case Some(cur) => Ok(Grouping(g.closed, Some(cur + [line])))
  }

  function GroupFold(lines: seq<string>): Result<Grouping, ParseError>
  {
    if lines == [] then Ok(Grouping([], None))
    else match GroupFold(lines[..|lines| - 1])
      case Err(e) => Err(e)
      case Ok(g) => GroupStep(g, lines[|lines| - 1])
  }

  /** The groups of the "group by name" loop, the last one closed after the loop. */
  function Groups(lines: seq<string>): Result<seq<seq<string>>, ParseError>
  {
    match GroupFold(lines)
    case Err(e) => Err(e)
    case Ok(g) => Ok(Close(g))
  }

  function HelpCount(lines: seq<string>): nat
  {
    if lines == [] then 0
    else HelpCount(lines[..|lines| - 1]) + (if IsHelp(lines[|lines| - 1]) then 1 else 0)
  }

  /** The lines that are not "# HELP " lines, in order. */
  function Bodies(lines: seq<string>): seq<string>
  {
    if lines == [] then []
    else Bodies(lines[..|lines| - 1]) + (if IsHelp(lines[|lines| - 1]) then [] else [lines[|lines| - 1]])
  }

  function Flatten(gs: seq<seq<string>>): seq<string>
  {
    if gs == [] then [] else Flatten(gs[..|gs| - 1]) + gs[|gs| - 1]
  }

  lemma FlattenSnoc(gs: seq<seq<string>>, x: seq<string>)
    ensures Flatten(gs + [x]) == Flatten(gs) + x
  {
    assert (gs + [x])[..|gs|] == gs;
  }

  lemma {:induction false} GroupFoldShape(lines: seq<string>)
    ensures GroupFold(lines).Ok? <==> lines == [] || IsHelp(lines[0])
    ensures GroupFold(lines).Err? ==> GroupFold(lines) == Err(NoOpenGroup)
    ensures GroupFold(lines).Ok? ==>
              && (GroupFold(lines).value.open.Some? <==> lines != [])
              && |Close(GroupFold(lines).value)| == HelpCount(lines)
              && Flatten(Close(GroupFold(lines).value)) == Bodies(lines)
  {
    if lines != [] {
      var init := lines[..|lines| - 1];
      var last := lines[|lines| - 1];
      GroupFoldShape(init);
      if init != [] {
        assert init[0] == lines[0];
      }
      match GroupFold(init)
      case Err(e) =>
      case Ok(g) =>
        if IsHelp(last) {
          FlattenSnoc(Close(g), []);
        } else if g.open.Some? {
          FlattenSnoc(g.closed, g.open.value);
          FlattenSnoc(g.closed, g.open.value + [last]);
        }
    }
  }

  /** Grouping succeeds exactly when the document is empty or opens with a "# HELP " line;
      otherwise the first line dereferences the null group. There is one group per
      "# HELP " line, and the groups hold the other lines, in order. */
  lemma GroupsShape(lines: seq<string>)
    ensures Groups(lines).Ok? <==> lines == [] || IsHelp(lines[0])
    ensures Groups(lines).Err? ==> Groups(lines) == Err(NoOpenGroup)
    ensures Groups(lines).Ok? ==>
              |Groups(lines).value| == HelpCount(lines) && Flatten(Groups(lines).value) == Bodies(lines)
  {
    GroupFoldShape(lines);
  }

  /** The text Double.valueOf reads: after the line's last space. */
  function ValueText(line: string): string
  {
    AfterLast(line, ' ')
  }

  /** The tags of a sample line: the text between its first '{' and the next '}'. */
  function LineTags(line: string): OrderedMap<string>
  {
    TagParsing.TagsOf(Between(line, '{', '}'))
  }

  /** The sample value of a line, where num stands for Double.valueOf (None: it throws). */
  function Number(num: string -> Option<real>, line: string): Result<real, ParseError>
  {
    match num(ValueText(line))
    case None => Err(BadNumber(ValueText(line)))
    case Some(v) => Ok(v)
  }

  /** The metric name and kind from a group's first line. */
  function Header(group: seq<string>): Result<(string, Type), ParseError>
  {
    if group == [] then Err(EmptyGroup)
    else
      var ary := Split(SubstringAfter(group[0], TypePrefix), ' ');
      if ary == [] then Err(NoTypeName)
      else Ok((ary[0], if |ary| > 1 then KindOf(ary[1]) else UNTYPED))
  }

  /** The samples of a group from line i on. */
  function SamplesFrom(group: seq<string>, i: nat, name: string, kind: Type, num: string -> Option<real>)
    : Result<seq<RawData>, ParseError>
    decreases |group| - i
  {
    if i >= |group| then Ok([])
    else
      var tags := LineTags(group[i]);
      match Number(num, group[i])
      case Err(e) => Err(e)
      case Ok(v1) =>
        if kind == SUMMARY then
          if i + 1 >= |group| then Err(MissingSumLine)
          else match Number(num, group[i + 1])
            case Err(e) => Err(e)
            case Ok(v2) =>
              AppendOk([NewSample(name, kind, Some(tags), [v1, v2])], SamplesFrom(group, i + 2, name, kind, num))
        else AppendOk([NewSample(name, kind, Some(tags), [v1])], SamplesFrom(group, i + 1, name, kind, num))
  }

  function GroupSamples(group: seq<string>, num: string -> Option<real>): Result<seq<RawData>, ParseError>
  {
    match Header(group)
    case Err(e) => Err(e)
    case Ok(h) => SamplesFrom(group, 1, h.0, h.1, num)
  }

  function ParseGroups(gs: seq<seq<string>>, num: string -> Option<real>): Result<seq<RawData>, ParseError>
  {
    if gs == [] then Ok([])
    else match GroupSamples(gs[0], num)
      case Err(e) => Err(e)
      case Ok(a) => AppendOk(a, ParseGroups(gs[1..], num))
  }

  /** PrometheusDataParser.apply: every group's samples, in document order. */
  function Parse(content: string, num: string -> Option<real>): Result<seq<RawData>, ParseError>
  {
    match Groups(Lines(content))
    case Err(e) => Err(e)
    case Ok(gs) => ParseGroups(gs, num)
  }

  /** A "# TYPE " line with at least one word: the first word is the name and the second,
      read case-insensitively, the kind (UNTYPED when absent or unknown). */
  lemma HeaderOfTypeLine(group: seq<string>, words: seq<string>)
    requires |words| >= 1 && forall w :: w in words ==> w != [] && ' ' !in w
    requires group != [] && group[0] == TypePrefix + JoinWith(words, ' ')
    ensures Header(group) == Ok((words[0], if |words| > 1 then KindOf(words[1]) else UNTYPED))
  {
    var s := group[0];
    assert OccursAt(s, TypePrefix, 0) by {
      assert s[..|TypePrefix|] == TypePrefix;
    }
    assert IndexOf(s, TypePrefix, 0) == Some(0);
    assert SubstringAfter(s, TypePrefix) == JoinWith(words, ' ');
    SplitJoin(words, ' ');
  }

  /** Every line of the group from i on carries a value that parses. */
  predicate AllNumbers(group: seq<string>, i: nat, num: string -> Option<real>)
  {
    forall j :: i <= j < |group| ==> num(ValueText(group[j])).Some?
  }

  lemma AllNumbersStep(group: seq<string>, i: nat, num: string -> Option<real>)
    requires i < |group|
    ensures AllNumbers(group, i, num) <==> num(ValueText(group[i])).Some? && AllNumbers(group, i + 1, num)
  {
  }

  /** r holds one plain sample per line of the group from i on, in line order. */
  predicate PlainLayout(r: seq<RawData>, group: seq<string>, i: nat, name: string, kind: Type, num: string -> Option<real>)
    requires AllNumbers(group, i, num)
  {
    && |r| == |group| - i
    && forall k :: 0 <= k < |r| ==>
         r[k] == NewSample(name, kind, Some(LineTags(group[i + k])), [num(ValueText(group[i + k])).value])
  }

  lemma PlainLayoutCons(r: seq<RawData>, group: seq<string>, i: nat, name: string, kind: Type, num: string -> Option<real>)
    requires i < |group| && AllNumbers(group, i, num)
    requires PlainLayout(r, group, i + 1, name, kind, num)
    ensures PlainLayout([NewSample(name, kind, Some(LineTags(group[i])), [num(ValueText(group[i])).value])] + r, group, i, name, kind, num)
  {
    var s := [NewSample(name, kind, Some(LineTags(group[i])), [num(ValueText(group[i])).value])] + r;
    forall k | 0 < k < |s|
      ensures s[k] == NewSample(name, kind, Some(LineTags(group[i + k])), [num(ValueText(group[i + k])).value])
    {
      assert s[k] == r[k - 1];
      assert i + 1 + (k - 1) == i + k;
    }
  }

  /** A group of any kind but SUMMARY: one sample per line after the first, named and typed
      by the header, tagged and valued from its own line; it fails exactly when some value
      does not parse. */
  lemma {:induction false} PlainSamples(group: seq<string>, i: nat, name: string, kind: Type, num: string -> Option<real>)
    requires kind != SUMMARY && i <= |group|
    ensures SamplesFrom(group, i, name, kind, num).Ok? <==> AllNumbers(group, i, num)
    ensures SamplesFrom(group, i, name, kind, num).Ok? ==>
              PlainLayout(SamplesFrom(group, i, name, kind, num).value, group, i, name, kind, num)
    decreases |group| - i
  {
    if i < |group| {
      PlainSamples(group, i + 1, name, kind, num);
      AllNumbersStep(group, i, num);
      var rest := SamplesFrom(group, i + 1, name, kind, num);
      if num(ValueText(group[i])).Some? && rest.Ok? {
        var r := SamplesFrom(group, i, name, kind, num).value;
        assert r == [NewSample(name, kind, Some(LineTags(group[i])), [num(ValueText(group[i])).value])] + rest.value;
        PlainLayoutCons(rest.value, group, i, name, kind, num);
      }
    }
  }

  /** The SUMMARY sample read from lines j and j + 1. */
  function SummaryAt(group: seq<string>, j: nat, name: string, num: string -> Option<real>): RawData
    requires j + 1 < |group| && num(ValueText(group[j])).Some? && num(ValueText(group[j + 1])).Some?
  {
    NewSample(name, SUMMARY, Some(LineTags(group[j])), [num(ValueText(group[j])).value, num(ValueText(group[j + 1])).value])
  }

  /** r holds one SUMMARY sample per pair of lines of the group from i on, in line order. */
  predicate SummaryLayout(r: seq<RawData>, group: seq<string>, i: nat, name: string, num: string -> Option<real>)
    requires AllNumbers(group, i, num)
  {
    && |group| - i == 2 * |r|
    && forall k :: 0 <= k < |r| ==> r[k] == SummaryAt(group, i + 2 * k, name, num)
  }

  lemma SummaryLayoutCons(r: seq<RawData>, group: seq<string>, i: nat, name: string, num: string -> Option<real>)
    requires i + 1 < |group| && AllNumbers(group, i, num) && AllNumbers(group, i + 2, num)
    requires SummaryLayout(r, group, i + 2, name, num)
    ensures SummaryLayout([SummaryAt(group, i, name, num)] + r, group, i, name, num)
  {
    var s := [SummaryAt(group, i, name, num)] + r;
    forall k | 0 < k < |s|
      ensures s[k] == SummaryAt(group, i + 2 * k, name, num)
    {
      assert i + 2 * k == (i + 2) + 2 * (k - 1);
      assert s[k] == r[k - 1];
    }
  }

  /** A SUMMARY group: each sample takes two consecutive lines, the tags and first value
      from the first line and the second value from the next; it fails exactly when the
      lines do not pair up or some value does not parse. */
  lemma {:induction false} SummarySamples(group: seq<string>, i: nat, name: string, num: string -> Option<real>)
    requires i <= |group|
    ensures SamplesFrom(group, i, name, SUMMARY, num).Ok? <==> (|group| - i) % 2 == 0 && AllNumbers(group, i, num)
    ensures SamplesFrom(group, i, name, SUMMARY, num).Ok? ==>
              SummaryLayout(SamplesFrom(group, i, name, SUMMARY, num).value, group, i, name, num)
    decreases |group| - i
  {
    if i + 1 < |group| {
      SummarySamples(group, i + 2, name, num);
      AllNumbersStep(group, i, num);
      AllNumbersStep(group, i + 1, num);
      var rest := SamplesFrom(group, i + 2, name, SUMMARY, num);
      assert (|group| - i) % 2 == (|group| - (i + 2)) % 2;
      if num(ValueText(group[i])).None? {
        assert SamplesFrom(group, i, name, SUMMARY, num).Err?;
      } else if num(ValueText(group[i + 1])).None? {
        assert SamplesFrom(group, i, name, SUMMARY, num).Err?;
      } else if rest.Err? {
        assert SamplesFrom(group, i, name, SUMMARY, num).Err?;
      } else {
        var r := SamplesFrom(group, i, name, SUMMARY, num).value;
        assert r == [SummaryAt(group, i, name, num)] + rest.value;
        SummaryLayoutCons(rest.value, group, i, name, num);
      }
    } else if i < |group| {
      AllNumbersStep(group, i, num);
      assert (|group| - i) % 2 == 1;
      assert SamplesFrom(group, i, name, SUMMARY, num).Err?;
    }
  }

  /** The document parses exactly when every group does, each group's samples in turn. */
  lemma {:induction false} ParseGroupsOk(gs: seq<seq<string>>, num: string -> Option<real>)
    ensures ParseGroups(gs, num).Ok? <==> forall g :: g in gs ==> GroupSamples(g, num).Ok?
    ensures gs != [] && ParseGroups(gs, num).Ok? ==>
              ParseGroups(gs, num).value == GroupSamples(gs[0], num).value + ParseGroups(gs[1..], num).value
  {
    if gs != [] {
      ParseGroupsOk(gs[1..], num);
      assert forall g :: g in gs <==> g == gs[0] || g in gs[1..];
    }
  }

  /** One sample read from line i: the samples from i are it, then the samples from the
      line after its last. */
  lemma SamplesFromStep(group: seq<string>, i: nat, next: nat, name: string, kind: Type, num: string -> Option<real>)
    requires i < |group| && num(ValueText(group[i])).Some?
    requires next == (if kind == SUMMARY then i + 2 else i + 1) && next <= |group|
    requires kind == SUMMARY ==> num(ValueText(group[i + 1])).Some?
    ensures SamplesFrom(group, i, name, kind, num)
         == AppendOk([NewSample(name, kind, Some(LineTags(group[i])),
                                if kind == SUMMARY then [num(ValueText(group[i])).value, num(ValueText(group[i + 1])).value]
                                else [num(ValueText(group[i])).value])],
                     SamplesFrom(group, next, name, kind, num))
  {
  }

  /** Reads one group into samples (the body of the "create data" loop). */
  method CreateData(group: seq<string>, num: string -> Option<real>) returns (r: Result<seq<RawData>, ParseError>)
    ensures r == GroupSamples(group, num)
  {
    if |group| == 0 {
      return Err(EmptyGroup);
    }
    var ary := Split(SubstringAfter(group[0], TypePrefix), ' ');
    if |ary| == 0 {
      return Err(NoTypeName);
    }
    var name := ary[0];
    var kind := if |ary| > 1 then KindOf(ary[1]) else UNTYPED;
    assert Header(group) == Ok((name, kind));
    r := ReadSamples(group, name, kind, num);
  }

  /** The body of the sample loop: reads the sample starting at line i, and says where the
      next one starts. */
  method ReadSample(group: seq<string>, i: nat, name: string, kind: Type, num: string -> Option<real>)
    returns (r: Result<(RawData, nat), ParseError>)
    requires i < |group|
    ensures r.Err? ==> SamplesFrom(group, i, name, kind, num) == Err(r.error)
    ensures r.Ok? ==> i < r.value.1 <= |group|
                      && SamplesFrom(group, i, name, kind, num) == AppendOk([r.value.0], SamplesFrom(group, r.value.1, name, kind, num))
  {
    var tags := TagParsing.ExtractTags(Between(group[i], '{', '}'));
    var values: seq<real>;
    var value1 := num(ValueText(group[i]));
    if value1.None? {
      return Err(BadNumber(ValueText(group[i])));
    }
    var j := i;
    if kind == SUMMARY {
      j := j + 1;
      if j >= |group| {
        return Err(MissingSumLine);
      }
      var value2 := num(ValueText(group[j]));
      if value2.None? {
        return Err(BadNumber(ValueText(group[j])));
      }
      values := [value1.value, value2.value];
    } else {
      values := [value1.value];
    }
    var d := NewSample(name, kind, Some(tags), values);
    SamplesFromStep(group, i, j + 1, name, kind, num);
    return Ok((d, j + 1));
  }

  /** The sample loop over a group's lines after the first. */
  method ReadSamples(group: seq<string>, name: string, kind: Type, num: string -> Option<real>)
    returns (r: Result<seq<RawData>, ParseError>)
    ensures r == SamplesFrom(group, 1, name, kind, num)
  {
    if |group| <= 1 {
      return Ok([]);
    }
    var list: seq<RawData> := [];
    var i := 1;
    AppendNil(SamplesFrom(group, i, name, kind, num));
    while i < |group|
      invariant 1 <= i <= |group|
      invariant SamplesFrom(group, 1, name, kind, num) == AppendOk(list, SamplesFrom(group, i, name, kind, num))
      decreases |group| - i
    {
      var step := ReadSample(group, i, name, kind, num);
      if step.Err? {
        return Err(step.error);
      }
      var (d, next) := step.value;
      AppendAssoc(list, [d], SamplesFrom(group, next, name, kind, num));
      list := list + [d];
      i := next;
    }
    assert list + [] == list;
    return Ok(list);
  }

  /** The "group by name" loop. */
  method GroupLines(lines: seq<string>) returns (r: Result<seq<seq<string>>, ParseError>)
    ensures r == Groups(lines)
  {
    var groups: seq<seq<string>> := [];
    var g: Option<seq<string>> := None;
    for i := 0 to |lines|
      invariant GroupFold(lines[..i]) == Ok(Grouping(groups, g))
    {
      assert lines[..i + 1][..i] == lines[..i];
      var line := lines[i];
      if IsHelp(line) {
        if g.Some? {
          groups := groups + [g.value];
        }
        g := Some([]);
      } else {
        if g.None? {
          GroupFoldShape(lines[..i + 1]);
          GroupFoldShape(lines);
          return Err(NoOpenGroup);
        }
        g := Some(g.value + [line]);
      }
    }
    assert lines[..|lines|] == lines;
    if g.Some? {
      groups := groups + [g.value];
    }
    return Ok(groups);
  }

  /** PrometheusDataParser.apply: group the lines, then read each group. */
  method Apply(content: string, num: string -> Option<real>) returns (r: Result<seq<RawData>, ParseError>)
    ensures r == Parse(content, num)
  {
    var grouped := GroupLines(Split(RemoveChar(content, '\r'), '\n'));
    if grouped.Err? {
      return Err(grouped.error);
    }
    var groups := grouped.value;
    var list: seq<RawData> := [];
    AppendNil(ParseGroups(groups, num));
    assert groups[0..] == groups;
    for j := 0 to |groups|
      invariant ParseGroups(groups, num) == AppendOk(list, ParseGroups(groups[j..], num))
    {
      var data := CreateData(groups[j], num);
      if data.Err? {
        return Err(data.error);
      }
      assert groups[j..][0] == groups[j] && groups[j..][1..] == groups[j + 1..];
      AppendAssoc(list, data.value, ParseGroups(groups[j + 1..], num));
      list := list + data.value;
    }
    assert list + [] == list;
    return Ok(list);
  }
}
