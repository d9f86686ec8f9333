/** Option/Result wrappers and the string operations the collector takes from
    java.lang.String and Apache Commons Lang's StringUtils, stated over seq<char>. */
module Common {

  datatype Option<+T> = None | Some(value: T)

  /** The outcome of a step that may throw in the source: Err names the exception. */
  datatype Result<+T, +E> = Ok(value: T) | Err(error: E)

  /** xs followed by the outcome of a later step, or that step's exception. */
  function AppendOk<T, E>(xs: seq<T>, r: Result<seq<T>, E>): Result<seq<T>, E>
  {
    match r
    case Err(e) => Err(e)
    case Ok(ys) => Ok(xs + ys)
  }

  lemma AppendNil<T, E>(r: Result<seq<T>, E>)
    ensures AppendOk([], r) == r
  {
    if r.Ok? {
      assert [] + r.value == r.value;
    }
  }

  lemma AppendAssoc<T, E>(xs: seq<T>, ys: seq<T>, r: Result<seq<T>, E>)
    ensures AppendOk(xs, AppendOk(ys, r)) == AppendOk(xs + ys, r)
  {
    if r.Ok? {
      assert xs + (ys + r.value) == (xs + ys) + r.value;
    }
  }

  /** A prefix one longer is the shorter prefix and the next element. */
  lemma PrefixSnoc<T>(s: seq<T>, n: nat)
    requires 0 < n <= |s|
    ensures s[..n - 1] + [s[n - 1]] == s[..n]
  {
  }

  /** String.startsWith / StringUtils.startsWith. */
  predicate StartsWith(s: string, prefix: string)
  {
    |prefix| <= |s| && s[..|prefix|] == prefix
  }

  /** StringUtils.remove(str, ch) and StringUtils.replace(str, "c", ""): every occurrence of c dropped. */
  function RemoveChar(s: string, c: char): (r: string)
    ensures c !in r
    ensures forall x :: x in r <==> x in s && x != c
    ensures |r| <= |s|
    ensures c !in s ==> r == s
  {
    if s == [] then []
    else (if s[0] == c then [] else [s[0]]) + RemoveChar(s[1..], c)
  }

  /** The token being built by StringUtils.split(str, sep) while scanning s. */
  function SplitFrom(s: string, sep: char, cur: string): (r: seq<string>)
    requires sep !in cur
    ensures forall t :: t in r ==> t != [] && sep !in t
    decreases |s|
  {
    if s == [] then (if cur == [] then [] else [cur])
    else if s[0] == sep then (if cur == [] then [] else [cur]) + SplitFrom(s[1..], sep, [])
    else SplitFrom(s[1..], sep, cur + [s[0]])
  }

  /** StringUtils.split(str, separatorChar): the maximal runs of characters other than sep;
      adjacent separators are treated as one and no token is empty. */
  function Split(s: string, sep: char): (r: seq<string>)
    ensures forall t :: t in r ==> t != [] && sep !in t
  {
    SplitFrom(s, sep, [])
  }

  /** All strings of a sequence, concatenated (StringUtils.join(list, "")). */
  function Concat(ss: seq<string>): (r: string)
  {
    if ss == [] then [] else ss[0] + Concat(ss[1..])
  }

  /** Strings of a sequence joined with one separator character. */
  function JoinWith(ss: seq<string>, sep: char): string
  {
    if ss == [] then []
    else if |ss| == 1 then ss[0]
    else ss[0] + [sep] + JoinWith(ss[1..], sep)
  }

  lemma {:induction false} ConcatAppend(a: seq<string>, b: seq<string>)
    ensures Concat(a + b) == Concat(a) + Concat(b)
  {
    if a == [] {
      assert a + b == b;
    } else {
      assert (a + b)[0] == a[0];
      assert (a + b)[1..] == a[1..] + b;
      ConcatAppend(a[1..], b);
      calc {
        Concat(a + b);
        a[0] + Concat(a[1..] + b);
        a[0] + (Concat(a[1..]) + Concat(b));
        (a[0] + Concat(a[1..])) + Concat(b);
      }
    }
  }

  lemma ConcatSingleton(head: seq<string>, cur: string)
    requires head == if cur == [] then [] else [cur]
    ensures Concat(head) == cur
  {
    if cur != [] {
      assert head[1..] == [];
    }
  }

  lemma RemoveCharCons(s: string, c: char)
    requires s != []
    ensures RemoveChar(s, c) == (if s[0] == c then [] else [s[0]]) + RemoveChar(s[1..], c)
  {
  }

  /** SplitFrom's first step. */
  lemma SplitFromCons(s: string, sep: char, cur: string)
    requires sep !in cur && s != []
    ensures SplitFrom(s, sep, cur)
         == if s[0] == sep then (if cur == [] then [] else [cur]) + SplitFrom(s[1..], sep, [])
            else SplitFrom(s[1..], sep, cur + [s[0]])
  {
  }

  lemma SeqAssoc<T>(a: seq<T>, b: seq<T>, c: seq<T>)
    ensures (a + b) + c == a + (b + c)
  {
  }

  lemma SplitFromConcatSep(s: string, sep: char, cur: string)
    requires sep !in cur && s != [] && s[0] == sep
    requires Concat(SplitFrom(s[1..], sep, [])) == RemoveChar(s[1..], sep)
    ensures Concat(SplitFrom(s, sep, cur)) == cur + RemoveChar(s, sep)
  {
    var head: seq<string> := if cur == [] then [] else [cur];
    var tail := SplitFrom(s[1..], sep, []);
    SplitFromCons(s, sep, cur);
    ConcatAppend(head, tail);
    ConcatSingleton(head, cur);
    RemoveCharSkip(s, sep);
  }

  lemma RemoveCharSkip(s: string, c: char)
    requires s != [] && s[0] == c
    ensures RemoveChar(s, c) == RemoveChar(s[1..], c)
  {
    assert RemoveChar(s, c) == [] + RemoveChar(s[1..], c);
  }

  lemma SplitFromConcatChar(s: string, sep: char, cur: string)
    requires sep !in cur && s != [] && s[0] != sep
    requires Concat(SplitFrom(s[1..], sep, cur + [s[0]])) == (cur + [s[0]]) + RemoveChar(s[1..], sep)
    ensures Concat(SplitFrom(s, sep, cur)) == cur + RemoveChar(s, sep)
  {
    SplitFromCons(s, sep, cur);
    RemoveCharCons(s, sep);
    SeqAssoc(cur, [s[0]], RemoveChar(s[1..], sep));
  }

  lemma {:induction false} SplitFromConcat(s: string, sep: char, cur: string)
    requires sep !in cur
    ensures Concat(SplitFrom(s, sep, cur)) == cur + RemoveChar(s, sep)
    decreases |s|
  {
    if s == [] {
      ConcatSingleton(SplitFrom(s, sep, cur), cur);
    } else if s[0] == sep {
      SplitFromConcat(s[1..], sep, []);
      SplitFromConcatSep(s, sep, cur);
    } else {
      SplitFromConcat(s[1..], sep, cur + [s[0]]);
      SplitFromConcatChar(s, sep, cur);
    }
  }

  /** Splitting loses exactly the separators: the tokens put back together are the input
      with every separator removed. */
  lemma SplitConcat(s: string, sep: char)
    ensures Concat(Split(s, sep)) == RemoveChar(s, sep)
  {
    SplitFromConcat(s, sep, []);
  }

  lemma {:induction false} SplitFromSeparated(t: string, rest: string, sep: char, cur: string)
    requires sep !in cur && sep !in t
    requires rest == [] || rest[0] == sep
    ensures SplitFrom(t + rest, sep, cur) == SplitFrom(rest, sep, cur + t)
    decreases |t|
  {
    if t != [] {
      assert t[0] in t;
      assert (t + rest)[0] == t[0];
      assert (t + rest)[1..] == t[1..] + rest;
      assert cur + t == (cur + [t[0]]) + t[1..];
      SplitFromSeparated(t[1..], rest, sep, cur + [t[0]]);
    } else {
      assert t + rest == rest && cur + t == cur;
    }
  }

  /** Joining non-empty, separator-free tokens with the separator and splitting again gives
      the tokens back. */
  lemma {:induction false} SplitJoin(ts: seq<string>, sep: char)
    requires forall t :: t in ts ==> t != [] && sep !in t
    ensures Split(JoinWith(ts, sep), sep) == ts
  {
    if ts == [] {
    } else if |ts| == 1 {
      assert ts[0] in ts;
      assert JoinWith(ts, sep) == ts[0] + [];
      SplitFromSeparated(ts[0], [], sep, []);
      assert [] + ts[0] == ts[0];
    } else {
      var rest := [sep] + JoinWith(ts[1..], sep);
      assert JoinWith(ts, sep) == ts[0] + rest;
      assert ts[0] in ts;
      SplitFromSeparated(ts[0], rest, sep, []);
      assert [] + ts[0] == ts[0];
      assert rest[1..] == JoinWith(ts[1..], sep);
      assert SplitFrom(rest, sep, ts[0]) == [ts[0]] + SplitFrom(rest[1..], sep, []);
      SplitJoin(ts[1..], sep);
      assert ts == [ts[0]] + ts[1..];
    }
  }

  /** Index of the first occurrence of c at or after from. */
  function IndexOfChar(s: string, c: char, from: nat): (r: Option<nat>)
    ensures r.Some? ==> from <= r.value < |s| && s[r.value] == c
    ensures r.Some? ==> forall j :: from <= j < r.value ==> s[j] != c
    ensures r.None? ==> forall j :: from <= j < |s| ==> s[j] != c
    decreases |s| - from
  {
    if from >= |s| then None
    else if s[from] == c then Some(from)
    else IndexOfChar(s, c, from + 1)
  }

  /** pat occurs in s at index j. */
  predicate OccursAt(s: string, pat: string, j: nat)
  {
    j + |pat| <= |s| && s[j..j + |pat|] == pat
  }

  /** Index of the first occurrence of pat in s at or after from (String.indexOf). */
  function IndexOf(s: string, pat: string, from: nat): (r: Option<nat>)
    ensures r.Some? ==> from <= r.value && OccursAt(s, pat, r.value)
    ensures r.Some? ==> forall j :: from <= j < r.value ==> !OccursAt(s, pat, j)
    ensures r.None? ==> forall j :: from <= j ==> !OccursAt(s, pat, j)
    decreases |s| - from
  {
    if from + |pat| > |s| then None
    else if OccursAt(s, pat, from) then Some(from)
    else IndexOf(s, pat, from + 1)
  }

  /** StringUtils.substringAfter(str, sep): the text after the first occurrence of sep,
      or the empty string when sep does not occur. */
  function SubstringAfter(s: string, sep: string): string
  {
    if s == [] then s
    else match IndexOf(s, sep, 0)
      case None => []
      case Some(p) => s[p + |sep|..]
  }

  /** StringUtils.substringAfterLast(str, "c"): the text after the last occurrence of c, or
      the empty string when c does not occur. */
  function AfterLast(s: string, c: char): (r: string)
    ensures c !in r
    ensures |r| <= |s| && r == s[|s| - |r|..]
    ensures c in s ==> |r| < |s| && s[|s| - |r| - 1] == c
    ensures c !in s ==> r == []
  {
    if c !in s then []
    else if s[|s| - 1] == c then []
    else
      var r := AfterLast(s[..|s| - 1], c);
      assert c in s[..|s| - 1] by {
        var k :| 0 <= k < |s| && s[k] == c;
        assert k < |s| - 1 && s[..|s| - 1][k] == c;
      }
      r + [s[|s| - 1]]
  }

  /** StringUtils.substringBetween(str, "o", "c"): the text between the first o and the
      first c after it; None (Java null) when either is missing. */
  function Between(s: string, open: char, close: char): (r: Option<string>)
    ensures r.None? <==> open !in s || IndexOfChar(s, close, IndexOfChar(s, open, 0).value + 1).None?
  {
    match IndexOfChar(s, open, 0)
    case None => None
    case Some(start) =>
      match IndexOfChar(s, close, start + 1)
      case None => None
      case Some(end) => Some(s[start + 1..end])
  }

  /** Character.isWhitespace. */
  predicate IsWhitespace(c: char)
  {
    || c == ' ' || c == '\t' || c == '\n' || c == '\U{B}' || c == '\U{C}' || c == '\r'
    || ('\U{1C}' <= c <= '\U{1F}')
    || c == '\U{1680}' || ('\U{2000}' <= c <= '\U{2006}') || ('\U{2008}' <= c <= '\U{200A}')
    || c == '\U{2028}' || c == '\U{2029}' || c == '\U{205F}' || c == '\U{3000}'
  }

  /** StringUtils.isNotBlank: some character is not whitespace. */
  predicate IsNotBlank(s: string)
  {
    exists i :: 0 <= i < |s| && !IsWhitespace(s[i])
  }

  function UpperChar(c: char): char
  {
    if 'a' <= c <= 'z' then (c as int - 32) as char else c
  }

  /** String.toUpperCase / StringUtils.upperCase, restricted to ASCII letters. */
  function UpperCase(s: string): (r: string)
    ensures |r| == |s|
    ensures forall i :: 0 <= i < |s| ==> r[i] == UpperChar(s[i])
  {
    if s == [] then [] else [UpperChar(s[0])] + UpperCase(s[1..])
  }

  function Digit(d: nat): char
    requires d < 10
  {
    "0123456789"[d]
  }

  function NatToString(n: nat): (r: string)
    ensures r != []
    decreases n
  {
    if n < 10 then [Digit(n)] else NatToString(n / 10) + [Digit(n % 10)]
  }

  /** String.valueOf(int): decimal, with a leading minus sign when negative. */
  function IntToString(i: int): (r: string)
    ensures r != []
  {
    if i < 0 then "-" + NatToString(-i) else NatToString(i)
  }

  /** String.format("%s", x) of a possibly-null string. */
  function NullText(s: Option<string>): string
  {
    match s
    case None => "null"
    case Some(t) => t
  }

  predicate NoDuplicates<T(==)>(s: seq<T>)
  {
    forall i, j :: 0 <= i < j < |s| ==> s[i] != s[j]
  }
}
