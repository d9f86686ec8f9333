/** BeatController: the REST endpoints that read and edit the poller's configuration. The
    host and exclude lists are edited in place: patch appends the inputs not yet present,
    put clears the list first. */
module BeatController {
  import opened Common

  /** The list after patch: each input appended, in input order, unless already present. */
  function Merge(list: seq<string>, xs: seq<string>): seq<string>
  {
    if xs == [] then list
    else
      var m := Merge(list, xs[..|xs| - 1]);
      if xs[|xs| - 1] in m then m else m + [xs[|xs| - 1]]
  }

  /** A reference definition of "distinct, first occurrences kept": xs[k] is kept exactly
      when it does not occur in xs[..k]. */
  function FirstOccurrences(xs: seq<string>): seq<string>
  {
    if xs == [] then []
    else
      var init := xs[..|xs| - 1];
      if xs[|xs| - 1] in init then FirstOccurrences(init) else FirstOccurrences(init) + [xs[|xs| - 1]]
  }

  /** patch keeps the list as a prefix, holds exactly the old entries and the inputs, and
      gains no duplicate. */
  lemma {:induction false} MergeShape(list: seq<string>, xs: seq<string>)
    ensures |list| <= |Merge(list, xs)| && Merge(list, xs)[..|list|] == list
    ensures forall x :: x in Merge(list, xs) <==> x in list || x in xs
    ensures NoDuplicates(list) ==> NoDuplicates(Merge(list, xs))
  {
    if xs != [] {
      var init := xs[..|xs| - 1];
      MergeShape(list, init);
      var m := Merge(list, init);
      var x := xs[|xs| - 1];
      assert xs == init + [x];
      if x !in m {
        assert (m + [x])[..|list|] == m[..|list|];
        assert forall i :: 0 <= i < |m| ==> (m + [x])[i] == m[i];
      }
    }
  }

  /** Inputs already present change nothing. */
  lemma {:induction false} MergePresent(list: seq<string>, xs: seq<string>)
    requires forall x :: x in xs ==> x in list
    ensures Merge(list, xs) == list
  {
    if xs != [] {
      var init := xs[..|xs| - 1];
      assert forall x :: x in init ==> x in xs;
      MergePresent(list, init);
      assert xs[|xs| - 1] in xs;
    }
  }

  /** patch is idempotent: a second patch with the same input changes nothing. */
  lemma MergeIdempotent(list: seq<string>, xs: seq<string>)
    ensures Merge(Merge(list, xs), xs) == Merge(list, xs)
  {
    MergeShape(list, xs);
    MergePresent(Merge(list, xs), xs);
  }

  /** Membership in the merge from an empty list agrees with membership in the input. */
  lemma {:induction false} MergeEmptyElems(xs: seq<string>)
    ensures forall x :: x in Merge([], xs) <==> x in xs
  {
    MergeShape([], xs);
  }

  /** put on any list yields the input with duplicates removed, first occurrences kept. */
  lemma {:induction false} PutDedups(xs: seq<string>)
    ensures Merge([], xs) == FirstOccurrences(xs)
  {
    if xs != [] {
      var init := xs[..|xs| - 1];
      PutDedups(init);
      MergeEmptyElems(init);
    }
  }

  /** Patching with two inputs in turn is patching with their concatenation. */
  lemma {:induction false} MergeConcat(list: seq<string>, xs: seq<string>, ys: seq<string>)
    ensures Merge(Merge(list, xs), ys) == Merge(list, xs + ys)
  {
    if ys == [] {
      assert xs + ys == xs;
    } else {
      var init := ys[..|ys| - 1];
      MergeConcat(list, xs, init);
      assert (xs + ys)[..|xs + ys| - 1] == xs + init;
    }
  }

  /** The poller's configuration: period in seconds, and the host and exclude lists, each
      of which may be null. */
  class BeatConfig {
    var period: int
    var hosts: Option<seq<string>>
    var excludes: Option<seq<string>>

    constructor(period: int, hosts: Option<seq<string>>, excludes: Option<seq<string>>)
      ensures this.period == period && this.hosts == hosts && this.excludes == excludes
    {
      this.period := period;
      this.hosts := hosts;
      this.excludes := excludes;
    }
  }

  function OrEmpty(list: Option<seq<string>>): seq<string>
  {
    if list.Some? then list.value else []
  }

  class BeatController {
    const beatConfig: BeatConfig

    constructor(beatConfig: BeatConfig)
      ensures this.beatConfig == beatConfig
    {
      this.beatConfig := beatConfig;
    }

    /** GET /v1/beat/period. */
    function GetPeriod(): int
      reads this, beatConfig
    {
      beatConfig.period
    }

    /** GET /v1/beat/hosts. */
    function GetHosts(): Option<seq<string>>
      reads this, beatConfig
    {
      beatConfig.hosts
    }

    /** GET /v1/beat/excludes. */
    function GetExcludes(): Option<seq<string>>
      reads this, beatConfig
    {
      beatConfig.excludes
    }

    /** PATCH /v1/beat/hosts: a null list becomes empty, then each input not present is
        appended. The result is the list itself. */
    method PatchHosts(hosts: seq<string>) returns (r: seq<string>)
      modifies beatConfig
      ensures beatConfig.hosts == Some(Merge(OrEmpty(old(beatConfig.hosts)), hosts)) && r == beatConfig.hosts.value
      ensures beatConfig.excludes == old(beatConfig.excludes) && beatConfig.period == old(beatConfig.period)
    {
      if beatConfig.hosts.None? {
        beatConfig.hosts := Some([]);
      }
      var list := beatConfig.hosts.value;
      ghost var start := list;
      for i := 0 to |hosts|
        invariant list == Merge(start, hosts[..i])
      {
        assert hosts[..i + 1][..i] == hosts[..i];
        if hosts[i] !in list {
          list := list + [hosts[i]];
        }
      }
      assert hosts[..|hosts|] == hosts;
      beatConfig.hosts := Some(list);
      r := list;
    }

    /** PUT /v1/beat/hosts: clear, then patch. */
    method PutHosts(hosts: seq<string>) returns (r: seq<string>)
      modifies beatConfig
      ensures beatConfig.hosts == Some(FirstOccurrences(hosts)) && r == beatConfig.hosts.value
      ensures beatConfig.excludes == old(beatConfig.excludes) && beatConfig.period == old(beatConfig.period)
    {
      beatConfig.hosts := Some([]);
      r := PatchHosts(hosts);
      PutDedups(hosts);
    }

    /** PATCH /v1/beat/excludes, with the rules of PatchHosts. */
    method PatchExcludes(excludes: seq<string>) returns (r: seq<string>)
      modifies beatConfig
      ensures beatConfig.excludes == Some(Merge(OrEmpty(old(beatConfig.excludes)), excludes)) && r == beatConfig.excludes.value
      ensures beatConfig.hosts == old(beatConfig.hosts) && beatConfig.period == old(beatConfig.period)
    {
      if beatConfig.excludes.None? {
        beatConfig.excludes := Some([]);
      }
      var list := beatConfig.excludes.value;
      ghost var start := list;
      for i := 0 to |excludes|
        invariant list == Merge(start, excludes[..i])
      {
        assert excludes[..i + 1][..i] == excludes[..i];
        if excludes[i] !in list {
          list := list + [excludes[i]];
        }
      }
      assert excludes[..|excludes|] == excludes;
      beatConfig.excludes := Some(list);
      r := list;
    }

    /** PUT /v1/beat/excludes: clear, then patch. */
    method PutExcludes(excludes: seq<string>) returns (r: seq<string>)
      modifies beatConfig
      ensures beatConfig.excludes == Some(FirstOccurrences(excludes)) && r == beatConfig.excludes.value
      ensures beatConfig.hosts == old(beatConfig.hosts) && beatConfig.period == old(beatConfig.period)
    {
      beatConfig.excludes := Some([]);
      r := PatchExcludes(excludes);
      PutDedups(excludes);
    }
  }
}
