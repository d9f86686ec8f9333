/** The keyed sample table that CacheService and MetricService both keep: samples stored
    under their key, reloaded line by line from the snapshot file at start-up, and swept
    every ten seconds, when entries younger than half an hour are written to the snapshot
    and the others are dropped. The value type is generic: time, key, encode (Jackson's
    writeValueAsString, None when it throws) and decode (readValue, None when it throws)
    are parameters. */
module Retention {
  import opened Common
  import opened Domain

  /** 30 minutes, in milliseconds. */
  const RetentionMillis: int := 1800000

  predicate Fresh(t: int, now: int)
  {
    now - t < RetentionMillis
  }

  /** Each entry stored under its own value's key, each key once. */
  ghost predicate Keyed<V>(m: OrderedMap<V>, key: V -> string)
  {
    UniqueKeys(m) && forall p :: p in m ==> p.0 == key(p.1)
  }

  /** The entries the sweep keeps, in table order. */
  function Kept<V>(m: OrderedMap<V>, now: int, time: V -> int): OrderedMap<V>
  {
    if m == [] then []
    else Kept(m[..|m| - 1], now, time) + (if Fresh(time(m[|m| - 1].1), now) then [m[|m| - 1]] else [])
  }

  /** The keys the sweep collects for removal. */
  function StaleKeys<V>(m: OrderedMap<V>, now: int, time: V -> int): seq<string>
  {
    if m == [] then []
    else StaleKeys(m[..|m| - 1], now, time) + (if Fresh(time(m[|m| - 1].1), now) then [] else [m[|m| - 1].0])
  }

  /** The snapshot lines: each kept entry that serialises, in table order. */
  function Snapshot<V>(m: OrderedMap<V>, now: int, time: V -> int, encode: V -> Option<string>): seq<string>
  {
    if m == [] then []
    else
      var last := m[|m| - 1].1;
      Snapshot(m[..|m| - 1], now, time, encode)
        + (if Fresh(time(last), now) && encode(last).Some? then [encode(last).value] else [])
  }

  /** One line of the snapshot file read into the table: a line that deserialises is put
      under its sample's key, any other is skipped. */
  function LoadLine<V>(m: OrderedMap<V>, line: string, decode: string -> Option<V>, key: V -> string): OrderedMap<V>
  {
    match decode(line)
    case None => m
    case Some(d) => Put(m, key(d), d)
  }

  function Load<V>(m: OrderedMap<V>, lines: seq<string>, decode: string -> Option<V>, key: V -> string): OrderedMap<V>
  {
    if lines == [] then m
    else LoadLine(Load(m, lines[..|lines| - 1], decode, key), lines[|lines| - 1], decode, key)
  }

  /** Map.remove. */
  function RemoveKey<V>(m: OrderedMap<V>, k: string): OrderedMap<V>
  {
    if m == [] then []
    else RemoveKey(m[..|m| - 1], k) + (if m[|m| - 1].0 == k then [] else [m[|m| - 1]])
  }

  /** The entries whose keys are not in ks. */
  function Without<V>(m: OrderedMap<V>, ks: seq<string>): OrderedMap<V>
  {
    if m == [] then []
    else Without(m[..|m| - 1], ks) + (if m[|m| - 1].0 in ks then [] else [m[|m| - 1]])
  }

  lemma {:induction false} WithoutNothing<V>(m: OrderedMap<V>)
    ensures Without(m, []) == m
  {
    if m != [] {
      WithoutNothing(m[..|m| - 1]);
      assert m == m[..|m| - 1] + [m[|m| - 1]];
    }
  }

  /** The kept entries are exactly the fresh ones, in table order. */
  lemma {:induction false} KeptEntries<V>(m: OrderedMap<V>, now: int, time: V -> int)
    ensures forall p :: p in Kept(m, now, time) <==> p in m && Fresh(time(p.1), now)
  {
    if m != [] {
      KeptEntries(m[..|m| - 1], now, time);
      assert m == m[..|m| - 1] + [m[|m| - 1]];
    }
  }

  /** A stale key belongs to a stale entry, and every stale entry's key is collected. */
  lemma {:induction false} StaleKeysEntries<V>(m: OrderedMap<V>, now: int, time: V -> int)
    ensures forall p :: p in m && !Fresh(time(p.1), now) ==> p.0 in StaleKeys(m, now, time)
    ensures forall k :: k in StaleKeys(m, now, time) ==>
              exists i :: 0 <= i < |m| && m[i].0 == k && !Fresh(time(m[i].1), now)
  {
    if m != [] {
      var init := m[..|m| - 1];
      StaleKeysEntries(init, now, time);
      assert m == init + [m[|m| - 1]];
      assert m[|m| - 1] in m;
      forall k | k in StaleKeys(m, now, time)
        ensures exists i :: 0 <= i < |m| && m[i].0 == k && !Fresh(time(m[i].1), now)
      {
        if k in StaleKeys(init, now, time) {
          var i :| 0 <= i < |init| && init[i].0 == k && !Fresh(time(init[i].1), now);
          assert m[i] == init[i];
        } else {
          assert m[|m| - 1].0 == k && !Fresh(time(m[|m| - 1].1), now);
        }
      }
    }
  }

  lemma {:induction false} RemoveWithout<V>(m: OrderedMap<V>, ks: seq<string>, k: string)
    ensures RemoveKey(Without(m, ks), k) == Without(m, ks + [k])
  {
    if m != [] {
      var w := Without(m[..|m| - 1], ks);
      RemoveWithout(m[..|m| - 1], ks, k);
      var tail := if m[|m| - 1].0 in ks then [] else [m[|m| - 1]];
      RemoveKeyAppend(w, tail, k);
    }
  }

  lemma RemoveKeyAppend<V>(a: OrderedMap<V>, b: OrderedMap<V>, k: string)
    requires |b| <= 1
    ensures RemoveKey(a + b, k) == RemoveKey(a, k) + RemoveKey(b, k)
  {
    if b == [] {
      assert a + b == a;
    } else {
      assert (a + b)[..|a + b| - 1] == a;
      assert RemoveKey(b, k) == (if b[0].0 == k then [] else b) by {
        assert b[..0] == [];
      }
    }
  }

  /** Without all keys in the same table prefix order. */
  lemma {:induction false} WithoutFresh<V>(m: OrderedMap<V>, ks: seq<string>, now: int, time: V -> int, n: nat)
    requires n <= |m|
    requires forall j :: 0 <= j < n ==> (m[j].0 in ks <==> !Fresh(time(m[j].1), now))
    ensures Without(m[..n], ks) == Kept(m[..n], now, time)
  {
    if n > 0 {
      assert m[..n][..n - 1] == m[..n - 1];
      WithoutFresh(m, ks, now, time, n - 1);
    }
  }

  /** In a table with unique keys, entry j's key is collected exactly when entry j is stale. */
  lemma StaleKeyAt<V>(m: OrderedMap<V>, now: int, time: V -> int, j: nat)
    requires UniqueKeys(m) && j < |m|
    ensures m[j].0 in StaleKeys(m, now, time) <==> !Fresh(time(m[j].1), now)
  {
    StaleKeysEntries(m, now, time);
    assert m[j] in m;
    if m[j].0 in StaleKeys(m, now, time) {
      var i :| 0 <= i < |m| && m[i].0 == m[j].0 && !Fresh(time(m[i].1), now);
      if i != j {
        assert false;
      }
    }
  }

  /** Removing the collected stale keys leaves exactly the kept entries. */
  lemma SweepRemoves<V>(m: OrderedMap<V>, now: int, time: V -> int)
    requires UniqueKeys(m)
    ensures Without(m, StaleKeys(m, now, time)) == Kept(m, now, time)
  {
    var ks := StaleKeys(m, now, time);
    forall j | 0 <= j < |m| ensures m[j].0 in ks <==> !Fresh(time(m[j].1), now) {
      StaleKeyAt(m, now, time, j);
    }
    WithoutFresh(m, ks, now, time, |m|);
    assert m[..|m|] == m;
  }

  /** The sweep keeps a keyed table keyed. */
  lemma {:induction false} KeptKeyed<V>(m: OrderedMap<V>, now: int, time: V -> int, key: V -> string)
    requires Keyed(m, key)
    ensures Keyed(Kept(m, now, time), key)
    ensures forall k :: k in Keys(Kept(m, now, time)) ==> k in Keys(m)
  {
    KeptEntries(m, now, time);
    var r := Kept(m, now, time);
    forall k | k in Keys(r) ensures k in Keys(m) {
      var i :| 0 <= i < |r| && Keys(r)[i] == k;
      assert r[i] in r;
      var j :| 0 <= j < |m| && m[j] == r[i];
      assert Keys(m)[j] == k;
    }
    forall i, j | 0 <= i < j < |r| ensures Keys(r)[i] != Keys(r)[j] {
      KeptOrder(m, now, time, i, j);
      var a, b :| 0 <= a < b < |m| && m[a] == r[i] && m[b] == r[j];
      assert Keys(m)[a] != Keys(m)[b];
    }
    assert UniqueKeys(r);
    forall p | p in r ensures p.0 == key(p.1) {
      assert p in m;
    }
  }

  lemma KeptIn<V>(m: OrderedMap<V>, now: int, time: V -> int, q: (string, V))
    requires q in Kept(m, now, time)
    ensures q in m
  {
    KeptEntries(m, now, time);
  }

  /** Two kept entries at different places are different entries of the table. */
  lemma {:induction false} KeptOrder<V>(m: OrderedMap<V>, now: int, time: V -> int, i: nat, j: nat)
    requires i < j < |Kept(m, now, time)|
    ensures exists a, b :: 0 <= a < b < |m| && m[a] == Kept(m, now, time)[i] && m[b] == Kept(m, now, time)[j]
  {
    assert m != [];
    var init := m[..|m| - 1];
    var k := Kept(init, now, time);
    if j < |k| {
      KeptOrder(init, now, time, i, j);
      var a, b :| 0 <= a < b < |init| && init[a] == k[i] && init[b] == k[j];
      assert m[a] == init[a] && m[b] == init[b];
    } else {
      assert Kept(m, now, time) == k + [m[|m| - 1]];
      var q := k[i];
      KeptIn(init, now, time, q);
      var a :| 0 <= a < |init| && init[a] == q;
      assert m[a] == init[a];
      assert Kept(m, now, time)[j] == m[|m| - 1];
    }
  }

  /** Loading keeps a keyed table keyed: each line lands under its own sample's key. */
  lemma {:induction false} LoadKeyed<V>(m: OrderedMap<V>, lines: seq<string>, decode: string -> Option<V>, key: V -> string)
    requires Keyed(m, key)
    ensures Keyed(Load(m, lines, decode, key), key)
  {
    if lines != [] {
      var prev := Load(m, lines[..|lines| - 1], decode, key);
      LoadKeyed(m, lines[..|lines| - 1], decode, key);
      var line := lines[|lines| - 1];
      if decode(line).Some? {
        var d := decode(line).value;
        PutUnique(prev, key(d), d);
        PutEntriesFrom(prev, key(d), d);
      }
    }
  }

  lemma {:induction false} PutEntriesFrom<V>(m: OrderedMap<V>, k: string, v: V)
    ensures forall p :: p in Put(m, k, v) ==> p == (k, v) || p in m
  {
    if m != [] && m[0].0 != k {
      PutEntriesFrom(m[1..], k, v);
      assert Put(m, k, v) == [m[0]] + Put(m[1..], k, v);
      assert forall p :: p in m[1..] ==> p in m;
    } else if m != [] {
      assert forall p :: p in m[1..] ==> p in m;
    }
  }

  /** After loading, the sample of the last line that decodes under a key is the one stored
      there: a later line overwrites an earlier one. */
  lemma LoadLast<V>(m: OrderedMap<V>, lines: seq<string>, line: string, decode: string -> Option<V>, key: V -> string)
    requires decode(line).Some?
    ensures Get(Load(m, lines + [line], decode, key), key(decode(line).value)) == Some(decode(line).value)
  {
    assert (lines + [line])[..|lines|] == lines;
    PutGet(Load(m, lines, decode, key), key(decode(line).value), decode(line).value, key(decode(line).value));
  }

  /** A line that does not decode is skipped and the load goes on. */
  lemma LoadSkips<V>(m: OrderedMap<V>, lines: seq<string>, line: string, decode: string -> Option<V>, key: V -> string)
    requires decode(line).None?
    ensures Load(m, lines + [line], decode, key) == Load(m, lines, decode, key)
  {
    assert (lines + [line])[..|lines|] == lines;
  }

  /** Round trip: when every fresh sample serialises and deserialises back to itself,
      loading the snapshot of a keyed table into an empty one gives exactly the entries the
      sweep keeps, in the same order. */
  lemma {:induction false} LoadSnapshot<V>(m: OrderedMap<V>, now: int, time: V -> int,
                                          encode: V -> Option<string>, decode: string -> Option<V>, key: V -> string)
    requires Keyed(m, key)
    requires forall p :: p in m && Fresh(time(p.1), now) ==>
               encode(p.1).Some? && decode(encode(p.1).value) == Some(p.1)
    ensures Load([], Snapshot(m, now, time, encode), decode, key) == Kept(m, now, time)
  {
    if m != [] {
      var init := m[..|m| - 1];
      var p := m[|m| - 1];
      assert p in m;
      assert forall q :: q in init ==> q in m;
      assert Keyed(init, key) by {
        assert forall i :: 0 <= i < |init| ==> Keys(init)[i] == Keys(m)[i];
      }
      LoadSnapshot(init, now, time, encode, decode, key);
      var lines := Snapshot(init, now, time, encode);
      if Fresh(time(p.1), now) {
        var line := encode(p.1).value;
        assert Snapshot(m, now, time, encode) == lines + [line];
        assert (lines + [line])[..|lines|] == lines;
        assert decode(line) == Some(p.1);
        assert Load([], lines + [line], decode, key) == Put(Kept(init, now, time), key(p.1), p.1);
        KeyNotInPrefix(m, |m| - 1);
        KeptKeyed(init, now, time, key);
        assert key(p.1) == p.0;
        PutFresh(Kept(init, now, time), p.0, p.1);
        assert Kept(m, now, time) == Kept(init, now, time) + [p];
      } else {
        assert Snapshot(m, now, time, encode) == lines;
        assert Kept(m, now, time) == Kept(init, now, time);
      }
    }
  }
}
