/** CacheService: the last sample seen per key, shared by the delta composers, with the
    snapshot file it is reloaded from and periodically written to. */
module Cache {
  import opened Common
  import opened Domain
  import opened Retention

  function SampleTime(d: RawData): int
  {
    d.time
  }

  class CacheService {
    /** The datas map, in iteration order. */
    var datas: OrderedMap<RawData>
    /** The lines of the snapshot file, None while it does not exist. */
    var file: Option<seq<string>>

    /** Every sample is stored under its own key. */
    ghost predicate Valid()
      reads this
    {
      Keyed(datas, KeyOf)
    }

    constructor(file: Option<seq<string>>)
      ensures Valid() && datas == [] && this.file == file
    {
      datas := [];
      this.file := file;
    }

    /** The loading half of init: each snapshot line that deserialises is put under its
        key; decode stands for Jackson's readValue. */
    method Init(decode: string -> Option<RawData>)
      modifies this
      requires Valid()
      ensures Valid() && file == old(file)
      ensures datas == if file.Some? then Load(old(datas), file.value, decode, KeyOf) else old(datas)
    {
      if file.None? {
        return;
      }
      var lines := file.value;
      for i := 0 to |lines|
        invariant file == old(file)
        invariant datas == Load(old(datas), lines[..i], decode, KeyOf)
      {
        assert lines[..i + 1][..i] == lines[..i];
        var data := decode(lines[i]);
        if data.Some? {
          datas := Domain.Put(datas, KeyOf(data.value), data.value);
        }
      }
      assert lines[..|lines|] == lines;
      LoadKeyed(old(datas), lines, decode, KeyOf);
    }

    /** The task init schedules every ten seconds: write the fresh entries that serialise
        to the file (only when there is at least one) and remove the stale ones. */
    method Sweep(now: int, encode: RawData -> Option<string>)
      modifies this
      requires Valid()
      ensures Valid()
      ensures datas == Kept(old(datas), now, SampleTime)
      ensures file == if Snapshot(old(datas), now, SampleTime, encode) != []
                      then Some(Snapshot(old(datas), now, SampleTime, encode)) else old(file)
    {
      var s, removes := SnapshotPass(now, encode);
      if |s| > 0 {
        file := Some(s);
      }
      ghost var before := datas;
      RemoveAll(removes);
      SweepRemoves(before, now, SampleTime);
      KeptKeyed(before, now, SampleTime, KeyOf);
    }

    /** The loop over the entries: the snapshot lines of the fresh entries that serialise
        and the keys of the stale ones. */
    method SnapshotPass(now: int, encode: RawData -> Option<string>) returns (s: seq<string>, removes: seq<string>)
      ensures s == Snapshot(datas, now, SampleTime, encode)
      ensures removes == StaleKeys(datas, now, SampleTime)
    {
      s := [];
      removes := [];
      var count := 0;
      for i := 0 to |datas|
        invariant s == Snapshot(datas[..i], now, SampleTime, encode)
        invariant removes == StaleKeys(datas[..i], now, SampleTime)
        invariant count == |s|
      {
        assert datas[..i + 1][..i] == datas[..i];
        var entry := datas[i];
        if now - entry.1.time < RetentionMillis {
          var json := encode(entry.1);
          if json.Some? {
            s := s + [json.value];
            count := count + 1;
          }
        } else {
          removes := removes + [entry.0];
        }
      }
      assert datas[..|datas|] == datas;
    }

    /** The removal loop after the snapshot is written. */
    method RemoveAll(removes: seq<string>)
      modifies this
      ensures datas == Without(old(datas), removes) && file == old(file)
    {
      WithoutNothing(datas);
      for j := 0 to |removes|
        invariant datas == Without(old(datas), removes[..j]) && file == old(file)
      {
        RemoveWithout(old(datas), removes[..j], removes[j]);
        assert removes[..j + 1] == removes[..j] + [removes[j]];
        datas := RemoveKey(datas, removes[j]);
      }
      assert removes[..|removes|] == removes;
    }

    /** put: the sample replaces whatever was stored under its key. */
    method Put(data: RawData)
      modifies this
      requires Valid()
      ensures Valid() && file == old(file)
      ensures datas == Domain.Put(old(datas), KeyOf(data), data)
      ensures Get(data) == Some(data)
      ensures forall other :: KeyOf(other) != KeyOf(data) ==> Get(other) == old(Get(other))
    {
      PutUnique(datas, KeyOf(data), data);
      PutEntriesFrom(datas, KeyOf(data), data);
      forall other ensures Domain.Get(Domain.Put(datas, KeyOf(data), data), KeyOf(other))
                           == if KeyOf(other) == KeyOf(data) then Some(data) else Domain.Get(datas, KeyOf(other)) {
        PutGet(datas, KeyOf(data), data, KeyOf(other));
      }
      datas := Domain.Put(datas, KeyOf(data), data);
    }

    /** get: the sample stored under the key of data, which has that same key. */
    function Get(data: RawData): (r: Option<RawData>)
      reads this
      requires Valid()
      ensures r.None? <==> KeyOf(data) !in Keys(datas)
      ensures r.Some? ==> KeyOf(r.value) == KeyOf(data) && (KeyOf(data), r.value) in datas
    {
      Domain.Get(datas, KeyOf(data))
    }
  }
}
