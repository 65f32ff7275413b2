/** The store under the cache (cache/core/driver.go, capabilities.go), and the batched reads and the
    lazy sweep over it (cache/core/batch.go). */
module Drivers {
  import opened Wrappers
  import opened Gathering

  /** The keys of one strategy. What an index is filed under is the string that its field and value
      make together; module Filings shows that the names of keys keep apart these, and no more. */
  datatype Key = Entry(id: string) | Index | By(at: string) | Fields(id: string)

  type Strings = map<Key, string>
  type Sets = map<Key, set<string>>

  function Members(sets: Sets, k: Key): set<string> { if k in sets then sets[k] else {} }

  /** A set left empty is gone. */
  function Put(sets: Sets, k: Key, members: set<string>): Sets {
    if members == {} then sets - {k} else sets[k := members]
  }

  predicate Normal(sets: Sets) { forall k | k in sets :: sets[k] != {} }

  /** Between two moments entries may have expired, and nothing else happened to them. */
  ghost predicate Shrunk(was: Strings, now: Strings) {
    forall k | k in now :: k in was && now[k] == was[k]
  }

  predicate Distinct(ids: seq<string>) {
    forall i, j | 0 <= i < j < |ids| :: ids[i] != ids[j]
  }

  function Elems(ids: seq<string>): set<string> { set id: string | id in ids }

  const BATCH: nat := 256

  /** A driver: values that may expire at any moment, and sets. A call that fails may or may not
      have taken effect. Unless the driver is reliable any call may fail; unless the store is
      fixed any entry may expire. */
  class Driver {
    const reliable: bool
    const fixed: bool
    const scans: bool
    const bulk: bool
    var strings: Strings
    var sets: Sets

    constructor (reliable: bool, fixed: bool, scans: bool, bulk: bool)
      ensures this.reliable == reliable && this.fixed == fixed && strings == map[] && sets == map[]
    {
      this.reliable, this.fixed, this.scans, this.bulk := reliable, fixed, scans, bulk;
      strings, sets := map[], map[];
    }

    /** Time passes. */
    method Pass()
      modifies this`strings
      ensures Shrunk(old(strings), strings) && (fixed ==> strings == old(strings))
    {
      if !fixed {
        var gone: set<Key> := *;
        strings := strings - gone;
      }
    }

    method Fails() returns (fails: bool)
      ensures reliable ==> !fails
    {
      fails := *;
      fails := fails && !reliable;
    }

    method Set(k: Key, value: string) returns (ok: bool)
      modifies this`strings
      ensures strings == old(strings)[k := value] || (!ok && strings == old(strings))
      ensures reliable ==> ok
    {
      var fails := Fails();
      var lost: bool := *;
      if !(fails && lost) { strings := strings[k := value]; }
      ok := !fails;
    }

    method Replace(k: Key, value: string) returns (ok: bool, wrote: bool)
      modifies this`strings
      ensures k !in old(strings) ==> strings == old(strings)
      ensures k in old(strings) ==> strings == old(strings)[k := value] || (!ok && strings == old(strings))
      ensures ok ==> (wrote <==> k in old(strings))
      ensures reliable ==> ok
    {
      var fails := Fails();
      var lost: bool := *;
      wrote := k in strings;
      if wrote && !(fails && lost) { strings := strings[k := value]; }
      ok := !fails;
    }

    /** Removes keys of either kind; one that fails may have removed some. */
    method Delete(keys: set<Key>) returns (ok: bool)
      modifies this
      ensures ok ==> strings == old(strings) - keys && sets == old(sets) - keys
      ensures exists gone | gone <= keys :: strings == old(strings) - gone && sets == old(sets) - gone
      ensures reliable ==> ok
    {
      var fails := Fails();
      var gone := keys;
      if fails {
        var kept: set<Key> := *;
        gone := keys - kept;
      }
      strings, sets := strings - gone, sets - gone;
      ok := !fails;
    }

    method SetAdd(k: Key, members: set<string>) returns (ok: bool)
      modifies this`sets
      ensures sets == Put(old(sets), k, Members(old(sets), k) + members) || (!ok && sets == old(sets))
      ensures reliable ==> ok
    {
      var fails := Fails();
      var lost: bool := *;
      if !(fails && lost) { sets := Put(sets, k, Members(sets, k) + members); }
      ok := !fails;
    }

    method SetRemove(k: Key, members: set<string>) returns (ok: bool)
      modifies this`sets
      ensures sets == Put(old(sets), k, Members(old(sets), k) - members) || (!ok && sets == old(sets))
      ensures reliable ==> ok
    {
      var fails := Fails();
      var lost: bool := *;
      if !(fails && lost) { sets := Put(sets, k, Members(sets, k) - members); }
      ok := !fails;
    }

    method SetMembers(k: Key) returns (ok: bool, members: seq<string>)
      ensures ok ==> Distinct(members) && Elems(members) == Members(sets, k)
      ensures reliable ==> ok
    {
      var fails := Fails();
      members := [];
      var left := Members(sets, k);
      while left != {}
        invariant Distinct(members) && Elems(members) + left == Members(sets, k) && Elems(members) !! left
        decreases left
      {
        var id :| id in left;
        assert forall i | 0 <= i < |members| :: members[i] in Elems(members);
        assert Elems(members + [id]) == Elems(members) + {id};
        members := members + [id];
        left := left - {id};
      }
      ok := !fails;
    }

    /** SetScan's batches: every member in one of them at least, and perhaps in several. */
    method SetScan(k: Key) returns (ok: bool, batches: seq<seq<string>>)
      ensures ok ==> forall id | id in Members(sets, k) :: exists b | b in batches :: id in b
      ensures forall b, id | b in batches && id in b :: id in Members(sets, k)
      ensures reliable ==> ok
    {
      var members: seq<string>;
      ok, members := SetMembers(k);
      batches := if ok then [members] else [];
      if ok {
        assert forall id | id in members :: id in Elems(members);
        assert members in batches;
      }
    }

    method ExistsMany(keys: seq<Key>) returns (ok: bool, found: seq<bool>)
      ensures ok ==> |found| == |keys| && forall i | 0 <= i < |keys| :: found[i] <==> keys[i] in strings
      ensures reliable ==> ok
    {
      var fails := Fails();
      found := seq(|keys|, i requires 0 <= i < |keys| reads this => keys[i] in strings);
      ok := !fails;
    }

    method GetMany(keys: seq<Key>) returns (ok: bool, bodies: seq<Option<string>>)
      ensures ok ==> |bodies| == |keys| && forall i | 0 <= i < |keys| :: bodies[i] == Stored(strings, keys[i])
      ensures reliable ==> ok
    {
      var fails := Fails();
      bodies := seq(|keys|, i requires 0 <= i < |keys| reads this => Stored(strings, keys[i]));
      ok := !fails;
    }
  }

  function Stored(strings: Strings, k: Key): Option<string> { if k in strings then Some(strings[k]) else None }

  /** What a read of many keys may answer while entries expire: each as it was at some moment of
      the read. On a fixed store that leaves one answer. */
  ghost predicate AnswersExists(keys: seq<Key>, was: Strings, now: Strings, found: seq<bool>) {
    && |found| == |keys|
    && forall i | 0 <= i < |keys| :: (found[i] ==> keys[i] in was) && (keys[i] in now ==> found[i])
  }

  ghost predicate AnswersGet(keys: seq<Key>, was: Strings, now: Strings, bodies: seq<Option<string>>) {
    && |bodies| == |keys|
    && forall i | 0 <= i < |keys| ::
         && (bodies[i].Some? ==> bodies[i] == Stored(was, keys[i]))
         && (keys[i] in now ==> bodies[i] == Stored(now, keys[i]))
  }

  /** existsAll: a bulk call per batch, or one call per key. */
  method ExistsAll(d: Driver, limit: int, keys: seq<Key>) returns (ok: bool, found: seq<bool>)
    modifies d`strings
    ensures Shrunk(old(d.strings), d.strings) && (d.fixed ==> d.strings == old(d.strings))
    ensures ok ==> AnswersExists(keys, old(d.strings), d.strings, found)
    ensures ok && d.fixed ==> found == seq(|keys|, i requires 0 <= i < |keys| => keys[i] in old(d.strings))
    ensures d.reliable ==> ok
  {
    if !d.bulk {
      ok, found := ExistsEach(d, limit, keys);
      return;
    }
    found := [];
    var start := 0;
    while start < |keys|
      invariant 0 <= start <= |keys| && Shrunk(old(d.strings), d.strings) && (d.fixed ==> d.strings == old(d.strings))
      invariant AnswersExists(keys[..start], old(d.strings), d.strings, found)
    {
      var end := if start + BATCH < |keys| then start + BATCH else |keys|;
      d.Pass();
      var batch: seq<bool>;
      ok, batch := d.ExistsMany(keys[start..end]);
      if !ok { return; }
      assert forall i | start <= i < end :: keys[start..end][i-start] == keys[i];
      found := found + batch;
      start := end;
    }
    assert keys[..|keys|] == keys;
    ok := true;
  }

  method ExistsEach(d: Driver, limit: int, keys: seq<Key>) returns (ok: bool, found: seq<bool>)
    modifies d`strings
    ensures Shrunk(old(d.strings), d.strings) && (d.fixed ==> d.strings == old(d.strings))
    ensures ok ==> AnswersExists(keys, old(d.strings), d.strings, found)
    ensures d.reliable ==> ok
  {
    var answers: seq<Result<bool>> := [];
    for i := 0 to |keys|
      invariant |answers| == i && Shrunk(old(d.strings), d.strings) && (d.fixed ==> d.strings == old(d.strings))
      invariant d.reliable ==> forall j | 0 <= j < i :: answers[j].Ok?
      invariant forall j | 0 <= j < i && answers[j].Ok? ::
                  (answers[j].value ==> keys[j] in old(d.strings)) && (keys[j] in d.strings ==> answers[j].value)
    {
      d.Pass();
      var one: bool, exists_: seq<bool>;
      one, exists_ := d.ExistsMany([keys[i]]);
      answers := answers + [if one then Ok(exists_[0]) else Err("unreachable")];
    }
    var result, _ := Gather(answers, limit);
    ok := result.Ok?;
    found := if ok then result.value else [];
    assert ok ==> forall j | 0 <= j < |keys| :: answers[j] == Ok(found[j]);
  }

  /** getAll, the same way. A miss is a gap, not an error. */
  method GetAll(d: Driver, limit: int, keys: seq<Key>) returns (ok: bool, bodies: seq<Option<string>>)
    modifies d`strings
    ensures Shrunk(old(d.strings), d.strings) && (d.fixed ==> d.strings == old(d.strings))
    ensures ok ==> AnswersGet(keys, old(d.strings), d.strings, bodies)
    ensures ok && d.fixed ==> bodies == seq(|keys|, i requires 0 <= i < |keys| => Stored(old(d.strings), keys[i]))
    ensures d.reliable ==> ok
  {
    if !d.bulk {
      ok, bodies := GetEach(d, limit, keys);
      return;
    }
    bodies := [];
    var start := 0;
    while start < |keys|
      invariant 0 <= start <= |keys| && Shrunk(old(d.strings), d.strings) && (d.fixed ==> d.strings == old(d.strings))
      invariant AnswersGet(keys[..start], old(d.strings), d.strings, bodies)
    {
      var end := if start + BATCH < |keys| then start + BATCH else |keys|;
      d.Pass();
      var batch: seq<Option<string>>;
      ok, batch := d.GetMany(keys[start..end]);
      if !ok { return; }
      assert forall i | start <= i < end :: keys[start..end][i-start] == keys[i];
      bodies := bodies + batch;
      start := end;
    }
    assert keys[..|keys|] == keys;
    ok := true;
  }

  method GetEach(d: Driver, limit: int, keys: seq<Key>) returns (ok: bool, bodies: seq<Option<string>>)
    modifies d`strings
    ensures Shrunk(old(d.strings), d.strings) && (d.fixed ==> d.strings == old(d.strings))
    ensures ok ==> AnswersGet(keys, old(d.strings), d.strings, bodies)
    ensures d.reliable ==> ok
  {
    var answers: seq<Result<Option<string>>> := [];
    for i := 0 to |keys|
      invariant |answers| == i && Shrunk(old(d.strings), d.strings) && (d.fixed ==> d.strings == old(d.strings))
      invariant d.reliable ==> forall j | 0 <= j < i :: answers[j].Ok?
      invariant forall j | 0 <= j < i && answers[j].Ok? ::
                  && (answers[j].value.Some? ==> answers[j].value == Stored(old(d.strings), keys[j]))
                  && (keys[j] in d.strings ==> answers[j].value == Stored(d.strings, keys[j]))
    {
      d.Pass();
      var one: bool, body: seq<Option<string>>;
      one, body := d.GetMany([keys[i]]);
      answers := answers + [if one then Ok(body[0]) else Err("unreachable")];
    }
    var result, _ := Gather(answers, limit);
    ok := result.Ok?;
    bodies := if ok then result.value else [];
    assert ok ==> forall j | 0 <= j < |keys| :: answers[j] == Ok(bodies[j]);
  }

  /** mapKeys over entry. */
  method EntryKeys(ids: seq<string>) returns (keys: seq<Key>)
    ensures |keys| == |ids| && forall i | 0 <= i < |ids| :: keys[i] == Entry(ids[i])
  {
    keys := [];
    for i := 0 to |ids|
      invariant |keys| == i && forall j | 0 <= j < i :: keys[j] == Entry(ids[j])
    {
      keys := keys + [Entry(ids[i])];
    }
  }

  // ---- the sweep --------------------------------------------------------------------------

  /** Only k's set changed, and it lost nobody whose entry is there. */
  ghost predicate Swept(k: Key, was: Sets, now: Sets, strings: Strings) {
    && (Normal(was) ==> Normal(now))
    && (forall j | j != k :: Members(now, j) == Members(was, j))
    && Members(now, k) <= Members(was, k)
    && forall id | id in Members(was, k) && Entry(id) in strings :: id in Members(now, k)
  }

  /** live holds, once each, the ids of `walked` whose entries are there: all that still are, none
      that was not. */
  ghost predicate Sifted(walked: set<string>, was: Strings, now: Strings, live: seq<string>) {
    && Distinct(live)
    && (forall id | id in live :: id in walked && Entry(id) in was)
    && (forall id | id in walked && Entry(id) in now :: id in live)
  }

  /** One batch of a walk: what is live is kept, once, and the rest swept. */
  method Sift(d: Driver, limit: int, k: Key, batch: seq<string>, had: seq<string>, ghost walked: set<string>, ghost was: Strings)
    returns (ok: bool, live: seq<string>)
    requires Sifted(walked, was, d.strings, had) && Shrunk(was, d.strings)
    modifies d
    ensures Shrunk(old(d.strings), d.strings) && (d.fixed ==> d.strings == old(d.strings))
    ensures Swept(k, old(d.sets), d.sets, d.strings)
    ensures ok ==> Sifted(walked + Elems(batch), was, d.strings, live)
    ensures d.reliable ==> ok
    ensures d.reliable ==> forall id | id in batch && Entry(id) !in old(d.strings) :: id !in Members(d.sets, k)
  {
    live := had;
    var keys := EntryKeys(batch);
    var found: seq<bool>;
    ok, found := ExistsAll(d, limit, keys);
    if !ok { return; }
    var stale: set<string> := {};
    for i := 0 to |batch|
      invariant Sifted(walked + Elems(batch[..i]), was, d.strings, live)
      invariant forall id | id in stale :: Entry(id) !in d.strings
      invariant forall id | id in batch[..i] && Entry(id) !in old(d.strings) :: id in stale
    {
      var id := batch[i];
      assert Elems(batch[..i+1]) == Elems(batch[..i]) + {id} by { assert batch[..i+1] == batch[..i] + [id]; }
      assert keys[i] == Entry(id);
      if !found[i] {
        stale := stale + {id};
      } else if id !in live {
        live := live + [id];
      }
    }
    assert batch[..|batch|] == batch;
    if stale != {} {
      d.Pass();
      ghost var sets := d.sets;
      var _ := d.SetRemove(k, stale); // a cleanup that fails is left to the next call
      assert Members(Put(sets, k, Members(sets, k) - stale), k) == Members(sets, k) - stale;
    }
  }

  /** liveMembers: the ids in k's set whose entries are there, each once, and the rest swept. */
  method LiveMembers(d: Driver, limit: int, k: Key) returns (ok: bool, live: seq<string>)
    modifies d
    ensures Shrunk(old(d.strings), d.strings) && (d.fixed ==> d.strings == old(d.strings))
    ensures Swept(k, old(d.sets), d.sets, d.strings)
    ensures ok ==> Sifted(Members(old(d.sets), k), old(d.strings), d.strings, live)
    ensures d.reliable ==> ok && forall id | id in Members(d.sets, k) :: Entry(id) in old(d.strings)
  {
    live := [];
    d.Pass();
    var batches: seq<seq<string>>;
    if d.scans {
      ok, batches := d.SetScan(k);
    } else {
      var all: seq<string>;
      ok, all := d.SetMembers(k);
      batches := [all];
      assert forall id | id in all :: id in Elems(all);
      assert forall id | id in Elems(all) :: id in all && all in batches;
    }
    if !ok { return; }
    ghost var walked: set<string> := {};
    for i := 0 to |batches|
      invariant Shrunk(old(d.strings), d.strings) && (d.fixed ==> d.strings == old(d.strings))
      invariant Swept(k, old(d.sets), d.sets, d.strings)
      invariant walked <= Members(old(d.sets), k) && forall b | b in batches[..i] :: Elems(b) <= walked
      invariant Sifted(walked, old(d.strings), d.strings, live)
      invariant d.reliable ==> forall id | id in walked && Entry(id) !in old(d.strings) :: id !in Members(d.sets, k)
    {
      assert batches[i] in batches;
      ok, live := Sift(d, limit, k, batches[i], live, walked, old(d.strings));
      if !ok { return; }
      walked := walked + Elems(batches[i]);
      assert batches[..i+1] == batches[..i] + [batches[i]];
    }
    assert batches[..|batches|] == batches;
    assert walked == Members(old(d.sets), k);
    ok := true;
  }
}
