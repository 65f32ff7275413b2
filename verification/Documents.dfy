/** The document strategy of cache/core/document.go. A value is the bytes it encodes to. */
module Documents {
  import opened Wrappers
  import opened Gathering
  import opened Drivers
  import opened Leases

  /** What an operation resolved from its options. */
  datatype Options = Options(ttl: int, permanent: bool, indexes: map<string, string>)

  datatype Reply = Done(id: string) | NoTTL | NotFound | Unavailable

  /** Every live entry is in the index. */
  ghost predicate Listed(strings: Strings, sets: Sets) {
    forall id | Entry(id) in strings :: id in Members(sets, Index)
  }

  /** Only these ids' entries differ, but for what expired. */
  ghost predicate OnlyEntries(ids: set<string>, was: Strings, now: Strings) {
    forall k | k in now && !(k.Entry? && k.id in ids) :: k in was && now[k] == was[k]
  }

  /** The id's entry, if there is one, is the one asked for or the one there was. */
  ghost predicate BodyOrOld(id: string, body: string, was: Strings, now: Strings) {
    Entry(id) in now ==> now[Entry(id)] == body || (Entry(id) in was && now[Entry(id)] == was[Entry(id)])
  }

  class Document {
    const d: Driver
    const limit: int
    const require_: bool

    constructor (d: Driver, limit: int, require_: bool)
      ensures this.d == d && this.limit == limit && this.require_ == require_
    {
      this.d, this.limit, this.require_ := d, limit, require_;
    }

    /** Create: the index member first, so that stopping anywhere leaves every live entry listed. */
    method Create(id: string, body: string, o: Options) returns (reply: Reply)
      requires Listed(d.strings, d.sets)
      modifies d
      ensures Listed(d.strings, d.sets)
      ensures OnlyEntries({id}, old(d.strings), d.strings) && BodyOrOld(id, body, old(d.strings), d.strings)
      ensures reply == NoTTL <==> require_ && o.ttl <= 0 && !o.permanent
      ensures reply == NoTTL ==> d.strings == old(d.strings) && d.sets == old(d.sets)
      ensures reply.Done? ==> reply.id == id && Entry(id) in d.strings && d.strings[Entry(id)] == body
      ensures reply != NoTTL && !reply.Unavailable? ==> reply == Done(id)
      ensures d.sets == old(d.sets) || d.sets == Put(old(d.sets), Index, Members(old(d.sets), Index) + {id})
      ensures reply.Done? ==> d.sets == Put(old(d.sets), Index, Members(old(d.sets), Index) + {id})
      ensures d.fixed && reply.Done? ==> d.strings == old(d.strings)[Entry(id) := body]
      ensures d.reliable ==> !reply.Unavailable?
    {
      if !LeaseStated(require_, o.ttl, o.permanent) { return NoTTL; }
      d.Pass();
      var ok := d.SetAdd(Index, {id});
      assert Listed(d.strings, d.sets);
      if !ok { return Unavailable; }
      d.Pass();
      ok := d.Set(Entry(id), body);
      reply := if ok then Done(id) else Unavailable;
    }

    /** Update: replaces what is there, and makes nothing that is not. */
    method Update(id: string, body: string, o: Options) returns (reply: Reply)
      requires Listed(d.strings, d.sets)
      modifies d
      ensures Listed(d.strings, d.sets) && d.sets == old(d.sets)
      ensures OnlyEntries({id}, old(d.strings), d.strings) && BodyOrOld(id, body, old(d.strings), d.strings)
      ensures Entry(id) in d.strings ==> Entry(id) in old(d.strings)
      ensures reply == NoTTL <==> require_ && o.ttl <= 0 && !o.permanent
      ensures d.fixed && reply.Done? ==> Entry(id) in old(d.strings) && d.strings == old(d.strings)[Entry(id) := body]
      ensures reply.Done? ==> reply.id == id && Entry(id) in d.strings && d.strings[Entry(id)] == body
      ensures reply == NotFound ==> Entry(id) !in d.strings
      ensures d.fixed && reply == NotFound ==> Entry(id) !in old(d.strings) && d.strings == old(d.strings)
      ensures d.reliable ==> !reply.Unavailable?
    {
      if !LeaseStated(require_, o.ttl, o.permanent) { return NoTTL; }
      d.Pass();
      var ok, wrote := d.Replace(Entry(id), body);
      reply := if !ok then Unavailable else if wrote then Done(id) else NotFound;
    }

    /** Delete: the entry, then its index member. */
    method Delete(id: string) returns (ok: bool)
      requires Listed(d.strings, d.sets)
      modifies d
      ensures Listed(d.strings, d.sets)
      ensures Shrunk(old(d.strings), d.strings)
      ensures ok ==> Entry(id) !in d.strings && d.sets == Put(old(d.sets) - {Entry(id)}, Index, Members(old(d.sets), Index) - {id})
      ensures d.sets == old(d.sets) || d.sets == old(d.sets) - {Entry(id)}
              || d.sets == Put(old(d.sets) - {Entry(id)}, Index, Members(old(d.sets), Index) - {id})
      ensures d.fixed && ok ==> d.strings == old(d.strings) - {Entry(id)}
      ensures d.reliable ==> ok
    {
      d.Pass();
      ok := d.Delete({Entry(id)});
      if !ok { return; }
      d.Pass();
      ok := d.SetRemove(Index, {id});
    }

    /** Keys: each live id once. */
    method Keys() returns (ok: bool, ids: seq<string>)
      requires Listed(d.strings, d.sets)
      modifies d
      ensures Listed(d.strings, d.sets) && Shrunk(old(d.strings), d.strings)
      ensures ok ==> Distinct(ids)
      ensures ok ==> forall id | Entry(id) in d.strings :: id in ids
      ensures ok ==> forall id | id in ids :: Entry(id) in old(d.strings)
      ensures Swept(Index, old(d.sets), d.sets, d.strings)
      ensures d.reliable ==> forall id | id in Members(d.sets, Index) :: Entry(id) in old(d.strings)
      ensures d.fixed ==> d.strings == old(d.strings)
      ensures d.reliable ==> ok
    {
      ok, ids := LiveMembers(d, limit, Index);
    }

    /** List: the values of Keys' ids in their order, less what expired meanwhile. */
    method List() returns (ok: bool, values: seq<string>, ghost ids: seq<string>, ghost bodies: seq<Option<string>>)
      requires Listed(d.strings, d.sets)
      modifies d
      ensures Listed(d.strings, d.sets) && Shrunk(old(d.strings), d.strings)
      ensures ok ==> Distinct(ids) && forall id | Entry(id) in d.strings :: id in ids
      ensures ok ==> |bodies| == |ids| && values == Present(bodies)
      ensures ok ==> forall i | 0 <= i < |ids| ::
                && (bodies[i].Some? ==> bodies[i] == Stored(old(d.strings), Entry(ids[i])))
                && (Entry(ids[i]) in d.strings ==> bodies[i] == Stored(d.strings, Entry(ids[i])))
      ensures Swept(Index, old(d.sets), d.sets, d.strings)
      ensures ok && d.fixed ==> |values| == |ids| && forall i | 0 <= i < |ids| ::
                Entry(ids[i]) in old(d.strings) && values[i] == old(d.strings)[Entry(ids[i])]
      ensures d.reliable ==> ok
    {
      bodies, values, ids := [], [], [];
      var live: seq<string>;
      ok, live := Keys();
      if !ok { return; }
      ids := live;
      ok, values, bodies := Fill(live);
      if ok && d.fixed { AllPresent(bodies); }
    }

    /** fill: the values of ids, in order, skipping the gaps. */
    method Fill(ids: seq<string>) returns (ok: bool, values: seq<string>, ghost bodies: seq<Option<string>>)
      modifies d`strings
      ensures Shrunk(old(d.strings), d.strings) && (d.fixed ==> d.strings == old(d.strings))
      ensures ok ==> |bodies| == |ids| && values == Present(bodies)
      ensures ok ==> forall i | 0 <= i < |ids| ::
                && (bodies[i].Some? ==> bodies[i] == Stored(old(d.strings), Entry(ids[i])))
                && (Entry(ids[i]) in d.strings ==> bodies[i] == Stored(d.strings, Entry(ids[i])))
      ensures d.reliable ==> ok
    {
      var keys := EntryKeys(ids);
      values := [];
      var got: seq<Option<string>>;
      ok, got := GetAll(d, limit, keys);
      bodies := got;
      if !ok { return; }
      for i := 0 to |got|
        invariant values == Present(got[..i])
      {
        assert got[..i+1][..i] == got[..i];
        if got[i].Some? {
          values := values + [got[i].value];
        }
      }
      assert got[..|got|] == got;
    }
  }

  /** The values there are, in order. */
  function Present(bodies: seq<Option<string>>): seq<string> {
    if bodies == [] then []
    else
      var n := |bodies| - 1;
      Present(bodies[..n]) + if bodies[n].Some? then [bodies[n].value] else []
  }

  lemma {:induction false} AllPresent(bodies: seq<Option<string>>)
    requires forall i | 0 <= i < |bodies| :: bodies[i].Some?
    ensures |Present(bodies)| == |bodies| && forall i | 0 <= i < |bodies| :: Present(bodies)[i] == bodies[i].value
  {
    if bodies != [] { AllPresent(bodies[..|bodies|-1]); }
  }
}
