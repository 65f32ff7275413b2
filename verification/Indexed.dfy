/** The indexed strategy of cache/core/indexed.go over the filings of cache/core/filing.go: one
    operation at a time, with driver calls that may fail and entries that may expire at any moment. */
module IndexedEntries {
  import opened Wrappers
  import opened Gathering
  import opened Drivers
  import opened Documents
  import opened Filings
  import opened Leases

  lemma PutMembers(sets: Sets, k: Key, members: set<string>)
    ensures forall j :: Members(Put(sets, k, members), j) == if j == k then members else Members(sets, j)
    ensures Normal(sets) ==> Normal(Put(sets, k, members))
  {
  }

  lemma FileOne(sets: Sets, at: string, id: string)
    ensures var now := Put(sets, By(at), Members(sets, By(at)) + {id});
            && (forall k, x :: Files(now, k, x) <==> Files(sets, k, x) || (x == id && k == at))
            && (forall j: Key | !j.By? :: Members(now, j) == Members(sets, j))
            && (Normal(sets) ==> Normal(now))
  {
    PutMembers(sets, By(at), Members(sets, By(at)) + {id});
  }

  lemma RemoveOne(sets: Sets, at: string, id: string)
    ensures var now := Put(sets, By(at), Members(sets, By(at)) - {id});
            && (forall k, x :: Files(now, k, x) <==> Files(sets, k, x) && !(x == id && k == at))
            && (forall j: Key | !j.By? :: Members(now, j) == Members(sets, j))
            && (Normal(sets) ==> Normal(now))
  {
    PutMembers(sets, By(at), Members(sets, By(at)) - {id});
  }

  /** Nothing but what names id, and its record, differs. */
  ghost predicate OnlyOf(was: Sets, now: Sets, id: string) {
    && Normal(now)
    && (forall k, x | x != id :: Files(now, k, x) <==> Files(was, k, x))
    && (forall k: Key | !k.By? && k != Fields(id) :: Members(now, k) == Members(was, k))
  }

  /** What file has done once it has filed id under these fields of indexes. */
  ghost predicate FiledSoFar(was: Sets, now: Sets, id: string, indexes: Indexes, done: set<string>)
    requires done <= indexes.Keys
  {
    && OnlyOf(was, now, id) && Record(now, id) == Record(was, id)
    && forall k :: Files(now, k, id) <==> Files(was, k, id) || exists f | f in done :: At(f, indexes[f]) == k
  }

  // ---- what holds between operations ------------------------------------------------------

  /** What every operation keeps, wherever it stops: every live entry is listed, an id never used is
      filed nowhere, and every live entry is filed as its history says, but for those -- `broken` --
      whose refiling or unfiling stopped part way. */
  ghost predicate Kept(exact: bool, strings: Strings, sets: Sets, used: set<string>, filed: map<string, Indexes>,
                       at: map<string, set<string>>, broken: set<string>) {
    && Listed(strings, sets) && Normal(sets)
    && (forall id | id !in used :: Unused(sets, id) && Entry(id) !in strings)
    && (forall id | Entry(id) in strings && id !in broken :: AsFiled(exact, sets, filed, at, id))
  }

  lemma KeptIsNormal(exact: bool, strings: Strings, sets: Sets, used: set<string>, filed: map<string, Indexes>,
                     at: map<string, set<string>>, broken: set<string>)
    requires Kept(exact, strings, sets, used, filed, at, broken)
    ensures Normal(sets)
  {
  }

  /** Where one id's filings changed, the rest of what is kept is. */
  lemma OneChanged(exact: bool, before: Strings, strings: Strings, was: Sets, now: Sets, id: string,
                   used: set<string>, filed: map<string, Indexes>, at: map<string, set<string>>, broken: set<string>,
                   filed': map<string, Indexes>, at': map<string, set<string>>, broken': set<string>)
    requires Kept(exact, before, was, used, filed, at, broken) && OnlyOf(was, now, id)
    requires id in used || (Unused(now, id) && Entry(id) !in strings)
    requires Listed(strings, now) && forall x | Entry(x) in strings && x != id :: Entry(x) in before
    requires forall x | x != id :: Latest(filed', x) == Latest(filed, x) && PlacesOf(at', x) == PlacesOf(at, x)
    requires broken <= broken' && (Entry(id) in strings && id !in broken' ==> AsFiled(exact, now, filed', at', id))
    ensures Kept(exact, strings, now, used, filed', at', broken')
  {
    forall x | x !in used ensures Unused(now, x) && Entry(x) !in strings {
      if x != id { assert Unused(was, x) && Record(now, x) == Record(was, x); }
    }
    forall x | Entry(x) in strings && x !in broken' ensures AsFiled(exact, now, filed', at', x) {
      if x != id { assert AsFiled(exact, was, filed, at, x) && Record(now, x) == Record(was, x); }
    }
  }

  /** The index and the key of the entry do not matter to what is filed. */
  lemma OnlyOfMore(was: Sets, mid: Sets, now: Sets, id: string)
    requires Normal(mid)
    requires (forall k, x | x != id :: Files(mid, k, x) <==> Files(was, k, x)) && forall x | x != id :: Record(mid, x) == Record(was, x)
    requires now == mid || now == Put(mid, Index, Members(mid, Index) + {id})
             || now == mid - {Entry(id)} || now == Put(mid - {Entry(id)}, Index, Members(mid, Index) - {id})
    ensures Normal(now) && (forall k, x :: Files(now, k, x) <==> Files(mid, k, x)) && forall x :: Record(now, x) == Record(mid, x)
  {
    var less := mid - {Entry(id)};
    PutMembers(mid, Index, Members(mid, Index) + {id});
    PutMembers(less, Index, Members(mid, Index) - {id});
    assert forall k | k != Entry(id) :: Members(less, k) == Members(mid, k);
  }

  class Indexed {
    const d: Driver
    const document: Document
    const limit: int

    /** History: every id created, what each was last filed under, every place each was filed in and
        not taken out of, and those of which that is not known. */
    ghost var used: set<string>
    ghost var filed: map<string, Indexes>
    ghost var at: map<string, set<string>>
    ghost var broken: set<string>

    ghost predicate Valid()
      reads this, d
    {
      && document.d == d && Kept(d.reliable, d.strings, d.sets, used, filed, at, broken) && (d.reliable ==> broken == {})
    }

    /** id is filed where its latest filing says and nowhere else. */
    ghost predicate Clean(id: string)
      reads this
    {
      PlacesOf(at, id) == Places(Latest(filed, id))
    }

    constructor (d: Driver, limit: int, require_: bool)
      requires d.strings == map[] && d.sets == map[]
      ensures Valid() && this.d == d && used == {} && broken == {} && document.require_ == require_
    {
      this.d, this.limit := d, limit;
      document := new Document(d, limit, require_);
      used, filed, at, broken := {}, map[], map[], {};
    }

    /** file: id under each index named, and the pairs under fields(id). */
    method File(id: string, indexes: Indexes) returns (ok: bool)
      requires Normal(d.sets)
      modifies d
      ensures Shrunk(old(d.strings), d.strings) && (d.fixed ==> d.strings == old(d.strings)) && (d.reliable ==> ok)
      ensures OnlyOf(old(d.sets), d.sets, id)
      ensures forall k :: Files(old(d.sets), k, id) ==> Files(d.sets, k, id)
      ensures forall k :: Files(d.sets, k, id) ==> Files(old(d.sets), k, id) || k in Places(indexes)
      ensures ok ==> forall k | k in Places(indexes) :: Files(d.sets, k, id)
      ensures Record(old(d.sets), id) <= Record(d.sets, id) <= Record(old(d.sets), id) + Pairs(indexes)
      ensures ok ==> Record(d.sets, id) == Record(old(d.sets), id) + Pairs(indexes)
    {
      if indexes == map[] {
        assert Pairs(indexes) == {} && Places(indexes) == {};
        return true;
      }
      var pairs: set<string> := {};
      var todo := indexes.Keys;
      ghost var done: set<string> := {};
      while todo != {}
        invariant todo + done == indexes.Keys && todo !! done && pairs == set f | f in done :: Pair(f, indexes[f])
        invariant Shrunk(old(d.strings), d.strings) && (d.fixed ==> d.strings == old(d.strings))
        invariant FiledSoFar(old(d.sets), d.sets, id, indexes, done)
        decreases todo
      {
        var f :| f in todo;
        d.Pass();
        ghost var sets := d.sets;
        FileOne(sets, At(f, indexes[f]), id);
        ok := d.SetAdd(By(At(f, indexes[f])), {id});
        assert At(f, indexes[f]) in Places(indexes);
        if !ok { return false; }
        pairs := pairs + {Pair(f, indexes[f])};
        done := done + {f};
        todo := todo - {f};
      }
      assert done == indexes.Keys;
      d.Pass();
      ghost var sets := d.sets;
      PutMembers(sets, Fields(id), Members(sets, Fields(id)) + pairs);
      ok := d.SetAdd(Fields(id), pairs);
      assert forall k, x :: Files(d.sets, k, x) <==> Files(sets, k, x);
    }

    /** The loop of unfile and refile: id out of the index each of these pairs reads as. */
    method RemoveFrom(id: string, pairs: seq<string>) returns (ok: bool)
      requires Normal(d.sets)
      modifies d
      ensures Shrunk(old(d.strings), d.strings) && (d.fixed ==> d.strings == old(d.strings)) && (d.reliable ==> ok)
      ensures OnlyOf(old(d.sets), d.sets, id) && Record(d.sets, id) == Record(old(d.sets), id)
      ensures forall k :: Files(d.sets, k, id) ==> Files(old(d.sets), k, id)
      ensures ok ==> forall k :: Files(d.sets, k, id) <==> Files(old(d.sets), k, id) && forall p | p in pairs :: Read(p) != k
    {
      for i := 0 to |pairs|
        invariant Shrunk(old(d.strings), d.strings) && (d.fixed ==> d.strings == old(d.strings))
        invariant OnlyOf(old(d.sets), d.sets, id) && Record(d.sets, id) == Record(old(d.sets), id)
        invariant forall k :: Files(d.sets, k, id) <==> Files(old(d.sets), k, id) && forall p | p in pairs[..i] :: Read(p) != k
      {
        var k := By(Read(pairs[i]));
        d.Pass();
        ghost var sets := d.sets;
        RemoveOne(sets, Read(pairs[i]), id);
        ok := d.SetRemove(k, {id});
        if !ok { return; }
        assert pairs[..i+1] == pairs[..i] + [pairs[i]];
        assert forall p :: p in pairs[..i+1] <==> p in pairs[..i] || p == pairs[i];
      }
      assert pairs[..|pairs|] == pairs;
      ok := true;
    }

    /** unfile: id out of every index its record reads as, and its record gone. */
    method Unfile(id: string) returns (ok: bool)
      requires Normal(d.sets)
      modifies d
      ensures Shrunk(old(d.strings), d.strings) && (d.reliable ==> ok)
      ensures d.fixed && ok ==> d.strings == old(d.strings) - {Fields(id)}
      ensures OnlyOf(old(d.sets), d.sets, id) && Record(d.sets, id) <= Record(old(d.sets), id)
      ensures forall k :: Files(d.sets, k, id) ==> Files(old(d.sets), k, id)
      ensures ok ==> forall k :: Files(d.sets, k, id) <==> Files(old(d.sets), k, id) && k !in Reads(Record(old(d.sets), id))
      ensures ok ==> Record(d.sets, id) == {}
    {
      d.Pass();
      var had;
      ok, had := d.SetMembers(Fields(id));
      if !ok { return; }
      assert forall p :: p in had <==> p in Elems(had);
      ghost var was := d.sets;
      assert forall k :: k in Reads(Record(was, id)) <==> exists p | p in had :: Read(p) == k;
      ok := RemoveFrom(id, had);
      if !ok { return; }
      ghost var removed := d.sets;
      d.Pass();
      ok := d.Delete({Fields(id)});
      assert forall k, x :: Files(d.sets, k, x) <==> Files(removed, k, x);
    }

    /** The removals of refile: id out of wherever a pair not kept reads, and the pair forgotten, if
        that succeeds: nobody asks. */
    method TakeOut(id: string, keep: set<string>) returns (ok: bool)
      requires Normal(d.sets)
      modifies d
      ensures Shrunk(old(d.strings), d.strings) && (d.fixed ==> d.strings == old(d.strings)) && (d.reliable ==> ok)
      ensures OnlyOf(old(d.sets), d.sets, id)
      ensures ok ==> forall k :: Files(d.sets, k, id) <==> Files(old(d.sets), k, id) && k !in Reads(Record(old(d.sets), id) - keep)
      ensures Record(old(d.sets), id) * keep <= Record(d.sets, id)
      ensures ok && d.reliable ==> Record(d.sets, id) == Record(old(d.sets), id) * keep
    {
      ghost var was := d.sets;
      d.Pass();
      var had;
      ok, had := d.SetMembers(Fields(id));
      if !ok { return; }
      assert forall p :: p in had <==> p in Elems(had);
      var dropped: seq<string> := [];
      for i := 0 to |had|
        invariant forall p :: p in dropped <==> p in had[..i] && p !in keep
      {
        assert had[..i+1] == had[..i] + [had[i]];
        if had[i] !in keep { dropped := dropped + [had[i]]; }
      }
      assert had[..|had|] == had;
      ok := RemoveFrom(id, dropped);
      if !ok { return; }
      ghost var removed := d.sets;
      assert Elems(dropped) == Record(was, id) - keep;
      assert forall k :: k in Reads(Elems(dropped)) <==> exists p | p in dropped :: Read(p) == k;
      if |dropped| > 0 {
        d.Pass();
        PutMembers(removed, Fields(id), Members(removed, Fields(id)) - Elems(dropped));
        var _ := d.SetRemove(Fields(id), Elems(dropped));
      }
      assert forall k, x :: Files(d.sets, k, x) <==> Files(removed, k, x);
    }

    /** refile: out of the indexes id no longer belongs to, then into the ones it does. */
    method Refile(id: string, want: Indexes) returns (ok: bool)
      requires Normal(d.sets)
      modifies d
      ensures Shrunk(old(d.strings), d.strings) && (d.fixed ==> d.strings == old(d.strings)) && (d.reliable ==> ok)
      ensures OnlyOf(old(d.sets), d.sets, id)
      ensures ok ==> forall k :: Files(d.sets, k, id) <==>
                (Files(old(d.sets), k, id) && k !in Reads(Record(old(d.sets), id) - Pairs(want))) || k in Places(want)
      ensures ok ==> Pairs(want) <= Record(d.sets, id)
      ensures d.reliable ==> Record(d.sets, id) == Pairs(want)
    {
      hide Reads, Pairs, Places;
      ok := TakeOut(id, Pairs(want));
      if !ok { return; }
      ok := File(id, want);
    }

    /** Create files the entry first, then stores it under an id that was never used. Wherever it
        stops, a live entry is listed and filed: nothing is broken. */
    method Create(id: string, body: string, o: Options) returns (reply: Reply)
      requires Valid() && id !in used
      modifies this, d
      ensures Valid() && used == old(used) + {id} && broken == old(broken)
      ensures reply == NoTTL ==> document.require_ && o.ttl <= 0 && !o.permanent
      ensures reply == NoTTL || reply == Unavailable || reply == Done(id)
      ensures document.require_ && o.ttl <= 0 && !o.permanent ==> !reply.Done?
      ensures d.reliable ==> reply == if document.require_ && o.ttl <= 0 && !o.permanent then NoTTL else Done(id)
      ensures filed == old(filed)[id := o.indexes] && at == old(at)[id := Places(o.indexes)]
      ensures reply.Done? ==> Entry(id) in d.strings && d.strings[Entry(id)] == body
      ensures d.fixed && reply.Done? ==> d.strings == old(d.strings)[Entry(id) := body]
      ensures OnlyEntries({id}, old(d.strings), d.strings) && BodyOrOld(id, body, old(d.strings), d.strings)
    {
      ghost var strings, was := d.strings, d.sets;
      KeptIsNormal(d.reliable, strings, was, used, filed, at, broken);
      UnusedId(d.reliable, strings, was, used, filed, at, broken, id);
      hide Kept, AsFiled;
      var ok := File(id, o.indexes);
      ghost var mid := d.sets;
      if ok {
        reply := document.Create(id, body, o);
        CreatedAsFiled(d.reliable, was, mid, d.sets, filed, at, id, o.indexes);
      } else {
        reply := Unavailable;
      }
      OnlyOfMore(was, mid, d.sets, id);
      OneCreated(d.reliable, strings, d.strings, was, mid, d.sets, id, used, filed, at, broken, o.indexes);
      used, filed, at := used + {id}, filed[id := o.indexes], at[id := Places(o.indexes)];
    }

    /** Update replaces the entry and, when it names any index, refiles it. Where fields hold no
        '=' that leaves it filed under exactly those. One that stops part way through the refiling
        breaks that id and no other. */
    method Update(id: string, body: string, o: Options) returns (reply: Reply)
      requires Valid()
      modifies this, d
      ensures Valid() && used == old(used)
      ensures broken == old(broken) || (reply == Unavailable && broken == old(broken) + {id})
      ensures reply == NoTTL <==> document.require_ && o.ttl <= 0 && !o.permanent
      ensures reply == NotFound ==> Entry(id) !in d.strings
      ensures reply == NoTTL || reply == NotFound || reply == Unavailable || reply == Done(id)
      ensures d.reliable ==> reply != Unavailable
      ensures var refiled := reply.Done? && o.indexes != map[];
              && filed == (if refiled then old(filed)[id := o.indexes] else old(filed))
              && at == if refiled then old(at)[id := RefiledBy(PlacesOf(old(at), id), Record(old(d.sets), id), o.indexes)] else old(at)
      ensures d.reliable && reply.Done? ==> Record(old(d.sets), id) == Pairs(Latest(old(filed), id))
      ensures id !in old(broken) && old(Clean(id)) && Readable(Latest(old(filed), id)) && Readable(o.indexes) ==> Clean(id)
      ensures reply.Done? && Entry(id) in d.strings ==> d.strings[Entry(id)] == body
      ensures d.fixed && reply.Done? ==> Entry(id) in old(d.strings) && d.strings == old(d.strings)[Entry(id) := body]
      ensures d.fixed && reply == NotFound ==> Entry(id) !in old(d.strings)
      ensures OnlyEntries({id}, old(d.strings), d.strings) && BodyOrOld(id, body, old(d.strings), d.strings)
    {
      ghost var before, was := d.strings, d.sets;
      reply := document.Update(id, body, o);
      OnlyEntry(d.reliable, before, d.strings, was, used, filed, at, broken, id);
      if !reply.Done? || o.indexes == map[] { return; }
      hide Kept, AsFiled, Listed, Readable;
      var ok := Reindex(id, o.indexes);
      if !ok { reply := Unavailable; }
    }

    /** The refiling of an entry just replaced. */
    method Reindex(id: string, want: Indexes) returns (ok: bool)
      requires Valid() && Entry(id) in d.strings
      modifies this, d
      ensures Valid() && used == old(used) && (d.reliable ==> ok)
      ensures broken == if ok then old(broken) else old(broken) + {id}
      ensures filed == if ok then old(filed)[id := want] else old(filed)
      ensures at == if ok then old(at)[id := RefiledBy(PlacesOf(old(at), id), Record(old(d.sets), id), want)] else old(at)
      ensures d.reliable ==> Record(old(d.sets), id) == Pairs(Latest(old(filed), id))
      ensures id !in old(broken) && old(Clean(id)) && Readable(Latest(old(filed), id)) && Readable(want) && ok ==> Clean(id)
      ensures Shrunk(old(d.strings), d.strings) && (d.fixed ==> d.strings == old(d.strings))
    {
      ghost var strings, was, had := d.strings, d.sets, Latest(filed, id);
      KeptIsNormal(d.reliable, strings, was, used, filed, at, broken);
      LiveIsUsed(d.reliable, strings, was, used, filed, at, broken, id);
      ShrunkIsListed(d.reliable, strings, was, used, filed, at, broken);
      if id !in broken {
        LiveAsFiled(d.reliable, strings, was, used, filed, at, broken, id);
        AsFiledRecord(d.reliable, was, filed, at, id);
      }
      hide Kept, AsFiled, Listed, Readable;
      ok := Refile(id, want);
      ghost var at' := at[id := RefiledBy(PlacesOf(at, id), Record(was, id), want)];
      StillListed(strings, d.strings, was, d.sets, id);
      if ok {
        if id !in broken { RefiledAsFiled(d.reliable, was, d.sets, filed, at, id, want); }
        OneChanged(d.reliable, strings, d.strings, was, d.sets, id, used, filed, at, broken, filed[id := want], at', broken);
        if Readable(had) && Readable(want) && id !in broken && Clean(id) { ReadableIsRefiled(had, Record(was, id), want); }
        filed, at := filed[id := want], at';
      } else {
        OneChanged(d.reliable, strings, d.strings, was, d.sets, id, used, filed, at, broken, filed, at, broken + {id});
        broken := broken + {id};
      }
    }

    /** Delete: the filings, then the entry. One that stops after unfiling leaves the entry live and
        filed nowhere its record read; one that stops part way through unfiling breaks that id. */
    method Delete(id: string) returns (ok: bool, ghost unfiled: bool)
      requires Valid()
      modifies this, d
      ensures Valid() && used == old(used) && (d.reliable ==> ok) && (ok ==> unfiled)
      ensures broken == if unfiled then old(broken) else old(broken) + {id}
      ensures filed == if unfiled then old(filed) - {id} else old(filed)
      ensures at == if unfiled then old(at)[id := PlacesOf(old(at), id) - Reads(Record(old(d.sets), id))] else old(at)
      ensures ok ==> Unfiled(old(d.sets), d.sets, {id}) && Entry(id) !in d.strings
      ensures Shrunk(old(d.strings), d.strings)
      ensures d.fixed && ok ==> d.strings == old(d.strings) - {Entry(id), Fields(id)}
    {
      ghost var before, was := d.strings, d.sets;
      KeptIsNormal(d.reliable, before, was, used, filed, at, broken);
      ShrunkIsListed(d.reliable, before, was, used, filed, at, broken);
      if id !in used { UnusedId(d.reliable, before, was, used, filed, at, broken, id); }
      hide Kept, Listed, AsFiled, Reads, Unfiled;
      ok := Unfile(id);
      unfiled := ok;
      ghost var strings, mid := d.strings, d.sets;
      StillListed(before, strings, was, mid, id);
      if !ok {
        OneChanged(d.reliable, before, strings, was, mid, id, used, filed, at, broken, filed, at, broken + {id});
        broken := broken + {id};
        return;
      }
      ok := document.Delete(id);
      OnlyOfMore(was, mid, d.sets, id);
      if ok { DeletedIsUnfiled(was, mid, d.sets, id); }
      ghost var filed', at' := filed - {id}, at[id := PlacesOf(at, id) - Reads(Record(was, id))];
      OneDeleted(d.reliable, before, d.strings, was, mid, d.sets, id, used, filed, at, broken, filed', at');
      filed, at := filed', at';
    }

    /** IDsByIndex: each live id that was filed under the key of field=value and not taken out, once,
        and no other. */
    method IDsByIndex(field: string, value: string) returns (ok: bool, ids: seq<string>)
      requires Valid()
      modifies d
      ensures Valid() && Shrunk(old(d.strings), d.strings) && (d.fixed ==> d.strings == old(d.strings)) && (d.reliable ==> ok)
      ensures ok ==> LookedUp(old(d.strings), d.strings, at, broken, field, value, ids)
      ensures Swept(By(At(field, value)), old(d.sets), d.sets, d.strings)
    {
      ghost var strings, was := d.strings, d.sets;
      ok, ids := LiveMembers(d, limit, By(At(field, value)));
      SweptKept(d.reliable, strings, d.strings, was, d.sets, used, filed, at, broken, At(field, value));
      forall id | ok && Entry(id) in strings && id !in broken
        ensures Files(was, At(field, value), id) <==> At(field, value) in PlacesOf(at, id)
      {
        assert AsFiled(d.reliable, was, filed, at, id);
      }
    }

    /** The field records of ids, read a few at a time. */
    method Records(ids: seq<string>) returns (records: seq<seq<string>>)
      requires d.reliable
      modifies d`strings
      ensures Shrunk(old(d.strings), d.strings) && (d.fixed ==> d.strings == old(d.strings))
      ensures |records| == |ids| && forall i | 0 <= i < |ids| :: Elems(records[i]) == Record(d.sets, ids[i])
    {
      var answers: seq<Result<seq<string>>> := [];
      for i := 0 to |ids|
        invariant |answers| == i && Shrunk(old(d.strings), d.strings) && (d.fixed ==> d.strings == old(d.strings))
        invariant forall j | 0 <= j < i :: answers[j].Ok? && Elems(answers[j].value) == Members(d.sets, Fields(ids[j]))
      {
        d.Pass();
        var _, members := d.SetMembers(Fields(ids[i]));
        answers := answers + [Ok(members)];
      }
      var result, _ := Gather(answers, limit);
      records := result.value;
      assert forall j | 0 <= j < |ids| :: answers[j] == Ok(records[j]);
    }

    /** The removals, grouped: for each index key named, the ids to drop from it. */
    method GroupRemovals(ids: seq<string>, records: seq<seq<string>>) returns (members: map<Key, set<string>>, doomed: set<Key>)
      requires |records| == |ids|
      ensures forall k | k in members :: k.By?
      ensures forall k, id :: id in Members(members, k) <==> Dooms(ids, records, |ids|, k, id)
      ensures doomed == Doomed(Elems(ids))
    {
      members, doomed := map[], {};
      for i := 0 to |ids|
        invariant forall k | k in members :: k.By?
        invariant forall k, id :: id in Members(members, k) <==> Dooms(ids, records, i, k, id)
        invariant doomed == Doomed(Elems(ids[..i]))
      {
        ghost var before := members;
        for j := 0 to |records[i]|
          invariant forall k | k in members :: k.By?
          invariant forall k, id :: id in Members(members, k) <==>
                      id in Members(before, k) || (id == ids[i] && exists p | p in records[i][..j] :: By(Read(p)) == k)
        {
          var k := By(Read(records[i][j]));
          assert records[i][..j+1] == records[i][..j] + [records[i][j]];
          members := members[k := Members(members, k) + {ids[i]}];
        }
        assert records[i][..|records[i]|] == records[i];
        doomed := doomed + {Entry(ids[i]), Fields(ids[i])};
        assert ids[..i+1] == ids[..i] + [ids[i]];
      }
      assert ids[..|ids|] == ids;
    }

    /** One removal for each index key. */
    method RemoveGrouped(members: map<Key, set<string>>)
      requires d.reliable && Normal(d.sets)
      modifies d
      ensures Shrunk(old(d.strings), d.strings) && (d.fixed ==> d.strings == old(d.strings))
      ensures Normal(d.sets)
      ensures forall k :: Members(d.sets, k) == if k in members then Members(old(d.sets), k) - members[k] else Members(old(d.sets), k)
    {
      var todo := members.Keys;
      while todo != {}
        invariant todo <= members.Keys
        invariant Shrunk(old(d.strings), d.strings) && (d.fixed ==> d.strings == old(d.strings))
        invariant Normal(d.sets)
        invariant forall k :: Members(d.sets, k) ==
                    if k in members && k !in todo then Members(old(d.sets), k) - members[k] else Members(old(d.sets), k)
        decreases todo
      {
        var k :| k in todo;
        d.Pass();
        ghost var sets := d.sets;
        var _ := d.SetRemove(k, members[k]);
        PutMembers(sets, k, Members(sets, k) - members[k]);
        todo := todo - {k};
      }
    }

    /** DeleteByIndex, no call failing: every entry IDsByIndex answers, its filings removed by index
        key. */
    method DeleteByIndex(field: string, value: string) returns (count: nat, ids: seq<string>, ghost read: Strings, ghost swept: Sets)
      requires Valid() && d.reliable
      modifies this, d
      ensures Valid() && used == old(used) && filed == old(filed) && at == old(at)
      ensures count == |ids| && LookedUp(old(d.strings), read, at, {}, field, value, ids)
      ensures Swept(By(At(field, value)), old(d.sets), swept, read)
      ensures Unfiled(swept, d.sets, Elems(ids))
      ensures Shrunk(old(d.strings), read) && Shrunk(read, d.strings) && forall id | id in ids :: Entry(id) !in d.strings
      ensures forall id | Entry(id) in d.strings :: At(field, value) !in PlacesOf(at, id)
      ensures d.fixed ==> d.strings == old(d.strings) - Doomed(Elems(ids))
    {
      hide Unfiled, AsFiled, Listed, LookedUp, Swept;
      var ok;
      ok, ids := IDsByIndex(field, value);
      read, swept := d.strings, d.sets;
      KeptIsNormal(d.reliable, read, swept, used, filed, at, broken);
      count := |ids|;
      if count > 0 {
        DeleteIds(ids);
      } else {
        assert Elems(ids) == {} && Doomed({}) == {};
        UnfiledNone(d.sets);
      }
      GroupDeleted(old(d.strings), read, d.strings, swept, d.sets, used, filed, at, field, value, ids);
    }

    /** The ids' field records, then their filings by index key, their index members, and their
        entries and records in one delete. */
    method DeleteIds(ids: seq<string>)
      requires d.reliable && Normal(d.sets)
      modifies d
      ensures Unfiled(old(d.sets), d.sets, Elems(ids))
      ensures Shrunk(old(d.strings), d.strings) && forall id | id in Elems(ids) :: Entry(id) !in d.strings
      ensures d.fixed ==> d.strings == old(d.strings) - Doomed(Elems(ids))
    {
      ghost var was := d.sets;
      var records := Records(ids);
      var members, doomed := GroupRemovals(ids, records);
      RemoveGrouped(members);
      d.Pass();
      ghost var sets := d.sets;
      var _ := d.SetRemove(Index, Elems(ids));
      d.Pass();
      var _ := d.Delete(doomed);
      GroupIsUnfiled(was, sets, d.sets, ids, records, members);
      assert forall id | id in Elems(ids) :: Entry(id) in doomed;
    }
  }

  /** The keys that hold ids' entries and field records. */
  function Doomed(ids: set<string>): set<Key> { (set id | id in ids :: Entry(id)) + (set id | id in ids :: Fields(id)) }

  /** The ids, each once, that a lookup answers while entries go from `was` to `now`: those filed
      under the key and not taken out whose entries were there, all whose entries still are; of those
      whose filing is not known, any. */
  ghost predicate LookedUp(was: Strings, now: Strings, at: map<string, set<string>>, broken: set<string>,
                           field: string, value: string, ids: seq<string>) {
    && Distinct(ids)
    && (forall id | id in ids :: Entry(id) in was && (id in broken || At(field, value) in PlacesOf(at, id)))
    && (forall id | Entry(id) in now && id !in broken && At(field, value) in PlacesOf(at, id) :: id in ids)
  }

  /** Where neither the field nor those of an id's latest filing hold a colon, and the id is filed
      where that says and nowhere else, a lookup answers it, live, exactly when its latest filing
      named field=value. */
  lemma LookedUpByName(was: Strings, now: Strings, filed: map<string, Indexes>, at: map<string, set<string>>, broken: set<string>,
                       field: string, value: string, ids: seq<string>, id: string)
    requires LookedUp(was, now, at, broken, field, value, ids) && id !in broken
    requires ':' !in field && Separate(Latest(filed, id)) && PlacesOf(at, id) == Places(Latest(filed, id))
    ensures id in ids ==> Entry(id) in was && Names(Latest(filed, id), field, value)
    ensures Entry(id) in now && Names(Latest(filed, id), field, value) ==> id in ids
  {
    NamedExactly(Latest(filed, id), field, value);
  }

  /** After its group deletion nothing live is filed under the key, and the bookkeeping holds. */
  lemma GroupDeleted(was: Strings, read: Strings, now: Strings, swept: Sets, sets: Sets, used: set<string>, filed: map<string, Indexes>,
                     at: map<string, set<string>>, field: string, value: string, ids: seq<string>)
    requires LookedUp(was, read, at, {}, field, value, ids)
    requires Kept(true, read, swept, used, filed, at, {})
    requires Unfiled(swept, sets, Elems(ids)) && Shrunk(read, now) && forall id | id in Elems(ids) :: Entry(id) !in now
    ensures Kept(true, now, sets, used, filed, at, {})
    ensures forall id | Entry(id) in now :: At(field, value) !in PlacesOf(at, id)
  {
    forall id | id !in used ensures Unused(sets, id) && Entry(id) !in now {
      assert Unused(swept, id);
    }
    forall id | Entry(id) in now
      ensures AsFiled(true, sets, filed, at, id) && id in Members(sets, Index) && At(field, value) !in PlacesOf(at, id)
    {
      assert id !in Elems(ids) && AsFiled(true, swept, filed, at, id);
    }
  }

  /** One of the first n ids is id, and its record reads as k. */
  ghost predicate Dooms(ids: seq<string>, records: seq<seq<string>>, n: nat, k: Key, id: string)
    requires n <= |ids| == |records|
  {
    exists i, p | 0 <= i < n && p in records[i] :: ids[i] == id && By(Read(p)) == k
  }

  lemma DoomedIsRead(was: Sets, ids: seq<string>, records: seq<seq<string>>, at: string, id: string)
    requires |records| == |ids|
    requires forall i | 0 <= i < |ids| :: Elems(records[i]) == Record(was, ids[i])
    ensures Dooms(ids, records, |ids|, By(at), id) <==> id in Elems(ids) && at in Reads(Record(was, id))
  {
    if id in Elems(ids) && at in Reads(Record(was, id)) {
      var i :| 0 <= i < |ids| && ids[i] == id;
      var p :| p in Record(was, id) && Read(p) == at;
      assert p in Elems(records[i]);
    }
    if Dooms(ids, records, |ids|, By(at), id) {
      var i, p :| 0 <= i < |ids| && p in records[i] && ids[i] == id && By(Read(p)) == By(at);
      assert p in Elems(records[i]);
    }
  }

  lemma GroupTakesOut(was: Sets, mid: Sets, ids: seq<string>, records: seq<seq<string>>, members: map<Key, set<string>>, at: string, id: string)
    requires |records| == |ids|
    requires forall i | 0 <= i < |ids| :: Elems(records[i]) == Record(was, ids[i])
    requires id in Members(members, By(at)) <==> Dooms(ids, records, |ids|, By(at), id)
    requires Members(mid, By(at)) == if By(at) in members then Members(was, By(at)) - members[By(at)] else Members(was, By(at))
    ensures Files(mid, at, id) <==> Files(was, at, id) && !(id in Elems(ids) && at in Reads(Record(was, id)))
  {
    DoomedIsRead(was, ids, records, at, id);
  }

  lemma GroupIsUnfiled(was: Sets, mid: Sets, now: Sets, ids: seq<string>, records: seq<seq<string>>, members: map<Key, set<string>>)
    requires Normal(mid) && |records| == |ids|
    requires forall i | 0 <= i < |ids| :: Elems(records[i]) == Record(was, ids[i])
    requires forall k | k in members :: k.By?
    requires forall k, id :: id in Members(members, k) <==> Dooms(ids, records, |ids|, k, id)
    requires forall k :: Members(mid, k) == if k in members then Members(was, k) - members[k] else Members(was, k)
    requires now == Put(mid, Index, Members(mid, Index) - Elems(ids)) - Doomed(Elems(ids))
    ensures Unfiled(was, now, Elems(ids))
  {
    var less := Put(mid, Index, Members(mid, Index) - Elems(ids));
    PutMembers(mid, Index, Members(mid, Index) - Elems(ids));
    assert Normal(less);
    assert forall k :: Members(now, k) == if k in Doomed(Elems(ids)) then {} else Members(less, k);
    forall k, id ensures Files(now, k, id) <==> Files(was, k, id) && !(id in Elems(ids) && k in Reads(Record(was, id))) {
      assert Members(now, By(k)) == Members(mid, By(k));
      GroupTakesOut(was, mid, ids, records, members, k, id);
    }
    forall id ensures Record(now, id) == if id in Elems(ids) then {} else Record(was, id) {
      assert Fields(id) in Doomed(Elems(ids)) <==> id in Elems(ids);
    }
    forall id ensures Members(now, Entry(id)) == if id in Elems(ids) then {} else Members(was, Entry(id)) {
      assert Entry(id) in Doomed(Elems(ids)) <==> id in Elems(ids);
    }
  }

  lemma DeletedIsUnfiled(was: Sets, mid: Sets, now: Sets, id: string)
    requires Normal(mid) && now == Put(mid - {Entry(id)}, Index, Members(mid, Index) - {id})
    requires forall k, x :: Files(mid, k, x) <==> Files(was, k, x) && !(x == id && k in Reads(Record(was, id)))
    requires Record(mid, id) == {}
    requires forall k: Key | !k.By? && k != Fields(id) :: Members(mid, k) == Members(was, k)
    ensures Unfiled(was, now, {id})
  {
    var less := mid - {Entry(id)};
    assert Normal(less);
    PutMembers(less, Index, Members(mid, Index) - {id});
    assert forall k | k != Entry(id) :: Members(less, k) == Members(mid, k);
    assert forall k, x :: Files(now, k, x) <==> Files(mid, k, x);
    assert forall x :: Record(now, x) == Record(mid, x);
  }

  lemma UnusedId(exact: bool, strings: Strings, sets: Sets, used: set<string>, filed: map<string, Indexes>,
                 at: map<string, set<string>>, broken: set<string>, id: string)
    requires Kept(exact, strings, sets, used, filed, at, broken) && id !in used
    ensures Record(sets, id) == {} && (forall k :: !Files(sets, k, id)) && Entry(id) !in strings && Listed(strings, sets)
  {
    assert Unused(sets, id);
  }

  lemma LiveAsFiled(exact: bool, strings: Strings, sets: Sets, used: set<string>, filed: map<string, Indexes>,
                    at: map<string, set<string>>, broken: set<string>, id: string)
    requires Kept(exact, strings, sets, used, filed, at, broken) && Entry(id) in strings && id !in broken
    ensures AsFiled(exact, sets, filed, at, id)
  {
  }

  lemma AsFiledRecord(exact: bool, sets: Sets, filed: map<string, Indexes>, at: map<string, set<string>>, id: string)
    requires AsFiled(exact, sets, filed, at, id)
    ensures Pairs(Latest(filed, id)) <= Record(sets, id) && (exact ==> Record(sets, id) == Pairs(Latest(filed, id)))
  {
  }

  lemma LiveIsUsed(exact: bool, strings: Strings, sets: Sets, used: set<string>, filed: map<string, Indexes>,
                   at: map<string, set<string>>, broken: set<string>, id: string)
    requires Kept(exact, strings, sets, used, filed, at, broken) && Entry(id) in strings
    ensures id in used
  {
  }

  lemma ShrunkIsListed(exact: bool, strings: Strings, sets: Sets, used: set<string>, filed: map<string, Indexes>,
                       at: map<string, set<string>>, broken: set<string>)
    requires Kept(exact, strings, sets, used, filed, at, broken)
    ensures Listed(strings, sets)
  {
  }

  /** Replacing one entry, or letting some expire, keeps what is kept. */
  lemma OnlyEntry(exact: bool, before: Strings, strings: Strings, sets: Sets, used: set<string>, filed: map<string, Indexes>,
                  at: map<string, set<string>>, broken: set<string>, id: string)
    requires Kept(exact, before, sets, used, filed, at, broken) && OnlyEntries({id}, before, strings)
    requires Entry(id) in strings ==> Entry(id) in before
    ensures Kept(exact, strings, sets, used, filed, at, broken) && Listed(strings, sets)
  {
    assert forall x | Entry(x) in strings :: Entry(x) in before;
  }

  lemma StillListed(before: Strings, strings: Strings, was: Sets, now: Sets, id: string)
    requires Listed(before, was) && OnlyOf(was, now, id) && Shrunk(before, strings)
    ensures Listed(strings, now)
  {
    assert Members(now, Index) == Members(was, Index);
  }

  lemma CreatedAsFiled(exact: bool, was: Sets, mid: Sets, now: Sets, filed: map<string, Indexes>, at: map<string, set<string>>,
                       id: string, indexes: Indexes)
    requires Record(was, id) == {} && forall k :: !Files(was, k, id)
    requires forall k :: Files(mid, k, id) ==> Files(was, k, id) || k in Places(indexes)
    requires forall k | k in Places(indexes) :: Files(mid, k, id)
    requires Record(mid, id) == Record(was, id) + Pairs(indexes)
    ensures AsFiled(exact, mid, filed[id := indexes], at[id := Places(indexes)], id)
  {
  }

  lemma SameAsFiled(exact: bool, mid: Sets, now: Sets, filed: map<string, Indexes>, at: map<string, set<string>>, id: string)
    requires AsFiled(exact, mid, filed, at, id) && (forall k :: Files(now, k, id) <==> Files(mid, k, id)) && Record(now, id) == Record(mid, id)
    ensures AsFiled(exact, now, filed, at, id)
  {
  }

  /** What a create leaves, wherever it stops. */
  lemma OneCreated(exact: bool, before: Strings, strings: Strings, was: Sets, mid: Sets, now: Sets, id: string,
                   used: set<string>, filed: map<string, Indexes>, at: map<string, set<string>>, broken: set<string>, indexes: Indexes)
    requires Kept(exact, before, was, used, filed, at, broken) && OnlyOf(was, mid, id) && Entry(id) !in before
    requires Normal(now) && (forall k, x :: Files(now, k, x) <==> Files(mid, k, x)) && forall x :: Record(now, x) == Record(mid, x)
    requires Listed(strings, now) && OnlyEntries({id}, before, strings)
    requires Entry(id) in strings ==> AsFiled(exact, mid, filed[id := indexes], at[id := Places(indexes)], id)
    ensures Kept(exact, strings, now, used + {id}, filed[id := indexes], at[id := Places(indexes)], broken)
  {
    var filed', at' := filed[id := indexes], at[id := Places(indexes)];
    forall x | x !in used + {id} ensures Unused(now, x) && Entry(x) !in strings {
      assert Unused(was, x) && Record(mid, x) == Record(was, x);
    }
    forall x | Entry(x) in strings && x !in broken ensures AsFiled(exact, now, filed', at', x) {
      if x != id { assert Entry(x) in before && AsFiled(exact, was, filed, at, x) && Record(mid, x) == Record(was, x); }
      else { SameAsFiled(exact, mid, now, filed', at', id); }
    }
  }

  lemma RefiledAsFiled(exact: bool, was: Sets, now: Sets, filed: map<string, Indexes>, at: map<string, set<string>>, id: string, want: Indexes)
    requires AsFiled(exact, was, filed, at, id)
    requires forall k :: Files(now, k, id) <==> (Files(was, k, id) && k !in Reads(Record(was, id) - Pairs(want))) || k in Places(want)
    requires Pairs(want) <= Record(now, id) && (exact ==> Record(now, id) == Pairs(want))
    ensures AsFiled(exact, now, filed[id := want], at[id := RefiledBy(PlacesOf(at, id), Record(was, id), want)], id)
  {
  }

  /** What a delete leaves once it has unfiled, wherever it stops after that. */
  lemma OneDeleted(exact: bool, before: Strings, strings: Strings, was: Sets, mid: Sets, now: Sets, id: string,
                   used: set<string>, filed: map<string, Indexes>, at: map<string, set<string>>, broken: set<string>,
                   filed': map<string, Indexes>, at': map<string, set<string>>)
    requires Kept(exact, before, was, used, filed, at, broken) && OnlyOf(was, mid, id)
    requires forall k :: Files(mid, k, id) <==> Files(was, k, id) && k !in Reads(Record(was, id))
    requires Record(mid, id) == {}
    requires Normal(now) && (forall k, x :: Files(now, k, x) <==> Files(mid, k, x)) && forall x :: Record(now, x) == Record(mid, x)
    requires Listed(strings, now) && Shrunk(before, strings)
    requires filed' == filed - {id} && at' == at[id := PlacesOf(at, id) - Reads(Record(was, id))]
    ensures Kept(exact, strings, now, used, filed', at', broken)
  {
    forall x | x !in used ensures Unused(now, x) && Entry(x) !in strings {
      assert Unused(was, x) && (x != id ==> Record(mid, x) == Record(was, x));
    }
    forall x | Entry(x) in strings && x !in broken ensures AsFiled(exact, now, filed', at', x) {
      assert Entry(x) in before && AsFiled(exact, was, filed, at, x);
      if x != id { assert Record(mid, x) == Record(was, x); } else { assert Pairs(Latest(filed', id)) == {}; }
    }
  }

  lemma SweptKept(exact: bool, before: Strings, strings: Strings, was: Sets, now: Sets, used: set<string>, filed: map<string, Indexes>,
                  at: map<string, set<string>>, broken: set<string>, key: string)
    requires Kept(exact, before, was, used, filed, at, broken) && Swept(By(key), was, now, strings) && Shrunk(before, strings)
    ensures Kept(exact, strings, now, used, filed, at, broken)
  {
    forall k, x ensures Files(now, k, x) ==> Files(was, k, x) {}
    forall x | x !in used ensures Unused(now, x) && Entry(x) !in strings {
      assert Unused(was, x) && Record(now, x) == Record(was, x);
    }
    forall x | Entry(x) in strings && x !in broken ensures AsFiled(exact, now, filed, at, x) {
      assert AsFiled(exact, was, filed, at, x) && Record(now, x) == Record(was, x);
      forall k ensures Files(now, k, x) <==> Files(was, k, x) {
        assert Members(now, By(k)) == Members(was, By(k)) || k == key;
      }
    }
    assert Members(now, Index) == Members(was, Index);
  }

  /** Where nothing fails or expires, a lookup answers a new entry exactly when one of its filings
      makes the key looked up, whether or not it is of that field and value. */
  method CreatedIsAnswered(s: Indexed, id: string, o: Options, field: string, value: string) returns (ids: seq<string>)
    requires s.Valid() && s.d.reliable && s.d.fixed && id !in s.used && (s.document.require_ ==> o.ttl > 0 || o.permanent)
    modifies s, s.d
    ensures Latest(s.filed, id) == o.indexes && (id in ids <==> At(field, value) in Places(o.indexes))
  {
    hide Kept;
    var _ := s.Create(id, "", o);
    assert PlacesOf(s.at, id) == Places(o.indexes);
    var ok;
    ok, ids := s.IDsByIndex(field, value);
  }

  /** And one refiled exactly when a filing it has, or one the refile left behind, does. */
  method RefiledIsAnswered(s: Indexed, id: string, o: Options, want: Indexes, field: string, value: string) returns (ids: seq<string>)
    requires s.Valid() && s.d.reliable && s.d.fixed && id !in s.used && want != map[] && (s.document.require_ ==> o.ttl > 0 || o.permanent)
    modifies s, s.d
    ensures Latest(s.filed, id) == want
    ensures id in ids <==> At(field, value) in Refiled(Places(o.indexes), o.indexes, want)
  {
    hide Kept;
    var _ := s.Create(id, "", o);
    var _ := s.Update(id, "", o.(indexes := want));
    var ok;
    ok, ids := s.IDsByIndex(field, value);
  }
}
