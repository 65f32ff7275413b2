/** The two-way index bookkeeping of cache/core/filing.go and indexed.go, as what it does to the
    sets: which ids an index key names, and which pairs an id was filed under. Any string may be a
    field or a value; what a colon or an equals sign in one does is stated where it matters. */
module Filings {
  import opened Wrappers
  import opened Drivers
  import Keyspaces
  import Text

  type Indexes = map<string, string>

  /** A field and its value, as one member of the set that an id's record is. */
  function Pair(field: string, value: string): string { field + "=" + value }

  /** strings.Cut at the first '='. */
  function Unpair(pair: string): (string, string) { Text.Cut(pair, '=') }

  /** What tells one index key from another. */
  function At(field: string, value: string): string { field + ":" + value }

  /** The index key that a remembered pair is taken to be of. */
  function Read(pair: string): string { At(Unpair(pair).0, Unpair(pair).1) }

  function Pairs(indexes: Indexes): set<string> { set f | f in indexes :: Pair(f, indexes[f]) }
  function Places(indexes: Indexes): set<string> { set f | f in indexes :: At(f, indexes[f]) }
  function Reads(pairs: set<string>): set<string> { set p | p in pairs :: Read(p) }

  predicate Readable(indexes: Indexes) { forall f | f in indexes :: '=' !in f }
  predicate Separate(indexes: Indexes) { forall f | f in indexes :: ':' !in f }

  // ---- the names --------------------------------------------------------------------------

  /** A key of the indexed strategy, as it is written. */
  function Rendered(prefix: string, d: Keyspaces.Database, k: Key): string {
    Keyspaces.Head(prefix, d) + "idx:" + match k
      case Entry(id) => "entry:" + id
      case Index => "index"
      case By(at) => "by:" + at
      case Fields(id) => "fields:" + id
  }

  /** These are the keys of module Keyspaces. */
  lemma RenderedIs(prefix: string, d: Keyspaces.Database, id: string, field: string, value: string)
    ensures Rendered(prefix, d, Entry(id)) == Keyspaces.Key(prefix, d, Keyspaces.Entry(Keyspaces.Indexed, id))
    ensures Rendered(prefix, d, Index) == Keyspaces.Key(prefix, d, Keyspaces.Members(Keyspaces.Indexed))
    ensures Rendered(prefix, d, By(At(field, value))) == Keyspaces.Key(prefix, d, Keyspaces.By(field, value))
    ensures Rendered(prefix, d, Fields(id)) == Keyspaces.Key(prefix, d, Keyspaces.Fields(id))
  {
    var h := Keyspaces.Head(prefix, d);
    assert h + "idx" + ":" == h + "idx:";
    assert "by:" + At(field, value) == "by:" + field + ":" + value;
  }

  /** What the key names keep apart is what Key keeps apart. */
  lemma RenderedApart(prefix: string, d: Keyspaces.Database, j: Key, k: Key)
    ensures Rendered(prefix, d, j) == Rendered(prefix, d, k) <==> j == k
  {
    var h := Keyspaces.Head(prefix, d) + "idx:";
    var x, y := Rendered(prefix, d, j)[|h|..], Rendered(prefix, d, k)[|h|..];
    EachName(j, x);
    EachName(k, y);
  }

  lemma EachName(k: Key, s: string)
    requires s == match k
                  case Entry(id) => "entry:" + id
                  case Index => "index"
                  case By(at) => "by:" + at
                  case Fields(id) => "fields:" + id
    ensures match k
            case Entry(id) => |s| >= 6 && s[0] == 'e' && s[6..] == id
            case Index => |s| == 5 && s[0] == 'i'
            case By(at) => |s| >= 3 && s[0] == 'b' && s[3..] == at
            case Fields(id) => |s| >= 7 && s[0] == 'f' && s[7..] == id
  {
  }

  /** A pair is read back as it was filed exactly when its field holds no '='. */
  lemma UnpairUndoes(field: string, value: string)
    ensures Unpair(Pair(field, value)) == (field, value) <==> '=' !in field
  {
    Text.CutJoined(field, '=', value);
    assert Pair(field, value) == field + ['='] + value;
  }

  /** Whatever is read back makes the same pair, of a field with no '=' and no ':' that was not
      there before. */
  lemma UnpairJoins(field: string, value: string)
    ensures var (f, v) := Unpair(Pair(field, value));
            Pair(f, v) == Pair(field, value) && '=' !in f && (':' !in field ==> ':' !in f)
  {
    var p := Pair(field, value);
    assert p == field + ['='] + value;
    Text.IndexOfJoin(field, '=', value);
    Text.IndexOfFirst(p, '=');
    var i := Text.IndexOf(p, '=');
    assert p[..i] + ['='] + p[i+1..] == p;
    assert p[..i] == field[..i];
  }

  lemma PairsApart(field: string, value: string, field': string, value': string)
    requires '=' !in field && '=' !in field' && Pair(field, value) == Pair(field', value')
    ensures field == field' && value == value'
  {
    UnpairUndoes(field, value);
    UnpairUndoes(field', value');
  }

  lemma PlacesApart(field: string, value: string, field': string, value': string)
    requires ':' !in field && ':' !in field' && At(field, value) == At(field', value')
    ensures field == field' && value == value'
  {
    assert At(field, value) == field + [':'] + value && At(field', value') == field' + [':'] + value';
    Text.JoinedApart(field, ':', value, field', value');
  }

  predicate Names(indexes: Indexes, field: string, value: string) { field in indexes && indexes[field] == value }

  /** With no colon in a field, an index key names just what it was named for. */
  lemma NamedExactly(indexes: Indexes, field: string, value: string)
    requires Separate(indexes) && ':' !in field
    ensures At(field, value) in Places(indexes) <==> Names(indexes, field, value)
  {
    if At(field, value) in Places(indexes) {
      var f :| f in indexes && At(f, indexes[f]) == At(field, value);
      PlacesApart(f, indexes[f], field, value);
    }
  }

  /** A field and value share their index key with something filed under another pair exactly when
      there is a colon in either. */
  lemma LookupMeetsOthers(field: string, value: string)
    ensures (exists indexes :: !Names(indexes, field, value) && At(field, value) in Places(indexes))
            <==> ':' in field || ':' in value
  {
    Keyspaces.JoinIsAmbiguous(field, value);
    var joined := field + [':'] + value;
    assert At(field, value) == joined;
    if ':' in field || ':' in value {
      var f, v :| (f, v) != (field, value) && Keyspaces.Joins(f, v, joined);
      var indexes := map[f := v];
      assert f in indexes && indexes[f] == v && At(f, v) == joined && !Names(indexes, field, value);
      assert At(f, indexes[f]) in Places(indexes);
    } else {
      forall indexes | At(field, value) in Places(indexes) ensures Names(indexes, field, value) {
        var f :| f in indexes && At(f, indexes[f]) == At(field, value);
        assert Keyspaces.Joins(f, indexes[f], joined);
      }
    }
  }

  // ---- where an id is filed ---------------------------------------------------------------

  /** Where an id is after a refile, which takes it out where the pairs of its record that are not
      wanted read. */
  function RefiledBy(at: set<string>, record: set<string>, want: Indexes): set<string> {
    at - Reads(record - Pairs(want)) + Places(want)
  }

  /** And when its record is of what it had. */
  function Refiled(at: set<string>, had: Indexes, want: Indexes): set<string> { RefiledBy(at, Pairs(had), want) }

  /** Where an id is left after an unfile. */
  function Leftover(at: set<string>, had: Indexes): set<string> { at - Reads(Pairs(had)) }

  /** Only a pair of the very field and value reads where they are filed. */
  lemma ReadIsOwn(had: Indexes, f: string, g: string)
    requires Separate(had) && f in had && g in had && Read(Pair(g, had[g])) == At(f, had[f])
    ensures '=' !in f && Pair(g, had[g]) == Pair(f, had[f])
  {
    UnpairJoins(g, had[g]);
    var (a, b) := Unpair(Pair(g, had[g]));
    PlacesApart(a, b, f, had[f]);
  }

  /** What an unfile leaves behind is what was filed with an '=' in its field. */
  lemma LeftoverExactly(had: Indexes, f: string)
    requires Separate(had) && f in had
    ensures At(f, had[f]) in Leftover(Places(had), had) <==> '=' in f
  {
    if '=' in f {
      if g :| g in had && Read(Pair(g, had[g])) == At(f, had[f]) { ReadIsOwn(had, f, g); }
    } else {
      UnpairUndoes(f, had[f]);
      assert Pair(f, had[f]) in Pairs(had);
    }
  }

  /** Without one, nothing is, whatever else the fields hold. */
  lemma ReadableIsUnfiled(had: Indexes)
    requires Readable(had)
    ensures Leftover(Places(had), had) == {}
  {
    forall f | f in had ensures At(f, had[f]) in Reads(Pairs(had)) {
      UnpairUndoes(f, had[f]);
      assert Pair(f, had[f]) in Pairs(had);
    }
  }

  /** A refile drops a pair, and what it drops is of a field with no '='. */
  predicate Drops(had: Indexes, want: Indexes, f: string)
    requires f in had
  {
    '=' !in f && Pair(f, had[f]) !in Pairs(want)
  }

  lemma DroppedIsRead(had: Indexes, want: Indexes, f: string)
    requires f in had && Drops(had, want, f)
    ensures At(f, had[f]) in Reads(Pairs(had) - Pairs(want))
  {
    UnpairUndoes(f, had[f]);
    assert Pair(f, had[f]) in Pairs(had) - Pairs(want);
  }

  /** A refile leaves an id filed under exactly what is wanted if and only if every filing not
      wanted any more has no '=' in its field and is not kept for a wanted one that makes the same
      pair. */
  lemma RefiledExactly(had: Indexes, want: Indexes)
    requires Separate(had)
    ensures Refiled(Places(had), had, want) == Places(want)
            <==> forall f | f in had && At(f, had[f]) !in Places(want) :: Drops(had, want, f)
  {
    forall f | f in had && At(f, had[f]) !in Places(want)
      ensures At(f, had[f]) in Refiled(Places(had), had, want) <==> !Drops(had, want, f)
    {
      if Drops(had, want, f) {
        DroppedIsRead(had, want, f);
      } else if g :| g in had && Pair(g, had[g]) !in Pairs(want) && Read(Pair(g, had[g])) == At(f, had[f]) {
        ReadIsOwn(had, f, g);
      }
    }
  }

  /** With no '=' in any field that is always so, whatever else the record still holds. */
  lemma ReadableIsRefiled(had: Indexes, record: set<string>, want: Indexes)
    requires Readable(had) && Readable(want) && Pairs(had) <= record
    ensures RefiledBy(Places(had), record, want) == Places(want)
  {
    forall f | f in had && At(f, had[f]) !in Places(want)
      ensures At(f, had[f]) in Reads(record - Pairs(want))
    {
      if Pair(f, had[f]) in Pairs(want) {
        var g :| g in want && Pair(g, want[g]) == Pair(f, had[f]);
        PairsApart(f, had[f], g, want[g]);
      }
      DroppedIsRead(had, want, f);
    }
  }

  /** Filed under a field with an '=' in it, and then under another: still found under the first. */
  lemma EqualsSignSticks()
    ensures var had, want: Indexes := map["a=b" := "c"], map["d" := "e"];
            At("a=b", "c") in Refiled(Places(had), had, want) && At("a=b", "c") !in Places(want)
  {
    var had, want: Indexes := map["a=b" := "c"], map["d" := "e"];
    assert had["a=b"] == "c" && At("a=b", "c") in Places(had);
    assert '=' in "a=b" by { assert "a=b"[1] == '='; }
    LeftoverExactly(had, "a=b");
    assert forall k | k in Places(want) :: k == At("d", "e");
    assert At("a=b", "c")[0] != At("d", "e")[0];
  }

  // ---- what holds between operations ------------------------------------------------------

  /** The index key names id. */
  predicate Files(sets: Sets, at: string, id: string) { id in Members(sets, By(at)) }

  function Record(sets: Sets, id: string): set<string> { Members(sets, Fields(id)) }

  function Latest(filed: map<string, Indexes>, id: string): Indexes { if id in filed then filed[id] else map[] }
  function PlacesOf(at: map<string, set<string>>, id: string): set<string> { if id in at then at[id] else {} }

  /** What an index and a record say of an id agrees with its history: it is named by every index
      it was filed under and not taken out of and by no other, and its record holds the pairs of its
      latest filing -- and no others, unless forgetting one may have failed. */
  ghost predicate AsFiled(exact: bool, sets: Sets, filed: map<string, Indexes>, at: map<string, set<string>>, id: string) {
    && Pairs(Latest(filed, id)) <= Record(sets, id) && (exact ==> Record(sets, id) == Pairs(Latest(filed, id)))
    && forall k :: Files(sets, k, id) <==> k in PlacesOf(at, id)
  }

  /** An id never used is filed nowhere. */
  ghost predicate Unused(sets: Sets, id: string) { Record(sets, id) == {} && forall k :: !Files(sets, k, id) }

  // ---- removing ids -----------------------------------------------------------------------

  /** `now` is `was` with ids gone from the main index, from wherever their records read, and from
      the keys of their own, and nothing else touched. */
  ghost predicate Unfiled(was: Sets, now: Sets, ids: set<string>) {
    && Normal(now)
    && (forall k, id :: Files(now, k, id) <==> Files(was, k, id) && !(id in ids && k in Reads(Record(was, id))))
    && Members(now, Index) == Members(was, Index) - ids
    && (forall id :: Record(now, id) == if id in ids then {} else Record(was, id))
    && (forall id :: Members(now, Entry(id)) == if id in ids then {} else Members(was, Entry(id)))
  }

  lemma SameSets(a: Sets, b: Sets)
    requires Normal(a) && Normal(b) && forall k :: Members(a, k) == Members(b, k)
    ensures a == b
  {
    forall k ensures k in a <==> k in b {
      assert Members(a, k) == Members(b, k);
    }
    forall k | k in a ensures a[k] == b[k] {
      assert Members(a, k) == Members(b, k);
    }
  }

  /** There is only one way to have unfiled ids. */
  lemma UnfiledIsOne(was: Sets, a: Sets, b: Sets, ids: set<string>)
    requires Unfiled(was, a, ids) && Unfiled(was, b, ids)
    ensures a == b
  {
    forall k ensures Members(a, k) == Members(b, k) {
      match k {
        case By(at) =>
          assert forall id :: Files(a, at, id) <==> Files(b, at, id);
          assert Members(a, By(at)) == Members(b, By(at)) by {
            assert forall id :: id in Members(a, By(at)) <==> Files(a, at, id);
            assert forall id :: id in Members(b, By(at)) <==> Files(b, at, id);
          }
        case Fields(id) => assert Record(a, id) == Record(b, id);
        case _ =>
      }
    }
    SameSets(a, b);
  }

  lemma UnfiledThen(was: Sets, mid: Sets, now: Sets, ids: set<string>, id: string)
    requires Unfiled(was, mid, ids) && id !in ids && Unfiled(mid, now, {id})
    ensures Unfiled(was, now, ids + {id})
  {
    assert Record(mid, id) == Record(was, id);
    forall k, x ensures Files(now, k, x) <==> Files(was, k, x) && !(x in ids + {id} && k in Reads(Record(was, x))) {
      assert Files(mid, k, x) <==> Files(was, k, x) && !(x in ids && k in Reads(Record(was, x)));
      assert Files(now, k, x) <==> Files(mid, k, x) && !(x in {id} && k in Reads(Record(mid, x)));
    }
  }

  lemma UnfiledNone(was: Sets)
    requires Normal(was)
    ensures Unfiled(was, was, {})
  {
  }

  /** Deleting ids one at a time, in whatever order, ends where deleting them in one group does. */
  lemma {:induction false} OneByOneIsGrouped(steps: seq<Sets>, ids: seq<string>, grouped: Sets)
    requires |steps| == |ids| + 1 && Distinct(ids) && Normal(steps[0])
    requires forall i | 0 <= i < |ids| :: Unfiled(steps[i], steps[i+1], {ids[i]})
    requires Unfiled(steps[0], grouped, Elems(ids))
    ensures steps[|ids|] == grouped
  {
    OneByOne(steps, ids, |ids|);
    assert ids[..|ids|] == ids;
    UnfiledIsOne(steps[0], steps[|ids|], grouped, Elems(ids));
  }

  lemma {:induction false} OneByOne(steps: seq<Sets>, ids: seq<string>, n: nat)
    requires |steps| == |ids| + 1 && Distinct(ids) && Normal(steps[0]) && n <= |ids|
    requires forall i | 0 <= i < |ids| :: Unfiled(steps[i], steps[i+1], {ids[i]})
    ensures Unfiled(steps[0], steps[n], Elems(ids[..n]))
    decreases n
  {
    if n == 0 {
      assert Elems(ids[..0]) == {};
      UnfiledNone(steps[0]);
    } else {
      OneByOne(steps, ids, n - 1);
      assert ids[..n] == ids[..n-1] + [ids[n-1]];
      assert Elems(ids[..n]) == Elems(ids[..n-1]) + {ids[n-1]};
      assert forall i | 0 <= i < n - 1 :: ids[i] != ids[n-1];
      UnfiledThen(steps[0], steps[n-1], steps[n], Elems(ids[..n-1]), ids[n-1]);
    }
  }

  /** An unfiled id is out of the main index and has no record; and it is in no other index exactly
      when no field it was filed under holds an '='. */
  lemma ForgottenExactly(was: Sets, now: Sets, ids: set<string>, id: string, had: Indexes)
    requires Unfiled(was, now, ids) && id in ids && Record(was, id) == Pairs(had) && Separate(had)
    requires forall k :: Files(was, k, id) <==> k in Places(had)
    ensures id !in Members(now, Index) && Record(now, id) == {}
    ensures (forall k :: !Files(now, k, id)) <==> Readable(had)
  {
    forall k ensures Files(now, k, id) <==> k in Leftover(Places(had), had) {
      assert Files(was, k, id) <==> k in Places(had);
    }
    forall f | f in had ensures Files(now, At(f, had[f]), id) <==> '=' in f { LeftoverExactly(had, f); }
    if Readable(had) { ReadableIsUnfiled(had); }
  }
}
