/** Read-through of cache/core/aside.go and loader.go: what a hit may return, and what a miss loads
    and stores, while time passes and others load, invalidate and lock. */
module ReadThrough {
  import opened Envelopes
  import opened Leases
  import opened Wrappers

  const VOID_FOR: int := 30 * SECOND
  const LOCK_LEASE: int := 30 * SECOND

  /** A stored frame. Its options, when it was framed and when it was stored are history. */
  datatype Slot = Slot(frame: Envelope, until: Option<int>, o: Options, framedAt: int, storedAt: int)

  datatype Lock = Lock(token: nat, until: int)

  datatype LoadResult = Found(value: string) | Missing | Broken

  datatype Reply = Value(value: string) | NotFound | NoTTL | Overloaded | Failed

  function Expiry(now: int, hard: int): Option<int> { if hard > 0 then Some(now + hard) else None }

  /** What the store holds at one time. */
  datatype Moment = Moment(now: int, slots: map<string, Slot>)

  predicate LiveAt(m: Moment, id: string) {
    id in m.slots && (m.slots[id].until.Some? ==> m.now < m.slots[id].until.value)
  }

  /** A value of id is there to be read. */
  predicate PublishedAt(m: Moment, id: string, value: string) {
    LiveAt(m, id) && !m.slots[id].frame.void && m.slots[id].frame.value == value
  }

  /** What the store may hold for an id: an absence, or a value some loader returned for it, stored
      within so long of its framing. */
  ghost predicate SlotOk(s: Slot, now: int, values: set<string>, within: int) {
    && s.framedAt <= s.storedAt <= now && s.storedAt <= s.framedAt + within
    && if s.frame.void then s.frame == PackVoid() && s.until == Some(s.storedAt + VOID_FOR)
       else && s.frame.value in values
            && s.frame == Pack(s.frame.value, Freshness(s.o).0, s.framedAt)
            && s.until == Expiry(s.storedAt, Freshness(s.o).1)
  }

  // ---- staleness --------------------------------------------------------------------------

  /** How long past its storing a value of these options may be served. */
  function ServedFor(o: Options): int { if o.stale > 0 then o.ttl + o.stale else o.ttl }

  /** A value with a lease is live exactly until TTL, and the stale window if there is one, past its
      storing, and without a lease for ever; it is flagged only with a stale window and past TTL from
      its framing, and always a millisecond after that. */
  lemma ServedExactly(s: Slot, id: string, m: Moment, values: set<string>, within: int)
    requires SlotOk(s, m.now, values, within) && !s.frame.void && id in m.slots && m.slots[id] == s
    ensures s.o.ttl > 0 ==> (LiveAt(m, id) <==> m.now < s.storedAt + ServedFor(s.o))
    ensures s.o.ttl <= 0 ==> LiveAt(m, id) && !Unpack(s.frame, m.now).stale
    ensures Unpack(s.frame, m.now).stale ==> s.o.stale > 0 && m.now > s.framedAt + s.o.ttl
    ensures s.o.ttl > 0 && s.o.stale > 0 && UnixMilli(s.framedAt + s.o.ttl) != 0 && m.now >= s.framedAt + s.o.ttl + MILLISECOND ==>
              Unpack(s.frame, m.now).stale
  {
    StaleExactly(s.frame.value, Freshness(s.o).0, s.framedAt, m.now);
  }

  /** Every moment from its storing on at which it is live is within TTL, and the stale window, of
      its framing. */
  ghost predicate ServedFresh(s: Slot, id: string, values: set<string>) {
    forall m: Moment | s.storedAt <= m.now && m.slots == map[id := s] && LiveAt(m, id) :: m.now < s.framedAt + ServedFor(s.o)
  }

  /** A value is served only within TTL, and the stale window, of its framing if and only if it was
      stored as it was framed: the expiry counts from the storing. */
  lemma ServedFreshExactly(s: Slot, id: string, values: set<string>, within: int)
    requires SlotOk(s, s.storedAt, values, within) && !s.frame.void && s.o.ttl > 0
    ensures ServedFresh(s, id, values) <==> s.storedAt == s.framedAt
  {
    var late := Moment(s.storedAt + ServedFor(s.o) - 1, map[id := s]);
    ServedExactly(s, id, late, values, within);
    assert s.storedAt > s.framedAt ==> late.now >= s.framedAt + ServedFor(s.o);
    forall m: Moment | s.storedAt <= m.now && m.slots == map[id := s] && LiveAt(m, id)
      ensures m.now < s.storedAt + ServedFor(s.o)
    {
      ServedExactly(s, id, m, values, within);
    }
  }

  /** With a minute's TTL and a second between framing and storing, it is served at a minute old. */
  lemma ServedLate()
    ensures var o := Options(60 * SECOND, 0, false);
            var s := Slot(Pack("v", Freshness(o).0, 0), Expiry(SECOND, Freshness(o).1), o, 0, SECOND);
            var m := Moment(60 * SECOND, map["id" := s]);
            SlotOk(s, m.now, {"v"}, SECOND) && LiveAt(m, "id") && m.now >= s.framedAt + ServedFor(s.o)
  {
  }

  /** Everything a store may hold, where storing takes no longer than `within`, is served only within
      TTL, the stale window and d of its framing. */
  ghost predicate NeverOlder(within: int, d: int) {
    forall s: Slot, id: string, m: Moment, values: set<string> |
      SlotOk(s, m.now, values, within) && !s.frame.void && s.o.ttl > 0 && m.slots == map[id := s] && LiveAt(m, id)
      :: m.now < s.framedAt + ServedFor(s.o) + d
  }

  /** That is so exactly when storing takes no longer than d. */
  lemma NeverOlderExactly(within: nat, d: int)
    ensures NeverOlder(within, d) <==> within <= d
  {
    forall s: Slot, id: string, m: Moment, values: set<string> |
      SlotOk(s, m.now, values, within) && !s.frame.void && s.o.ttl > 0 && m.slots == map[id := s] && LiveAt(m, id)
      ensures m.now < s.framedAt + ServedFor(s.o) + within
    {
      ServedExactly(s, id, m, values, within);
    }
    var o := Options(SECOND, 0, false);
    var s := Slot(Pack("v", Freshness(o).0, 0), Expiry(within, Freshness(o).1), o, 0, within);
    var m := Moment(within + SECOND - 1, map["id" := s]);
    assert SlotOk(s, m.now, {"v"}, within) && LiveAt(m, "id");
  }

  // ---- the source's own form --------------------------------------------------------------

  class Cache {
    const require_: bool
    const fenced: bool
    /** No call to the store fails. */
    const reliable: bool
    /** Nothing happens but what this process does, and it takes no time. */
    const alone: bool
    /** No store call of anybody's takes longer than this. */
    const storeWithin: nat
    var now: int
    var slots: map<string, Slot>
    var locks: map<string, Lock>
    var tokens: nat
    /** History: everything the store has held, up to now; every value a loader returned for an id;
        every call of this process's loader; the ids a background refresh was asked for; and every
        lock token this process drew. */
    ghost var past: seq<Moment>
    ghost var loaded: map<string, set<string>>
    ghost var calls: seq<(string, LoadResult)>
    ghost var asked: seq<string>
    ghost var drawn: set<nat>

    ghost function Values(id: string): set<string>
      reads this
    {
      if id in loaded then loaded[id] else {}
    }

    ghost predicate Valid()
      reads this
    {
      && |past| > 0 && past[|past|-1] == Moment(now, slots)
      && (forall id | id in slots :: SlotOk(slots[id], now, Values(id), storeWithin))
      && (forall id | id in locks :: locks[id].token < tokens) && forall n | n in drawn :: n < tokens
    }

    constructor (require_: bool, fenced: bool, reliable: bool, alone: bool, storeWithin: nat, now: int)
      ensures Valid() && this.require_ == require_ && this.fenced == fenced && this.reliable == reliable && this.alone == alone
      ensures this.storeWithin == storeWithin && slots == map[] && calls == [] && asked == []
    {
      this.require_, this.fenced, this.reliable, this.alone, this.storeWithin, this.now := require_, fenced, reliable, alone, storeWithin, now;
      slots, locks, loaded, tokens, calls, asked := map[], map[], map[], 0, [], [];
      past, drawn := [Moment(now, map[])], {};
    }

    /** The id is live now. */
    predicate Live(id: string)
      reads this
    {
      LiveAt(Moment(now, slots), id)
    }

    predicate Locked(id: string)
      reads this
    {
      id in locks && now < locks[id].until
    }

    /** Whether a call to the store comes back. */
    method Heard() returns (ok: bool)
      ensures reliable ==> ok
    {
      ok := *;
      ok := ok || reliable;
    }

    /** Set, of a frame made at framedAt. A call that is not heard back from may have stored it. */
    method Store(id: string, frame: Envelope, hard: int, o: Options, framedAt: int) returns (ok: bool)
      requires Valid() && framedAt <= now <= framedAt + storeWithin
      requires if frame.void then frame == PackVoid() && hard == VOID_FOR
               else frame.value in Values(id) && frame == Pack(frame.value, Freshness(o).0, framedAt) && hard == Freshness(o).1
      modifies this`slots, this`past
      ensures Valid() && (reliable ==> ok) && old(past) <= past
      ensures slots == old(slots)[id := Slot(frame, Expiry(now, hard), o, framedAt, now)] || (!ok && slots == old(slots))
    {
      ok := Heard();
      var stored: bool := *;
      if ok || stored {
        slots := slots[id := Slot(frame, Expiry(now, hard), o, framedAt, now)];
        past := past + [Moment(now, slots)];
      }
    }

    /** Another process loads the id and stores what it got. */
    method TheyLoad(id: string)
      requires Valid()
      modifies this`slots, this`past, this`loaded
      ensures Valid() && old(past) <= past && forall x :: old(Values(x)) <= Values(x)
    {
      var value: string := *;
      var o: Options := *;
      loaded := loaded[id := Values(id) + {value}];
      var ago: nat :| ago <= storeWithin;
      var _ := Store(id, Pack(value, Freshness(o).0, now - ago), Freshness(o).1, o, now - ago);
    }

    method TimePasses(limit: Option<nat>)
      requires Valid()
      modifies this`now, this`past
      ensures Valid() && old(now) <= now && old(past) <= past && (limit.Some? ==> now <= old(now) + limit.value)
    {
      var later: nat :| limit.None? || later <= limit.value;
      now := now + later;
      past := past + [Moment(now, slots)];
    }

    /** Time passes, up to a limit if there is one; others load, remember absences, invalidate, lock
        and unlock. They do not remove a lock somebody else's token holds. */
    method Others(mine: Option<nat>, limit: Option<nat>)
      requires Valid()
      modifies this`now, this`slots, this`locks, this`loaded, this`tokens, this`past
      ensures Valid() && old(now) <= now && old(tokens) <= tokens && old(past) <= past
      ensures forall id :: old(Values(id)) <= Values(id)
      ensures forall id | id in old(locks) && mine == Some(old(locks)[id].token) && now < old(locks)[id].until ::
                id in locks && locks[id] == old(locks)[id]
      ensures forall x | x in locks && locks[x].token < old(tokens) :: x in old(locks) && old(locks)[x] == locks[x]
      ensures limit.Some? ==> now <= old(now) + limit.value
      ensures alone ==> now == old(now) && slots == old(slots) && locks == old(locks) && past == old(past)
    {
      hide SlotOk;
      if alone { return; }
      TimePasses(limit);
      var id: string := *;
      var what: int := *;
      if what == 0 {
        TheyLoad(id);
      } else if what == 1 {
        var o: Options := *;
        var _ := Store(id, PackVoid(), VOID_FOR, o, now);
      } else if what == 2 {
        slots := slots - {id};
        past := past + [Moment(now, slots)];
      } else if what == 3 && !Locked(id) {
        locks := locks[id := Lock(tokens, now + LOCK_LEASE)];
        tokens := tokens + 1;
      } else if what == 4 && id in locks && mine != Some(locks[id].token) {
        locks := locks - {id};
      }
    }

    /** The loader. */
    method Load(id: string) returns (r: LoadResult)
      requires Valid()
      modifies this`loaded, this`calls
      ensures Valid() && forall x :: old(Values(x)) <= Values(x)
      ensures calls == old(calls) + [(id, r)]
      ensures r.Found? ==> r.value in Values(id)
    {
      r := *;
      calls := calls + [(id, r)];
      if r.Found? {
        loaded := loaded[id := Values(id) + {r.value}];
      }
    }

    /** read: what the stored frame says, or a miss. */
    method Read(id: string) returns (got: Option<Unpacked>, ok: bool)
      requires Valid()
      ensures reliable ==> ok
      ensures got == if ok && Live(id) then Some(Unpack(slots[id].frame, now)) else None
      ensures got.Some? && !got.value.void ==> got.value.value in Values(id)
    {
      ok := Heard();
      got := if !ok then None else if Live(id) then Some(Unpack(slots[id].frame, now)) else None;
    }

    /** Add of a lock under a token nobody has drawn: it is won when nobody's lock is in the way and
        the call is heard. One that is not heard may have taken it all the same. */
    method Grab(id: string) returns (token: Option<nat>)
      requires Valid()
      modifies this`locks, this`tokens, this`drawn
      ensures Valid() && tokens > old(tokens) && drawn == old(drawn) + {old(tokens)}
      ensures locks == old(locks) || (!old(Locked(id)) && locks == old(locks)[id := Lock(old(tokens), now + LOCK_LEASE)])
      ensures token == None || (token == Some(old(tokens)) && locks != old(locks))
      ensures reliable ==> (token.Some? <==> !old(Locked(id))) && (token == None ==> locks == old(locks))
    {
      var mine := tokens;
      tokens, drawn := tokens + 1, drawn + {mine};
      token := None;
      var heard := Heard();
      var lost: bool := *;
      if !Locked(id) && (heard || lost) {
        locks := locks[id := Lock(mine, now + LOCK_LEASE)];
        assert id in locks && locks[id].token == mine;
        if heard { token := Some(mine); }
      }
    }

    /** There is no value of the id to be read: nothing live, or a remembered absence. */
    predicate NoValue(m: Moment, id: string) {
      !LiveAt(m, id) || m.slots[id].frame.void
    }

    /** claim: the lock's token when it was won, or the value another process has published. A
        remembered absence is not taken for published, though its comment says so. `when` is the
        moment of the one extra read of a process that lost. */
    method Claim(id: string) returns (token: Option<nat>, joined: Option<string>, ghost when: nat)
      requires Valid()
      modifies this`now, this`slots, this`locks, this`loaded, this`tokens, this`past, this`drawn
      ensures Valid() && old(now) <= now && old(past) <= past && forall x :: old(Values(x)) <= Values(x)
      ensures drawn == old(drawn) + if fenced then {old(tokens)} else {}
      ensures reliable ==> forall x | x in locks && locks[x].token in drawn && !(x == id && token == Some(locks[x].token)) ::
                x in old(locks) && old(locks)[x] == locks[x]
      ensures !fenced ==> token == None && joined == None && slots == old(slots)
      ensures fenced && reliable && !old(Locked(id)) ==> token.Some?
      ensures token.Some? ==>
                token.value == old(tokens) && joined == None && !old(Locked(id)) && now == old(now) && slots == old(slots)
                && locks == old(locks)[id := Lock(token.value, now + LOCK_LEASE)]
      ensures fenced && token == None ==> |old(past)| - 1 <= when < |past|
      ensures joined.Some? ==> fenced && PublishedAt(past[when], id, joined.value) && joined.value in Values(id)
      ensures fenced && reliable && token == None && joined == None ==> NoValue(past[when], id)
      ensures alone ==> past == old(past) && now == old(now) && slots == old(slots) && (reliable && token == None ==> locks == old(locks))
    {
      token, joined, when := None, None, 0;
      if !fenced { return; }
      token := Grab(id);
      if token.Some? { return; }
      Others(None, None);
      var got, _ := Read(id);
      when := |past| - 1;
      if got.Some? && !got.value.void { joined := Some(got.value.value); }
    }

    /** unlock: the lock is gone if it still held this token, unless the call failed, and untouched
        if it did not. */
    method Unlock(id: string, token: nat)
      requires Valid()
      modifies this`locks
      ensures Valid() && (locks == old(locks) || (locks == old(locks) - {id} && old(Locked(id) && locks[id].token == token)))
      ensures reliable && old(Locked(id) && locks[id].token == token) ==> id !in locks
    {
      var ok := Heard();
      var done: bool := *;
      if (ok || done) && Locked(id) && locks[id].token == token { locks := locks - {id}; }
    }

    /** The load of loadAndStore, with the lock its process holds, if it does: what the loader found
        is stored and answered, and an absence remembered. */
    method LoadNow(id: string, o: Options, token: Option<nat>) returns (r: Reply, ghost ran: LoadResult)
      requires Valid()
      modifies this`now, this`slots, this`locks, this`loaded, this`tokens, this`past, this`calls
      ensures Valid() && old(now) <= now && old(past) <= past && forall x :: old(Values(x)) <= Values(x)
      ensures calls == old(calls) + [(id, ran)]
      ensures forall x | x in locks && locks[x].token < old(tokens) :: x in old(locks) && old(locks)[x] == locks[x]
      ensures r.Value? || r == NotFound || r == Failed
      ensures r == NotFound <==> ran == Missing
      ensures r.Value? ==>
                && ran == Found(r.value) && r.value in Values(id) && id in slots && slots[id].frame.value == r.value
                && !slots[id].frame.void && slots[id].o == o && slots[id].storedAt == now
      ensures r == Failed && reliable ==> ran == Broken
      ensures r == NotFound && reliable ==> id in slots && slots[id].frame == PackVoid() && slots[id].until == Some(slots[id].storedAt + VOID_FOR)
    {
      Others(token, None);
      var result := Load(id);
      ran := result;
      match result {
        case Missing =>
          var _ := Store(id, PackVoid(), VOID_FOR, o, now);
          r := NotFound;
        case Broken =>
          r := Failed;
        case Found(value) =>
          var (window, hard) := Freshness(o);
          var body := Pack(value, window, now);
          var framedAt := now;
          Others(token, Some(storeWithin));
          var ok := Store(id, body, hard, o, framedAt);
          UnpackUndoesPack(value, window, framedAt, now);
          r := if ok then Value(Unpack(body, now).value) else Failed;
      }
    }

    /** This process holds no lock but those it held. */
    twostate predicate HoldsNoMore()
      reads this
    {
      forall x | x in locks && Locked(x) && locks[x].token in drawn :: x in old(locks) && old(locks)[x] == locks[x]
    }

    /** loadAndStore: what it returns this process's loader has just returned for this id, or was
        live in the store, put there by another, at the moment `when`. A lock it won it gives back. */
    method LoadAndStore(id: string, o: Options) returns (r: Reply, ghost ran: Option<LoadResult>, ghost when: nat)
      requires Valid()
      modifies this`now, this`slots, this`locks, this`loaded, this`tokens, this`past, this`calls, this`drawn
      ensures Valid() && old(now) <= now && old(past) <= past && forall x :: old(Values(x)) <= Values(x)
      ensures reliable ==> HoldsNoMore()
      ensures forall n | n in drawn :: n in old(drawn) || n >= old(tokens)
      ensures r != Overloaded
      ensures calls == old(calls) + if ran.Some? then [(id, ran.value)] else []
      ensures r == NoTTL <==> require_ && o.ttl <= 0 && !o.permanent
      ensures r == NoTTL ==> ran == None && slots == old(slots) && locks == old(locks)
      ensures fenced && r != NoTTL ==> drawn == old(drawn) + {old(tokens)}
      ensures fenced && reliable && old(Locked(id)) && ran.Some? ==> |old(past)| - 1 <= when < |past| && NoValue(past[when], id)
      ensures fenced && alone && old(Locked(id)) && r != NoTTL ==> when == |old(past)| - 1
      ensures ran == None && r != NoTTL ==>
                fenced && r.Value? && |old(past)| - 1 <= when < |past| && PublishedAt(past[when], id, r.value)
      ensures r.Value? ==> r.value in Values(id) && (ran == None || ran == Some(Found(r.value)))
      ensures r == NotFound <==> ran == Some(Missing)
      ensures r.Value? && ran.Some? ==>
                id in slots && slots[id].frame.value == r.value && !slots[id].frame.void && slots[id].o == o && slots[id].storedAt == now
      ensures r == Failed <==> ran == Some(Broken) || (ran.Some? && ran.value.Found? && !r.Value?)
      ensures r == Failed && reliable ==> ran == Some(Broken)
      ensures r == NotFound && reliable ==> id in slots && slots[id].frame == PackVoid() && slots[id].until == Some(slots[id].storedAt + VOID_FOR)
    {
      ran, when := None, 0;
      if !LeaseStated(require_, o.ttl, o.permanent) { return NoTTL, ran, when; }
      var token, joined;
      token, joined, when := Claim(id);
      if joined.Some? { return Value(joined.value), ran, when; }
      ghost var result;
      r, result := LoadNow(id, o, token);
      ran := Some(result);
      if token.Some? { Unlock(id, token.value); }
    }

    /** At some moment since, this value of id was there to be read. */
    ghost predicate PublishedSince(since: int, id: string, value: string)
      reads this
    {
      exists i | 0 <= i < |past| && since <= i :: PublishedAt(past[i], id, value)
    }

    /** What a hit on this slot at this moment answers. */
    ghost predicate Served(id: string, m: Moment, r: Reply)
      reads this
    {
      && LiveAt(m, id)
      && var s := m.slots[id];
      && SlotOk(s, m.now, Values(id), storeWithin) && r == (if s.frame.void then NotFound else Value(s.frame.value))
      && (!s.frame.void && s.o.ttl > 0 ==>
            && m.now < s.storedAt + ServedFor(s.o)
            && m.now < s.framedAt + ServedFor(s.o) + storeWithin
            && (Unpack(s.frame, m.now).stale ==> s.o.stale > 0 && m.now > s.framedAt + s.o.ttl)
            && (s.o.stale > 0 && UnixMilli(s.framedAt + s.o.ttl) != 0 && m.now >= s.framedAt + s.o.ttl + MILLISECOND ==>
                  Unpack(s.frame, m.now).stale))
      && (!s.frame.void && s.o.ttl <= 0 ==> !Unpack(s.frame, m.now).stale)
    }

    lemma IsServed(id: string, u: Unpacked)
      requires Valid() && Live(id) && u == Unpack(slots[id].frame, now)
      ensures Served(id, past[|past|-1], if u.void then NotFound else Value(u.value))
      ensures !u.void ==> u.value in Values(id)
    {
      var s := slots[id];
      if !s.frame.void { ServedExactly(s, id, Moment(now, slots), Values(id), storeWithin); }
    }

    /** GetOrLoad. It reads the store at the moment `when`. What is live then is answered, an absence
        as one, without a load; a value past its fresh deadline is answered too, and a refresh asked
        for behind it. What is not is loaded, unless the flight has no room for one more load. */
    method GetOrLoad(id: string, o: Options, room: bool)
        returns (r: Reply, ghost heard: bool, ghost when: nat, ghost ran: Option<LoadResult>)
      requires Valid()
      modifies this
      ensures Valid() && old(past) <= past && |old(past)| - 1 <= when < |past| && (alone ==> past[when] == Moment(old(now), old(slots)))
      ensures reliable ==> heard && HoldsNoMore()
      ensures !heard ==> r == Failed && ran == None
      ensures calls == old(calls) + if ran.Some? then [(id, ran.value)] else []
      ensures var hit := heard && LiveAt(past[when], id);
              && (hit ==> ran == None && Served(id, past[when], r))
              && asked == old(asked) + (if hit && Unpack(past[when].slots[id].frame, past[when].now).stale then [id] else [])
              && (heard && !hit ==> Missed(id, o, room, |old(past)| - 1, r, ran))
      ensures fenced && ran.Some? ==> drawn > old(drawn)
      ensures r.Value? ==> r.value in Values(id)
    {
      hide SlotOk, PublishedAt;
      ran, when := None, 0;
      Others(None, None);
      var got, ok := Read(id);
      when, heard := |past| - 1, ok;
      if got.Some? {
        IsServed(id, got.value);
        if got.value.void { return NotFound, heard, when, ran; }
        if got.value.stale { asked := asked + [id]; }
        return Value(got.value.value), heard, when, ran;
      }
      if !ok { return Failed, heard, when, ran; }
      if !room { return Overloaded, heard, when, ran; }
      ghost var joinedAt;
      r, ran, joinedAt := LoadAndStore(id, o);
    }

    /** What a miss answers: that there is no room, or no lease stated, or what its own load came to,
        or a value another had published since. */
    ghost predicate Missed(id: string, o: Options, room: bool, since: int, r: Reply, ran: Option<LoadResult>)
      reads this
    {
      && (r == Overloaded <==> !room)
      && (r == NoTTL <==> room && require_ && o.ttl <= 0 && !o.permanent)
      && (r == Overloaded || r == NoTTL ==> ran == None)
      && (r == NotFound <==> ran == Some(Missing))
      && (r == Failed <==> ran == Some(Broken) || (ran.Some? && ran.value.Found? && !r.Value?))
      && (r == Failed && reliable ==> ran == Some(Broken))
      && (r.Value? ==> ran == Some(Found(r.value)) || (ran == None && fenced && PublishedSince(since, id, r.value)))
      && (r.Value? && ran.Some? ==> id in slots && slots[id].frame.value == r.value && !slots[id].frame.void && slots[id].o == o)
      && (r == NotFound && reliable ==> id in slots && slots[id].frame == PackVoid())
    }
  }
}
