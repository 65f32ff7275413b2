/** dispatch and what it calls, as the source writes them: loops over pages, webhooks and the
    remembered changes, against a store other servers use too. Every store call is a step of the
    ChangeFeed machine, so what is proved of its runs holds of these methods. */
module Dispatch {
  import opened ChangeFeed
  import opened ChangeFeedProofs

  const FEED_PAGE: nat := 500

  predicate By(step: Step, server: string) {
    match step
    case Boot(s) => s == server
    case Abort(s, _) => s == server
    case Start(s) => s == server
    case ListHooks(s) => s == server
    case ListPage(s, _) => s == server
    case GetCursor(s, _) => s == server
    case CreateCursor(s) => s == server
    case BeginRead(s) => s == server
    case ReadPage(s, _, _, _, _) => s == server
    case Fetch(s) => s == server
    case Deliver(s, _, _) => s == server
    case Remember(s, _) => s == server
    case Keep(s) => s == server
    case Move(s) => s == server
    case _ => false
  }

  /** The store, its surroundings and the other servers. `run` is every state so far. */
  class World {
    const t: Timing
    /** No call to the store fails. */
    const reliable: bool
    var g: State
    ghost var run: seq<State>

    ghost predicate Valid()
      reads this
    {
      t.Valid() && t.Tolerated() && Run(t, run) && g == run[|run| - 1]
    }

    constructor (t: Timing, g: State, reliable: bool)
      requires t.Valid() && t.Tolerated() && Init(g)
      ensures Valid() && this.t == t && this.g == g && run == [g] && this.reliable == reliable
    {
      this.t, this.g, this.reliable, run := t, g, reliable, [g];
    }

    method Fails() returns (fails: bool)
      ensures reliable ==> !fails
    {
      fails := *;
      fails := fails && !reliable;
    }

    method Take(step: Step)
      requires Valid() && Enabled(t, g, step)
      modifies this
      ensures Valid() && g == Apply(t, old(g), step) && run == old(run) + [g]
    {
      ghost var was := run;
      g := Apply(t, g, step);
      run := run + [g];
      forall i | 0 < i < |run| ensures Stepped(t, run, i) {
        if i < |was| { assert Stepped(t, was, i); }
      }
    }

    /** Anything anybody but `server` may do meanwhile, any number of times; nothing when it is
        alone. */
    method Others(server: string, alone: bool)
      requires Valid() && server in g.servers
      modifies this
      ensures Valid() && old(run) <= run
      ensures server in g.servers && g.servers[server] == old(g).servers[server]
      ensures old(g).created <= g.created && old(g).now <= g.now
      ensures alone ==> g == old(g)
    {
      var n: nat := *;
      while n > 0 && !alone
        invariant Valid() && old(run) <= run
        invariant server in g.servers && g.servers[server] == old(g).servers[server]
        invariant old(g).created <= g.created && old(g).now <= g.now
        invariant alone ==> g == old(g)
      {
        var step: Step := *;
        if !By(step, server) && Enabled(t, g, step) {
          Take(step);
        }
        n := n - 1;
      }
    }

    /** A page of a feed's list call: some of what was in the window when the read began, as it
        is now, each record once. `part` is what the page covers. */
    method ListChanges(server: string) returns (page: seq<Change>, part: set<Change>, last: bool)
      requires server in g.servers && g.servers[server].phase.Scanning?
      ensures |page| <= FEED_PAGE
      ensures Distinct(page)
      ensures var r, s := g.servers[server].phase.round, g.servers[server].phase.scan;
              && part <= s.rest && (last <==> part == s.rest) && (part == {} ==> s.rest == {})
              && (forall c | c in page :: Current(g, c) && c.feed == s.feed && InWindow(r, s, c))
              && (forall c | c in part && Current(g, c) && c.feed == s.feed && InWindow(r, s, c) :: c in page)
    {
      var r, s := g.servers[server].phase.round, g.servers[server].phase.scan;
      page, part, last := [], {}, s.rest == {};
      if s.rest != {} {
        var c :| c in s.rest;
        page := if Current(g, c) && c.feed == s.feed && InWindow(r, s, c) then [c] else [];
        part, last := {c}, s.rest == {c};
      }
    }
  }

  /** What a dispatcher would record that keeps no memory and rereads its feed from its first
      position every round. */
  ghost function RereadEverything(t: Timing, g: State, feed: string, r: Round): set<(string, EventId)> {
    set n, c |
      && n in r.found && c in g.records.Values && c.feed == feed && c.kind != "" && feed in g.first
      && g.first[feed] - t.lag <= c.time <= r.upTo
      && (r.found[n].eventTypes == [] || c.kind in r.found[n].eventTypes)
      && (r.found[n].scope == "" || c.scope == r.found[n].scope) && r.found[n].createTime <= c.time
      :: (n, c.Id())
  }

  function Elems(cs: seq<Change>): set<Change> { set c: Change | c in cs }

  ghost predicate Distinct(cs: seq<Change>) {
    forall i, j | 0 <= i < j < |cs| :: cs[i].Id() != cs[j].Id()
  }

  lemma OneMore(recorded: map<EventId, int>, hooks: map<string, Webhook>, before: set<Change>, c: Change)
    requires c !in before
    ensures var wanted, unwanted := Wanted(recorded, hooks, before), Unwanted(recorded, hooks, before);
            var wanted', unwanted' := Wanted(recorded, hooks, before + {c}), Unwanted(recorded, hooks, before + {c});
            if !Fresh(recorded, c) then wanted' == wanted && unwanted' == unwanted
            else if WantedBy(hooks, c) then wanted' == wanted + {c} && unwanted' == unwanted
            else wanted' == wanted && unwanted' == unwanted + {c}
  {
  }

  lemma OneMoreNoted(was: map<EventId, int>, cs: set<Change>, now: map<EventId, int>, c: Change)
    requires IsNoted(was, cs, now) && c.Id() !in now
    ensures IsNoted(was, cs + {c}, now[c.Id() := c.time])
  {
    assert Ids(cs + {c}) == Ids(cs) + {c.Id()};
  }

  /** What a page's sift has found after the changes `done`. */
  ghost predicate Sifted(was: int, recorded: map<EventId, int>, hooks: map<string, Webhook>, done: set<Change>,
                         latest: int, sent: seq<Change>, now: map<EventId, int>) {
    && IsLatest(was, done, latest)
    && Elems(sent) == Wanted(recorded, hooks, done) && Distinct(sent)
    && IsNoted(recorded, Unwanted(recorded, hooks, done), now)
  }

  lemma SiftOne(was: int, recorded: map<EventId, int>, hooks: map<string, Webhook>, done: set<Change>,
                latest: int, sent: seq<Change>, now: map<EventId, int>, c: Change)
    requires Sifted(was, recorded, hooks, done, latest, sent, now)
    requires forall d | d in done :: d.Id() != c.Id()
    ensures var latest' := if c.time > latest then c.time else latest;
            if c.kind == "" || c.Id() in now then Sifted(was, recorded, hooks, done + {c}, latest', sent, now)
            else if WantedBy(hooks, c) then Sifted(was, recorded, hooks, done + {c}, latest', sent + [c], now)
            else Sifted(was, recorded, hooks, done + {c}, latest', sent, now[c.Id() := c.time])
  {
    OneMore(recorded, hooks, done, c);
    assert c.Id() in now <==> c.Id() in recorded;
    assert forall d | d in sent :: d in Elems(sent);
    assert Elems(sent + [c]) == Elems(sent) + {c};
    if c.kind != "" && c.Id() !in now && !WantedBy(hooks, c) {
      OneMoreNoted(recorded, Unwanted(recorded, hooks, done), now, c);
    }
  }

  lemma PrefixGrows(page: seq<Change>, i: nat)
    requires i < |page| && Distinct(page)
    ensures Elems(page[..i+1]) == Elems(page[..i]) + {page[i]}
    ensures forall d | d in Elems(page[..i]) :: d.Id() != page[i].Id()
  {
    assert page[..i+1] == page[..i] + [page[i]];
  }

  /** The cursor is one the store has held since. */
  ghost predicate BegunOrFound(was: seq<State>, run: seq<State>, feed: string, cursor: Cursor) {
    exists i | |was| <= i < |run| :: feed in run[i].cursors && run[i].cursors[feed] == cursor
  }

  /** Where cursors are once one read at pos, when its etag was this, is done with at latest. */
  function MovedOn(cursors: map<string, Cursor>, feed: string, pos: int, latest: int, etag: nat): map<string, Cursor> {
    if latest > pos && feed in cursors && cursors[feed].etag == etag then cursors[feed := Cursor(latest, etag + 1)] else cursors
  }

  class Dispatcher {
    const name: string
    var recorded: map<EventId, int>
    var settled: map<string, int>

    /** This server's memory and place, as the machine has them. */
    ghost predicate At(w: World, p: Phase)
      reads this, w
    {
      w.Valid() && name in w.g.servers && w.g.servers[name] == Local(recorded, settled, p)
    }

    constructor (name: string, w: World)
      requires w.Valid()
      modifies w
      ensures this.name == name && At(w, Idle) && recorded == map[] && settled == map[]
      ensures w.g == Apply(w.t, old(w.g), Boot(name))
    {
      this.name, recorded, settled := name, map[], map[];
      new;
      w.Take(Boot(name));
    }

    method Remember(c: Change)
      modifies this`recorded
      ensures recorded == old(recorded)[c.Id() := c.time]
    {
      recorded := recorded[c.Id() := c.time];
    }

    method Forget(cutoff: int)
      modifies this`recorded
      ensures recorded == Forgotten(old(recorded), cutoff)
    {
      var todo := recorded.Keys;
      while todo != {}
        invariant todo <= recorded.Keys <= old(recorded).Keys
        invariant forall id | id in recorded :: recorded[id] == old(recorded)[id]
        invariant forall id | id in old(recorded) && id !in todo :: id in recorded <==> old(recorded)[id] >= cutoff
        decreases todo
      {
        var id :| id in todo;
        if recorded[id] < cutoff {
          recorded := recorded - {id};
        }
        todo := todo - {id};
      }
    }

    static method IsWanted(hooks: map<string, Webhook>, c: Change) returns (wanted: bool)
      ensures wanted <==> WantedBy(hooks, c)
      ensures wanted <==> exists n | n in hooks ::
                && (hooks[n].eventTypes == [] || c.kind in hooks[n].eventTypes)
                && (hooks[n].scope == "" || c.scope == hooks[n].scope) && hooks[n].createTime <= c.time
    {
      var todo := hooks.Keys;
      while todo != {}
        invariant todo <= hooks.Keys
        invariant forall n | n in hooks && n !in todo :: !Wants(hooks[n], c)
        decreases todo
      {
        var n :| n in todo;
        if Wants(hooks[n], c) { return true; }
        todo := todo - {n};
      }
      wanted := false;
    }

    /** One page's changes: the latest time among them, those to send, and the rest remembered as
        recorded for nobody. */
    method Sift(page: seq<Change>, hooks: map<string, Webhook>, was: int) returns (latest: int, sent: seq<Change>)
      requires Distinct(page)
      modifies this`recorded
      ensures Sifted(was, old(recorded), hooks, Elems(page), latest, sent, recorded)
    {
      latest, sent := was, [];
      for i := 0 to |page|
        invariant Sifted(was, old(recorded), hooks, Elems(page[..i]), latest, sent, recorded)
      {
        var c := page[i];
        PrefixGrows(page, i);
        SiftOne(was, old(recorded), hooks, Elems(page[..i]), latest, sent, recorded, c);
        if c.time > latest { latest := c.time; }
        if c.kind != "" && c.Id() !in recorded {
          var wanted := IsWanted(hooks, c);
          if wanted {
            sent := sent + [c];
          } else {
            Remember(c);
          }
        }
      }
      assert page[..|page|] == page;
    }

    /** A store call failed: the round ends. */
    method GiveUp(w: World)
      requires w.Valid() && name in w.g.servers
      requires w.g.servers[name].settled == settled
      requires forall id | id in recorded :: id in w.g.servers[name].recorded && w.g.servers[name].recorded[id] == recorded[id]
      modifies w
      ensures At(w, Idle) && old(w.run) <= w.run
    {
      w.Take(Abort(name, recorded.Keys));
      assert w.g.servers[name].recorded == recorded;
    }

    /** One delivery of record's. */
    method CreateDelivery(w: World, r: Round, ghost s: Scan, n: string, c: Change, alone: bool) returns (ok: bool)
      requires At(w, Scanning(r, s)) && c in s.pending && n in r.found && Wants(r.found[n], c)
      modifies w
      ensures old(w.run) <= w.run && At(w, if ok then Scanning(r, s) else Idle)
      ensures ok ==> old(w.g).created + {(n, c.Id())} <= w.g.created
      ensures alone && ok ==> w.g == old(w.g).(created := old(w.g).created + {(n, c.Id())})
      ensures w.reliable ==> ok
    {
      hide Run;
      w.Others(name, alone);
      var failed := w.Fails();
      if failed {
        GiveUp(w);
        return false;
      }
      w.Take(Deliver(name, n, c)); // ErrAlreadyExists changes nothing and is ignored
      ok := true;
    }

    /** record: a delivery for every webhook that wants c. */
    method Record(w: World, r: Round, ghost s: Scan, c: Change, alone: bool) returns (ok: bool)
      requires At(w, Scanning(r, s)) && c in s.pending
      modifies w, this`recorded
      ensures old(w.run) <= w.run
      ensures At(w, if ok then Scanning(r, s.(pending := s.pending - {c})) else Idle)
      ensures alone && ok ==> w.g == old(w.g).(created := w.g.created, servers := w.g.servers)
      ensures alone && ok ==> w.g.created <= old(w.g).created + set n | n in r.found && Wants(r.found[n], c) :: (n, c.Id())
      ensures ok ==> forall n | n in r.found && Wants(r.found[n], c) :: (n, c.Id()) in w.g.created
      ensures ok ==> old(w.g).created <= w.g.created
      ensures recorded == if ok then old(recorded)[c.Id() := c.time] else old(recorded)
      ensures w.reliable ==> ok
    {
      hide Run;
      ghost var owed := set n | n in r.found && Wants(r.found[n], c) :: (n, c.Id());
      var todo := r.found.Keys;
      while todo != {}
        invariant At(w, Scanning(r, s)) && old(w.run) <= w.run && recorded == old(recorded)
        invariant todo <= r.found.Keys
        invariant forall n | n in r.found && n !in todo && Wants(r.found[n], c) :: (n, c.Id()) in w.g.created
        invariant old(w.g).created <= w.g.created
        invariant alone ==> w.g == old(w.g).(created := w.g.created, servers := w.g.servers)
        invariant alone ==> w.g.created <= old(w.g).created + owed
        decreases todo
      {
        var n :| n in todo;
        if Wants(r.found[n], c) {
          ok := CreateDelivery(w, r, s, n, c, alone);
          if !ok { return; }
          assert alone ==> (n, c.Id()) in owed;
        }
        todo := todo - {n};
      }
      Remember(c);
      w.Take(ChangeFeed.Remember(name, c));
      ok := true;
    }

    /** recordAll: fetch the records of a page's changes, and record those that have not moved on. */
    method RecordAll(w: World, r: Round, ghost s: Scan, sent: seq<Change>, alone: bool, ghost owed: set<(string, EventId)>) returns (ok: bool)
      requires At(w, Scanning(r, s)) && s.sent == Elems(sent) && s.pending == {} && Distinct(sent)
      requires alone ==> forall c, n | c in s.sent && n in r.found && Wants(r.found[n], c) :: (n, c.Id()) in owed
      modifies w, this`recorded
      ensures old(w.run) <= w.run
      ensures At(w, if ok then Scanning(r, s.(sent := {})) else Idle)
      ensures alone && ok ==> w.g == old(w.g).(created := w.g.created, servers := w.g.servers)
      ensures alone && ok ==> w.g.created <= old(w.g).created + owed
      ensures w.reliable ==> ok
    {
      hide Run;
      if |sent| == 0 {
        assert s.sent == {};
        return true;
      }
      w.Others(name, alone);
      var failed := w.Fails();
      if failed {
        GiveUp(w);
        return false;
      }
      var fetched := w.g.records;
      SameEtag(w.t, w.run, name);
      ghost var unmoved := set c | c in s.sent && Current(w.g, c);
      w.Take(Fetch(name));
      ok := RecordFetched(w, r, s.(sent := {}, pending := unmoved), sent, fetched, alone, owed);
    }

    /** The loop over what was fetched: exactly the changes not moved on are recorded, for all who
        want them, and remembered. */
    method RecordFetched(w: World, r: Round, ghost s: Scan, sent: seq<Change>, fetched: map<string, Change>, alone: bool,
                         ghost owed: set<(string, EventId)>) returns (ok: bool)
      requires At(w, Scanning(r, s)) && s.pending <= Elems(sent) && Distinct(sent)
      requires forall c | c in sent :: c in s.pending <==> c.name in fetched && fetched[c.name].etag == c.etag
      requires alone ==> forall c, n | c in s.pending && n in r.found && Wants(r.found[n], c) :: (n, c.Id()) in owed
      modifies w, this`recorded
      ensures old(w.run) <= w.run
      ensures At(w, if ok then Scanning(r, s.(pending := {})) else Idle)
      ensures alone && ok ==> w.g == old(w.g).(created := w.g.created, servers := w.g.servers)
      ensures alone && ok ==> w.g.created <= old(w.g).created + owed
      ensures ok ==> AllSent(r, s.pending, w.g.created)
      ensures ok ==> recorded.Keys == old(recorded).Keys + Ids(s.pending)
      ensures w.reliable ==> ok
    {
      hide Run;
      assert Elems(sent[0..]) * s.pending == s.pending by { assert sent[0..] == sent; }
      for i := 0 to |sent|
        invariant At(w, Scanning(r, s.(pending := Elems(sent[i..]) * s.pending)))
        invariant old(w.run) <= w.run
        invariant alone ==> w.g == old(w.g).(created := w.g.created, servers := w.g.servers)
        invariant alone ==> w.g.created <= old(w.g).created + owed
        invariant old(w.g).created <= w.g.created
        invariant AllSent(r, s.pending - Elems(sent[i..]), w.g.created)
        invariant recorded.Keys == old(recorded).Keys + Ids(s.pending - Elems(sent[i..]))
      {
        var c := sent[i];
        NextSent(sent, i, s.pending);
        ghost var done := s.pending - Elems(sent[i..]);
        OneMoreSent(sent, i, s.pending, done);
        if c.name in fetched && fetched[c.name].etag == c.etag {
          ok := Record(w, r, s.(pending := Elems(sent[i..]) * s.pending), c, alone);
          if !ok { return false; }
        }
      }
      assert Elems(sent[|sent|..]) * s.pending == {};
      ok := true;
    }

    /** What is left of the window, of what a memoryless dispatcher would record. */
    ghost predicate Owes(g: State, feed: string, r: Round, s: Scan, owed: set<(string, EventId)>) {
      forall c, n | Current(g, c) && c.feed == feed && c.kind != "" && InWindow(r, s, c) && n in r.found && Wants(r.found[n], c) ::
        (n, c.Id()) in owed
    }

    /** One page: sifted, and recorded. */
    method ReadOnePage(w: World, r: Round, ghost s: Scan, was: int, alone: bool, ghost owed: set<(string, EventId)>)
      returns (ok: bool, latest: int, last: bool, ghost rest: set<Change>)
      requires At(w, Scanning(r, s)) && s.sent == {} && s.pending == {} && s.latest == was
      requires alone ==> Owes(w.g, s.feed, r, s, owed)
      modifies w, this`recorded
      ensures old(w.run) <= w.run
      ensures At(w, if ok then Scanning(r, s.(rest := rest, latest := latest)) else Idle)
      ensures ok ==> if last then rest == {} else rest < s.rest
      ensures alone && ok ==> w.g == old(w.g).(created := w.g.created, servers := w.g.servers)
      ensures alone && ok ==> w.g.created <= old(w.g).created + owed
      ensures w.reliable ==> ok
    {
      hide Run;
      latest, last, rest := was, false, s.rest;
      w.Others(name, alone);
      var failed := w.Fails();
      if failed {
        GiveUp(w);
        return false, latest, last, rest;
      }
      var page: seq<Change>, sent: seq<Change>;
      var part: set<Change>;
      page, part, last := w.ListChanges(name);
      latest, sent := Sift(page, r.found, latest);
      w.Take(ReadPage(name, part, Elems(page), latest, recorded));
      rest := s.rest - part;
      ok := RecordAll(w, r, s.(rest := rest, latest := latest, sent := Elems(sent)), sent, alone, owed);
    }

    /** The pages of one read. */
    method ReadPages(w: World, r: Round, ghost s0: Scan, pos: int, alone: bool, ghost owed: set<(string, EventId)>)
      returns (ok: bool, latest: int)
      requires At(w, Scanning(r, s0)) && s0.sent == {} && s0.pending == {} && s0.latest == pos
      requires alone ==> Owes(w.g, s0.feed, r, s0, owed)
      modifies w, this`recorded
      ensures old(w.run) <= w.run
      ensures At(w, if ok then Scanning(r, s0.(rest := {}, latest := latest)) else Idle)
      ensures alone && ok ==> w.g == old(w.g).(created := w.g.created, servers := w.g.servers)
      ensures alone && ok ==> w.g.created <= old(w.g).created + owed
      ensures w.reliable ==> ok
    {
      hide Run;
      ghost var s := s0;
      var last := false;
      latest := pos;
      while !last
        invariant At(w, Scanning(r, s)) && old(w.run) <= w.run
        invariant s == s0.(rest := s.rest, latest := latest)
        invariant last ==> s.rest == {}
        invariant alone ==> w.g == old(w.g).(created := w.g.created, servers := w.g.servers)
        invariant alone ==> w.g.created <= old(w.g).created + owed
        decreases !last, s.rest
      {
        ghost var rest;
        ok, latest, last, rest := ReadOnePage(w, r, s, latest, alone, owed);
        if !ok { return false, latest; }
        s := s.(rest := rest, latest := latest);
      }
      ok := true;
    }

    /** cursor: the feed's cursor, begun at now when nobody has read it. */
    method OpenFeed(w: World, feed: string, r: Round, alone: bool) returns (ok: bool, cursor: Cursor)
      requires At(w, Done(r))
      modifies w
      ensures old(w.run) <= w.run && At(w, if ok then Opened(r, feed, cursor) else Idle)
      ensures ok && alone ==> w.g == old(w.g).(servers := w.g.servers, cursors := w.g.cursors, first := w.g.first)
      ensures ok && alone ==> cursor == if feed in old(w.g).cursors then old(w.g).cursors[feed] else Cursor(old(w.g).now, 0)
      ensures ok && alone ==> w.g.cursors == old(w.g).cursors[feed := cursor]
      ensures ok ==> feed in w.g.cursors && BegunOrFound(old(w.run), w.run, feed, cursor)
      ensures w.reliable ==> ok
    {
      hide Run;
      ok, cursor := false, Cursor(0, 0);
      w.Others(name, alone);
      var failed := w.Fails();
      if failed {
        GiveUp(w);
        return;
      }
      w.Take(GetCursor(name, feed));
      if w.g.servers[name].phase.Creating? {
        w.Others(name, alone);
        var failed := w.Fails();
        if failed {
          GiveUp(w);
          return;
        }
        w.Take(CreateCursor(name));
      }
      ok, cursor := true, w.g.servers[name].phase.cursor;
    }

    /** The read of a feed whose cursor is in hand. */
    method ReadFeed(w: World, feed: string, r: Round, cursor: Cursor, alone: bool) returns (ok: bool, latest: int, ghost s: Scan)
      requires At(w, Opened(r, feed, cursor))
      modifies w, this`recorded
      ensures old(w.run) <= w.run && At(w, if ok then Scanning(r, s) else Idle)
      ensures ok ==> s.feed == feed && s.cursor == cursor && s.latest == latest && Complete(w.g, name) && NothingLost(w.t, w.g, name)
      ensures ok && alone ==> w.g == old(w.g).(created := w.g.created, servers := w.g.servers)
      ensures ok && alone && Steady(w.g, r) ==> w.g.created == old(w.g).created + RereadEverything(w.t, w.g, feed, r)
      ensures w.reliable ==> ok
    {
      w.Others(name, alone);
      ghost var g0 := w.g;
      w.Take(BeginRead(name));
      s := w.g.servers[name].phase.scan;
      ghost var owed := RereadEverything(w.t, g0, feed, r);
      WindowIsOwed(w.t, w.run, name, owed);
      ok, latest := ReadPages(w, r, s, cursor.position, alone, owed);
      if ok {
        s := s.(rest := {}, latest := latest);
        OwedIsCreated(w.t, w.run, g0, name, alone);
        if alone { SameOwed(w.t, g0, w.g, feed, r); }
        CreatedGrows(w.t, w.run, |old(w.run)| - 1, |w.run| - 1);
      }
    }

    /** dispatchFeed. `at` is where in the run its read was complete. */
    method DispatchFeed(w: World, feed: string, r: Round, alone: bool) returns (ok: bool, ghost at: nat)
      requires At(w, Done(r))
      modifies w, this
      ensures old(w.run) <= w.run && At(w, if ok then Done(r) else Idle)
      ensures ok ==> ReadWhole(w.t, w.run, at, name, feed, r) && |old(w.run)| - 1 <= at < |w.run| - 1
      ensures ok && alone && Steady(w.g, r) ==> w.g.created == old(w.g).created + RereadEverything(w.t, w.g, feed, r)
      ensures w.reliable ==> ok
    {
      at := 0;
      var cursor: Cursor, latest: int;
      ok, cursor := OpenFeed(w, feed, r, alone);
      if !ok { return; }
      ghost var s: Scan;
      ok, latest, s := ReadFeed(w, feed, r, cursor, alone);
      if !ok { return; }
      at := |w.run| - 1;
      ghost var read, g := w.run, w.g;
      ghost var met;
      ok, met := Conclude(w, feed, cursor.position, r, latest, s, alone);
      assert w.run[at] == read[at];
      if ok && alone { SameOwed(w.t, g, w.g, feed, r); }
    }

    /** The pages of the webhooks, after the first look at them. */
    method ListPages(w: World, was: Round, names: set<string>, alone: bool) returns (ok: bool, r: Round)
      requires At(w, Listing(was, names))
      modifies w
      ensures old(w.run) <= w.run && At(w, if ok then Done(r) else Idle)
      ensures r.upTo == was.upTo
      ensures w.reliable ==> ok
    {
      hide Run;
      r := was;
      var left := names;
      while left != {}
        invariant At(w, Listing(r, left)) && old(w.run) <= w.run && r.upTo == was.upTo
        decreases left
      {
        w.Others(name, alone);
        var failed := w.Fails();
        if failed {
          GiveUp(w);
          return false, r;
        }
        var n :| n in left;
        w.Take(ListPage(name, {n}));
        r, left := w.g.servers[name].phase.round, left - {n};
      }
      ok := true;
    }

    /** The webhooks, a page at a time, for a round that takes changes up to now less HookSettle. */
    method ListWebhooks(w: World, alone: bool) returns (ok: bool, r: Round)
      requires At(w, Idle)
      modifies w
      ensures old(w.run) <= w.run && At(w, if ok then Done(r) else Idle)
      ensures ok ==> old(w.g).now - w.t.hookSettle <= r.upTo && (alone ==> r.upTo == old(w.g).now - w.t.hookSettle)
      ensures w.reliable ==> ok
    {
      hide Run;
      w.Others(name, alone);
      w.Take(Start(name));
      w.Others(name, alone);
      w.Take(ListHooks(name));
      var p := w.g.servers[name].phase;
      ok, r := ListPages(w, p.round, p.left, alone);
    }

    /** dispatch: the round's bound, the webhooks, then each feed in turn. `done` is where in the
        run each feed's read was complete. */
    method RunDispatch(w: World, feeds: seq<string>, alone: bool) returns (ok: bool, r: Round, ghost done: seq<nat>)
      requires At(w, Idle)
      modifies w, this
      ensures old(w.run) <= w.run && At(w, Idle)
      ensures ok ==> old(w.g).now - w.t.hookSettle <= r.upTo
      ensures ok ==> AllWhole(w.t, w.run, done, name, feeds, r) && InTurn(done, |old(w.run)| - 1, |w.run|)
      ensures w.reliable ==> ok
    {
      done := [];
      ok, r := ListWebhooks(w, alone);
      if !ok { return; }
      for i := 0 to |feeds|
        invariant At(w, Done(r)) && old(w.run) <= w.run
        invariant AllWhole(w.t, w.run, done, name, feeds[..i], r) && InTurn(done, |old(w.run)| - 1, |w.run| - 1)
      {
        ghost var at: nat, read := 0, w.run;
        ok, at := DispatchFeed(w, feeds[i], r, alone);
        if !ok { return; }
        OneMoreWhole(w.t, read, w.run, done, name, feeds[..i], r, at, feeds[i]);
        done := done + [at];
        assert feeds[..i+1] == feeds[..i] + [feeds[i]];
      }
      assert feeds[..|feeds|] == feeds;
      ghost var read := w.run;
      GiveUp(w);
      StillWhole(w.t, read, w.run, done, name, feeds, r);
      ok := true;
    }

    /** The cursor stays, settled or not. */
    method KeepCursor(w: World, ghost was: Local, ghost r: Round, ghost s: Scan) returns (ghost met: nat)
      requires w.Valid() && name in w.g.servers && w.g.servers[name] == was && was.phase == Scanning(r, s)
      requires s.rest == {} && s.sent == {} && s.pending == {} && s.latest <= s.cursor.position
      requires Local(recorded, settled, Done(r)) == Kept(w.t, was)
      modifies w
      ensures At(w, Done(r)) && old(w.run) <= w.run
      ensures w.g == old(w.g).(servers := w.g.servers)
      ensures |old(w.run)| - 1 <= met < |w.run| - 1 && w.run[met] == old(w.g)
    {
      met := |w.run| - 1;
      hide Run;
      w.Take(Keep(name));
    }

    /** It moves, unless another server has moved it: that is success, too. */
    method MoveCursor(w: World, ghost was: Local, ghost r: Round, ghost s: Scan, alone: bool) returns (ok: bool, ghost met: nat)
      requires w.Valid() && name in w.g.servers && w.g.servers[name] == was && was.phase == Scanning(r, s)
      requires s.rest == {} && s.sent == {} && s.pending == {} && s.latest > s.cursor.position
      requires recorded == Forgotten(was.recorded, s.latest - w.t.lag) && settled == was.settled
      modifies w
      ensures At(w, if ok then Done(r) else Idle) && old(w.run) <= w.run && (w.reliable ==> ok)
      ensures ok && alone ==> w.g == old(w.g).(servers := w.g.servers, cursors := w.g.cursors)
      ensures ok ==> |old(w.run)| - 1 <= met < |w.run| - 1 && (alone ==> w.run[met] == old(w.g))
      ensures ok ==> w.g.cursors == MovedOn(w.run[met].cursors, s.feed, s.cursor.position, s.latest, s.cursor.etag)
    {
      assert |w.run| > 0;
      hide Run, Enabled, Apply, Complete, MovedOn;
      w.Others(name, alone);
      met := |w.run| - 1;
      var failed := w.Fails();
      if failed {
        GiveUp(w);
        return false, met;
      }
      MoveIs(w.t, w.g, name, was, r, s);
      w.Take(Move(name));
      ok := true;
    }

    /** What follows the last page: forget what no reread reaches, then settle a cursor that stays
        or move it, unless another server has. `met` is where in the run the store was as that was
        decided. */
    method Conclude(w: World, feed: string, pos: int, r: Round, latest: int, ghost s: Scan, alone: bool) returns (ok: bool, ghost met: nat)
      requires At(w, Scanning(r, s)) && s.rest == {} && s.sent == {} && s.pending == {}
      requires s.feed == feed && s.cursor.position == pos && s.latest == latest
      modifies w, this
      ensures old(w.run) <= w.run && At(w, if ok then Done(r) else Idle)
      ensures ok && alone ==> w.g == old(w.g).(servers := w.g.servers, cursors := w.g.cursors)
      ensures recorded == Forgotten(old(recorded), latest - w.t.lag)
      ensures settled == if latest <= pos && r.upTo >= pos + w.t.lag then old(settled)[feed := pos] else old(settled)
      ensures ok ==> |old(w.run)| - 1 <= met < |w.run| - 1 && (alone ==> w.run[met] == old(w.g))
      ensures ok ==> w.g.cursors == MovedOn(w.run[met].cursors, feed, pos, latest, s.cursor.etag)
      ensures w.reliable ==> ok
    {
      hide Run, Enabled, Apply, Complete, MovedOn;
      ghost var was := w.g.servers[name];
      Forget(latest - w.t.lag);
      if latest <= pos {
        if r.upTo >= pos + w.t.lag {
          settled := settled[feed := pos];
        }
        met := KeepCursor(w, was, r, s);
        ok := true;
        StaysPut(w.g.cursors, feed, pos, latest, s.cursor.etag);
      } else {
        ok, met := MoveCursor(w, was, r, s, alone);
      }
    }
  }

  lemma MoveIs(t: Timing, g: State, server: string, was: Local, r: Round, s: Scan)
    requires server in g.servers && g.servers[server] == was && was.phase == Scanning(r, s)
    requires s.rest == {} && s.sent == {} && s.pending == {} && s.latest > s.cursor.position
    ensures Enabled(t, g, Move(server))
    ensures Apply(t, g, Move(server)) == g.(
              servers := g.servers[server := Local(Forgotten(was.recorded, s.latest - t.lag), was.settled, Done(r))],
              cursors := MovedOn(g.cursors, s.feed, s.cursor.position, s.latest, s.cursor.etag))
  {
  }

  lemma StaysPut(cursors: map<string, Cursor>, feed: string, pos: int, latest: int, etag: nat)
    requires latest <= pos
    ensures MovedOn(cursors, feed, pos, latest, etag) == cursors
  {
  }

  /** What a read's window holds is owed. */
  lemma WindowIsOwed(t: Timing, run: seq<State>, server: string, owed: set<(string, EventId)>)
    requires t.Valid() && t.Tolerated() && Run(t, run)
    requires var g := run[|run| - 1];
             && server in g.servers && g.servers[server].phase.Scanning?
             && owed == RereadEverything(t, g, g.servers[server].phase.scan.feed, g.servers[server].phase.round)
    ensures var g := run[|run| - 1]; var r, s := g.servers[server].phase.round, g.servers[server].phase.scan;
            forall c, n | Current(g, c) && c.feed == s.feed && c.kind != "" && InWindow(r, s, c) && n in r.found && Wants(r.found[n], c) ::
              (n, c.Id()) in owed
  {
    RunInv(t, run, |run| - 1);
    var g := run[|run| - 1];
    assert LocalOk(t, g, g.servers[server]);
  }

  /** At `at` in the run, the server's read of the feed was complete, and had lost nothing. */
  ghost predicate ReadWhole(t: Timing, run: seq<State>, at: nat, server: string, feed: string, r: Round) {
    && at < |run| && Complete(run[at], server)
    && run[at].servers[server].phase.round == r && run[at].servers[server].phase.scan.feed == feed
    && NothingLost(t, run[at], server)
  }

  ghost predicate AllWhole(t: Timing, run: seq<State>, done: seq<nat>, server: string, feeds: seq<string>, r: Round) {
    |done| == |feeds| && forall i | 0 <= i < |feeds| :: ReadWhole(t, run, done[i], server, feeds[i], r)
  }

  /** These are one after the other, within the bounds. */
  ghost predicate InTurn(done: seq<nat>, low: int, high: int) {
    && (forall i | 0 <= i < |done| :: low <= done[i] < high)
    && forall i, j | 0 <= i < j < |done| :: done[i] < done[j]
  }

  lemma StillWhole(t: Timing, run: seq<State>, longer: seq<State>, done: seq<nat>, server: string, feeds: seq<string>, r: Round)
    requires run <= longer && AllWhole(t, run, done, server, feeds, r)
    ensures AllWhole(t, longer, done, server, feeds, r)
  {
    forall i | 0 <= i < |feeds| ensures ReadWhole(t, longer, done[i], server, feeds[i], r) {
      assert ReadWhole(t, run, done[i], server, feeds[i], r) && longer[done[i]] == run[done[i]];
    }
  }

  lemma OneMoreWhole(t: Timing, run: seq<State>, longer: seq<State>, done: seq<nat>, server: string, feeds: seq<string>, r: Round,
                     at: nat, feed: string)
    requires run <= longer && AllWhole(t, run, done, server, feeds, r) && ReadWhole(t, longer, at, server, feed, r)
    ensures AllWhole(t, longer, done + [at], server, feeds + [feed], r)
  {
    StillWhole(t, run, longer, done, server, feeds, r);
  }

  /** Every webhook on the round's list is as it was when it was committed. */
  ghost predicate Steady(g: State, r: Round) {
    forall n | n in r.found :: n in g.steady && n in g.hooks && g.hooks[n] == r.found[n]
  }

  lemma StepCreated(t: Timing, g: State, step: Step)
    requires Enabled(t, g, step)
    ensures g.created <= Apply(t, g, step).created
  {
  }

  lemma NextCreated(t: Timing, g: State, g': State)
    requires Next(t, g, g')
    ensures g.created <= g'.created
  {
    var step :| Enabled(t, g, step) && g' == Apply(t, g, step);
    StepCreated(t, g, step);
  }

  /** A delivery, once created, stays recorded. */
  lemma {:induction false} CreatedGrows(t: Timing, run: seq<State>, i: nat, j: nat)
    requires Run(t, run) && i <= j < |run|
    ensures run[i].created <= run[j].created
  {
    if i < j {
      CreatedGrows(t, run, i, j - 1);
      assert Stepped(t, run, j);
      NextCreated(t, run[j-1], run[j]);
    }
  }

  lemma SameOwed(t: Timing, g: State, g': State, feed: string, r: Round)
    requires g'.records == g.records && g'.first == g.first
    ensures RereadEverything(t, g', feed, r) == RereadEverything(t, g, feed, r)
  {
  }

  /** A complete read is whole; a server alone has recorded all it owes. */
  lemma OwedIsCreated(t: Timing, run: seq<State>, g0: State, server: string, alone: bool)
    requires t.Valid() && t.Tolerated() && Run(t, run) && Complete(run[|run| - 1], server)
    requires alone ==> var g := run[|run| - 1]; var s := g.servers[server].phase.scan;
               && g == g0.(created := g.created, servers := g.servers)
               && s.before == set n | n in g0.records && g0.records[n].feed == s.feed :: g0.records[n]
    ensures NothingLost(t, run[|run| - 1], server)
    ensures var g := run[|run| - 1]; var r, s := g.servers[server].phase.round, g.servers[server].phase.scan;
            alone && Steady(g, r) ==> RereadEverything(t, g, s.feed, r) <= g.created
  {
    NoChangeLost(t, run, |run| - 1, server);
    RunInv(t, run, |run| - 1);
  }

  /** A record whose etag is still the one read is the version read. */
  lemma SameEtag(t: Timing, run: seq<State>, server: string)
    requires t.Valid() && t.Tolerated() && Run(t, run)
    requires var g := run[|run| - 1]; server in g.servers && g.servers[server].phase.Scanning?
    ensures var g := run[|run| - 1];
            forall c | c in g.servers[server].phase.scan.sent ::
              Current(g, c) <==> c.name in g.records && g.records[c.name].etag == c.etag
  {
    var g := run[|run| - 1];
    RunInv(t, run, |run| - 1);
    assert LocalOk(t, g, g.servers[server]);
    forall c | c in g.servers[server].phase.scan.sent && c.name in g.records && g.records[c.name].etag == c.etag
      ensures Current(g, c)
    {
      assert g.records[c.name].Id() == c.Id();
    }
  }

  /** Each of these changes has a delivery for every webhook of the round that wants it. */
  ghost predicate AllSent(r: Round, cs: set<Change>, created: set<(string, EventId)>) {
    forall c, n | c in cs && n in r.found && Wants(r.found[n], c) :: (n, c.Id()) in created
  }

  lemma OneMoreSent(sent: seq<Change>, i: nat, pending: set<Change>, done: set<Change>)
    requires i < |sent| && Distinct(sent) && done == pending - Elems(sent[i..])
    ensures sent[i] !in pending ==> pending - Elems(sent[i+1..]) == done
    ensures sent[i] in pending ==> pending - Elems(sent[i+1..]) == done + {sent[i]} && Ids(done + {sent[i]}) == Ids(done) + {sent[i].Id()}
  {
    assert sent[i..] == [sent[i]] + sent[i+1..];
    assert forall d | d in sent[i+1..] :: d.Id() != sent[i].Id();
  }

  lemma NextSent(sent: seq<Change>, i: nat, unmoved: set<Change>)
    requires Distinct(sent) && i < |sent|
    ensures Elems(sent[i..]) * unmoved - {sent[i]} == Elems(sent[i+1..]) * unmoved
    ensures sent[i] in unmoved ==> sent[i] in Elems(sent[i..]) * unmoved
    ensures sent[i] !in unmoved ==> Elems(sent[i..]) * unmoved == Elems(sent[i+1..]) * unmoved
  {
    assert sent[i..] == [sent[i]] + sent[i+1..];
    assert forall d | d in sent[i+1..] :: d.Id() != sent[i].Id();
  }
}
