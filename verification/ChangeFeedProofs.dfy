/** No change is lost: an inductive invariant of the dispatcher's state machine, and what it
    gives every completed read in every run. */
module ChangeFeedProofs {
  import opened ChangeFeed

  /** c is dealt with: it lies below anything a webhook committed from now on can want, and every
      steady webhook that wants it has its delivery. */
  ghost predicate Handled(t: Timing, g: State, c: Change) {
    && c.time + t.hookSettle <= g.now
    && forall n | n in g.steady && n in g.hooks && Wants(g.hooks[n], c) :: (n, c.Id()) in g.created
  }

  /** c is one the dispatcher owes its webhooks: current, of a kind, and not before its feed's
      first window. */
  predicate InScope(t: Timing, g: State, c: Change) {
    Current(g, c) && c.kind != "" && c.feed in g.first && g.first[c.feed] - t.lag <= c.time
  }

  ghost predicate RecordsOk(g: State) {
    && (forall n | n in g.records :: g.records[n].name == n && g.records[n] in g.history)
    && (forall c, d | c in g.history && d in g.history :: c.Id() == d.Id() ==> c == d)
  }

  ghost predicate CursorsOk(t: Timing, g: State) {
    && g.first.Keys == g.cursors.Keys
    && forall f | f in g.cursors ::
         && g.first[f] <= g.cursors[f].position <= g.now
         && (g.cursors[f].position == g.first[f] || g.cursors[f].position + t.hookSettle <= g.now)
  }

  /** Everything below a cursor's reread window is handled. */
  ghost predicate Covered(t: Timing, g: State) {
    forall c | c in g.history && InScope(t, g, c) && c.feed in g.cursors
               && c.time < g.cursors[c.feed].position - t.lag :: Handled(t, g, c)
  }

  ghost predicate Base(t: Timing, g: State) {
    && RecordsOk(g) && CursorsOk(t, g) && Covered(t, g)
    && forall n | n in g.steady && n in g.hooks :: !g.hooks[n].paused
  }

  ghost predicate RecordedOk(t: Timing, g: State, recorded: map<EventId, int>) {
    && recorded.Keys <= Ids(g.history)
    && forall c | c in g.history && c.Id() in recorded :: Handled(t, g, c)
  }

  ghost predicate SettledOk(t: Timing, g: State, settled: map<string, int>) {
    && (forall f | f in settled ::
          f in g.cursors && settled[f] <= g.cursors[f].position && settled[f] + t.lag + t.hookSettle <= g.now)
    && forall c | c in g.history && InScope(t, g, c) && c.feed in settled && c.time <= settled[c.feed] ::
         Handled(t, g, c)
  }

  /** The round's list holds, as they are now, the steady webhooks old enough to want its changes. */
  ghost predicate RoundOk(t: Timing, g: State, r: Round, left: set<string>) {
    && r.upTo + t.hookSettle <= g.now
    && forall n | n in g.steady && n in g.hooks && g.hooks[n].createTime <= r.upTo ::
         n in left || (n in r.found && r.found[n] == g.hooks[n])
  }

  ghost predicate CursorRead(g: State, feed: string, cursor: Cursor) {
    && feed in g.cursors && feed in g.first
    && g.first[feed] <= cursor.position <= g.cursors[feed].position
    && cursor.etag <= g.cursors[feed].etag
    && (cursor.etag == g.cursors[feed].etag ==> cursor == g.cursors[feed])
  }

  ghost predicate WindowOk(t: Timing, settled: map<string, int>, s: Scan) {
    if s.inclusive then s.since == s.cursor.position - t.lag
    else s.since == s.cursor.position && s.feed in settled && settled[s.feed] == s.cursor.position
  }

  ghost predicate ScanOk(t: Timing, g: State, settled: map<string, int>, r: Round, s: Scan) {
    && CursorRead(g, s.feed, s.cursor)
    && WindowOk(t, settled, s)
    && (s.latest == s.cursor.position || s.cursor.position < s.latest <= r.upTo)
    && s.before <= g.history && s.sent <= g.history && s.pending <= g.history
    && (forall c | c in s.sent || c in s.pending :: c.time <= r.upTo)
    && (forall c | c in s.before :: c.feed == s.feed)
    // what committed after the read began is too new to fall behind it
    && (forall c | c in g.history && Current(g, c) && c.feed == s.feed && c !in s.before :: c.time > r.upTo - t.lag)
    // what was current then is still ahead of the scan, or handled
    && (forall c | c in g.history && c in s.before && InScope(t, g, c) && InWindow(r, s, c) ::
          c in s.rest || c in s.sent || c in s.pending || Handled(t, g, c))
  }

  ghost predicate PhaseOk(t: Timing, g: State, settled: map<string, int>, p: Phase) {
    match p
    case Idle => true
    case Starting(upTo) => upTo + t.hookSettle <= g.now
    case Listing(r, left) => RoundOk(t, g, r, left)
    case Creating(r, _, at) => RoundOk(t, g, r, {}) && at <= g.now
    case Opened(r, feed, cursor) => RoundOk(t, g, r, {}) && CursorRead(g, feed, cursor)
    case Scanning(r, s) => RoundOk(t, g, r, {}) && ScanOk(t, g, settled, r, s)
  }

  ghost predicate LocalOk(t: Timing, g: State, l: Local) {
    && RecordedOk(t, g, l.recorded)
    && SettledOk(t, g, l.settled)
    && PhaseOk(t, g, l.settled, l.phase)
  }

  ghost predicate Inv(t: Timing, g: State) {
    Base(t, g) && forall s | s in g.servers :: LocalOk(t, g, g.servers[s])
  }

  // ---- what the surroundings do -----------------------------------------------------------

  /** From g to g' only time passes, deliveries are added, records go and webhooks change so that
      nothing handled comes undone. */
  ghost predicate Calm(t: Timing, g: State, g': State) {
    && g.now <= g'.now && g.created <= g'.created
    && g'.history == g.history
    && (forall n | n in g'.records :: n in g.records && g'.records[n] == g.records[n])
    && g'.cursors == g.cursors && g'.first == g.first && g'.servers == g.servers
    && forall n | n in g'.steady && n in g'.hooks ::
      && !g'.hooks[n].paused
      && (|| (n in g.steady && n in g.hooks && g'.hooks[n] == g.hooks[n])
          || (g'.hooks[n].createTime > g'.now - t.hookSettle && g'.now == g.now))
  }

  lemma CalmHandled(t: Timing, g: State, g': State)
    requires Calm(t, g, g')
    ensures forall c :: Handled(t, g, c) ==> Handled(t, g', c)
  {
    forall c | Handled(t, g, c) ensures Handled(t, g', c) {
      forall n | n in g'.steady && n in g'.hooks && Wants(g'.hooks[n], c) ensures (n, c.Id()) in g'.created {}
    }
  }

  lemma CalmLocal(t: Timing, g: State, g': State, l: Local)
    requires Calm(t, g, g') && LocalOk(t, g, l)
    ensures LocalOk(t, g', l)
  {
    CalmHandled(t, g, g');
    assert forall c :: InScope(t, g', c) ==> InScope(t, g, c);
  }

  lemma CalmInv(t: Timing, g: State, g': State)
    requires Calm(t, g, g') && Inv(t, g)
    ensures Inv(t, g')
  {
    CalmHandled(t, g, g');
    assert forall c :: InScope(t, g', c) ==> InScope(t, g, c);
    forall s | s in g'.servers ensures LocalOk(t, g', g'.servers[s]) { CalmLocal(t, g, g', g.servers[s]); }
  }

  lemma CommitScan(t: Timing, g: State, c: Change, settled: map<string, int>, r: Round, s: Scan)
    requires t.Valid() && t.Tolerated() && Base(t, g) && Enabled(t, g, Commit(c))
    requires RoundOk(t, g, r, {}) && ScanOk(t, g, settled, r, s)
    ensures ScanOk(t, Apply(t, g, Commit(c)), settled, r, s)
  {
    hide WindowOk;
    var g' := Apply(t, g, Commit(c));
    assert forall d :: Handled(t, g, d) ==> Handled(t, g', d);
    assert c.time > g.now - t.lag - t.hookSettle;
    assert c !in g.history;
    assert forall d | d in g'.history && Current(g', d) :: d == c || (d in g.history && Current(g, d));
  }

  lemma CommitMemory(t: Timing, g: State, c: Change, l: Local)
    requires t.Valid() && t.Tolerated() && Base(t, g) && Enabled(t, g, Commit(c)) && LocalOk(t, g, l)
    ensures RecordedOk(t, Apply(t, g, Commit(c)), l.recorded) && SettledOk(t, Apply(t, g, Commit(c)), l.settled)
  {
    var g' := Apply(t, g, Commit(c));
    assert forall d :: Handled(t, g, d) ==> Handled(t, g', d);
    assert c.time > g.now - t.lag - t.hookSettle;
    assert forall d | d in g'.history && InScope(t, g', d) :: d == c || InScope(t, g, d);
    assert c.Id() !in Ids(g.history);
  }

  lemma CommitLocal(t: Timing, g: State, c: Change, l: Local)
    requires t.Valid() && t.Tolerated() && Base(t, g) && Enabled(t, g, Commit(c))
    requires LocalOk(t, g, l)
    ensures LocalOk(t, Apply(t, g, Commit(c)), l)
  {
    hide Base, RecordedOk, SettledOk, ScanOk, Handled;
    CommitMemory(t, g, c, l);
    if l.phase.Scanning? { CommitScan(t, g, c, l.settled, l.phase.round, l.phase.scan); }
  }

  lemma CommitBase(t: Timing, g: State, c: Change)
    requires t.Valid() && t.Tolerated() && Base(t, g) && Enabled(t, g, Commit(c))
    ensures Base(t, Apply(t, g, Commit(c)))
  {
    var g' := Apply(t, g, Commit(c));
    assert forall d :: Handled(t, g, d) ==> Handled(t, g', d);
    assert c.time > g.now - t.lag - t.hookSettle;
    assert forall d | d in g'.history && InScope(t, g', d) :: d == c || InScope(t, g, d);
  }

  lemma CommitInv(t: Timing, g: State, c: Change)
    requires t.Valid() && t.Tolerated() && Inv(t, g) && Enabled(t, g, Commit(c))
    ensures Inv(t, Apply(t, g, Commit(c)))
  {
    hide Base, LocalOk;
    var g' := Apply(t, g, Commit(c));
    CommitBase(t, g, c);
    forall s | s in g'.servers ensures LocalOk(t, g', g'.servers[s]) { CommitLocal(t, g, c, g.servers[s]); }
  }

  lemma SurroundingsInv(t: Timing, g: State, step: Step)
    requires t.Valid() && t.Tolerated() && Inv(t, g) && Enabled(t, g, step)
    requires Surrounding(step)
    ensures Inv(t, Apply(t, g, step))
  {
    if step.Commit? {
      CommitInv(t, g, step.c);
    } else {
      CalmInv(t, g, Apply(t, g, step));
    }
  }

  // ---- what a server does -----------------------------------------------------------------

  /** A step that changes one server's memory only. */
  lemma LocalStepInv(t: Timing, g: State, server: string, l: Local)
    requires Inv(t, g) && LocalOk(t, g, l)
    ensures Inv(t, With(g, server, l))
  {
    var g' := With(g, server, l);
    assert forall c :: Handled(t, g, c) ==> Handled(t, g', c);
    assert forall c :: InScope(t, g', c) ==> InScope(t, g, c);
    forall s | s in g'.servers ensures LocalOk(t, g', g'.servers[s]) {
      SameLocal(t, g, g', g'.servers[s]);
    }
  }

  lemma SameLocal(t: Timing, g: State, g': State, l: Local)
    requires LocalOk(t, g, l) && g' == g.(servers := g'.servers)
    ensures LocalOk(t, g', l)
  {
    assert forall c :: Handled(t, g, c) ==> Handled(t, g', c);
    assert forall c :: InScope(t, g', c) ==> InScope(t, g, c);
  }

  /** A change no webhook on the round's list wants, or that each has its delivery of, is
      handled: whoever else wants it is too young to. */
  lemma ListedIsHandled(t: Timing, g: State, r: Round, c: Change)
    requires RoundOk(t, g, r, {}) && c.time <= r.upTo
    requires forall n | n in r.found && Wants(r.found[n], c) :: (n, c.Id()) in g.created
    ensures Handled(t, g, c)
  {
  }

  lemma NotedOk(t: Timing, g: State, was: map<EventId, int>, cs: set<Change>, recorded: map<EventId, int>)
    requires RecordsOk(g) && RecordedOk(t, g, was) && cs <= g.history
    requires recorded.Keys == was.Keys + Ids(cs)
    requires forall c | c in cs :: Handled(t, g, c)
    ensures RecordedOk(t, g, recorded)
  {
  }

  lemma BeginReadLocal(t: Timing, g: State, l: Local)
    requires t.Valid() && Base(t, g) && LocalOk(t, g, l) && l.phase.Opened?
    ensures LocalOk(t, g, l.(phase := Scanning(l.phase.round, OpenScan(t, g, l, l.phase.feed, l.phase.cursor, l.phase.round))))
  {
    var s := OpenScan(t, g, l, l.phase.feed, l.phase.cursor, l.phase.round);
    assert forall c | c in g.history && Current(g, c) && c.feed == s.feed :: c in s.before;
  }

  /** A scan goes on to s': it gives up what is handled or superseded, and nothing else. */
  lemma ScanGoesOn(t: Timing, g: State, settled: map<string, int>, r: Round, s: Scan, s': Scan)
    requires ScanOk(t, g, settled, r, s)
    requires s' == s.(rest := s'.rest, sent := s'.sent, pending := s'.pending, latest := s'.latest)
    requires s.latest == s'.latest || s.latest < s'.latest <= r.upTo
    requires s'.sent <= g.history && s'.pending <= g.history
    requires forall c | c in s'.sent || c in s'.pending :: c.time <= r.upTo
    requires forall c | (c in s.rest || c in s.sent || c in s.pending) && c in s.before && InWindow(r, s, c) ::
               c in s'.rest || c in s'.sent || c in s'.pending || Handled(t, g, c) || !InScope(t, g, c)
    ensures ScanOk(t, g, settled, r, s')
  {
    assert forall c :: InWindow(r, s', c) == InWindow(r, s, c);
  }

  lemma ReadPageLocal(t: Timing, g: State, server: string, part: set<Change>, page: set<Change>, latest: int, recorded: map<EventId, int>)
    requires t.Valid() && Inv(t, g) && Enabled(t, g, ReadPage(server, part, page, latest, recorded))
    ensures LocalOk(t, g, PageRead(g.servers[server], part, page, latest, recorded))
  {
    var l := g.servers[server];
    assert LocalOk(t, g, l);
    var r, s := l.phase.round, l.phase.scan;
    var l' := PageRead(l, part, page, latest, recorded);
    var s' := l'.phase.scan;
    assert page <= g.history;
    forall c | c in page && c.kind != "" && c !in s'.sent ensures Handled(t, g, c) {
      if Fresh(l.recorded, c) { ListedIsHandled(t, g, r, c); }
    }
    NotedOk(t, g, l.recorded, Unwanted(l.recorded, r.found, page), recorded);
    ScanGoesOn(t, g, l.settled, r, s, s') by {
      forall c | c in s.rest && c in s.before && InWindow(r, s, c) ensures c in s'.rest || c in s'.sent || Handled(t, g, c) || !InScope(t, g, c) {
        if c in part && InScope(t, g, c) { assert c in page; }
      }
    }
  }

  lemma FetchLocal(t: Timing, g: State, l: Local)
    requires Base(t, g) && LocalOk(t, g, l) && l.phase.Scanning? && l.phase.scan.pending == {}
    ensures LocalOk(t, g, l.(phase := Scanning(l.phase.round, l.phase.scan.(sent := {}, pending := set c | c in l.phase.scan.sent && Current(g, c)))))
  {
  }

  lemma RememberLocal(t: Timing, g: State, server: string, c: Change)
    requires t.Valid() && Inv(t, g) && Enabled(t, g, Remember(server, c))
    ensures LocalOk(t, g, Apply(t, g, Remember(server, c)).servers[server])
  {
    var l := g.servers[server];
    assert LocalOk(t, g, l);
    var r, s := l.phase.round, l.phase.scan;
    ListedIsHandled(t, g, r, c);
    assert Ids({c}) == {c.Id()};
    NotedOk(t, g, l.recorded, {c}, l.recorded[c.Id() := c.time]);
    ScanGoesOn(t, g, l.settled, r, s, s.(pending := s.pending - {c}));
  }

  /** Once a read is complete, everything at or before its bound is handled, save what committed
      after it began. */
  lemma CompleteHandles(t: Timing, g: State, server: string, c: Change)
    requires t.Valid() && Inv(t, g) && Complete(g, server)
    requires InScope(t, g, c) && c.feed == g.servers[server].phase.scan.feed
    requires c in g.servers[server].phase.scan.before && c.time <= g.servers[server].phase.round.upTo
    ensures Handled(t, g, c)
  {
    assert LocalOk(t, g, g.servers[server]);
    assert c in g.history;
  }

  lemma KeepLocal(t: Timing, g: State, server: string)
    requires t.Valid() && Inv(t, g) && Enabled(t, g, Keep(server))
    ensures LocalOk(t, g, Kept(t, g.servers[server]))
  {
    var l := g.servers[server];
    assert LocalOk(t, g, l);
    var r, s := l.phase.round, l.phase.scan;
    forall c | c in g.history && InScope(t, g, c) && c.feed == s.feed && c.time <= s.cursor.position && r.upTo >= s.cursor.position + t.lag
      ensures Handled(t, g, c)
    {
      CompleteHandles(t, g, server, c);
    }
  }

  /** Cursors only move on, and new ones may start. */
  ghost predicate Advanced(g: State, g': State) {
    && g' == g.(cursors := g'.cursors, first := g'.first, servers := g'.servers)
    && forall f | f in g.cursors ::
         && f in g'.cursors && f in g.first && f in g'.first && g'.first[f] == g.first[f]
         && g.cursors[f].position <= g'.cursors[f].position
         && g.cursors[f].etag <= g'.cursors[f].etag
         && (g.cursors[f].etag == g'.cursors[f].etag ==> g.cursors[f] == g'.cursors[f])
  }

  lemma AdvancedLocal(t: Timing, g: State, g': State, l: Local)
    requires g.first.Keys == g.cursors.Keys && Advanced(g, g') && LocalOk(t, g, l)
    ensures LocalOk(t, g', l)
  {
    assert forall c :: Handled(t, g, c) <==> Handled(t, g', c);
    assert forall c | InScope(t, g', c) && c.feed in g.cursors :: InScope(t, g, c);
    assert SettledOk(t, g', l.settled);
    if l.phase.Scanning? { assert ScanOk(t, g', l.settled, l.phase.round, l.phase.scan); }
  }

  lemma AdvancedInv(t: Timing, g: State, g': State, server: string, l: Local)
    requires Inv(t, g) && Advanced(g, g') && g'.servers == g.servers[server := l]
    requires Base(t, g') && LocalOk(t, g', l)
    ensures Inv(t, g')
  {
    forall o | o in g'.servers && o != server ensures LocalOk(t, g', g'.servers[o]) {
      AdvancedLocal(t, g, g', g.servers[o]);
    }
  }

  lemma ForgottenOk(t: Timing, g: State, recorded: map<EventId, int>, cutoff: int)
    requires RecordedOk(t, g, recorded)
    ensures RecordedOk(t, g, Forgotten(recorded, cutoff))
  {
  }

  lemma MovedBase(t: Timing, g: State, feed: string, latest: int, g': State)
    requires t.lag > 0 && Base(t, g) && feed in g.cursors
    requires g.cursors[feed].position < latest && latest + t.hookSettle <= g.now && g.now >= latest
    requires forall c | c in g.history && InScope(t, g, c) && c.feed == feed && c.time < latest - t.lag :: Handled(t, g, c)
    requires g' == g.(cursors := g.cursors[feed := Cursor(latest, g.cursors[feed].etag + 1)], servers := g'.servers)
    ensures Base(t, g') && Advanced(g, g')
  {
    assert forall c :: Handled(t, g, c) ==> Handled(t, g', c);
    assert forall c | InScope(t, g', c) :: InScope(t, g, c);
  }

  lemma MoveLocal(t: Timing, g: State, server: string)
    requires t.Valid() && Inv(t, g) && Enabled(t, g, Move(server))
    ensures LocalOk(t, g, Moved(t, g, server).servers[server])
  {
    var l := g.servers[server];
    assert LocalOk(t, g, l);
    ForgottenOk(t, g, l.recorded, l.phase.scan.latest - t.lag);
  }

  /** Behind where the cursor goes, everything is handled. */
  lemma BehindIsHandled(t: Timing, g: State, server: string)
    requires t.Valid() && Inv(t, g) && Enabled(t, g, Move(server))
    ensures var s := g.servers[server].phase.scan;
            g.first.Keys == g.cursors.Keys && CursorRead(g, s.feed, s.cursor) && s.latest + t.hookSettle <= g.now
            && forall c | c in g.history && InScope(t, g, c) && c.feed == s.feed && c.time < s.latest - t.lag :: Handled(t, g, c)
  {
    assert LocalOk(t, g, g.servers[server]);
    var s := g.servers[server].phase.scan;
    forall c | c in g.history && InScope(t, g, c) && c.feed == s.feed && c.time < s.latest - t.lag ensures Handled(t, g, c) {
      CompleteHandles(t, g, server, c);
    }
  }

  lemma MoveInv(t: Timing, g: State, server: string)
    requires t.Valid() && Inv(t, g) && Enabled(t, g, Move(server))
    ensures Inv(t, Moved(t, g, server))
  {
    hide Base, LocalOk, Handled, InScope, Advanced;
    var l, g' := g.servers[server], Moved(t, g, server);
    var s, l' := l.phase.scan, g'.servers[server];
    MoveLocal(t, g, server);
    if g'.cursors == g.cursors {
      LocalStepInv(t, g, server, l');
    } else {
      BehindIsHandled(t, g, server);
      MovedBase(t, g, s.feed, s.latest, g');
      AdvancedLocal(t, g, g', l');
      AdvancedInv(t, g, g', server, l');
    }
  }

  lemma CreatedBase(t: Timing, g: State, feed: string, at: int, g': State)
    requires Base(t, g) && feed !in g.cursors && at <= g.now
    requires g' == g.(cursors := g.cursors[feed := Cursor(at, 0)], first := g.first[feed := at], servers := g'.servers)
    ensures Base(t, g') && Advanced(g, g')
  {
    assert forall c :: Handled(t, g, c) ==> Handled(t, g', c);
    assert forall c | InScope(t, g', c) && c.feed in g.cursors :: InScope(t, g, c);
  }

  lemma CreateCursorInv(t: Timing, g: State, server: string)
    requires t.Valid() && Inv(t, g) && Enabled(t, g, CreateCursor(server))
    ensures Inv(t, Apply(t, g, CreateCursor(server)))
  {
    var l, g' := g.servers[server], Apply(t, g, CreateCursor(server));
    assert LocalOk(t, g, l);
    var l' := g'.servers[server];
    if l.phase.feed in g.cursors {
      LocalStepInv(t, g, server, l');
    } else {
      CreatedBase(t, g, l.phase.feed, l.phase.at, g');
      AdvancedLocal(t, g, g', l.(phase := Listing(l.phase.round, {})));
      AdvancedInv(t, g, g', server, l');
    }
  }

  predicate Surrounding(step: Step) {
    step.Tick? || step.Commit? || step.Purge? || step.AddHook? || step.EditHook? || step.DropHook? || step.Deliver?
  }

  predicate Reading(step: Step) {
    step.BeginRead? || step.ReadPage? || step.Fetch? || step.Remember? || step.Keep?
  }

  predicate Preparing(step: Step) {
    step.Boot? || step.Abort? || step.Start? || step.ListHooks? || step.ListPage? || step.GetCursor?
  }

  lemma ReadingLocal(t: Timing, g: State, step: Step)
    requires t.Valid() && Inv(t, g) && Enabled(t, g, step) && Reading(step)
    ensures LocalOk(t, g, Apply(t, g, step).servers[step.server])
  {
    hide Base, LocalOk;
    assert LocalOk(t, g, g.servers[step.server]);
    match step {
      case BeginRead(server) => BeginReadLocal(t, g, g.servers[server]);
      case ReadPage(server, part, page, latest, recorded) => ReadPageLocal(t, g, server, part, page, latest, recorded);
      case Fetch(server) => FetchLocal(t, g, g.servers[server]);
      case Remember(server, c) => RememberLocal(t, g, server, c);
      case Keep(server) => KeepLocal(t, g, server);
    }
  }

  lemma ReadingInv(t: Timing, g: State, step: Step)
    requires t.Valid() && Inv(t, g) && Enabled(t, g, step) && Reading(step)
    ensures Inv(t, Apply(t, g, step))
  {
    ReadingLocal(t, g, step);
    LocalStepInv(t, g, step.server, Apply(t, g, step).servers[step.server]);
  }

  lemma PreparingLocal(t: Timing, g: State, step: Step)
    requires t.Valid() && Inv(t, g) && Enabled(t, g, step) && Preparing(step)
    ensures LocalOk(t, g, Apply(t, g, step).servers[step.server])
  {
    assert !step.Boot? ==> LocalOk(t, g, g.servers[step.server]);
  }

  lemma PreparingInv(t: Timing, g: State, step: Step)
    requires t.Valid() && Inv(t, g) && Enabled(t, g, step)
    requires Preparing(step)
    ensures Inv(t, Apply(t, g, step))
  {
    hide Base, LocalOk;
    PreparingLocal(t, g, step);
    LocalStepInv(t, g, step.server, Apply(t, g, step).servers[step.server]);
  }

  lemma StepInv(t: Timing, g: State, step: Step)
    requires t.Valid() && t.Tolerated() && Inv(t, g) && Enabled(t, g, step)
    ensures Inv(t, Apply(t, g, step))
  {
    if Surrounding(step) {
      SurroundingsInv(t, g, step);
    } else if Reading(step) {
      ReadingInv(t, g, step);
    } else if step.Move? {
      MoveInv(t, g, step.server);
    } else if step.CreateCursor? {
      CreateCursorInv(t, g, step.server);
    } else {
      PreparingInv(t, g, step);
    }
  }

  // ---- whole runs -------------------------------------------------------------------------

  lemma {:induction false} RunInv(t: Timing, run: seq<State>, i: nat)
    requires t.Valid() && t.Tolerated() && Run(t, run) && i < |run|
    ensures Inv(t, run[i])
  {
    if i > 0 {
      RunInv(t, run, i - 1);
      assert Stepped(t, run, i);
      var step :| Enabled(t, run[i-1], step) && run[i] == Apply(t, run[i-1], step);
      StepInv(t, run[i-1], step);
    }
  }

  /** In every run, whatever the interleaving: a completed read has lost nothing. */
  lemma NoChangeLost(t: Timing, run: seq<State>, i: nat, server: string)
    requires t.Valid() && t.Tolerated() && Run(t, run) && i < |run| && Complete(run[i], server)
    ensures NothingLost(t, run[i], server)
  {
    var g := run[i];
    RunInv(t, run, i);
    var r, s := g.servers[server].phase.round, g.servers[server].phase.scan;
    assert LocalOk(t, g, g.servers[server]);
    forall c, n |
      && c in s.before && Current(g, c) && c.kind != ""
      && s.feed in g.first && g.first[s.feed] - t.lag <= c.time <= r.upTo
      && n in g.steady && n in g.hooks
      && (g.hooks[n].eventTypes == [] || c.kind in g.hooks[n].eventTypes)
      && (g.hooks[n].scope == "" || c.scope == g.hooks[n].scope) && g.hooks[n].createTime <= c.time
      ensures (n, c.Id()) in g.created
    {
      CompleteHandles(t, g, server, c);
    }
  }

  /** In every reachable state, a current version no window will reach again -- below Lag before
      the cursor, or at or before a position some server has settled -- has every delivery it is
      owed: nothing falls behind the cursor, and a settled position needs no reread. */
  lemma NothingFallsBehind(t: Timing, run: seq<State>, i: nat, c: Change, n: string)
    requires t.Valid() && t.Tolerated() && Run(t, run) && i < |run|
    requires Current(run[i], c) && c.kind != "" && c.feed in run[i].first && c.time >= run[i].first[c.feed] - t.lag
    requires || (c.feed in run[i].cursors && c.time < run[i].cursors[c.feed].position - t.lag)
             || exists s | s in run[i].servers ::
                  c.feed in run[i].servers[s].settled && c.time <= run[i].servers[s].settled[c.feed]
    requires n in run[i].steady && n in run[i].hooks
    requires run[i].hooks[n].eventTypes == [] || c.kind in run[i].hooks[n].eventTypes
    requires run[i].hooks[n].scope == "" || c.scope == run[i].hooks[n].scope
    requires run[i].hooks[n].createTime <= c.time
    ensures (n, c.Id()) in run[i].created
  {
    RunInv(t, run, i);
    assert InScope(t, run[i], c) && c in run[i].history;
    assert Handled(t, run[i], c);
  }
}
