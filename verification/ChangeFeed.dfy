/** The change-feed dispatcher of events/dispatcher.go as a state machine: any number of
    servers, one shared store, one action per store call. A clock tick, a late commit, another
    server's step or a crash may fall between any two of them. */
module ChangeFeed {

  /** EventID(name, etag): one version of one record. Module Names shows that the derived
      string identifies the pair. */
  datatype EventId = EventId(name: string, etag: string)

  /** One version of one record, as a feed reads it. An empty kind is a write nobody is sent. */
  datatype Change = Change(feed: string, name: string, etag: string, kind: string, time: int, scope: string) {
    function Id(): EventId { EventId(name, etag) }
  }

  datatype Webhook = Webhook(eventTypes: seq<string>, scope: string, paused: bool, createTime: int)

  predicate Wants(w: Webhook, c: Change) {
    && (|w.eventTypes| > 0 ==> c.kind in w.eventTypes)
    && (w.scope != "" ==> c.scope == w.scope)
    && c.time >= w.createTime
  }

  predicate WantedBy(hooks: map<string, Webhook>, c: Change) {
    exists n | n in hooks :: Wants(hooks[n], c)
  }

  /** lag and hookSettle are the dispatcher's options. The other two describe its surroundings:
      how long after its update time a write may commit, and after its create time a webhook. */
  datatype Timing = Timing(lag: int, hookSettle: int, commitWithin: int, hookWithin: int) {
    /** What NewDispatcher makes of the options, and delays that are delays. */
    predicate Valid() { lag > 0 && hookSettle > 0 && commitWithin >= 0 && hookWithin >= 0 }

    /** The delays the dispatcher tolerates (proved exact in ChangeFeedLimits). */
    predicate Tolerated() { commitWithin < lag + hookSettle && hookWithin < hookSettle }
  }

  /** The etag changes with every write of the cursor. */
  datatype Cursor = Cursor(position: int, etag: nat)

  /** A round's bound on changes and the unpaused webhooks it read. */
  datatype Round = Round(upTo: int, found: map<string, Webhook>)

  /** One feed's read. `before` is history: the versions current when the read began.
      `rest` are those in the window that no page has covered yet, `sent` a page's changes some
      webhook wants, `pending` those of them whose record was fetched unchanged. */
  datatype Scan = Scan(feed: string, cursor: Cursor, since: int, inclusive: bool,
                       before: set<Change>, rest: set<Change>, sent: set<Change>, pending: set<Change>,
                       latest: int)

  datatype Phase =
    | Idle
    | Starting(upTo: int)
    | Listing(round: Round, left: set<string>)
    | Creating(round: Round, feed: string, at: int)
    | Opened(round: Round, feed: string, cursor: Cursor)
    | Scanning(round: Round, scan: Scan)

  /** One server's private memory: Dispatcher.recorded, Dispatcher.settled, and where it is. */
  datatype Local = Local(recorded: map<EventId, int>, settled: map<string, int>, phase: Phase)

  /** `history` (every version ever committed), `steady` (webhooks never edited or paused since
      they were committed), `first` (each cursor's first position) and `created` (every delivery
      ever created) are history; the rest is the store and the servers. */
  datatype State = State(now: int, records: map<string, Change>, history: set<Change>,
                         hooks: map<string, Webhook>, steady: set<string>,
                         cursors: map<string, Cursor>, first: map<string, int>,
                         created: set<(string, EventId)>, servers: map<string, Local>)

  predicate Init(g: State) {
    && (forall n | n in g.records :: g.records[n].name == n)
    && g.history == g.records.Values
    && g.steady == (set n | n in g.hooks && !g.hooks[n].paused)
    && g.cursors == map[] && g.first == map[] && g.created == {} && g.servers == map[]
  }

  datatype Step =
    | Tick(to: int)
    | Commit(c: Change)
    | Purge(record: string)
    | AddHook(n: string, w: Webhook)
    | EditHook(n: string, w: Webhook)
    | DropHook(n: string)
    | Boot(server: string)
    | Abort(server: string, kept: set<EventId>)
    | Start(server: string)
    | ListHooks(server: string)
    | ListPage(server: string, names: set<string>)
    | GetCursor(server: string, feed: string)
    | CreateCursor(server: string)
    | BeginRead(server: string)
    | ReadPage(server: string, part: set<Change>, page: set<Change>, latest: int, recorded: map<EventId, int>)
    | Fetch(server: string)
    | Deliver(server: string, hook: string, change: Change)
    | Remember(server: string, change: Change)
    | Keep(server: string)
    | Move(server: string)

  predicate Current(g: State, c: Change) { c.name in g.records && g.records[c.name] == c }

  predicate InWindow(r: Round, s: Scan, c: Change) {
    (if s.inclusive then c.time >= s.since else c.time > s.since) && c.time <= r.upTo
  }

  /** The scan of `server` has read every page and recorded what it read. */
  predicate Complete(g: State, server: string) {
    && server in g.servers && g.servers[server].phase.Scanning?
    && var s := g.servers[server].phase.scan;
    s.rest == {} && s.sent == {} && s.pending == {}
  }

  predicate IsLatest(was: int, page: set<Change>, latest: int) {
    && was <= latest
    && (forall c | c in page :: c.time <= latest)
    && (latest == was || exists c | c in page :: c.time == latest)
  }

  /** A page's changes are skipped when they are of no kind or seen already. */
  predicate Fresh(recorded: map<EventId, int>, c: Change) { c.kind != "" && c.Id() !in recorded }

  function Wanted(recorded: map<EventId, int>, found: map<string, Webhook>, page: set<Change>): set<Change> {
    set c | c in page && Fresh(recorded, c) && WantedBy(found, c)
  }

  function Unwanted(recorded: map<EventId, int>, found: map<string, Webhook>, page: set<Change>): set<Change> {
    set c | c in page && Fresh(recorded, c) && !WantedBy(found, c)
  }

  function Ids(cs: set<Change>): set<EventId> { set c | c in cs :: c.Id() }

  /** `now` is `was` with the changes cs remembered, none of which it held. */
  predicate IsNoted(was: map<EventId, int>, cs: set<Change>, now: map<EventId, int>) {
    && now.Keys == was.Keys + Ids(cs)
    && (forall id | id in was :: now[id] == was[id])
    && (forall c | c in cs :: c.Id() in now && now[c.Id()] == c.time)
  }

  predicate Enabled(t: Timing, g: State, step: Step) {
    match step
    case Tick(to) => g.now <= to
    case Commit(c) =>
      && g.now <= c.time + t.commitWithin
      && (forall d | d in g.history :: d.Id() != c.Id())
    case Purge(record) => record in g.records
    case AddHook(n, w) => n !in g.hooks && g.now <= w.createTime + t.hookWithin
    case EditHook(n, _) => n in g.hooks
    case DropHook(n) => n in g.hooks
    case Boot(_) => true
    case Abort(server, _) => server in g.servers
    case Start(server) => server in g.servers && g.servers[server].phase.Idle?
    case ListHooks(server) => server in g.servers && g.servers[server].phase.Starting?
    case ListPage(server, _) => server in g.servers && g.servers[server].phase.Listing?
    case GetCursor(server, _) =>
      && server in g.servers && g.servers[server].phase.Listing?
      && g.servers[server].phase.left == {}
    case CreateCursor(server) => server in g.servers && g.servers[server].phase.Creating?
    case BeginRead(server) => server in g.servers && g.servers[server].phase.Opened?
    case ReadPage(server, part, page, latest, recorded) =>
      && server in g.servers && g.servers[server].phase.Scanning?
      && var r, s := g.servers[server].phase.round, g.servers[server].phase.scan;
      && s.sent == {} && s.pending == {} && part <= s.rest
      && (forall c | c in page :: Current(g, c) && c.feed == s.feed && InWindow(r, s, c))
      && (forall c | c in part && Current(g, c) && c.feed == s.feed && InWindow(r, s, c) :: c in page)
      && IsLatest(s.latest, page, latest)
      && IsNoted(g.servers[server].recorded, Unwanted(g.servers[server].recorded, r.found, page), recorded)
    case Fetch(server) =>
      && server in g.servers && g.servers[server].phase.Scanning?
      && g.servers[server].phase.scan.pending == {}
    case Deliver(server, hook, change) =>
      && server in g.servers && g.servers[server].phase.Scanning?
      && var found := g.servers[server].phase.round.found;
      && change in g.servers[server].phase.scan.pending
      && hook in found && Wants(found[hook], change)
    case Remember(server, change) =>
      && server in g.servers && g.servers[server].phase.Scanning?
      && var found := g.servers[server].phase.round.found;
      && change in g.servers[server].phase.scan.pending
      && (forall n | n in found && Wants(found[n], change) :: (n, change.Id()) in g.created)
    case Keep(server) =>
      Complete(g, server) && g.servers[server].phase.scan.latest <= g.servers[server].phase.scan.cursor.position
    case Move(server) =>
      Complete(g, server) && g.servers[server].phase.scan.latest > g.servers[server].phase.scan.cursor.position
  }

  /** Dispatcher.forget: drop what was recorded before the cutoff. */
  function Forgotten(recorded: map<EventId, int>, cutoff: int): map<EventId, int> {
    map id | id in recorded && recorded[id] >= cutoff :: recorded[id]
  }

  function With(g: State, server: string, l: Local): State { g.(servers := g.servers[server := l]) }

  /** The feed is done; the round goes on to the next one. */
  function Done(r: Round): Phase { Listing(r, {}) }

  function OpenScan(t: Timing, g: State, l: Local, feed: string, cursor: Cursor, r: Round): Scan {
    var pos := cursor.position;
    var settled := feed in l.settled && l.settled[feed] == pos;
    var before := set n | n in g.records && g.records[n].feed == feed :: g.records[n];
    var s := Scan(feed, cursor, if settled then pos else pos - t.lag, !settled, before, {}, {}, {}, pos);
    s.(rest := set c | c in before && InWindow(r, s, c))
  }

  function PageRead(l: Local, part: set<Change>, page: set<Change>, latest: int, recorded: map<EventId, int>): Local
    requires l.phase.Scanning?
  {
    var r, s := l.phase.round, l.phase.scan;
    Local(recorded, l.settled,
          Scanning(r, s.(rest := s.rest - part, latest := latest,
                         sent := Wanted(l.recorded, r.found, page))))
  }

  function Kept(t: Timing, l: Local): Local
    requires l.phase.Scanning?
  {
    var r, s := l.phase.round, l.phase.scan;
    var pos := s.cursor.position;
    Local(Forgotten(l.recorded, s.latest - t.lag),
          if r.upTo >= pos + t.lag then l.settled[s.feed := pos] else l.settled,
          Done(r))
  }

  function Moved(t: Timing, g: State, server: string): State
    requires Complete(g, server)
  {
    var l := g.servers[server];
    var r, s := l.phase.round, l.phase.scan;
    var g' := With(g, server, Local(Forgotten(l.recorded, s.latest - t.lag), l.settled, Done(r)));
    if s.feed in g.cursors && g.cursors[s.feed].etag == s.cursor.etag
    then g'.(cursors := g.cursors[s.feed := Cursor(s.latest, s.cursor.etag + 1)])
    else g' // ErrConflict: another server moved it
  }

  function Apply(t: Timing, g: State, step: Step): State
    requires Enabled(t, g, step)
  {
    match step
    case Tick(to) => g.(now := to)
    case Commit(c) => g.(records := g.records[c.name := c], history := g.history + {c})
    case Purge(record) => g.(records := g.records - {record})
    case AddHook(n, w) => g.(hooks := g.hooks[n := w], steady := if w.paused then g.steady - {n} else g.steady + {n})
    case EditHook(n, w) => g.(hooks := g.hooks[n := w], steady := g.steady - {n})
    case DropHook(n) => g.(hooks := g.hooks - {n}, steady := g.steady - {n})
    case Boot(server) => With(g, server, Local(map[], map[], Idle))
    case Abort(server, kept) => // the round is over, or a store call failed: perhaps after forget
      var l := g.servers[server];
      With(g, server, l.(recorded := map id | id in l.recorded && id in kept :: l.recorded[id], phase := Idle))
    case Start(server) => With(g, server, g.servers[server].(phase := Starting(g.now - t.hookSettle)))
    case ListHooks(server) =>
      With(g, server, g.servers[server].(phase := Listing(Round(g.servers[server].phase.upTo, map[]), g.hooks.Keys)))
    case ListPage(server, names) =>
      var p := g.servers[server].phase; // a page may hold webhooks newer than the first one, too
      var read := map n | n in names && n in g.hooks && !g.hooks[n].paused :: g.hooks[n];
      With(g, server, g.servers[server].(phase := Listing(p.round.(found := p.round.found + read), p.left - names)))
    case GetCursor(server, feed) =>
      var r := g.servers[server].phase.round;
      With(g, server, g.servers[server].(phase := if feed in g.cursors then Opened(r, feed, g.cursors[feed]) else Creating(r, feed, g.now)))
    case CreateCursor(server) =>
      var p := g.servers[server].phase;
      if p.feed in g.cursors // ErrAlreadyExists
      then With(g, server, g.servers[server].(phase := Opened(p.round, p.feed, g.cursors[p.feed])))
      else With(g.(cursors := g.cursors[p.feed := Cursor(p.at, 0)], first := g.first[p.feed := p.at]),
                server, g.servers[server].(phase := Opened(p.round, p.feed, Cursor(p.at, 0))))
    case BeginRead(server) =>
      var p := g.servers[server].phase;
      With(g, server, g.servers[server].(phase := Scanning(p.round, OpenScan(t, g, g.servers[server], p.feed, p.cursor, p.round))))
    case ReadPage(server, part, page, latest, recorded) =>
      With(g, server, PageRead(g.servers[server], part, page, latest, recorded))
    case Fetch(server) =>
      var s := g.servers[server].phase.scan;
      With(g, server, g.servers[server].(phase := Scanning(g.servers[server].phase.round,
           s.(sent := {}, pending := set c | c in s.sent && Current(g, c)))))
    case Deliver(server, hook, change) => g.(created := g.created + {(hook, change.Id())})
    case Remember(server, change) =>
      var l := g.servers[server];
      With(g, server, Local(l.recorded[change.Id() := change.time], l.settled,
           Scanning(l.phase.round, l.phase.scan.(pending := l.phase.scan.pending - {change}))))
    case Keep(server) => With(g, server, Kept(t, g.servers[server]))
    case Move(server) => Moved(t, g, server)
  }

  /** The i-th state is one step after the one before. */
  ghost predicate Stepped(t: Timing, run: seq<State>, i: nat)
    requires 0 < i < |run|
  {
    Next(t, run[i-1], run[i])
  }

  /** A run: the states reached by a list of enabled steps from an initial one. */
  ghost predicate Run(t: Timing, run: seq<State>) {
    && |run| > 0 && Init(run[0])
    && forall i | 0 < i < |run| :: Stepped(t, run, i)
  }

  ghost predicate Next(t: Timing, g: State, g': State) {
    exists step :: Enabled(t, g, step) && g' == Apply(t, g, step)
  }

  /** What `server` owes when its read of a feed is complete: every version that was current
      when the read began and still is, of a kind, and no older than Lag before the cursor's
      first position, has a delivery for every webhook, never edited or paused, that asks for its
      kind or every kind, for its scope or every scope, and was there when it happened. */
  ghost predicate NothingLost(t: Timing, g: State, server: string)
    requires Complete(g, server)
  {
    var r, s := g.servers[server].phase.round, g.servers[server].phase.scan;
    forall c, n |
      && c in s.before && Current(g, c) && c.kind != ""
      && s.feed in g.first && g.first[s.feed] - t.lag <= c.time <= r.upTo
      && n in g.steady && n in g.hooks
      && (g.hooks[n].eventTypes == [] || c.kind in g.hooks[n].eventTypes)
      && (g.hooks[n].scope == "" || c.scope == g.hooks[n].scope) && g.hooks[n].createTime <= c.time
      :: (n, c.Id()) in g.created
  }
}
