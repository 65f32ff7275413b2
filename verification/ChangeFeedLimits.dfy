/** How late a write and a webhook may commit before a change is lost: exactly. */
module ChangeFeedLimits {
  import opened ChangeFeed
  import opened ChangeFeedProofs

  /** Every completed read of every run has lost nothing. */
  ghost predicate NeverLoses(t: Timing) {
    forall run, i, server | Run(t, run) && 0 <= i < |run| && Complete(run[i], server) ::
      NothingLost(t, run[i], server)
  }

  ghost predicate Reachable(t: Timing, g: State) {
    exists run | Run(t, run) :: run[|run| - 1] == g
  }

  lemma Then(t: Timing, g: State, step: Step, g': State)
    requires Reachable(t, g) && Enabled(t, g, step) && g' == Apply(t, g, step)
    ensures Reachable(t, g')
  {
    var run :| Run(t, run) && run[|run| - 1] == g;
    var longer := run + [g'];
    forall i | 0 < i < |longer| ensures Stepped(t, longer, i) {
      if i < |run| { assert Stepped(t, run, i); }
    }
    assert longer[|longer| - 1] == g';
  }

  lemma ReachableLoses(t: Timing, g: State, server: string)
    requires Reachable(t, g) && Complete(g, server) && !NothingLost(t, g, server)
    ensures !NeverLoses(t)
  {
    var run :| Run(t, run) && run[|run| - 1] == g;
  }

  const V: Change := Change("f", "r", "1", "k", 0, "")
  const W: Webhook := Webhook([], "", false, 0)

  /** One server, perhaps a record, perhaps a webhook, a cursor begun at 0. */
  ghost function Small(now: int, written: bool, hooked: bool, l: Local): State {
    var records := if written then map["r" := V] else map[];
    var hooks := if hooked then map["w" := W] else map[];
    State(now, records, if written then {V} else {}, hooks, if hooked then {"w"} else {},
          map["f" := Cursor(0, 0)], map["f" := 0], {}, map["s" := l])
  }

  ghost function Hooks(hooked: bool): map<string, Webhook> { if hooked then map["w" := W] else map[] }

  const FORGETFUL: Local := Local(map[], map[], Idle)

  /** A server's first round starts the cursor at 0, and then stops. */
  lemma CursorStarted(t: Timing, hooked: bool)
    requires t.Valid()
    ensures Reachable(t, Small(0, false, hooked, FORGETFUL))
  {
    var g := Small(0, false, hooked, FORGETFUL).(cursors := map[], first := map[]);
    var empty := g.(servers := map[]);
    assert Reachable(t, empty) by { assert Run(t, [empty]); assert [empty][|[empty]| - 1] == empty; }
    Then(t, empty, Boot("s"), g);
    ListedFrom(t, g, FORGETFUL, hooked);
    CursorCreated(t, g, hooked);
  }

  lemma CursorCreated(t: Timing, g: State, hooked: bool)
    requires g == Small(0, false, hooked, FORGETFUL).(cursors := map[], first := map[])
    requires Reachable(t, With(g, "s", FORGETFUL.(phase := Listing(Round(0 - t.hookSettle, Hooks(hooked)), {}))))
    ensures Reachable(t, Small(0, false, hooked, FORGETFUL))
  {
    hide Reachable;
    var r := Round(0 - t.hookSettle, Hooks(hooked));
    var creating := With(g, "s", FORGETFUL.(phase := Creating(r, "f", 0)));
    var inHand := Small(0, false, hooked, FORGETFUL.(phase := Opened(r, "f", Cursor(0, 0))));
    Then(t, With(g, "s", FORGETFUL.(phase := Listing(r, {}))), GetCursor("s", "f"), creating);
    Then(t, creating, CreateCursor("s"), inHand);
    Stopped(t, inHand, hooked, inHand.servers["s"]);
  }

  lemma Stopped(t: Timing, g: State, hooked: bool, l: Local)
    requires Reachable(t, g) && g == Small(0, false, hooked, l) && l.recorded == map[] && l.settled == map[]
    ensures Reachable(t, Small(0, false, hooked, FORGETFUL))
  {
    Ended(t, g, l);
    assert With(g, "s", l.(phase := Idle)) == Small(0, false, hooked, FORGETFUL);
  }

  /** A round ends, and the server keeps what it remembers. */
  lemma Ended(t: Timing, g: State, l: Local)
    requires Reachable(t, g) && "s" in g.servers && g.servers["s"] == l
    ensures Reachable(t, With(g, "s", l.(phase := Idle)))
  {
    hide Reachable;
    assert (map id | id in l.recorded && id in l.recorded.Keys :: l.recorded[id]) == l.recorded;
    Then(t, g, Abort("s", l.recorded.Keys), With(g, "s", l.(phase := Idle)));
  }

  /** A round starts and lists the webhooks. */
  lemma ListedFrom(t: Timing, g: State, l: Local, hooked: bool)
    requires Reachable(t, g) && g.servers == map["s" := l] && l.phase == Idle
    requires g.hooks == Hooks(hooked)
    ensures Reachable(t, With(g, "s", l.(phase := Listing(Round(g.now - t.hookSettle, Hooks(hooked)), {}))))
  {
    hide Reachable;
    var upTo := g.now - t.hookSettle;
    var starting := With(g, "s", l.(phase := Starting(upTo)));
    var listing := With(g, "s", l.(phase := Listing(Round(upTo, map[]), g.hooks.Keys)));
    Then(t, g, Start("s"), starting);
    Then(t, starting, ListHooks("s"), listing);
    PageFrom(t, g, l, hooked);
  }

  lemma PageFrom(t: Timing, g: State, l: Local, hooked: bool)
    requires g.hooks == Hooks(hooked)
    requires Reachable(t, With(g, "s", l.(phase := Listing(Round(g.now - t.hookSettle, map[]), g.hooks.Keys))))
    ensures Reachable(t, With(g, "s", l.(phase := Listing(Round(g.now - t.hookSettle, Hooks(hooked)), {}))))
  {
    hide Reachable;
    var upTo := g.now - t.hookSettle;
    var listing := With(g, "s", l.(phase := Listing(Round(upTo, map[]), g.hooks.Keys)));
    var listed := With(g, "s", l.(phase := Listing(Round(upTo, Hooks(hooked)), {})));
    assert (map n | n in g.hooks.Keys && n in g.hooks && !g.hooks[n].paused :: g.hooks[n]) == Hooks(hooked);
    assert g.hooks.Keys - g.hooks.Keys == {} && map[] + Hooks(hooked) == Hooks(hooked);
    Then(t, listing, ListPage("s", g.hooks.Keys), listed);
  }

  ghost function Reading(t: Timing, now: int, written: bool, hooked: bool, l: Local, r: Round): State {
    var before := if written then {V} else {};
    var settled := "f" in l.settled && l.settled["f"] == 0;
    var s := Scan("f", Cursor(0, 0), if settled then 0 else 0 - t.lag, !settled, before,
                  if r.upTo >= 0 && !settled then before else {}, {}, {}, 0);
    Small(now, written, hooked, l.(phase := Scanning(r, s)))
  }

  /** It gets the cursor and begins to read. */
  lemma ReadFrom(t: Timing, now: int, written: bool, hooked: bool, l: Local, r: Round)
    requires t.lag > 0 && l.phase == Listing(r, {})
    requires Reachable(t, Small(now, written, hooked, l))
    ensures Reachable(t, Reading(t, now, written, hooked, l, r))
  {
    hide Reachable;
    var inHand := Small(now, written, hooked, l.(phase := Opened(r, "f", Cursor(0, 0))));
    Then(t, Small(now, written, hooked, l), GetCursor("s", "f"), inHand);
    BeginFrom(t, now, written, hooked, l, r);
  }

  lemma BeganIs(t: Timing, g: State, l: Local)
    requires "s" in g.servers && g.servers["s"] == l && l.phase.Opened?
    ensures Enabled(t, g, BeginRead("s"))
    ensures Apply(t, g, BeginRead("s"))
            == With(g, "s", l.(phase := Scanning(l.phase.round, OpenScan(t, g, l, l.phase.feed, l.phase.cursor, l.phase.round))))
  {
  }

  lemma BeginFrom(t: Timing, now: int, written: bool, hooked: bool, l: Local, r: Round)
    requires t.lag > 0
    requires Reachable(t, Small(now, written, hooked, l.(phase := Opened(r, "f", Cursor(0, 0)))))
    ensures Reachable(t, Reading(t, now, written, hooked, l, r))
  {
    hide Reachable, OpenScan, Apply, Enabled;
    var inHand := Small(now, written, hooked, l.(phase := Opened(r, "f", Cursor(0, 0))));
    BeganIs(t, inHand, inHand.servers["s"]);
    OpenedScan(t, inHand, written, inHand.servers["s"], r);
    Then(t, inHand, BeginRead("s"), Reading(t, now, written, hooked, l, r));
  }

  lemma CurrentThen(records: map<string, Change>, written: bool)
    requires records == if written then map["r" := V] else map[]
    ensures (set n | n in records && records[n].feed == "f" :: records[n]) == if written then {V} else {}
  {
    assert written ==> "r" in records && records["r"] == V;
  }

  lemma OpenedScan(t: Timing, g: State, written: bool, l: Local, r: Round)
    requires t.lag > 0 && g.records == if written then map["r" := V] else map[]
    ensures OpenScan(t, g, l, "f", Cursor(0, 0), r) == Reading(t, g.now, written, false, l, r).servers["s"].phase.scan
  {
    var s := OpenScan(t, g, l, "f", Cursor(0, 0), r);
    CurrentThen(g.records, written);
    assert s.rest == Reading(t, g.now, written, false, l, r).servers["s"].phase.scan.rest;
  }

  /** A webhook that commits HookSettle after its create time, just after a round listed the
      webhooks, misses the change made with it -- for good: the server remembers the change as
      recorded for nobody. */
  lemma LateWebhookLoses(t: Timing)
    requires t.Valid() && t.hookWithin >= t.hookSettle
    ensures !NeverLoses(t)
  {
    hide Reachable;
    var r := Round(0, map[]);
    CursorStarted(t, false);
    var written := Small(0, true, false, FORGETFUL);
    Then(t, Small(0, false, false, FORGETFUL), Commit(V), written);
    var later := Small(t.hookSettle, true, false, FORGETFUL);
    Then(t, written, Tick(t.hookSettle), later);
    ListedFrom(t, later, FORGETFUL, false);
    var l := FORGETFUL.(phase := Listing(r, {}));
    assert With(later, "s", l) == Small(t.hookSettle, true, false, l);
    Then(t, Small(t.hookSettle, true, false, l), AddHook("w", W), Small(t.hookSettle, true, true, l));
    ReadFrom(t, t.hookSettle, true, true, l, r);
    WebhookMissed(t, l, r);
  }

  lemma WebhookMissed(t: Timing, l: Local, r: Round)
    requires t.Valid() && r == Round(0, map[]) && l == Local(map[], map[], Listing(r, {}))
    requires Reachable(t, Reading(t, t.hookSettle, true, true, l, r))
    ensures !NeverLoses(t)
  {
    hide Reachable;
    var reading := Reading(t, t.hookSettle, true, true, l, r);
    var recorded := map[V.Id() := 0];
    assert Unwanted(map[], map[], {V}) == {V} && Ids({V}) == {V.Id()};
    var read := With(reading, "s", PageRead(reading.servers["s"], {V}, {V}, 0, recorded));
    Then(t, reading, ReadPage("s", {V}, {V}, 0, recorded), read);
    var s := read.servers["s"].phase.scan;
    assert s.sent == {};
    assert V in s.before && ("w", V.Id()) !in read.created && Wants(read.hooks["w"], V);
    ReachableLoses(t, read, "s");
  }

  /** A write that commits Lag and HookSettle after its update time, as an idle feed settles, is
      never read: the rounds after read only what is newer than the cursor. */
  lemma LateWriteLoses(t: Timing)
    requires t.Valid() && t.commitWithin >= t.lag + t.hookSettle
    ensures !NeverLoses(t)
  {
    hide Reachable;
    var now, r := t.lag + t.hookSettle, Round(t.lag, map["w" := W]);
    CursorStarted(t, true);
    var later := Small(now, false, true, FORGETFUL);
    Then(t, Small(0, false, true, FORGETFUL), Tick(now), later);
    ListedFrom(t, later, FORGETFUL, true);
    var l := FORGETFUL.(phase := Listing(r, {}));
    assert With(later, "s", l) == Small(now, false, true, l);
    ReadFrom(t, now, false, true, l, r);
    SettledTooSoon(t, now, l, r);
    var settled := Local(map[], map["f" := 0], Listing(r, {}));
    var idle := Small(now, true, true, settled.(phase := Idle));
    ListedFrom(t, idle, settled.(phase := Idle), true); // the next round
    assert With(idle, "s", settled) == Small(now, true, true, settled);
    ReadFrom(t, now, true, true, settled, r);
    var read := Reading(t, now, true, true, settled, r);
    assert V in read.servers["s"].phase.scan.before && ("w", V.Id()) !in read.created && Wants(read.hooks["w"], V);
    ReachableLoses(t, read, "s");
  }

  lemma SettledTooSoon(t: Timing, now: int, l: Local, r: Round)
    requires t.Valid() && t.commitWithin >= now == t.lag + t.hookSettle
    requires r == Round(t.lag, map["w" := W]) && l == Local(map[], map[], Listing(r, {}))
    requires Reachable(t, Reading(t, now, false, true, l, r))
    ensures Reachable(t, Small(now, true, true, Local(map[], map["f" := 0], Idle)))
  {
    hide Reachable;
    var reading := Reading(t, now, false, true, l, r);
    var written := Small(now, true, true, reading.servers["s"]);
    Then(t, reading, Commit(V), written);
    var l' := Local(map[], map["f" := 0], Listing(r, {}));
    assert Kept(t, written.servers["s"]) == l';
    var kept := Small(now, true, true, l');
    Then(t, written, Keep("s"), kept);
    Ended(t, kept, l');
    assert With(kept, "s", l'.(phase := Idle)) == Small(now, true, true, l'.(phase := Idle));
  }

  /** No change is ever lost if and only if writes commit sooner than Lag + HookSettle after their
      update time and webhooks sooner than HookSettle after their create time. */
  lemma NeverLosesExactly(t: Timing)
    requires t.Valid()
    ensures NeverLoses(t) <==> t.commitWithin < t.lag + t.hookSettle && t.hookWithin < t.hookSettle
  {
    if t.Tolerated() {
      forall run, i, server | Run(t, run) && 0 <= i < |run| && Complete(run[i], server)
        ensures NothingLost(t, run[i], server)
      {
        NoChangeLost(t, run, i, server);
      }
    } else if t.hookWithin >= t.hookSettle {
      LateWebhookLoses(t);
    } else {
      LateWriteLoses(t);
    }
  }
}
