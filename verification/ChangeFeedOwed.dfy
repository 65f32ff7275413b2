/** Nobody is sent what they did not ask for: in every run of the change feed, whatever the delays,
    a delivery is only ever created for a version that was committed and a webhook that was listed
    and wanted it. */
module ChangeFeedOwed {
  import opened ChangeFeed
  import opened Wrappers

  function RoundOf(p: Phase): Option<Round> {
    match p
    case Idle => None
    case Starting(_) => None
    case Listing(r, _) => Some(r)
    case Creating(r, _, _) => Some(r)
    case Opened(r, _, _) => Some(r)
    case Scanning(r, _) => Some(r)
  }

  /** By the i-th state of the run a webhook of this name was listed, so, and not paused. */
  ghost predicate Listed(run: seq<State>, i: nat, n: string, w: Webhook)
    requires i < |run|
  {
    !w.paused && exists j | 0 <= j <= i :: n in run[j].hooks && run[j].hooks[n] == w
  }

  /** What may be sent: a version committed, of a kind. */
  ghost predicate Sendable(g: State, c: Change) { c in g.history && c.kind != "" }

  /** The delivery is of a version that was committed, of a kind, to a webhook that was listed and
      wants it. */
  ghost predicate Owed(run: seq<State>, i: nat, n: string, id: EventId)
    requires i < |run|
  {
    exists c, w :: Sendable(run[i], c) && c.Id() == id && Wants(w, c) && Listed(run, i, n, w)
  }

  ghost predicate LocalOwed(run: seq<State>, i: nat, l: Local)
    requires i < |run|
  {
    && (RoundOf(l.phase).Some? ==>
          var found := RoundOf(l.phase).value.found;
          forall n | n in found :: Listed(run, i, n, found[n]))
    && (l.phase.Scanning? ==> forall c | c in l.phase.scan.sent + l.phase.scan.pending :: Sendable(run[i], c))
  }

  ghost predicate AllOwed(run: seq<State>, i: nat)
    requires i < |run|
  {
    && (forall n | n in run[i].records :: run[i].records[n] in run[i].history)
    && (forall s | s in run[i].servers :: LocalOwed(run, i, run[i].servers[s]))
    && (forall p | p in run[i].created :: Owed(run, i, p.0, p.1))
  }

  /** What was so stays so. */
  lemma StillOwed(run: seq<State>, i: nat, l: Local)
    requires 0 < i < |run| && run[i-1].history <= run[i].history && LocalOwed(run, i - 1, l)
    ensures LocalOwed(run, i, l)
  {
    hide Sendable;
    if RoundOf(l.phase).Some? {
      var found := RoundOf(l.phase).value.found;
      forall n | n in found ensures Listed(run, i, n, found[n]) { assert Listed(run, i - 1, n, found[n]); }
    }
    if l.phase.Scanning? {
      forall c | c in l.phase.scan.sent + l.phase.scan.pending ensures Sendable(run[i], c) { StillSendable(run[i-1], run[i], c); }
    }
  }

  lemma StillSendable(g: State, g': State, c: Change)
    requires g.history <= g'.history && Sendable(g, c)
    ensures Sendable(g', c)
  {
  }

  lemma StillOwedTo(run: seq<State>, i: nat, n: string, id: EventId)
    requires 0 < i < |run| && run[i-1].history <= run[i].history && Owed(run, i - 1, n, id)
    ensures Owed(run, i, n, id)
  {
    var c, w :| Sendable(run[i-1], c) && c.Id() == id && Wants(w, c) && Listed(run, i - 1, n, w);
    assert Sendable(run[i], c) && Listed(run, i, n, w);
  }

  lemma HistoryGrows(t: Timing, g: State, step: Step)
    requires Enabled(t, g, step)
    ensures g.history <= Apply(t, g, step).history
  {
  }

  lemma PageListed(t: Timing, run: seq<State>, i: nat, s: string, names: set<string>)
    requires 0 < i < |run| && Enabled(t, run[i-1], ListPage(s, names)) && run[i] == Apply(t, run[i-1], ListPage(s, names))
    requires LocalOwed(run, i, run[i-1].servers[s])
    ensures LocalOwed(run, i, run[i].servers[s])
  {
    var g, l, l' := run[i-1], run[i-1].servers[s], run[i].servers[s];
    var found, was := l'.phase.round.found, l.phase.round.found;
    forall n | n in found ensures Listed(run, i, n, found[n]) {
      if !(n in names && n in g.hooks && !g.hooks[n].paused) { assert Listed(run, i, n, was[n]); }
    }
  }

  lemma PageSendable(t: Timing, run: seq<State>, i: nat, step: Step, s: string)
    requires 0 < i < |run| && step.ReadPage? && step.server == s && AllOwed(run, i - 1)
    requires Enabled(t, run[i-1], step) && run[i] == Apply(t, run[i-1], step)
    requires LocalOwed(run, i, run[i-1].servers[s])
    ensures LocalOwed(run, i, run[i].servers[s])
  {
    hide Listed;
    var g, l' := run[i-1], run[i].servers[s];
    forall c | c in l'.phase.scan.sent ensures Sendable(run[i], c) { assert c in step.page && Current(g, c); }
  }

  lemma ScanStep(t: Timing, run: seq<State>, i: nat, step: Step, s: string)
    requires 0 < i < |run| && (step.BeginRead? || step.Fetch? || step.Remember? || step.Keep? || step.Move?) && step.server == s
    requires Enabled(t, run[i-1], step) && run[i] == Apply(t, run[i-1], step)
    requires LocalOwed(run, i, run[i-1].servers[s])
    ensures LocalOwed(run, i, run[i].servers[s])
  {
    hide Listed, Sendable;
  }

  lemma PlainStep(t: Timing, run: seq<State>, i: nat, step: Step, s: string)
    requires 0 < i < |run| && !step.BeginRead? && !step.Fetch? && !step.Remember? && !step.Keep? && !step.Move?
    requires !step.ListPage? && !step.ReadPage?
    requires Enabled(t, run[i-1], step) && run[i] == Apply(t, run[i-1], step)
    requires s in run[i].servers && (s in run[i-1].servers ==> LocalOwed(run, i, run[i-1].servers[s]))
    ensures LocalOwed(run, i, run[i].servers[s])
  {
    hide Listed, Sendable;
  }

  lemma ServerOwed(run: seq<State>, i: nat, s: string)
    requires i < |run| && AllOwed(run, i) && s in run[i].servers
    ensures LocalOwed(run, i, run[i].servers[s])
  {
  }

  /** A server's own step. */
  lemma ServerStep(t: Timing, run: seq<State>, i: nat, step: Step, s: string)
    requires 0 < i < |run| && AllOwed(run, i - 1) && Enabled(t, run[i-1], step) && run[i] == Apply(t, run[i-1], step)
    requires s in run[i].servers && (s in run[i-1].servers ==> run[i].servers[s] != run[i-1].servers[s])
    ensures LocalOwed(run, i, run[i].servers[s])
  {
    hide LocalOwed, AllOwed;
    HistoryGrows(t, run[i-1], step);
    if s in run[i-1].servers {
      ServerOwed(run, i - 1, s);
      StillOwed(run, i, run[i-1].servers[s]);
    }
    match step {
      case ListPage(_, names) => PageListed(t, run, i, s, names);
      case ReadPage(_, _, _, _, _) => PageSendable(t, run, i, step, s);
      case BeginRead(_) => ScanStep(t, run, i, step, s);
      case Fetch(_) => ScanStep(t, run, i, step, s);
      case Remember(_, _) => ScanStep(t, run, i, step, s);
      case Keep(_) => ScanStep(t, run, i, step, s);
      case Move(_) => ScanStep(t, run, i, step, s);
      case _ => PlainStep(t, run, i, step, s);
    }
  }

  lemma DeliverStep(t: Timing, run: seq<State>, i: nat, step: Step, p: (string, EventId))
    requires 0 < i < |run| && AllOwed(run, i - 1) && Enabled(t, run[i-1], step) && run[i] == Apply(t, run[i-1], step)
    requires p in run[i].created
    ensures Owed(run, i, p.0, p.1)
  {
    var g := run[i-1];
    HistoryGrows(t, g, step);
    if p in g.created {
      StillOwedTo(run, i, p.0, p.1);
    } else {
      assert step.Deliver? && p == (step.hook, step.change.Id());
      var l := g.servers[step.server];
      StillOwed(run, i, l);
      var w := l.phase.round.found[step.hook];
      assert Listed(run, i, step.hook, w) && Sendable(run[i], step.change);
    }
  }

  lemma StepOwed(t: Timing, run: seq<State>, i: nat, step: Step)
    requires 0 < i < |run| && AllOwed(run, i - 1) && Enabled(t, run[i-1], step) && run[i] == Apply(t, run[i-1], step)
    ensures AllOwed(run, i)
  {
    hide LocalOwed, Owed;
    HistoryGrows(t, run[i-1], step);
    forall s | s in run[i].servers ensures LocalOwed(run, i, run[i].servers[s]) {
      if s in run[i-1].servers && run[i].servers[s] == run[i-1].servers[s] {
        StillOwed(run, i, run[i-1].servers[s]);
      } else {
        ServerStep(t, run, i, step, s);
      }
    }
    forall p | p in run[i].created ensures Owed(run, i, p.0, p.1) { DeliverStep(t, run, i, step, p); }
  }

  lemma {:induction false} RunOwed(t: Timing, run: seq<State>, i: nat)
    requires Run(t, run) && i < |run|
    ensures AllOwed(run, i)
  {
    hide AllOwed, Enabled, Apply;
    if i > 0 {
      RunOwed(t, run, i - 1);
      assert Stepped(t, run, i);
      var step :| Enabled(t, run[i-1], step) && run[i] == Apply(t, run[i-1], step);
      StepOwed(t, run, i, step);
    } else {
      StartsOwed(run);
    }
  }

  lemma StartsOwed(run: seq<State>)
    requires |run| > 0 && Init(run[0])
    ensures AllOwed(run, 0)
  {
  }

  /** In every run, tolerated delays or not: every delivery there ever was is of a version that was
      committed, of a kind, to a webhook that was listed, not paused, and asked for that kind or
      every kind, for its scope or every scope, and was there when it happened. */
  lemma OnlyOwedIsCreated(t: Timing, run: seq<State>, i: nat, n: string, id: EventId)
    requires Run(t, run) && i < |run| && (n, id) in run[i].created
    ensures exists c, w ::
              && c in run[i].history && c.kind != "" && c.Id() == id && Listed(run, i, n, w)
              && (w.eventTypes == [] || c.kind in w.eventTypes) && (w.scope == "" || c.scope == w.scope) && w.createTime <= c.time
  {
    RunOwed(t, run, i);
    assert Owed(run, i, n, id);
    var c, w :| Sendable(run[i], c) && c.Id() == id && Wants(w, c) && Listed(run, i, n, w);
    assert c in run[i].history && c.kind != "" && (w.eventTypes == [] || c.kind in w.eventTypes);
  }
}
