/** The lifecycle of a delivery, the safety of a claim and the spacing of retries, over whole runs. */
module DeliveryProofs {
  import opened Wrappers
  import opened Deliveries

  /** No sooner than this may a delivery with `count` failed attempts be tried again. */
  function Earliest(d: Delivery): int
    requires d.firstClaim.Some?
  {
    d.firstClaim.value + Total(d.count)
  }

  /** What a stored delivery, or a copy of one, always is. */
  ghost predicate Sound(p: Policy, lost: set<string>, d: Delivery) {
    && (d.state == Pending <==> d.next.Some?)
    && (d.state == Pending ==> d.count < p.maxAttempts)
    && (d.state == Failed ==> d.count == p.maxAttempts || d.webhook in lost)
    && (d.count > 0 ==> d.firstClaim.Some?)
    && (d.state == Pending && d.firstClaim.Some? ==> d.next.value >= Earliest(d))
    && (d.state == Failed && d.webhook !in lost ==>
          && d.count == p.maxAttempts > 0 && d.ended.Some? && d.firstClaim.Some?
          && d.ended.value >= d.firstClaim.value + Total(d.count - 1))
  }

  ghost predicate AttemptOk(p: Policy, g: State, a: Attempt) {
    && Sound(p, g.lost, a.dl) && a.dl.state == Pending && a.dl.etag < g.nextEtag
    && a.dl.webhook in g.hooks + g.lost
    && (Unchanged(g, a) ==> g.deliveries[a.name] == a.dl)
    && (a.gone ==> a.dl.webhook in g.lost)
    && match a.phase
       case Read => a.dl.next.value <= g.now
       case Looked => a.dl.next.value <= g.now
       case Clocked(at) => a.dl.next.value <= at <= g.now
       case _ =>
         && a.phase.at <= g.now && a.dl.next == Some(a.phase.at + p.claimFor)
         && a.dl.firstClaim.Some? && a.phase.at >= Earliest(a.dl)
  }

  ghost predicate Inv(p: Policy, g: State) {
    && (forall n | n in g.deliveries ::
          && Sound(p, g.lost, g.deliveries[n]) && g.deliveries[n].etag < g.nextEtag
          && g.deliveries[n].webhook in g.hooks + g.lost
          && n in g.outcomes && g.deliveries[n].count == g.outcomes[n])
    && (forall a | a in g.attempts :: AttemptOk(p, g, g.attempts[a]))
    && ClaimsDistinct(g)
  }

  /** No two attempts hold claims of the same etag. */
  ghost predicate ClaimsDistinct(g: State) {
    forall a, b | a in g.attempts && b in g.attempts && a != b && g.attempts[a].phase.Holds() && g.attempts[b].phase.Holds() ::
      g.attempts[a].dl.etag != g.attempts[b].dl.etag
  }

  lemma {:induction false} TotalGrows(n: nat)
    ensures Total(n) >= 0 && BackoffOf(n) > 0
  {
    if n > 0 { TotalGrows(n - 1); }
  }

  /** Others' attempts stay as good when the store goes from g to g'. */
  lemma AttemptKept(p: Policy, g: State, g': State, a: Attempt)
    requires AttemptOk(p, g, a)
    requires g.now <= g'.now && g.nextEtag <= g'.nextEtag && g.lost <= g'.lost && g.hooks <= g'.hooks + g'.lost
    requires a.name in g'.deliveries ==>
               || (a.name in g.deliveries && g'.deliveries[a.name] == g.deliveries[a.name])
               || g'.deliveries[a.name].etag >= g.nextEtag
    ensures AttemptOk(p, g', a)
  {
  }

  lemma StoreStepInv(p: Policy, g: State, step: Step)
    requires p.Valid() && Inv(p, g) && Enabled(p, g, step)
    requires step.Tick? || step.AddHook? || step.DropHook? || step.Create? || step.Drop? || step.Prune?
    ensures Inv(p, Apply(p, g, step))
  {
    var g' := Apply(p, g, step);
    forall a | a in g'.attempts ensures AttemptOk(p, g', g'.attempts[a]) { AttemptKept(p, g, g', g.attempts[a]); }
  }

  lemma PrivateStepInv(p: Policy, g: State, step: Step)
    requires p.Valid() && Inv(p, g) && Enabled(p, g, step)
    requires step.Due? || step.Lookup? || step.Clock? || step.Post? || step.Answer?
    ensures Inv(p, Apply(p, g, step))
  {
    var g' := Apply(p, g, step);
    forall a | a in g'.attempts && a != step.a ensures AttemptOk(p, g', g'.attempts[a]) { AttemptKept(p, g, g', g.attempts[a]); }
    if !step.Due? { AttemptKept(p, g, g', g.attempts[step.a]); }
    assert AttemptOk(p, g', g'.attempts[step.a]);
    assert ClaimsDistinct(g');
  }

  lemma ClaimInv(p: Policy, g: State, a: nat)
    requires p.Valid() && Inv(p, g) && Enabled(p, g, Claim(a))
    ensures Inv(p, Apply(p, g, Claim(a)))
  {
    var g', t := Apply(p, g, Claim(a)), g.attempts[a];
    forall b | b in g'.attempts && b != a ensures AttemptOk(p, g', g'.attempts[b]) { AttemptKept(p, g, g', g.attempts[b]); }
    assert AttemptOk(p, g, t);
    if Unchanged(g, t) {
      var d := ClaimOf(p, t, g.nextEtag);
      assert Total(0) == 0;
      assert Sound(p, g'.lost, d);
      assert AttemptOk(p, g', g'.attempts[a]);
      assert forall b | b in g'.attempts && b != a :: g'.attempts[b].dl.etag < g.nextEtag;
    }
  }

  lemma FinishInv(p: Policy, g: State, a: nat, at: int)
    requires p.Valid() && Inv(p, g) && Enabled(p, g, Finish(a, at))
    ensures Inv(p, Apply(p, g, Finish(a, at)))
  {
    var g', t := Apply(p, g, Finish(a, at)), g.attempts[a];
    forall b | b in g'.attempts ensures AttemptOk(p, g', g'.attempts[b]) { AttemptKept(p, g, g', g.attempts[b]); }
    assert AttemptOk(p, g, t);
    var d := Outcome(p, t, at, g.nextEtag);
    TotalGrows(d.count);
    assert Sound(p, g'.lost, d) by {
      assert Total(d.count) == Total(t.dl.count) + BackoffOf(d.count);
    }
  }

  lemma StepInv(p: Policy, g: State, step: Step)
    requires p.Valid() && Inv(p, g) && Enabled(p, g, step)
    ensures Inv(p, Apply(p, g, step))
  {
    match step {
      case Claim(a) => ClaimInv(p, g, a);
      case Finish(a, at) => FinishInv(p, g, a, at);
      case Due(_, _) => PrivateStepInv(p, g, step);
      case Lookup(_) => PrivateStepInv(p, g, step);
      case Clock(_) => PrivateStepInv(p, g, step);
      case Post(_) => PrivateStepInv(p, g, step);
      case Answer(_, _) => PrivateStepInv(p, g, step);
      case _ => StoreStepInv(p, g, step);
    }
  }

  lemma {:induction false} RunInv(p: Policy, run: seq<State>, i: nat)
    requires p.Valid() && Run(p, run) && i < |run|
    ensures Inv(p, run[i])
  {
    if i > 0 {
      RunInv(p, run, i - 1);
      assert Stepped(p, run, i);
      var step :| Enabled(p, run[i-1], step) && run[i] == Apply(p, run[i-1], step);
      StepInv(p, run[i-1], step);
    }
  }

  // ---- the lifecycle ----------------------------------------------------------------------

  /** What every stored delivery of every run is. Its count is of the attempts whose outcome was
      written: none is counted twice and none is lost. */
  lemma Lifecycle(p: Policy, run: seq<State>, i: nat, name: string)
    requires p.Valid() && Run(p, run) && i < |run| && name in run[i].deliveries
    ensures var d := run[i].deliveries[name];
            && name in run[i].outcomes && d.count == run[i].outcomes[name]
            && (d.state == Pending ==> d.count < p.maxAttempts)
            && (d.next.None? <==> d.state != Pending)
            && (d.state == Failed ==> d.count == p.maxAttempts || d.webhook in run[i].lost)
  {
    RunInv(p, run, i);
  }

  lemma TerminalStep(p: Policy, g: State, step: Step, name: string)
    requires Inv(p, g) && Enabled(p, g, step)
    requires name in g.deliveries && g.deliveries[name].state != Pending && name in Apply(p, g, step).deliveries
    ensures Apply(p, g, step).deliveries[name] == g.deliveries[name]
  {
    if step.Claim? || step.Finish? {
      assert AttemptOk(p, g, g.attempts[step.a]);
    }
  }

  lemma TerminalNext(p: Policy, g: State, g': State, name: string)
    requires Inv(p, g) && Next(p, g, g')
    requires name in g.deliveries && g.deliveries[name].state != Pending && name in g'.deliveries
    ensures g'.deliveries[name] == g.deliveries[name]
  {
    var step :| Enabled(p, g, step) && g' == Apply(p, g, step);
    TerminalStep(p, g, step, name);
  }

  /** SUCCEEDED and FAILED are final: as long as the delivery is not pruned nothing of it changes. */
  lemma {:induction false} TerminalIsFinal(p: Policy, run: seq<State>, i: nat, j: nat, name: string)
    requires p.Valid() && Run(p, run) && i <= j < |run|
    requires forall k | i <= k <= j :: name in run[k].deliveries
    requires run[i].deliveries[name].state != Pending
    ensures run[j].deliveries[name] == run[i].deliveries[name]
  {
    if i < j {
      TerminalIsFinal(p, run, i, j - 1, name);
      RunInv(p, run, j - 1);
      assert Stepped(p, run, j);
      TerminalNext(p, run[j-1], run[j], name);
    }
  }

  // ---- claims -----------------------------------------------------------------------------

  /** At most one attempt holds a claim on what the store holds. */
  lemma OneClaim(p: Policy, run: seq<State>, i: nat, a: nat, b: nat)
    requires p.Valid() && Run(p, run) && i < |run|
    requires var g := run[i];
             && a in g.attempts && b in g.attempts && g.attempts[a].name == g.attempts[b].name
             && g.attempts[a].phase.Holds() && g.attempts[b].phase.Holds()
             && Unchanged(g, g.attempts[a]) && Unchanged(g, g.attempts[b])
    ensures a == b
  {
    RunInv(p, run, i);
  }

  /** However slow its sender, an outcome is written only over that sender's own claim: what it
      replaces is exactly what the claim wrote. */
  lemma OutcomeReplacesItsClaim(p: Policy, run: seq<State>, i: nat, a: nat, at: int)
    requires p.Valid() && Run(p, run) && i < |run| && Enabled(p, run[i], Finish(a, at))
    ensures var g, t := run[i], run[i].attempts[a]; var g' := Apply(p, g, Finish(a, at));
            g'.deliveries != g.deliveries ==>
              && t.name in g.deliveries && g.deliveries[t.name] == t.dl && t.dl.next == Some(t.phase.at + p.claimFor)
              && g'.deliveries == g.deliveries[t.name := Outcome(p, t, at, g.nextEtag)]
  {
    RunInv(p, run, i);
    assert AttemptOk(p, run[i], run[i].attempts[a]);
  }

  /** While attempts are shorter than a claim, nobody writes a claimed delivery but its claimer,
      and attempts end in time. */
  ghost predicate Exclusive(p: Policy, g: State) {
    forall a | a in g.attempts ::
      && (g.attempts[a].phase.Holds() ==> Unchanged(g, g.attempts[a]))
      && (!g.attempts[a].phase.Read? && !g.attempts[a].phase.Looked? ==> g.now <= g.attempts[a].phase.at + p.attemptWithin)
  }

  lemma ExclusiveWrite(p: Policy, g: State, step: Step, b: nat)
    requires p.Valid() && p.attemptWithin < p.claimFor && Inv(p, g) && Exclusive(p, g) && Enabled(p, g, step)
    requires (step.Claim? || step.Finish?) && b in g.attempts && b != step.a && g.attempts[b].phase.Holds()
    ensures Unchanged(Apply(p, g, step), g.attempts[b])
  {
    assert AttemptOk(p, g, g.attempts[b]) && Unchanged(g, g.attempts[b]);
    assert AttemptOk(p, g, g.attempts[step.a]);
  }

  lemma ExclusiveStep(p: Policy, g: State, step: Step)
    requires p.Valid() && p.attemptWithin < p.claimFor && Inv(p, g) && Exclusive(p, g) && Enabled(p, g, step)
    ensures Exclusive(p, Apply(p, g, step))
  {
    var g' := Apply(p, g, step);
    forall b | b in g'.attempts && g'.attempts[b].phase.Holds() ensures Unchanged(g', g'.attempts[b]) {
      if b in g.attempts && g.attempts[b].phase.Holds() {
        if (step.Claim? || step.Finish?) && b != step.a { ExclusiveWrite(p, g, step, b); }
        else { assert AttemptOk(p, g, g.attempts[b]) && Unchanged(g, g.attempts[b]); }
      }
    }
  }

  lemma {:induction false} RunExclusive(p: Policy, run: seq<State>, i: nat)
    requires p.Valid() && p.attemptWithin < p.claimFor && Run(p, run) && i < |run|
    ensures Exclusive(p, run[i])
  {
    if i > 0 {
      RunExclusive(p, run, i - 1);
      RunInv(p, run, i - 1);
      assert Stepped(p, run, i);
      var step :| Enabled(p, run[i-1], step) && run[i] == Apply(p, run[i-1], step);
      ExclusiveStep(p, run[i-1], step);
    }
  }

  /** Two POSTs of one delivery are under way. */
  ghost predicate Overlap(g: State) {
    exists a, b | a in g.attempts && b in g.attempts && a != b ::
      g.attempts[a].phase.Posting? && g.attempts[b].phase.Posting? && g.attempts[a].name == g.attempts[b].name
  }

  ghost predicate NeverOverlaps(p: Policy) {
    forall run, i | Run(p, run) && 0 <= i < |run| :: !Overlap(run[i])
  }

  ghost predicate Reachable(p: Policy, g: State) {
    exists run | Run(p, run) :: run[|run| - 1] == g
  }

  lemma Then(p: Policy, g: State, step: Step, g': State)
    requires Reachable(p, g) && Enabled(p, g, step) && g' == Apply(p, g, step)
    ensures Reachable(p, g')
  {
    var run :| Run(p, run) && run[|run| - 1] == g;
    var longer := run + [g'];
    forall i | 0 < i < |longer| ensures Stepped(p, longer, i) {
      if i < |run| { assert Stepped(p, run, i); }
    }
    assert longer[|longer| - 1] == g';
  }

  lemma ClockFrom(p: Policy, g: State, a: nat) returns (g': State)
    requires p.Valid() && Reachable(p, g) && a !in g.attempts && "d" in g.deliveries
    requires var d := g.deliveries["d"]; d.state == Pending && d.next.Some? && d.next.value <= g.now && d.webhook in g.hooks
    ensures Reachable(p, g') && g' == g.(attempts := g.attempts[a := Attempt("d", g.deliveries["d"], false, Clocked(g.now))])
  {
    var g1 := Apply(p, g, Due(a, "d"));
    Then(p, g, Due(a, "d"), g1);
    var g2 := Apply(p, g1, Lookup(a));
    Then(p, g1, Lookup(a), g2);
    g' := Apply(p, g2, Clock(a));
    Then(p, g2, Clock(a), g');
  }

  /** An attempt reads the delivery due, claims it and posts. */
  lemma PostFrom(p: Policy, g: State, a: nat) returns (g': State)
    requires p.Valid() && Reachable(p, g) && a !in g.attempts && "d" in g.deliveries
    requires var d := g.deliveries["d"]; d.state == Pending && d.next.Some? && d.next.value <= g.now && d.webhook in g.hooks
    ensures Reachable(p, g') && g'.now == g.now && g'.hooks == g.hooks
    ensures "d" in g'.deliveries && g'.deliveries["d"] == ClaimOf(p, Attempt("d", g.deliveries["d"], false, Clocked(g.now)), g.nextEtag)
    ensures g'.attempts == g.attempts[a := Attempt("d", g'.deliveries["d"], false, Posting(g.now))]
  {
    var g3 := ClockFrom(p, g, a);
    var g4 := Apply(p, g3, Claim(a));
    Then(p, g3, Claim(a), g4);
    g' := Apply(p, g4, Post(a));
    Then(p, g4, Post(a), g');
  }

  /** An attempt that takes as long as its claim is met by a second POST. */
  lemma SlowAttemptOverlaps(p: Policy)
    requires p.Valid() && p.attemptWithin >= p.claimFor
    ensures !NeverOverlaps(p)
  {
    var g0 := State(0, 0, {"w"}, {}, map[], map[], map[]);
    assert Reachable(p, g0) by { assert Run(p, [g0]); assert [g0][|[g0]| - 1] == g0; }
    var g1 := Apply(p, g0, Create("d", "w", 0));
    Then(p, g0, Create("d", "w", 0), g1);
    var g2 := PostFrom(p, g1, 0);
    var g3 := g2.(now := p.claimFor);
    Then(p, g2, Tick(p.claimFor), g3);
    var g4 := PostFrom(p, g3, 1);
    assert g4.attempts[0].phase.Posting? && g4.attempts[1].phase.Posting?;
    assert Overlap(g4);
    var run :| Run(p, run) && run[|run| - 1] == g4;
  }

  /** No two POSTs of one delivery ever overlap if and only if every attempt ends sooner than
      claimFor after its clock read. */
  lemma NeverOverlapsExactly(p: Policy)
    requires p.Valid()
    ensures NeverOverlaps(p) <==> p.attemptWithin < p.claimFor
  {
    if p.attemptWithin < p.claimFor {
      forall run, i | Run(p, run) && 0 <= i < |run| ensures !Overlap(run[i]) {
        RunInv(p, run, i);
        RunExclusive(p, run, i);
      }
    } else {
      SlowAttemptOverlaps(p);
    }
  }

  // ---- retries ----------------------------------------------------------------------------

  /** A delivery that fails though its webhook was never deleted has had every attempt, and fails
      no sooner after its first claim than the waits between them. */
  lemma ExhaustionTakesItsTime(p: Policy, run: seq<State>, i: nat, name: string)
    requires p.Valid() && Run(p, run) && i < |run| && name in run[i].deliveries
    requires run[i].deliveries[name].state == Failed && run[i].deliveries[name].webhook !in run[i].lost
    ensures var d := run[i].deliveries[name];
            && d.count == p.maxAttempts && d.firstClaim.Some? && d.ended.Some?
            && d.ended.value - d.firstClaim.value >= Total(p.maxAttempts - 1)
  {
    RunInv(p, run, i);
  }

  /** The default of 8 attempts takes 63.5 minutes at least, not a day and a half. */
  lemma DefaultTakes()
    ensures Total(7) == 3810 * SECOND
  {
    assert Pow2(1) == 2 && Pow2(2) == 4 && Pow2(3) == 8 && Pow2(4) == 16 && Pow2(5) == 32 && Pow2(6) == 64;
    assert Total(1) == 30 * SECOND && Total(2) == 90 * SECOND && Total(3) == 210 * SECOND && Total(4) == 450 * SECOND;
    assert Total(5) == 930 * SECOND && Total(6) == 1890 * SECOND;
  }

  /** What an undisturbed attempt makes of a delivery of this webhook: one attempt more. */
  predicate OneMore(p: Policy, g: State, name: string, ok: bool, g': State)
    requires name in g.deliveries
  {
    && name in g'.deliveries && g'.deliveries == g.deliveries[name := g'.deliveries[name]] && g'.attempts == g.attempts
    && var d, d', gone := g.deliveries[name], g'.deliveries[name], g.deliveries[name].webhook !in g.hooks;
    && d'.count == d.count + 1 && (d'.state == Succeeded <==> ok && !gone)
    && (d'.state == Failed <==> gone || (!ok && d'.count >= p.maxAttempts))
    && d'.next == if d'.state == Pending then Some(g.now + BackoffOf(d'.count)) else None
  }

  /** The state once a delivery read due is claimed, nobody having disturbed it. */
  function ClaimedBy(p: Policy, g: State, a: nat, name: string): State
    requires name in g.deliveries
  {
    var t := Attempt(name, g.deliveries[name], g.deliveries[name].webhook !in g.hooks, Clocked(g.now));
    var d := ClaimOf(p, t, g.nextEtag);
    g.(deliveries := g.deliveries[name := d], nextEtag := g.nextEtag + 1, attempts := g.attempts[a := t.(dl := d, phase := Claimed(g.now))])
  }

  lemma ReachesClaim(p: Policy, g: State, a: nat, name: string)
    requires Enabled(p, g, Due(a, name))
    ensures var g1 := Apply(p, g, Due(a, name));
            && Enabled(p, g1, Lookup(a)) && var g2 := Apply(p, g1, Lookup(a));
            && Enabled(p, g2, Clock(a)) && var g3 := Apply(p, g2, Clock(a));
            && Enabled(p, g3, Claim(a)) && Apply(p, g3, Claim(a)) == ClaimedBy(p, g, a, name)
  {
    hide ClaimOf;
    var g3 := Apply(p, Apply(p, Apply(p, g, Due(a, name)), Lookup(a)), Clock(a));
    var t := Attempt(name, g.deliveries[name], g.deliveries[name].webhook !in g.hooks, Clocked(g.now));
    assert g3 == g.(attempts := g.attempts[a := t]);
    assert Apply(p, g3, Claim(a)).attempts == g.attempts[a := Apply(p, g3, Claim(a)).attempts[a]];
  }

  /** The same, with its attempt gone on to this phase. */
  function ClaimedAt(p: Policy, g: State, a: nat, name: string, phase: Phase): State
    requires name in g.deliveries
  {
    var g4 := ClaimedBy(p, g, a, name);
    g4.(attempts := g.attempts[a := g4.attempts[a].(phase := phase)])
  }

  lemma Posts(p: Policy, g: State, a: nat, name: string, ok: bool)
    requires Enabled(p, g, Due(a, name)) && g.deliveries[name].webhook in g.hooks
    ensures var g4 := ClaimedBy(p, g, a, name);
            && !Enabled(p, g4, Finish(a, g.now)) && Enabled(p, g4, Post(a)) && var g5 := Apply(p, g4, Post(a));
            && Enabled(p, g5, Answer(a, ok)) && Apply(p, g5, Answer(a, ok)) == ClaimedAt(p, g, a, name, Answered(g.now, ok))
  {
    hide ClaimOf;
    var g4 := ClaimedBy(p, g, a, name);
    var g6 := Apply(p, Apply(p, g4, Post(a)), Answer(a, ok));
    assert g6.attempts == g.attempts[a := g4.attempts[a].(phase := Answered(g.now, ok))];
  }

  lemma Finishes(p: Policy, g: State, a: nat, name: string, ok: bool, phase: Phase)
    requires Enabled(p, g, Due(a, name))
    requires if g.deliveries[name].webhook in g.hooks then phase == Answered(g.now, ok) else phase == Claimed(g.now) && !ok
    ensures var g' := ClaimedAt(p, g, a, name, phase);
            Enabled(p, g', Finish(a, g.now)) && OneMore(p, g, name, ok, Apply(p, g', Finish(a, g.now)))
  {
    hide BackoffOf;
    assert ClaimedAt(p, g, a, name, phase).attempts - {a} == g.attempts;
  }

  /** An attempt nobody disturbs, from reading the delivery due to writing its outcome: each step can
      be taken once the one before it is, it posts exactly when the webhook is there, and what it
      leaves is one attempt more, of an outcome the answer decides. */
  lemma Undisturbed(p: Policy, g: State, a: nat, name: string, ok: bool)
    requires Enabled(p, g, Due(a, name))
    ensures var g1 := Apply(p, g, Due(a, name));
            && Enabled(p, g1, Lookup(a)) && var g2 := Apply(p, g1, Lookup(a));
            && Enabled(p, g2, Clock(a)) && var g3 := Apply(p, g2, Clock(a));
            && Enabled(p, g3, Claim(a)) && var g4 := Apply(p, g3, Claim(a));
            if g.deliveries[name].webhook in g.hooks then
              && !Enabled(p, g4, Finish(a, g.now)) && Enabled(p, g4, Post(a)) && var g5 := Apply(p, g4, Post(a));
              && Enabled(p, g5, Answer(a, ok)) && var g6 := Apply(p, g5, Answer(a, ok));
              && Enabled(p, g6, Finish(a, g.now)) && OneMore(p, g, name, ok, Apply(p, g6, Finish(a, g.now)))
            else
              !Enabled(p, g4, Post(a)) && Enabled(p, g4, Finish(a, g.now)) && OneMore(p, g, name, false, Apply(p, g4, Finish(a, g.now)))
  {
    ReachesClaim(p, g, a, name);
    if g.deliveries[name].webhook in g.hooks {
      hide Apply, OneMore, ClaimedBy, ClaimedAt;
      Posts(p, g, a, name, ok);
      Finishes(p, g, a, name, ok, Answered(g.now, ok));
    } else {
      hide Apply, OneMore;
      assert ClaimedAt(p, g, a, name, Claimed(g.now)) == ClaimedBy(p, g, a, name);
      Finishes(p, g, a, name, false, Claimed(g.now));
    }
  }

  lemma {:induction false} Pow2Grows(m: nat, n: nat)
    requires m <= n
    ensures 1 <= Pow2(m) <= Pow2(n)
  {
    if m < n { Pow2Grows(m, n - 1); } else if n > 0 { Pow2Grows(m - 1, n - 1); }
  }

  /** Backoff never shrinks, and stays within 30 seconds and 6 hours. */
  lemma BackoffGrows(m: int, n: int)
    requires m <= n
    ensures 30 * SECOND <= BackoffOf(m) <= BackoffOf(n) <= 6 * HOUR
  {
    if n > 1 { Pow2Grows(0, n - 1); }
    if m > 1 { Pow2Grows(m - 1, n - 1); Pow2Grows(0, m - 1); }
  }

  /** Backoff, as its loop computes it. `worked` is history: every value the wait took on the way,
      none of which reaches 12 hours. */
  method Backoff(n: int) returns (wait: int, ghost worked: seq<int>)
    ensures wait == BackoffOf(n)
    ensures worked != [] && wait == (if worked[|worked|-1] < 6 * HOUR then worked[|worked|-1] else 6 * HOUR)
    ensures forall i | 0 <= i < |worked| :: worked[i] == Doubled(i) < 12 * HOUR
  {
    wait := 30 * SECOND;
    worked := [wait];
    var i := 1;
    while i < n && wait < 6 * HOUR
      invariant 1 <= i && (i <= n || i == 1)
      invariant wait == Doubled(i - 1) < 12 * HOUR
      invariant |worked| == i && forall j | 0 <= j < i :: worked[j] == Doubled(j) < 12 * HOUR
      decreases n - i
    {
      wait := wait * 2;
      worked := worked + [wait];
      i := i + 1;
    }
    if n > 1 { Pow2Grows(i - 1, n - 1); }
    wait := if wait < 6 * HOUR then wait else 6 * HOUR;
  }
}
