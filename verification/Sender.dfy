/** attempt, as the source writes it, against a store other senders use too: every store call is a
    step of the Deliveries machine. */
module Sending {
  import opened Wrappers
  import opened Deliveries
  import opened DeliveryProofs

  predicate By(step: Step, a: nat) {
    match step
    case Due(b, _) => b == a
    case Lookup(b) => b == a
    case Clock(b) => b == a
    case Claim(b) => b == a
    case Post(b) => b == a
    case Answer(b, _) => b == a
    case Finish(b, _) => b == a
    case Drop(b) => b == a
    case _ => false
  }

  /** The store and its other users. `run` is every state so far. */
  class Store {
    const p: Policy
    /** No call to the store fails. */
    const reliable: bool
    /** Nobody else uses the store, and no time passes. */
    const alone: bool
    var g: State
    ghost var run: seq<State>

    ghost predicate Valid()
      reads this
    {
      p.Valid() && Run(p, run) && g == run[|run| - 1]
    }

    constructor (p: Policy, g: State, reliable: bool, alone: bool)
      requires p.Valid() && Init(g)
      ensures Valid() && this.p == p && this.g == g && this.reliable == reliable && this.alone == alone
    {
      this.p, this.g, this.reliable, this.alone, run := p, g, reliable, alone, [g];
    }

    method Fails() returns (fails: bool)
      ensures reliable ==> !fails
    {
      fails := *;
      fails := fails && !reliable;
    }

    method Take(step: Step)
      requires Valid() && Enabled(p, g, step)
      modifies this
      ensures Valid() && g == Apply(p, old(g), step) && run == old(run) + [g]
    {
      ghost var was := run;
      g := Apply(p, g, step);
      run := run + [g];
      forall i | 0 < i < |run| ensures Stepped(p, run, i) {
        if i < |was| { assert Stepped(p, was, i); }
      }
    }

    /** Anything anybody else may do meanwhile. */
    method Others(a: nat)
      requires Valid() && a in g.attempts
      modifies this
      ensures Valid() && old(run) <= run
      ensures a in g.attempts && g.attempts[a] == old(g).attempts[a] && old(g).now <= g.now
      ensures forall j | |old(run)| <= j < |run| :: a in run[j].attempts && run[j].attempts[a] == old(g).attempts[a]
      ensures alone ==> g == old(g) && run == old(run)
    {
      var n: nat := *;
      while n > 0 && !alone
        invariant alone ==> g == old(g) && run == old(run)
        invariant forall j | |old(run)| <= j < |run| :: a in run[j].attempts && run[j].attempts[a] == old(g).attempts[a]
        invariant Valid() && old(run) <= run
        invariant a in g.attempts && g.attempts[a] == old(g).attempts[a] && old(g).now <= g.now
      {
        var step: Step := *;
        if !By(step, a) && Enabled(p, g, step) {
          Take(step);
        }
        n := n - 1;
      }
    }
  }

  /** In no state of the run from the i-th on has the attempt claimed the delivery or posted it. */
  ghost predicate NeverHeld(run: seq<State>, i: int, a: nat) {
    forall j | 0 <= j < |run| && i <= j && a in run[j].attempts :: !run[j].attempts[a].phase.Holds()
  }

  /** What came of an attempt. */
  datatype Result = Waits | Conflict | Failure | Written(was: Delivery, now: Delivery)

  /** The attempt ends with nothing more written. */
  method LetGo(w: Store, a: nat)
    requires w.Valid() && a in w.g.attempts
    modifies w
    ensures w.Valid() && w.run == old(w.run) + [w.g] && w.g == old(w.g).(attempts := old(w.g).attempts - {a})
  {
    w.Take(Drop(a));
  }

  /** Claim the delivery, pushing its next attempt out, and post it unless its webhook is gone.
      `answers` is whether its receiver would answer that it has taken it. */
  method ClaimAndPost(w: Store, a: nat, at: int, answers: bool) returns (result: Result, ok: bool)
    requires w.Valid() && a in w.g.attempts && w.g.attempts[a].phase == Clocked(at)
    modifies w
    ensures w.Valid() && old(w.run) <= w.run && old(w.g).now <= w.g.now
    ensures result.Conflict? || result.Failure? || result.Waits?
    ensures result.Waits? <==> a in w.g.attempts
    ensures result.Waits? ==>
              var t, t' := old(w.g).attempts[a], w.g.attempts[a];
              && t'.name == t.name && t'.gone == t.gone && t'.dl == ClaimOf(w.p, t, t'.dl.etag)
              && t'.phase == if t.gone then Claimed(at) else Answered(at, ok)
    ensures ok <==> result.Waits? && !old(w.g).attempts[a].gone && answers
    ensures !result.Waits? ==> NeverHeld(w.run, |old(w.run)|, a)
    ensures w.alone && !result.Waits? ==> w.g.deliveries == old(w.g).deliveries
    ensures w.alone && result.Waits? ==>
              w.g.now == old(w.g).now && w.g.deliveries == old(w.g).deliveries[old(w.g).attempts[a].name := w.g.attempts[a].dl]
    ensures w.reliable ==> !result.Failure?
    ensures w.alone ==> (result.Conflict? ==> !Unchanged(old(w.g), old(w.g).attempts[a])) && (result.Waits? ==> Unchanged(w.g, w.g.attempts[a]))
  {
    ok := false;
    var gone := w.g.attempts[a].gone;
    w.Others(a);
    var failed := w.Fails();
    if failed {
      LetGo(w, a);
      return Failure, ok;
    }
    w.Take(Claim(a));
    if a !in w.g.attempts { return Conflict, ok; }
    if !gone {
      w.Others(a);
      w.Take(Post(a));
      w.Others(a);
      ok := answers;
      w.Take(Answer(a, ok));
    }
    result := Waits;
  }

  /** What attempt makes of its copy once the answer is in, at the clock read `later`. */
  method Decide(p: Policy, dl: Delivery, gone: bool, ok: bool, later: int) returns (now: Delivery)
    requires gone ==> !ok
    ensures now.count == dl.count + 1 && now == dl.(count := now.count, state := now.state, next := now.next)
    ensures now.state == Succeeded <==> ok
    ensures now.state == Failed <==> !ok && (gone || now.count >= p.maxAttempts)
    ensures now.next == if now.state == Pending then Some(later + BackoffOf(now.count)) else None
  {
    now := dl.(count := dl.count + 1);
    if ok {
      now := now.(state := Succeeded, next := None);
    } else if gone || now.count >= p.maxAttempts {
      now := now.(state := Failed, next := None);
    } else {
      var wait, _ := Backoff(now.count);
      now := now.(state := Pending, next := Some(later + wait));
    }
  }

  /** Decide, once the answer is in, and write. */
  method WriteOutcome(w: Store, a: nat, ok: bool) returns (result: Result)
    requires w.Valid() && a in w.g.attempts
    requires var t := w.g.attempts[a]; t.phase.Holds() && t.phase == if t.gone then Claimed(t.phase.at) else Answered(t.phase.at, ok)
    requires w.g.attempts[a].gone ==> !ok
    modifies w
    ensures w.Valid() && old(w.run) <= w.run && a !in w.g.attempts && !result.Waits?
    ensures w.reliable ==> !result.Failure?
    ensures w.alone && result.Conflict? ==> !Unchanged(old(w.g), old(w.g).attempts[a])
    ensures w.alone && result.Written? ==> w.g.deliveries == old(w.g).deliveries[old(w.g).attempts[a].name := result.now]
    ensures w.alone && result.Written? && result.now.state == Pending ==> result.now.next == Some(old(w.g).now + BackoffOf(result.now.count))
    ensures result.Written? ==>
              var t, was, now := old(w.g).attempts[a], result.was, result.now;
              && was == t.dl && was.state == Pending && now.count == was.count + 1 <= w.p.maxAttempts
              && (now.state == Succeeded <==> ok)
              && (now.state == Failed <==> !ok && (t.gone || now.count == w.p.maxAttempts))
              && (now.state == Pending ==> now.next.Some? && now.next.value >= old(w.g).now + BackoffOf(now.count))
              && (now.state != Pending ==> now.next == None)
              && t.name in w.g.deliveries && w.g.deliveries[t.name] == now
  {
    hide Run, BackoffOf, Enabled, Apply, Outcome;
    var t := w.g.attempts[a];
    w.Others(a);
    var later := w.g.now;
    CopyIsPending(w.p, w.run, a);
    var now := Decide(w.p, t.dl, t.gone, ok, later);
    w.Others(a);
    var failed := w.Fails();
    if failed {
      LetGo(w, a);
      return Failure;
    }
    CopyIsPending(w.p, w.run, a);
    var written := Unchanged(w.g, w.g.attempts[a]);
    FinishIs(w.p, w.g, a, ok, later, now);
    w.Take(Finish(a, later));
    result := if written then Written(t.dl, w.g.deliveries[t.name]) else Conflict;
  }

  /** One attempt at a delivery read due, its webhook looked up; `answers` is whether its receiver
      would answer that it has taken it. What it writes replaces its own claim: one attempt more, of
      an outcome the answer decides. It writes unless the webhook is paused, a call to the store
      fails, or another sender was there first. */
  method Attempt(w: Store, a: nat, paused: bool, answers: bool) returns (result: Result)
    requires w.Valid() && a in w.g.attempts && w.g.attempts[a].phase == Looked
    modifies w
    ensures w.Valid() && old(w.run) <= w.run && a !in w.g.attempts
    ensures result.Waits? <==> paused
    ensures paused ==> w.g.deliveries == old(w.g).deliveries && w.g.nextEtag == old(w.g).nextEtag && NeverHeld(w.run, |old(w.run)|, a)
    ensures w.reliable ==> !result.Failure?
    ensures w.alone && result.Conflict? ==> !Unchanged(old(w.g), old(w.g).attempts[a]) && w.g.deliveries == old(w.g).deliveries
    ensures w.alone && result.Written? ==>
              && w.g.deliveries == old(w.g).deliveries[old(w.g).attempts[a].name := result.now]
              && result.was.next == Some(old(w.g).now + w.p.claimFor)
              && (result.now.state == Pending ==> result.now.next == Some(old(w.g).now + BackoffOf(result.now.count)))
    ensures result.Written? ==>
              var t, was, now := old(w.g).attempts[a], result.was, result.now;
              && was.state == Pending && was.count == t.dl.count
              && was.next.Some? && was.next.value >= old(w.g).now + w.p.claimFor
              && now.count == was.count + 1 <= w.p.maxAttempts
              && (now.state == Succeeded <==> answers && !t.gone)
              && (now.state == Failed <==> t.gone || (!answers && now.count == w.p.maxAttempts))
              && (now.state == Pending ==> now.next.Some? && now.next.value >= old(w.g).now + BackoffOf(now.count))
              && (now.state != Pending ==> now.next == None)
              && t.name in w.g.deliveries && w.g.deliveries[t.name] == now
  {
    hide Run, BackoffOf;
    w.Take(Clock(a));
    if paused {
      LetGo(w, a);
      return Waits;
    }
    var ok: bool;
    result, ok := ClaimAndPost(w, a, w.g.now, answers);
    if !result.Waits? { return; }
    result := WriteOutcome(w, a, ok);
  }

  /** Writing an outcome stores what was decided, over the attempt's own claim and nothing else. */
  lemma FinishIs(p: Policy, g: State, a: nat, ok: bool, later: int, now: Delivery)
    requires a in g.attempts && g.attempts[a].phase.Holds() && g.attempts[a].phase.at <= later <= g.now
    requires var t := g.attempts[a];
             && (t.phase == if t.gone then Claimed(t.phase.at) else Answered(t.phase.at, ok)) && (t.gone ==> !ok)
             && now.count == t.dl.count + 1 && now == t.dl.(count := now.count, state := now.state, next := now.next)
             && (now.state == Succeeded <==> ok) && (now.state == Failed <==> !ok && (t.gone || now.count >= p.maxAttempts))
             && now.next == if now.state == Pending then Some(later + BackoffOf(now.count)) else None
    requires g.attempts[a].dl.state == Pending
    ensures Enabled(p, g, Finish(a, later))
    ensures var t, g' := g.attempts[a], Apply(p, g, Finish(a, later));
            && g'.attempts == g.attempts - {a}
            && (if Unchanged(g, t) then
                  && t.name in g'.deliveries && var d := g'.deliveries[t.name];
                  g'.deliveries == g.deliveries[t.name := d] && d == now.(etag := d.etag, ended := d.ended)
                else g'.deliveries == g.deliveries)
  {
  }

  lemma CopyIsPending(p: Policy, run: seq<State>, a: nat)
    requires p.Valid() && Run(p, run) && a in run[|run| - 1].attempts
    ensures var t := run[|run| - 1].attempts[a];
            t.dl.state == Pending && t.dl.count < p.maxAttempts
    ensures var t := run[|run| - 1].attempts[a];
            t.phase.Holds() ==> t.phase.at <= run[|run| - 1].now
  {
    RunInv(p, run, |run| - 1);
    assert AttemptOk(p, run[|run| - 1], run[|run| - 1].attempts[a]);
  }
}
