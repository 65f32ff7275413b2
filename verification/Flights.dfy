/** The single-flight of cache/core/flight.go: concurrent callers, the runs they start or join,
    and the budget, as a state machine of critical sections and channel operations. */
module Flights {

  datatype Outcome = Loaded(body: string) | Failed(error: string)

  /** Where a run is: fn executing, returned, out of the map, published. Its slot is held
      throughout. */
  datatype Phase =
    | Running
    | Ran(o: Outcome)
    | Removed(o: Outcome)
    | Closed(o: Outcome)
  {
    predicate InMap() { Running? || Ran? }
  }

  datatype Job = Job(key: string, phase: Phase)

  /** A caller of Do waiting for its call. */
  datatype Waiter = Waiter(key: string, call: nat, joined: bool)

  /** `slots` are those taken of the budget, `published` the calls whose done is closed, with their
      result. `ran` is history: what each call's fn returned. */
  datatype State = State(budget: nat, slots: nat, calls: map<string, nat>, jobs: map<nat, Job>,
                         published: map<nat, Outcome>, ran: map<nat, Outcome>, waiters: map<nat, Waiter>, nextCall: nat)

  predicate Init(g: State) {
    g.budget > 0 && g.slots == 0 && g.calls == map[] && g.jobs == map[] && g.published == map[] && g.ran == map[] && g.waiters == map[]
  }

  datatype Step =
    | Enter(w: nat, key: string)
    | Return(c: nat, o: Outcome)
    | Remove(c: nat)
    | Close(c: nat)
    | Release(c: nat)
    | Wake(w: nat)
    | GiveUp(w: nat)

  predicate Enabled(g: State, step: Step) {
    match step
    case Enter(w, _) => w !in g.waiters
    case Return(c, _) => c in g.jobs && g.jobs[c].phase.Running?
    case Remove(c) => c in g.jobs && g.jobs[c].phase.Ran?
    case Close(c) => c in g.jobs && g.jobs[c].phase.Removed?
    case Release(c) => c in g.jobs && g.jobs[c].phase.Closed? && g.slots > 0
    case Wake(w) => w in g.waiters && g.waiters[w].call in g.published
    case GiveUp(w) => w in g.waiters
  }

  predicate Refused(g: State, key: string) { key !in g.calls && g.slots >= g.budget }

  function Started(g: State, w: nat, key: string): State {
    g.(slots := g.slots + 1, calls := g.calls[key := g.nextCall], jobs := g.jobs[g.nextCall := Job(key, Running)],
       waiters := g.waiters[w := Waiter(key, g.nextCall, false)], nextCall := g.nextCall + 1)
  }

  function Apply(g: State, step: Step): State
    requires Enabled(g, step)
  {
    match step
    case Enter(w, key) =>
      if key in g.calls then g.(waiters := g.waiters[w := Waiter(key, g.calls[key], true)])
      else if Refused(g, key) then g
      else Started(g, w, key)
    case Return(c, o) => g.(jobs := g.jobs[c := g.jobs[c].(phase := Ran(o))], ran := g.ran[c := o])
    case Remove(c) => g.(jobs := g.jobs[c := g.jobs[c].(phase := Removed(g.jobs[c].phase.o))], calls := g.calls - {g.jobs[c].key})
    case Close(c) => g.(jobs := g.jobs[c := g.jobs[c].(phase := Closed(g.jobs[c].phase.o))], published := g.published[c := g.jobs[c].phase.o])
    case Release(c) => g.(jobs := g.jobs - {c}, slots := g.slots - 1)
    case Wake(w) => g.(waiters := g.waiters - {w})
    case GiveUp(w) => g.(waiters := g.waiters - {w})
  }

  ghost predicate Next(g: State, g': State) {
    exists step :: Enabled(g, step) && g' == Apply(g, step)
  }

  /** The i-th state is one step after the one before. */
  ghost predicate Stepped(run: seq<State>, i: nat)
    requires 0 < i < |run|
  {
    Next(run[i-1], run[i])
  }

  ghost predicate Run(run: seq<State>) {
    |run| > 0 && Init(run[0]) && forall i | 0 < i < |run| :: Stepped(run, i)
  }

  // ---- the invariant ----------------------------------------------------------------------

  predicate EntryOk(g: State, k: string)
    requires k in g.calls
  {
    g.calls[k] in g.jobs && g.jobs[g.calls[k]].key == k && g.jobs[g.calls[k]].phase.InMap()
  }

  predicate JobOk(g: State, c: nat)
    requires c in g.jobs
  {
    var j := g.jobs[c];
    && c < g.nextCall
    && (j.phase.InMap() ==> j.key in g.calls && g.calls[j.key] == c)
    && (c in g.published <==> j.phase.Closed?)
    && (j.phase.Running? <==> c !in g.ran)
    && (!j.phase.Running? ==> g.ran[c] == j.phase.o)
  }

  predicate WaiterOk(g: State, w: Waiter) {
    && (w.call in g.published || w.call in g.jobs)
    && (w.call in g.jobs ==> g.jobs[w.call].key == w.key)
  }

  ghost predicate Inv(g: State) {
    && g.budget > 0 && g.slots == |g.jobs| <= g.budget
    && (forall k | k in g.calls :: EntryOk(g, k))
    && (forall c | c in g.jobs :: JobOk(g, c))
    && (forall c | c in g.published :: c in g.ran && g.published[c] == g.ran[c])
    && (forall c | c in g.ran :: c < g.nextCall)
    && (forall w | w in g.waiters :: WaiterOk(g, g.waiters[w]))
  }

  lemma StartInv(g: State, w: nat, key: string)
    requires Inv(g) && key !in g.calls && g.slots < g.budget
    ensures Inv(Started(g, w, key))
  {
    var g' := Started(g, w, key);
    assert g.nextCall in g.jobs ==> JobOk(g, g.nextCall);
    StartedJobs(g, w, key);
    forall k | k in g'.calls ensures EntryOk(g', k) { if k != key { assert EntryOk(g, k); } }
    forall v | v in g'.waiters ensures WaiterOk(g', g'.waiters[v]) { if v != w { assert WaiterOk(g, g.waiters[v]); } }
  }

  lemma StartedJobs(g: State, w: nat, key: string)
    requires Inv(g) && key !in g.calls && g.slots < g.budget
    ensures var g' := Started(g, w, key); |g'.jobs| == |g.jobs| + 1 && forall c | c in g'.jobs :: JobOk(g', c)
  {
    var g' := Started(g, w, key);
    assert g.nextCall in g.jobs ==> JobOk(g, g.nextCall);
    assert g'.jobs.Keys == g.jobs.Keys + {g.nextCall};
    assert |g'.jobs.Keys| == |g.jobs.Keys| + 1;
    forall c | c in g'.jobs ensures JobOk(g', c) { if c != g.nextCall { assert JobOk(g, c); } }
  }

  lemma EnterInv(g: State, w: nat, key: string)
    requires Inv(g) && Enabled(g, Enter(w, key))
    ensures Inv(Apply(g, Enter(w, key)))
  {
    if key !in g.calls && !Refused(g, key) { StartInv(g, w, key); }
  }

  /** A step that only takes call c on through its phases keeps every other entry and waiter. */
  lemma PhaseInv(g: State, c: nat, g': State)
    requires Inv(g) && c in g.jobs && c in g'.jobs && JobOk(g', c) && g'.waiters == g.waiters && g'.calls == g.calls
    requires g'.budget == g.budget && g'.slots == g.slots && g'.nextCall == g.nextCall
    requires g'.jobs == g.jobs[c := g'.jobs[c]] && g'.jobs[c].key == g.jobs[c].key
    requires g.jobs[c].phase.InMap() ==> g'.jobs[c].phase.InMap()
    requires forall d | d != c :: (d in g'.ran <==> d in g.ran) && (d in g.ran ==> g'.ran[d] == g.ran[d])
    requires forall d | d != c :: (d in g'.published <==> d in g.published) && (d in g.published ==> g'.published[d] == g.published[d])
    requires c in g.ran ==> c in g'.ran && g'.ran[c] == g.ran[c]
    requires c in g'.published ==> c in g'.ran && g'.published[c] == g'.ran[c]
    ensures Inv(g')
  {
    hide JobOk;
    assert g'.jobs.Keys == g.jobs.Keys;
    assert c < g.nextCall by { assert JobOk(g, c); JobIsOld(g, c); }
    forall k | k in g'.calls ensures EntryOk(g', k) { assert EntryOk(g, k); }
    forall d | d in g'.jobs ensures JobOk(g', d) { if d != c { assert JobOk(g, d); JobStays(g, g', d); } }
    forall w | w in g'.waiters ensures WaiterOk(g', g'.waiters[w]) { assert WaiterOk(g, g.waiters[w]); }
  }

  lemma JobIsOld(g: State, c: nat)
    requires c in g.jobs && JobOk(g, c)
    ensures c < g.nextCall
  {
  }

  lemma JobStays(g: State, g': State, d: nat)
    requires d in g.jobs && d in g'.jobs && g'.jobs[d] == g.jobs[d] && JobOk(g, d) && g'.calls == g.calls && g'.nextCall == g.nextCall
    requires (d in g'.ran <==> d in g.ran) && (d in g.ran ==> g'.ran[d] == g.ran[d]) && (d in g'.published <==> d in g.published)
    ensures JobOk(g', d)
  {
  }

  lemma ReturnInv(g: State, c: nat, o: Outcome)
    requires Inv(g) && Enabled(g, Return(c, o))
    ensures Inv(Apply(g, Return(c, o)))
  {
    assert JobOk(g, c);
    PhaseInv(g, c, Apply(g, Return(c, o)));
  }

  lemma RemoveInv(g: State, c: nat)
    requires Inv(g) && Enabled(g, Remove(c))
    ensures Inv(Apply(g, Remove(c)))
  {
    assert Apply(g, Remove(c)).jobs.Keys == g.jobs.Keys;
  }

  lemma CloseInv(g: State, c: nat)
    requires Inv(g) && Enabled(g, Close(c))
    ensures Inv(Apply(g, Close(c)))
  {
    assert JobOk(g, c);
    PhaseInv(g, c, Apply(g, Close(c)));
  }

  lemma ReleaseInv(g: State, c: nat)
    requires Inv(g) && Enabled(g, Release(c))
    ensures Inv(Apply(g, Release(c)))
  {
    var g' := Apply(g, Release(c));
    assert g'.jobs.Keys == g.jobs.Keys - {c};
    assert |g'.jobs.Keys| == |g.jobs.Keys| - 1;
  }

  lemma StepInv(g: State, step: Step)
    requires Inv(g) && Enabled(g, step)
    ensures Inv(Apply(g, step))
  {
    match step {
      case Enter(w, key) => EnterInv(g, w, key);
      case Return(c, o) => ReturnInv(g, c, o);
      case Remove(c) => RemoveInv(g, c);
      case Close(c) => CloseInv(g, c);
      case Release(c) => ReleaseInv(g, c);
      case _ =>
    }
  }

  lemma StepAt(run: seq<State>, i: nat) returns (step: Step)
    requires Run(run) && 0 < i < |run|
    ensures Enabled(run[i-1], step) && run[i] == Apply(run[i-1], step)
  {
    assert Stepped(run, i);
    step :| Enabled(run[i-1], step) && run[i] == Apply(run[i-1], step);
  }

  lemma {:induction false} RunInv(run: seq<State>, i: nat)
    requires Run(run) && i < |run|
    ensures Inv(run[i])
  {
    if i > 0 {
      RunInv(run, i - 1);
      var step := StepAt(run, i);
      StepInv(run[i-1], step);
    }
  }

  // ---- safety -----------------------------------------------------------------------------

  /** At most one fn executes for a key, and it is the call the map holds. */
  lemma OneExecutionPerKey(run: seq<State>, i: nat, c: nat, d: nat)
    requires Run(run) && i < |run| && c in run[i].jobs && d in run[i].jobs
    requires run[i].jobs[c].phase.Running? && run[i].jobs[d].phase.Running? && run[i].jobs[c].key == run[i].jobs[d].key
    ensures c == d && run[i].jobs[c].key in run[i].calls && run[i].calls[run[i].jobs[c].key] == c
  {
    RunInv(run, i);
  }

  /** The runs whose slot is not back though nobody can join them any more. */
  function Leaving(g: State): set<nat> { set c | c in g.jobs && !g.jobs[c].phase.InMap() }

  lemma {:induction false} InjectiveSize(m: map<string, nat>)
    requires forall k, l | k in m && l in m && k != l :: m[k] != m[l]
    ensures |m| == |m.Values|
  {
    if m != map[] {
      var k :| k in m;
      var m' := m - {k};
      InjectiveSize(m');
      assert m.Values == m'.Values + {m[k]};
      assert m[k] !in m'.Values;
      assert m.Keys == m'.Keys + {k};
      assert |m.Keys| == |m'.Keys| + 1;
    }
  }

  /** The slots taken are the calls in the map and the runs on their way out, and never more than
      the budget; when no run is left they are all back. */
  lemma SlotsAreAccounted(run: seq<State>, i: nat)
    requires Run(run) && i < |run|
    ensures var g := run[i];
            g.slots == |g.calls| + |Leaving(g)| <= g.budget && (g.jobs == map[] ==> g.slots == 0 && g.calls == map[])
  {
    RunInv(run, i);
    var g := run[i];
    InjectiveSize(g.calls);
    assert g.jobs.Keys == g.calls.Values + Leaving(g) by {
      forall c | c in g.jobs && c !in Leaving(g) ensures c in g.calls.Values { assert g.calls[g.jobs[c].key] == c; }
    }
    assert g.calls.Values !! Leaving(g);
    assert |g.jobs.Keys| == |g.calls.Values| + |Leaving(g)|;
  }

  // ---- delivery ---------------------------------------------------------------------------

  /** A caller that joins finds a call nobody has published; one refused leaves nothing behind. */
  lemma JoinedIsUnpublished(run: seq<State>, i: nat, w: nat, key: string)
    requires Run(run) && i < |run| && Enabled(run[i], Enter(w, key))
    ensures var g, g' := run[i], Apply(run[i], Enter(w, key));
            if key !in g.calls && g.slots >= g.budget then g' == g
            else w in g'.waiters && g'.waiters[w].key == key && g'.waiters[w].call == g'.calls[key]
                 && g'.waiters[w].call !in g'.published && (g'.waiters[w].joined <==> key in g.calls)
  {
    RunInv(run, i);
    StepInv(run[i], Enter(w, key));
  }

  lemma StepRan(g: State, step: Step, c: nat)
    requires Inv(g) && Enabled(g, step) && c in g.ran
    ensures var g' := Apply(g, step); c in g'.ran && g'.ran[c] == g.ran[c]
  {
    if step.Return? { assert JobOk(g, step.c); }
  }

  lemma NextRan(g: State, g': State, c: nat)
    requires Inv(g) && Next(g, g') && c in g.ran
    ensures c in g'.ran && g'.ran[c] == g.ran[c]
  {
    var step :| Enabled(g, step) && g' == Apply(g, step);
    StepRan(g, step, c);
  }

  lemma RanStays(run: seq<State>, j: nat, c: nat)
    requires Run(run) && 0 < j < |run| && c in run[j-1].ran
    ensures c in run[j].ran && run[j].ran[c] == run[j-1].ran[c]
  {
    hide Inv, Next;
    RunInv(run, j - 1);
    assert Stepped(run, j);
    NextRan(run[j-1], run[j], c);
  }

  /** A call, once made, keeps its result: what its fn returned is what is published. */
  lemma {:induction false} ResultIsKept(run: seq<State>, i: nat, j: nat, c: nat)
    requires Run(run) && i <= j < |run| && c in run[i].ran
    ensures c in run[j].ran && run[j].ran[c] == run[i].ran[c]
    decreases j
  {
    if i < j {
      ResultIsKept(run, i, j - 1, c);
      RanStays(run, j, c);
    }
  }

  /** Whoever returns through done gets what the fn of the very call it waited on returned. */
  lemma WokenGetsItsCall(run: seq<State>, i: nat, w: nat)
    requires Run(run) && i < |run| && Enabled(run[i], Wake(w))
    ensures var c := run[i].waiters[w].call; c in run[i].ran && run[i].published[c] == run[i].ran[c]
  {
    RunInv(run, i);
  }

  lemma StepKeepsCall(g: State, step: Step, w: nat)
    requires Enabled(g, step) && w in g.waiters && w in Apply(g, step).waiters
    ensures Apply(g, step).waiters[w] == g.waiters[w]
  {
  }

  /** The call a waiter waits on never changes. */
  lemma {:induction false} WaiterKeepsItsCall(run: seq<State>, i: nat, j: nat, w: nat)
    requires Run(run) && i <= j < |run| && forall k | i <= k <= j :: w in run[k].waiters
    ensures run[j].waiters[w] == run[i].waiters[w]
  {
    if i < j {
      WaiterKeepsItsCall(run, i, j - 1, w);
      var step := StepAt(run, j);
      StepKeepsCall(run[j-1], step, w);
    }
  }

  /** What a call still has to do before those waiting on it can return. */
  function StepsLeft(g: State, c: nat): nat {
    if c in g.published || c !in g.jobs then 0
    else match g.jobs[c].phase
      case Running => 3
      case Ran(_) => 2
      case Removed(_) => 1
      case Closed(_) => 0
  }

  /** The call's own next step. */
  function Onward(g: State, c: nat, o: Outcome): Step
    requires c in g.jobs
  {
    match g.jobs[c].phase
    case Running => Return(c, o)
    case Ran(_) => Remove(c)
    case Removed(_) => Close(c)
    case Closed(_) => Release(c)
  }

  /** No waiter is stranded, whoever gives up: either it can return, or its call's next step can be
      taken, leaves it waiting, and brings it nearer. */
  lemma NoWaiterIsStranded(run: seq<State>, i: nat, w: nat, o: Outcome)
    requires Run(run) && i < |run| && w in run[i].waiters
    ensures var g := run[i]; var c := g.waiters[w].call;
            || Enabled(g, Wake(w))
            || (&& c in g.jobs && Enabled(g, Onward(g, c, o))
                && w in Apply(g, Onward(g, c, o)).waiters
                && StepsLeft(Apply(g, Onward(g, c, o)), c) < StepsLeft(g, c))
  {
    RunInv(run, i);
  }

  /** Nothing anybody does takes a call back: it is never further from publishing. */
  lemma NoStepTakesBack(run: seq<State>, i: nat, w: nat, step: Step)
    requires Run(run) && i < |run| && w in run[i].waiters && Enabled(run[i], step)
    ensures var c := run[i].waiters[w].call;
            && StepsLeft(Apply(run[i], step), c) <= StepsLeft(run[i], c)
            && (c in run[i].published ==> c in Apply(run[i], step).published)
  {
    RunInv(run, i);
  }

  // ---- the source's own form --------------------------------------------------------------

  /** flight: its map, its budget and everyone using it. `run` is every state so far. */
  class Flight {
    var g: State
    /** History: every state so far, and how many whiles callers have waited. */
    ghost var run: seq<State>
    ghost var waited: nat

    ghost predicate Valid()
      reads this
    {
      Run(run) && g == run[|run| - 1]
    }

    constructor (budget: int)
      ensures Valid() && g.budget == (if budget < 1 then 1 else budget) && g.calls == map[]
    {
      waited := 0;
      g := State(if budget < 1 then 1 else budget, 0, map[], map[], map[], map[], map[], 0);
      run := [g];
    }

    method Take(step: Step)
      requires Valid() && Enabled(g, step)
      modifies this
      ensures Valid() && g == Apply(old(g), step) && run == old(run) + [g] && waited == old(waited)
    {
      ghost var was := run;
      g := Apply(g, step);
      run := run + [g];
      forall i | 0 < i < |run| ensures Stepped(run, i) {
        if i < |was| { assert Stepped(was, i); }
      }
    }

    /** Anything others may do in a while that the caller w waits. */
    method Others(w: nat)
      requires Valid() && w in g.waiters
      modifies this
      ensures Valid() && old(run) <= run && w in g.waiters && g.waiters[w] == old(g).waiters[w]
      ensures waited == old(waited) + 1
    {
      waited := waited + 1;
      var n: nat := *;
      while n > 0
        invariant Valid() && old(run) <= run && w in g.waiters && g.waiters[w] == old(g).waiters[w] && waited == old(waited) + 1
      {
        var step: Step := *;
        if step != Wake(w) && step != GiveUp(w) && Enabled(g, step) {
          Take(step);
        }
        n := n - 1;
      }
    }

    /** Do, up to the caller's patience. Through done it gets what the fn of the call it started or
        joined returned; refused, it leaves everything as it was. */
    method Do(w: nat, key: string, patience: nat) returns (result: Result, ghost call: nat)
      requires Valid() && w !in g.waiters
      modifies this
      ensures Valid() && old(run) <= run && w !in g.waiters
      ensures result == Overloaded <==> key !in old(g).calls && old(g).slots >= old(g).budget
      ensures result == Overloaded ==> g == old(g)
      ensures result.Got? ==>
                && call == (if key in old(g).calls then old(g).calls[key] else old(g).nextCall)
                && (result.started <==> key !in old(g).calls)
                && call in g.ran && result.o == g.ran[call]
      ensures result == Canceled ==> waited == old(waited) + patience && call !in g.published
      ensures result == Canceled || result.Got? ==> call == if key in old(g).calls then old(g).calls[key] else old(g).nextCall
    {
      call := 0;
      var was := g;
      Take(Enter(w, key));
      if w !in g.waiters { return Overloaded, call; }
      var mine := g.waiters[w];
      call := mine.call;
      var left := patience;
      while left > 0 && mine.call !in g.published
        invariant Valid() && old(run) <= run && w in g.waiters && g.waiters[w] == mine
        invariant waited + left == old(waited) + patience
      {
        Others(w);
        left := left - 1;
      }
      if mine.call in g.published {
        var o := g.published[mine.call];
        WokenGetsItsCall(run, |run| - 1, w);
        Take(Wake(w));
        result := Got(o, !mine.joined);
      } else {
        Take(GiveUp(w));
        result := Canceled;
      }
    }

    /** run's deferred calls, in the order they happen: out of the map, then published, then the
        slot back. */
    method Conclude(c: nat, o: Outcome)
      requires Valid() && c in g.jobs && g.jobs[c].phase.Running?
      modifies this
      ensures Valid() && old(run) <= run
      ensures c !in g.jobs && g.slots == old(g).slots - 1 && c in g.published && g.published[c] == o
      ensures g.calls == old(g).calls - {old(g).jobs[c].key} && g.waiters == old(g).waiters
    {
      Take(Return(c, o));
      Take(Remove(c));
      Take(Close(c));
      RunInv(run, |run| - 1);
      assert c in g.jobs.Keys && |g.jobs.Keys| > 0;
      Take(Release(c));
    }
  }

  /** What Do returns. */
  datatype Result = Got(o: Outcome, started: bool) | Overloaded | Canceled
}
