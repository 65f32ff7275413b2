/** The fenced cross-process lock of cache/core/loader.go: claim and unlock against leases that run
    out, over any number of processes. */
module Locks {
  import opened Wrappers

  /** What the lock key holds. The store drops it once now reaches `until`. */
  datatype Lease = Lease(token: nat, until: int)

  /** One flight's run in one process. `deadline` is its context's, set as the flight begins;
      a winner's lease is as it was taken. */
  datatype Process =
    | Flying(deadline: int)
    | Loading(deadline: int, won: Option<Lease>)
    | Unlocking(lease: Lease)

  /** timeout is a flight's, and its context's. overrun is how long after that a loader may go on:
      nothing, for one that keeps its context. */
  datatype Timing = Timing(timeout: int, overrun: int, lease: int) {
    predicate Valid() { timeout > 0 && overrun >= 0 && lease > 0 }
  }

  /** `used` is every token drawn so far: they are random, and taken to be distinct. */
  datatype State = State(now: int, lock: Option<Lease>, used: set<nat>, processes: map<nat, Process>)

  predicate Init(g: State) { g.processes == map[] && g.lock == None }

  predicate Live(g: State) { g.lock.Some? && g.now < g.lock.value.until }

  /** Add: `heard` is whether the reply reached the process; `joins` whether one that lost found
      the value published. */
  datatype Step =
    | Tick(to: int)
    | Begin(p: nat)
    | Add(p: nat, token: nat, heard: bool, joins: bool)
    | Leave(p: nat)
    | Unlock(p: nat)
    | Die(p: nat)

  predicate Enabled(t: Timing, g: State, step: Step) {
    match step
    case Tick(to) =>
      // a winner's loader is out before its flight's deadline, or what it overruns that by
      && g.now <= to
      && forall p | p in g.processes && g.processes[p].Loading? && g.processes[p].won.Some? :: to < g.processes[p].deadline + t.overrun
    case Begin(p) => p !in g.processes
    case Add(p, token, _, _) =>
      p in g.processes && g.processes[p].Flying? && g.now < g.processes[p].deadline && token !in g.used
    case Leave(p) => p in g.processes && g.processes[p].Loading?
    case Unlock(p) => p in g.processes && g.processes[p].Unlocking?
    case Die(p) => p in g.processes
  }

  function Apply(t: Timing, g: State, step: Step): State
    requires Enabled(t, g, step)
  {
    match step
    case Tick(to) => g.(now := to)
    case Begin(p) => g.(processes := g.processes[p := Flying(g.now + t.timeout)])
    case Add(p, token, heard, joins) =>
      var g' := g.(used := g.used + {token});
      var d := g.processes[p].deadline;
      if Live(g) then
        if joins then g'.(processes := g.processes - {p}) else g'.(processes := g.processes[p := Loading(d, None)])
      else
        var lease := Lease(token, g.now + t.lease);
        g'.(lock := Some(lease), processes := g.processes[p := Loading(d, if heard then Some(lease) else None)])
    case Leave(p) =>
      if g.processes[p].won.Some? then g.(processes := g.processes[p := Unlocking(g.processes[p].won.value)])
      else g.(processes := g.processes - {p})
    case Unlock(p) =>
      // DeleteIf: one step, and only the token that is its own
      var mine := Live(g) && g.lock.value.token == g.processes[p].lease.token;
      g.(lock := if mine then None else g.lock, processes := g.processes - {p})
    case Die(p) => g.(processes := g.processes - {p})
  }

  ghost predicate Next(t: Timing, g: State, g': State) {
    exists step :: Enabled(t, g, step) && g' == Apply(t, g, step)
  }

  /** The i-th state is one step after the one before. */
  ghost predicate Stepped(t: Timing, run: seq<State>, i: nat)
    requires 0 < i < |run|
  {
    Next(t, run[i-1], run[i])
  }

  ghost predicate Run(t: Timing, run: seq<State>) {
    |run| > 0 && Init(run[0]) && forall i | 0 < i < |run| :: Stepped(t, run, i)
  }

  // ---- the invariant ----------------------------------------------------------------------

  /** The lease a process took and has not given back, if any. */
  function Held(p: Process): Option<Lease> {
    match p
    case Flying(_) => None
    case Loading(_, won) => won
    case Unlocking(lease) => Some(lease)
  }

  ghost predicate ProcessOk(t: Timing, g: State, p: Process) {
    && (Held(p).Some? ==> Held(p).value.token in g.used && (g.now < Held(p).value.until ==> g.lock == Held(p)))
    && (Held(p).Some? && g.lock.Some? && g.lock.value.token == Held(p).value.token ==> g.lock == Held(p))
    && (p.Flying? ==> p.deadline <= g.now + t.timeout)
    && (p.Loading? && p.won.Some? ==> g.now < p.deadline + t.overrun && p.deadline - t.timeout <= p.won.value.until - t.lease)
  }

  ghost predicate Inv(t: Timing, g: State) {
    && (g.lock.Some? ==> g.lock.value.token in g.used)
    && (forall p | p in g.processes :: ProcessOk(t, g, g.processes[p]))
    && (forall p, q | p in g.processes && q in g.processes && p != q && Held(g.processes[p]).Some? && Held(g.processes[q]).Some? ::
          Held(g.processes[p]).value.token != Held(g.processes[q]).value.token)
  }

  lemma UnlockInv(t: Timing, g: State, step: Step)
    requires t.Valid() && Inv(t, g) && Enabled(t, g, step) && step.Unlock?
    ensures Inv(t, Apply(t, g, step))
  {
    var g' := Apply(t, g, step);
    assert ProcessOk(t, g, g.processes[step.p]);
    forall p | p in g'.processes ensures ProcessOk(t, g', g'.processes[p]) { assert ProcessOk(t, g, g.processes[p]); }
  }

  lemma StepInv(t: Timing, g: State, step: Step)
    requires t.Valid() && Inv(t, g) && Enabled(t, g, step)
    ensures Inv(t, Apply(t, g, step))
  {
    if step.Unlock? {
      UnlockInv(t, g, step);
    } else {
      var g' := Apply(t, g, step);
      forall p | p in g'.processes ensures ProcessOk(t, g', g'.processes[p]) {
        if p in g.processes { assert ProcessOk(t, g, g.processes[p]); }
      }
    }
  }

  lemma {:induction false} RunInv(t: Timing, run: seq<State>, i: nat)
    requires t.Valid() && Run(t, run) && i < |run|
    ensures Inv(t, run[i])
  {
    if i > 0 {
      RunInv(t, run, i - 1);
      assert Stepped(t, run, i);
      var step :| Enabled(t, run[i-1], step) && run[i] == Apply(t, run[i-1], step);
      StepInv(t, run[i-1], step);
    }
  }

  // ---- what the lock gives ----------------------------------------------------------------

  /** Short of running out, a live lock goes exactly as the process that took it unlocks: a late
      unlock, after the lease is another's, removes nothing. */
  lemma OnlyItsHolderRemoves(t: Timing, run: seq<State>, i: nat, step: Step)
    requires t.Valid() && Run(t, run) && i < |run| && Enabled(t, run[i], step) && Live(run[i])
    ensures var g, g' := run[i], Apply(t, run[i], step);
            && (g'.lock == g.lock || g'.lock == None)
            && (g'.lock == None <==> step.Unlock? && Held(g.processes[step.p]) == g.lock)
  {
    RunInv(t, run, i);
    if step.Unlock? {
      var g := run[i];
      assert ProcessOk(t, g, g.processes[step.p]);
    }
  }

  /** Of the processes that won and have not unlocked, at most one has a lease still running. */
  lemma OneLiveHolder(t: Timing, run: seq<State>, i: nat, p: nat, q: nat)
    requires t.Valid() && Run(t, run) && i < |run| && p in run[i].processes && q in run[i].processes
    requires var g := run[i];
             && Held(g.processes[p]).Some? && g.now < Held(g.processes[p]).value.until
             && Held(g.processes[q]).Some? && g.now < Held(g.processes[q]).value.until
    ensures p == q
  {
    RunInv(t, run, i);
  }

  /** A claim of a free lock, given back after the load, leaves it free; one of a lock that is taken
      leaves it as it was, whether its process joins or loads as well. */
  lemma ClaimedAndGivenBack(t: Timing, run: seq<State>, i: nat, p: nat, token: nat, joins: bool)
    requires t.Valid() && Run(t, run) && i < |run| && Enabled(t, run[i], Add(p, token, true, joins))
    ensures var g := run[i]; var g1 := Apply(t, g, Add(p, token, true, joins));
            if Live(g) && joins then g1.lock == g.lock && g1.processes == g.processes - {p}
            else
              && Enabled(t, g1, Leave(p)) && var g2 := Apply(t, g1, Leave(p));
              if Live(g) then g1.lock == g2.lock == g.lock && g2.processes == g.processes - {p}
              else
                && g1.lock == Some(Lease(token, g.now + t.lease)) && Enabled(t, g2, Unlock(p)) && var g3 := Apply(t, g2, Unlock(p));
                g3.lock == None && g3.processes == g.processes - {p}
  {
    var g1 := Apply(t, run[i], Add(p, token, true, joins));
    if p in g1.processes { assert g1.processes - {p} == run[i].processes - {p}; }
  }

  /** Two winners are in the loader at once. */
  ghost predicate TwoLoading(g: State) {
    exists p, q | p in g.processes && q in g.processes && p != q ::
      && g.processes[p].Loading? && g.processes[p].won.Some?
      && g.processes[q].Loading? && g.processes[q].won.Some?
  }

  ghost predicate NeverTwoLoading(t: Timing) {
    forall run, i | Run(t, run) && 0 <= i < |run| :: !TwoLoading(run[i])
  }

  ghost predicate Reachable(t: Timing, g: State) {
    exists run | Run(t, run) :: run[|run| - 1] == g
  }

  lemma Then(t: Timing, g: State, step: Step, g': State)
    requires Reachable(t, g) && Enabled(t, g, step) && g' == Apply(t, g, step)
    ensures Reachable(t, g')
  {
    var run :| Run(t, run) && run[|run| - 1] == g;
    var longer := run + [g'];
    forall i | 0 < i < |longer| ensures Stepped(t, longer, i) {
      if i < |run| { assert Stepped(t, run, i); }
    }
    assert longer[|longer| - 1] == g';
  }

  /** A loader may outlive its lease, and meet the next winner. */
  lemma ShortLeaseLetsTwoIn(t: Timing)
    requires t.Valid() && t.timeout + t.overrun > t.lease
    ensures !NeverTwoLoading(t)
  {
    var g0 := State(0, None, {}, map[]);
    assert Reachable(t, g0) by { assert Run(t, [g0]); assert [g0][|[g0]| - 1] == g0; }
    var g1 := Apply(t, g0, Begin(0));
    Then(t, g0, Begin(0), g1);
    var g2 := Apply(t, g1, Add(0, 0, true, false));
    Then(t, g1, Add(0, 0, true, false), g2);
    var g3 := Apply(t, g2, Tick(t.lease));
    Then(t, g2, Tick(t.lease), g3);
    var g4 := Apply(t, g3, Begin(1));
    Then(t, g3, Begin(1), g4);
    var g5 := Apply(t, g4, Add(1, 1, true, false));
    Then(t, g4, Add(1, 1, true, false), g5);
    assert g5.processes[0].won.Some? && g5.processes[1].won.Some?;
    assert TwoLoading(g5);
    var run :| Run(t, run) && run[|run| - 1] == g5;
  }

  /** No two winners are ever in the loader for one id at once if and only if a loader's time,
      the flight's timeout and what it may overrun it by, is no longer than the lease. */
  lemma NeverTwoLoadingExactly(t: Timing)
    requires t.Valid()
    ensures NeverTwoLoading(t) <==> t.timeout + t.overrun <= t.lease
  {
    if t.timeout + t.overrun <= t.lease {
      forall run, i | Run(t, run) && 0 <= i < |run| ensures !TwoLoading(run[i]) {
        RunInv(t, run, i);
      }
    } else {
      ShortLeaseLetsTwoIn(t);
    }
  }

  const SECOND: int := 1_000_000_000
  const FLIGHT_CAPACITY: int := 30 * SECOND
  const LOCK_LEASE: int := 30 * SECOND

  /** As built, no two winners are ever loading if and only if no loader outlives its context. */
  lemma BuiltNeverTwoLoading(overrun: nat)
    ensures NeverTwoLoading(Timing(FLIGHT_CAPACITY, overrun, LOCK_LEASE)) <==> overrun == 0
  {
    NeverTwoLoadingExactly(Timing(FLIGHT_CAPACITY, overrun, LOCK_LEASE));
  }
}
