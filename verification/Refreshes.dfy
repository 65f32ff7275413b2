/** Background refreshes: the claims of aside.background (cache/core/aside.go) and the bounded,
    drainable refresher of cache/core/refresh.go they run under. */
module Refreshes {

  /** One id of one read-through view. Views share the refresher, not their claims. */
  datatype Key = Key(view: nat, id: string)

  /** A reader that claimed a key: about to ask for a refresh, or refused one. */
  datatype Reader = Reader(key: Key, refused: bool)

  /** A refresh admitted: its body, then its claim given up, then its slot. */
  datatype Task =
    | Body(key: Key)
    | Unclaimed
    | Freed

  /** `refreshing` holds, as history, which reader's claim put each key there; a refresh keeps the
      number of the reader that asked for it. `drained` is that Drain has returned nil. */
  datatype State = State(budget: nat, slots: nat, group: nat, closed: bool, drained: bool,
                         refreshing: map<Key, nat>, readers: map<nat, Reader>, tasks: map<nat, Task>)

  predicate Init(g: State) {
    && g.budget > 0 && g.slots == 0 && g.group == 0 && !g.closed && !g.drained
    && g.refreshing == map[] && g.readers == map[] && g.tasks == map[]
  }

  datatype Step =
    | Claim(r: nat, key: Key)
    | Go(r: nat)
    | Unclaim(r: nat)
    | EndBody(k: nat)
    | FreeSlot(k: nat)
    | Finish(k: nat)
    | Close
    | Drained

  predicate Enabled(g: State, step: Step) {
    match step
    case Claim(r, _) => r !in g.readers && r !in g.tasks
    case Go(r) => r in g.readers && !g.readers[r].refused
    case Unclaim(r) => r in g.readers && g.readers[r].refused
    case EndBody(k) => k in g.tasks && g.tasks[k].Body?
    case FreeSlot(k) => k in g.tasks && g.tasks[k].Unclaimed? && g.slots > 0
    case Finish(k) => k in g.tasks && g.tasks[k].Freed? && g.group > 0
    case Close => true
    case Drained => g.closed && g.group == 0
  }

  predicate Admits(g: State) { !g.closed && g.slots < g.budget }

  function Apply(g: State, step: Step): State
    requires Enabled(g, step)
  {
    match step
    case Claim(r, key) =>
      if key in g.refreshing then g
      else g.(refreshing := g.refreshing[key := r], readers := g.readers[r := Reader(key, false)])
    case Go(r) =>
      if Admits(g) then
        g.(slots := g.slots + 1, group := g.group + 1, readers := g.readers - {r}, tasks := g.tasks[r := Body(g.readers[r].key)])
      else g.(readers := g.readers[r := g.readers[r].(refused := true)])
    case Unclaim(r) => g.(refreshing := g.refreshing - {g.readers[r].key}, readers := g.readers - {r})
    case EndBody(k) => g.(refreshing := g.refreshing - {g.tasks[k].key}, tasks := g.tasks[k := Unclaimed])
    case FreeSlot(k) => g.(slots := g.slots - 1, tasks := g.tasks[k := Freed])
    case Finish(k) => g.(group := g.group - 1, tasks := g.tasks - {k})
    case Close => g.(closed := true)
    case Drained => g.(drained := true)
  }

  ghost predicate Next(g: State, g': State) {
    exists step :: Enabled(g, step) && g' == Apply(g, step)
  }

  /** The i-th state is one step after the one before. */
  ghost predicate Stepped(run: seq<State>, i: nat)
    requires 0 < i < |run|
  {
    Next(run[i-1], run[i])
  }

  ghost predicate Run(run: seq<State>) {
    |run| > 0 && Init(run[0]) && forall i | 0 < i < |run| :: Stepped(run, i)
  }

  // ---- the invariant ----------------------------------------------------------------------

  function HoldingOf(tasks: map<nat, Task>): set<nat> { set k | k in tasks && !tasks[k].Freed? }

  /** The refreshes whose slot is not back. */
  function Holding(g: State): set<nat> { HoldingOf(g.tasks) }

  /** o is the one owner of key: the reader that claimed it, or the refresh that reader was
      admitted. */
  predicate Owns(g: State, o: nat, key: Key) {
    || (o in g.readers && o !in g.tasks && g.readers[o].key == key)
    || (o in g.tasks && o !in g.readers && g.tasks[o] == Body(key))
  }

  predicate ReaderOk(g: State, r: nat)
    requires r in g.readers
  {
    r !in g.tasks && g.readers[r].key in g.refreshing && g.refreshing[g.readers[r].key] == r
  }

  predicate TaskOk(g: State, k: nat)
    requires k in g.tasks
  {
    g.tasks[k].Body? ==> g.tasks[k].key in g.refreshing && g.refreshing[g.tasks[k].key] == k
  }

  ghost predicate Owned(g: State) {
    && (forall key | key in g.refreshing :: Owns(g, g.refreshing[key], key))
    && (forall r | r in g.readers :: ReaderOk(g, r))
    && (forall k | k in g.tasks :: TaskOk(g, k))
  }

  ghost predicate Counted(g: State) {
    && g.budget > 0 && g.slots == |Holding(g)| <= g.budget && g.group == |g.tasks.Keys|
    && (g.drained ==> g.closed && g.tasks == map[])
  }

  ghost predicate Inv(g: State) { Owned(g) && Counted(g) }

  lemma AdmittedCounted(tasks: map<nat, Task>, r: nat, key: Key)
    requires r !in tasks
    ensures |HoldingOf(tasks[r := Body(key)])| == |HoldingOf(tasks)| + 1
    ensures |tasks[r := Body(key)].Keys| == |tasks.Keys| + 1
  {
    assert HoldingOf(tasks[r := Body(key)]) == HoldingOf(tasks) + {r} && r !in HoldingOf(tasks);
    assert tasks[r := Body(key)].Keys == tasks.Keys + {r};
  }

  lemma TaskStepCounted(g: State, step: Step)
    requires Counted(g) && Enabled(g, step) && (step.EndBody? || step.FreeSlot? || step.Finish?)
    ensures Counted(Apply(g, step))
  {
    var g', k := Apply(g, step), step.k;
    assert Holding(g') == Holding(g) - if step.FreeSlot? then {k} else {};
    assert step.FreeSlot? ==> k in Holding(g);
    assert g'.tasks.Keys == g.tasks.Keys - if step.Finish? then {k} else {};
  }

  lemma StepCounted(g: State, step: Step)
    requires Inv(g) && Enabled(g, step)
    ensures Counted(Apply(g, step))
  {
    match step {
      case Go(r) => assert ReaderOk(g, r); AdmittedCounted(g.tasks, r, g.readers[r].key);
      case EndBody(_) => TaskStepCounted(g, step);
      case FreeSlot(_) => TaskStepCounted(g, step);
      case Finish(_) => TaskStepCounted(g, step);
      case Drained => assert |g.tasks.Keys| == 0;
      case _ => assert Holding(Apply(g, step)) == Holding(g);
    }
  }

  lemma ClaimOwned(g: State, r: nat, key: Key)
    requires Owned(g) && Enabled(g, Claim(r, key)) && key !in g.refreshing
    ensures Owned(Apply(g, Claim(r, key)))
  {
    var g' := Apply(g, Claim(r, key));
    forall k | k in g'.refreshing && k != key ensures Owns(g', g'.refreshing[k], k) { assert Owns(g, g.refreshing[k], k); }
    forall o | o in g'.readers && o != r ensures ReaderOk(g', o) { assert ReaderOk(g, o); }
    forall k | k in g'.tasks ensures TaskOk(g', k) { assert TaskOk(g, k); }
  }

  lemma GoOwned(g: State, r: nat)
    requires Owned(g) && Enabled(g, Go(r))
    ensures Owned(Apply(g, Go(r)))
  {
    var g' := Apply(g, Go(r));
    assert ReaderOk(g, r);
    forall k | k in g'.refreshing ensures Owns(g', g'.refreshing[k], k) { assert Owns(g, g.refreshing[k], k); }
    forall o | o in g'.readers ensures ReaderOk(g', o) { assert ReaderOk(g, o); }
    forall k | k in g'.tasks && k != r ensures TaskOk(g', k) { assert TaskOk(g, k); }
  }

  lemma GivenUpOwned(g: State, step: Step)
    requires Owned(g) && Enabled(g, step) && (step.Unclaim? || step.EndBody?)
    ensures Owned(Apply(g, step))
  {
    var g' := Apply(g, step);
    forall k | k in g'.refreshing ensures Owns(g', g'.refreshing[k], k) { assert Owns(g, g.refreshing[k], k); }
    forall o | o in g'.readers ensures ReaderOk(g', o) { assert ReaderOk(g, o); }
    forall k | k in g'.tasks ensures TaskOk(g', k) { assert TaskOk(g, k); }
  }

  lemma StepOwned(g: State, step: Step)
    requires Owned(g) && Enabled(g, step)
    ensures Owned(Apply(g, step))
  {
    match step {
      case Claim(r, key) => if key !in g.refreshing { ClaimOwned(g, r, key); }
      case Go(r) => GoOwned(g, r);
      case Unclaim(_) => GivenUpOwned(g, step);
      case EndBody(_) => GivenUpOwned(g, step);
      case _ =>
    }
  }

  lemma StepInv(g: State, step: Step)
    requires Inv(g) && Enabled(g, step)
    ensures Inv(Apply(g, step))
  {
    StepCounted(g, step);
    StepOwned(g, step);
  }

  lemma NextInv(g: State, g': State)
    requires Inv(g) && Next(g, g')
    ensures Inv(g')
  {
    var step :| Enabled(g, step) && g' == Apply(g, step);
    StepInv(g, step);
  }

  lemma {:induction false} RunInv(run: seq<State>, i: nat)
    requires Run(run) && i < |run|
    ensures Inv(run[i])
  {
    if i > 0 {
      RunInv(run, i - 1);
      assert Stepped(run, i);
      NextInv(run[i-1], run[i]);
    }
  }

  // ---- what it gives ----------------------------------------------------------------------

  /** A key is in refreshing exactly while somebody owns it, and then one alone. */
  lemma ClaimedWhileOwned(run: seq<State>, i: nat, key: Key, o: nat, o': nat)
    requires Run(run) && i < |run|
    ensures key in run[i].refreshing ==> Owns(run[i], run[i].refreshing[key], key)
    ensures Owns(run[i], o, key) ==> key in run[i].refreshing
    ensures Owns(run[i], o, key) && Owns(run[i], o', key) ==> o == o'
  {
    RunInv(run, i);
  }

  /** At most one refresh body per id of a view runs at a time. */
  lemma OneBodyPerKey(run: seq<State>, i: nat, k: nat, l: nat)
    requires Run(run) && i < |run| && k in run[i].tasks && l in run[i].tasks
    requires run[i].tasks[k].Body? && run[i].tasks[l].Body? && run[i].tasks[k].key == run[i].tasks[l].key
    ensures k == l
  {
    RunInv(run, i);
  }

  /** No claim leaks, and admitted work keeps to the budget. */
  lemma NothingLeaks(run: seq<State>, i: nat)
    requires Run(run) && i < |run|
    ensures run[i].slots == |Holding(run[i])| <= run[i].budget
    ensures run[i].readers == map[] && run[i].tasks == map[] ==> run[i].refreshing == map[] && run[i].slots == 0
  {
    RunInv(run, i);
    var g := run[i];
    if g.readers == map[] && g.tasks == map[] {
      assert forall key | key in g.refreshing :: Owns(g, g.refreshing[key], key);
      assert g.refreshing.Keys == {};
      assert Holding(g) == {};
    }
  }

  /** What a reader or an admitted refresh does next. */
  function Onward(g: State, o: nat): Step
    requires o in g.readers || o in g.tasks
  {
    if o in g.readers then if g.readers[o].refused then Unclaim(o) else Go(o)
    else match g.tasks[o]
      case Body(_) => EndBody(o)
      case Unclaimed => FreeSlot(o)
      case Freed => Finish(o)
  }

  /** How many steps it still has to take before nothing is left of it. */
  function StepsLeft(g: State, o: nat): nat {
    if o in g.readers then if g.readers[o].refused then 1 else 4
    else if o !in g.tasks then 0
    else match g.tasks[o]
      case Body(_) => 3
      case Unclaimed => 2
      case Freed => 1
  }

  /** Nobody is stuck: whoever is there can take its next step, and is nearer to being gone. */
  lemma NobodyIsStuck(run: seq<State>, i: nat, o: nat)
    requires Run(run) && i < |run| && (o in run[i].readers || o in run[i].tasks)
    ensures Enabled(run[i], Onward(run[i], o)) && StepsLeft(Apply(run[i], Onward(run[i], o)), o) < StepsLeft(run[i], o)
  {
    RunInv(run, i);
    var g := run[i];
    assert o in g.readers ==> ReaderOk(g, o);
    if o in g.tasks {
      assert o in g.tasks.Keys && |g.tasks.Keys| > 0;
      if !g.tasks[o].Freed? { assert o in Holding(g) && |Holding(g)| > 0; }
    }
  }

  lemma NextDrained(g: State, g': State)
    requires Next(g, g') && g.drained
    ensures g'.drained
  {
  }

  /** Once Drain has returned nil, nothing runs and nothing ever will. */
  lemma {:induction false} DrainedIsQuiet(run: seq<State>, i: nat, j: nat)
    requires Run(run) && i <= j < |run| && run[i].drained
    ensures run[j].drained && run[j].tasks == map[] && !Admits(run[j])
  {
    if i < j {
      DrainedIsQuiet(run, i, j - 1);
      assert Stepped(run, j);
      NextDrained(run[j-1], run[j]);
    }
    RunInv(run, j);
  }

  // ---- the source's own form --------------------------------------------------------------

  /** The refresher and the views over it, with everyone using them. */
  class Refresher {
    var g: State
    /** History: every state so far, and how many whiles somebody has waited. */
    ghost var run: seq<State>
    ghost var waited: nat

    ghost predicate Valid()
      reads this
    {
      Run(run) && g == run[|run| - 1]
    }

    constructor (limit: int)
      ensures Valid() && g.budget == (if limit < 1 then 1 else limit) && !g.closed
    {
      g := State(if limit < 1 then 1 else limit, 0, 0, false, false, map[], map[], map[]);
      run, waited := [g], 0;
    }

    method Take(step: Step)
      requires Valid() && Enabled(g, step)
      modifies this
      ensures Valid() && g == Apply(old(g), step) && run == old(run) + [g] && waited == old(waited)
    {
      ghost var was := run;
      g := Apply(g, step);
      run := run + [g];
      forall i | 0 < i < |run| ensures Stepped(run, i) {
        if i < |was| { assert Stepped(was, i); }
      }
    }

    /** Anything others may do in a while: not what only r may. */
    method Others(r: nat)
      requires Valid()
      modifies this
      ensures Valid() && old(run) <= run
      ensures r in old(g).readers ==> r in g.readers && g.readers[r] == old(g).readers[r]
      ensures r !in old(g).readers && r !in old(g).tasks ==> r !in g.readers && r !in g.tasks
      ensures old(g).closed ==> g.closed
      ensures waited == old(waited) + 1
    {
      waited := waited + 1;
      var n: nat := *;
      while n > 0
        invariant Valid() && old(run) <= run && waited == old(waited) + 1
        invariant r in old(g).readers ==> r in g.readers && g.readers[r] == old(g).readers[r]
        invariant r !in old(g).readers && r !in old(g).tasks ==> r !in g.readers && r !in g.tasks
        invariant old(g).closed ==> g.closed
      {
        var step: Step := *;
        if !(step.Claim? && step.r == r) && !(step.Go? && step.r == r) && !(step.Unclaim? && step.r == r) && Enabled(g, step) {
          Take(step);
        }
        n := n - 1;
      }
    }

    /** A reader is no refresh until it is admitted as one. */
    lemma ReaderStands(r: nat)
      requires Valid() && r in g.readers
      ensures r !in g.tasks
    {
      RunInv(run, |run| - 1);
      assert ReaderOk(g, r);
    }

    /** At some moment since, there was no room for a refresh, or no more were taken. */
    ghost predicate NoRoomSince(since: int)
      reads this
    {
      exists i | 0 <= i < |run| && since <= i :: run[i].closed || run[i].slots >= run[i].budget
    }

    /** background: a refresh is admitted, or there was no room for it and this reader's claim is gone
        again. */
    method Background(r: nat, key: Key) returns (admitted: bool)
      requires Valid() && r !in g.readers && r !in g.tasks
      modifies this
      ensures Valid() && old(run) <= run && r !in g.readers
      ensures admitted ==> key !in old(g).refreshing && r in g.tasks && g.tasks[r] == Body(key)
      ensures !admitted ==> r !in g.tasks
      ensures !admitted && key !in old(g).refreshing ==> key !in g.refreshing && NoRoomSince(|old(run)|)
      ensures key in old(g).refreshing ==> g == old(g)
      ensures old(g).closed ==> !admitted
    {
      var busy := key in g.refreshing;
      Take(Claim(r, key));
      if busy { return false; }
      Others(r);
      admitted := Admits(g);
      ghost var met := |run| - 1;
      ghost var full := g;
      Take(Go(r));
      if !admitted {
        Others(r);
        ReaderStands(r);
        Take(Unclaim(r));
        assert run[met] == full;
      }
    }

    /** Drain: no more work, then a wait for what runs, up to a limit. */
    method Drain(r: nat, limit: nat) returns (done: bool)
      requires Valid()
      modifies this
      ensures Valid() && old(run) <= run && g.closed
      ensures done ==> g.drained && g.tasks == map[]
      ensures !done ==> waited == old(waited) + limit && g.group > 0
    {
      Take(Close);
      var left := limit;
      while left > 0 && g.group > 0
        invariant Valid() && old(run) <= run && g.closed && waited + left == old(waited) + limit
      {
        Others(r);
        left := left - 1;
      }
      if g.group > 0 { return false; }
      Take(Step.Drained);
      RunInv(run, |run| - 1);
      done := true;
    }
  }
}
