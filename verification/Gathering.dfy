/** gather of cache/core/batch.go: calls over items, at most `limit` at a time, finishing in any
    order. The context it is given is not canceled. */
module Gathering {
  import opened Wrappers

  datatype Result<T> = Ok(value: T) | Err(error: string)

  /** `next` is the next item to launch, `done` what has been written to out and `first` what the
      first failure left. */
  datatype State<T> = State(next: nat, running: set<nat>, done: map<nat, T>, first: Option<string>)

  datatype Step = Launch | Return(i: nat)

  function Start<T>(): State<T> { State(0, {}, map[], None) }

  /** What fn answers about each item is fixed by the store; a call still running when another
      fails may come back canceled instead, which is one more error nobody keeps. A call may yet be
      launched after the first failure, before the cancellation is seen. */
  predicate Enabled<T>(answers: seq<Result<T>>, limit: nat, g: State<T>, step: Step) {
    match step
    case Launch => g.next < |answers| && |g.running| < limit
    case Return(i) => i in g.running && i < |answers|
  }

  function Apply<T>(answers: seq<Result<T>>, limit: nat, g: State<T>, step: Step, canceled: bool): State<T>
    requires Enabled(answers, limit, g, step)
  {
    match step
    case Launch => g.(next := g.next + 1, running := g.running + {g.next})
    case Return(i) =>
      var g' := g.(running := g.running - {i});
      if canceled && g.first.Some? then g'
      else match answers[i]
        case Ok(v) => g'.(done := g.done[i := v])
        case Err(e) => if g.first.None? then g'.(first := Some(e)) else g'
  }

  predicate Finished<T>(answers: seq<Result<T>>, g: State<T>) {
    g.running == {} && (g.next >= |answers| || g.first.Some?)
  }

  ghost predicate Next<T>(answers: seq<Result<T>>, limit: nat, g: State<T>, g': State<T>) {
    exists step, canceled :: Enabled(answers, limit, g, step) && g' == Apply(answers, limit, g, step, canceled)
  }

  /** The i-th state is one step after the one before. */
  ghost predicate Stepped<T>(answers: seq<Result<T>>, limit: nat, run: seq<State<T>>, i: nat)
    requires 0 < i < |run|
  {
    Next(answers, limit, run[i-1], run[i])
  }

  ghost predicate Run<T>(answers: seq<Result<T>>, limit: nat, run: seq<State<T>>) {
    && |run| > 0 && run[0] == Start()
    && forall i | 0 < i < |run| :: Stepped(answers, limit, run, i)
  }

  /** The i-th step of the run is a call coming back with this error, and no call came back with
      one before. */
  ghost predicate FirstFailure<T>(answers: seq<Result<T>>, run: seq<State<T>>, i: int, error: string) {
    && 0 < i < |run| && (forall k | 0 <= k < i :: run[k].first.None?)
    && exists j: nat :: CameBack(run[i-1], run[i], j) && j < |answers| && answers[j] == Err(error)
  }

  predicate CameBack<T>(g: State<T>, g': State<T>, j: nat) { j in g.running && j !in g'.running }

  ghost predicate Inv<T>(answers: seq<Result<T>>, limit: nat, g: State<T>) {
    && g.next <= |answers| && |g.running| <= limit
    && (forall i | i in g.running :: i < g.next && i !in g.done)
    && (forall i | i in g.done :: i < g.next && answers[i] == Ok(g.done[i]))
    && (g.first.None? ==> forall i | 0 <= i < g.next :: i in g.running || i in g.done)
    && (g.first.Some? ==> Err(g.first.value) in answers)
  }

  lemma LaunchInv<T>(answers: seq<Result<T>>, limit: nat, g: State<T>)
    requires Inv(answers, limit, g) && Enabled(answers, limit, g, Launch)
    ensures Inv(answers, limit, Apply(answers, limit, g, Launch, false))
  {
    assert g.next !in g.running;
  }

  lemma ReturnInv<T>(answers: seq<Result<T>>, limit: nat, g: State<T>, i: nat, canceled: bool)
    requires Inv(answers, limit, g) && Enabled(answers, limit, g, Return(i))
    ensures Inv(answers, limit, Apply(answers, limit, g, Return(i), canceled))
  {
    var g' := Apply(answers, limit, g, Return(i), canceled);
    assert |g'.running| < |g.running|;
  }

  lemma StepInv<T>(answers: seq<Result<T>>, limit: nat, g: State<T>, step: Step, canceled: bool)
    requires Inv(answers, limit, g) && Enabled(answers, limit, g, step)
    ensures Inv(answers, limit, Apply(answers, limit, g, step, canceled))
  {
    match step {
      case Launch => LaunchInv(answers, limit, g);
      case Return(i) => ReturnInv(answers, limit, g, i, canceled);
    }
  }

  /** What a run so far shows: it is one, within the limit, and no failure came before the first. */
  ghost predicate Shows<T>(answers: seq<Result<T>>, limit: nat, run: seq<State<T>>) {
    && Run(answers, limit, run) && (forall g | g in run :: |g.running| <= limit)
    && var g := run[|run|-1];
    && Inv(answers, limit, g)
    && (g.first.None? ==> forall k | 0 <= k < |run| :: run[k].first.None?)
    && (g.first.Some? ==> exists i :: FirstFailure(answers, run, i, g.first.value))
  }

  lemma ShowsMore<T>(answers: seq<Result<T>>, limit: nat, run: seq<State<T>>, step: Step, canceled: bool)
    requires Shows(answers, limit, run) && Enabled(answers, limit, run[|run|-1], step)
    ensures Shows(answers, limit, run + [Apply(answers, limit, run[|run|-1], step, canceled)])
  {
    var g := run[|run|-1];
    var g' := Apply(answers, limit, g, step, canceled);
    var longer := run + [g'];
    StepInv(answers, limit, g, step, canceled);
    forall i | 0 < i < |longer| ensures Stepped(answers, limit, longer, i) {
      if i < |run| { assert Stepped(answers, limit, run, i); } else { assert Next(answers, limit, g, g'); }
    }
    if g.first.Some? {
      var i :| FirstFailure(answers, run, i, g.first.value);
      assert longer[i-1] == run[i-1] && longer[i] == run[i];
      assert FirstFailure(answers, longer, i, g.first.value);
    } else if g'.first.Some? {
      assert longer[|run|-1] == g && longer[|run|] == g';
      assert CameBack(g, g', step.i) && answers[step.i] == Err(g'.first.value);
      assert FirstFailure(answers, longer, |run|, g'.first.value);
    }
  }

  /** gather over items whose answers these are, whatever order its calls come back in: all the
      answers, in order, when none fails, and otherwise the failure that came back first. `run` is
      how it went. */
  method Gather<T>(answers: seq<Result<T>>, limit: int) returns (result: Result<seq<T>>, ghost run: seq<State<T>>)
    ensures result.Ok? <==> forall i | 0 <= i < |answers| :: answers[i].Ok?
    ensures result.Ok? ==> |result.value| == |answers| && forall i | 0 <= i < |answers| :: answers[i] == Ok(result.value[i])
    ensures var slots := if limit < 1 then 1 else limit;
            && Run(answers, slots, run) && Finished(answers, run[|run|-1])
            && forall g | g in run :: |g.running| <= slots
    ensures result.Err? ==> exists i :: FirstFailure(answers, run, i, result.error)
  {
    var slots: nat := if limit < 1 then 1 else limit;
    var g: State<T> := Start();
    run := [g];
    while !Finished(answers, g)
      invariant Shows(answers, slots, run) && g == run[|run|-1]
      decreases |answers| - g.next, |g.running|
    {
      var launch: bool, canceled: bool := *, *;
      var step := Launch;
      if g.running != {} && !(launch && Enabled(answers, slots, g, Launch)) {
        var i :| i in g.running;
        step := Return(i);
        assert |g.running - {i}| < |g.running|;
      }
      ShowsMore(answers, slots, run, step, canceled);
      g := Apply(answers, slots, g, step, canceled);
      run := run + [g];
    }
    if g.first.Some? {
      return Err(g.first.value), run;
    }
    assert forall i | 0 <= i < |answers| :: i in g.done;
    var done := g.done;
    result := Ok(seq(|answers|, i requires 0 <= i < |answers| && i in done => done[i]));
  }
}
