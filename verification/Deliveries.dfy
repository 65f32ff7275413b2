/** What becomes of a delivery: the claims, attempts and retries of send and attempt in
    events/dispatcher.go, as a state machine over any number of concurrent senders. */
module Deliveries {
  import opened Wrappers

  const SECOND: int := 1_000_000_000
  const HOUR: int := 3600 * SECOND

  function Pow2(n: nat): nat { if n == 0 then 1 else 2 * Pow2(n - 1) }

  function Doubled(n: nat): int { 30 * SECOND * Pow2(n) }

  /** How long a delivery rests once n attempts have failed: half a minute after the first, twice
      the last rest after each more, and never beyond a quarter of a day. */
  function BackoffOf(n: int): int {
    if n <= 1 then 30 * SECOND
    else if Doubled(n - 1) < 6 * HOUR then Doubled(n - 1) else 6 * HOUR
  }

  /** The waits after the first n failed attempts. */
  function Total(n: nat): int { if n == 0 then 0 else Total(n - 1) + BackoffOf(n) }

  datatype DeliveryState = Pending | Succeeded | Failed

  /** A stored delivery. The last two are history: the clock read of its first claim, and when it
      reached a terminal state. */
  datatype Delivery = Delivery(webhook: string, state: DeliveryState, count: nat, next: Option<int>, etag: nat,
                               firstClaim: Option<int>, ended: Option<int>)

  /** Where one attempt is. `at` is its clock read. */
  datatype Phase =
    | Read
    | Looked
    | Clocked(at: int)
    | Claimed(at: int)
    | Posting(at: int)
    | Answered(at: int, ok: bool)
  {
    predicate Holds() { Claimed? || Posting? || Answered? }
  }

  /** One sender's copy of a delivery it read due; `gone` when its webhook was not found. */
  datatype Attempt = Attempt(name: string, dl: Delivery, gone: bool, phase: Phase)

  /** attemptWithin bounds an attempt from its clock read to its outcome. */
  datatype Policy = Policy(maxAttempts: nat, claimFor: int, attemptWithin: int) {
    predicate Valid() { maxAttempts > 0 && claimFor > 0 && attemptWithin >= 0 }
  }

  /** `lost` and `outcomes` are history: every webhook ever deleted, and for each delivery how many
      attempts' outcomes have been written since it was created. */
  datatype State = State(now: int, nextEtag: nat, hooks: set<string>, lost: set<string>,
                         deliveries: map<string, Delivery>, outcomes: map<string, nat>, attempts: map<nat, Attempt>)

  predicate Init(g: State) { g.deliveries == map[] && g.attempts == map[] }

  datatype Step =
    | Tick(to: int)
    | AddHook(hook: string)
    | DropHook(hook: string)
    | Create(name: string, hook: string, at: int)
    | Due(a: nat, name: string)
    | Lookup(a: nat)
    | Clock(a: nat)
    | Claim(a: nat)
    | Post(a: nat)
    | Answer(a: nat, ok: bool)
    | Finish(a: nat, at: int)
    | Drop(a: nat)
    | Prune(name: string)

  /** The store still holds what the attempt read or last wrote. */
  predicate Unchanged(g: State, a: Attempt) {
    a.name in g.deliveries && g.deliveries[a.name].etag == a.dl.etag
  }

  predicate Enabled(p: Policy, g: State, step: Step) {
    match step
    case Tick(to) =>
      && g.now <= to
      && forall a | a in g.attempts && !g.attempts[a].phase.Read? && !g.attempts[a].phase.Looked? ::
           to <= g.attempts[a].phase.at + p.attemptWithin
    case AddHook(_) => true
    case DropHook(hook) => hook in g.hooks
    case Create(name, hook, at) => name !in g.deliveries && at <= g.now && hook in g.hooks + g.lost
    case Due(a, name) =>
      && a !in g.attempts && name in g.deliveries
      && var d := g.deliveries[name];
      d.state == Pending && d.next.Some? && d.next.value <= g.now
    case Lookup(a) => a in g.attempts && g.attempts[a].phase.Read?
    case Clock(a) => a in g.attempts && g.attempts[a].phase.Looked?
    case Claim(a) => a in g.attempts && g.attempts[a].phase.Clocked?
    case Post(a) => a in g.attempts && g.attempts[a].phase.Claimed? && !g.attempts[a].gone
    case Answer(a, _) => a in g.attempts && g.attempts[a].phase.Posting?
    case Finish(a, at) =>
      && a in g.attempts && (g.attempts[a].phase.Answered? || (g.attempts[a].phase.Claimed? && g.attempts[a].gone))
      && g.attempts[a].phase.at <= at <= g.now // the clock was read since the attempt began
    case Drop(a) => a in g.attempts
    case Prune(name) => name in g.deliveries && g.deliveries[name].state != Pending
  }

  /** attempt's outcome: what it makes of its copy. */
  function Outcome(p: Policy, a: Attempt, at: int, etag: nat): Delivery {
    var d := a.dl.(count := a.dl.count + 1, etag := etag);
    if a.phase.Answered? && a.phase.ok then d.(state := Succeeded, next := None, ended := Some(at))
    else if a.gone || d.count >= p.maxAttempts then d.(state := Failed, next := None, ended := Some(at))
    else d.(state := Pending, next := Some(at + BackoffOf(d.count)))
  }

  function ClaimOf(p: Policy, a: Attempt, etag: nat): Delivery
    requires a.phase.Clocked?
  {
    a.dl.(next := Some(a.phase.at + p.claimFor), etag := etag,
          firstClaim := if a.dl.firstClaim.None? then Some(a.phase.at) else a.dl.firstClaim)
  }

  function Apply(p: Policy, g: State, step: Step): State
    requires Enabled(p, g, step)
  {
    match step
    case Tick(to) => g.(now := to)
    case AddHook(hook) => g.(hooks := g.hooks + {hook})
    case DropHook(hook) => g.(hooks := g.hooks - {hook}, lost := g.lost + {hook})
    case Create(name, hook, at) =>
      g.(deliveries := g.deliveries[name := Delivery(hook, Pending, 0, Some(at), g.nextEtag, None, None)], outcomes := g.outcomes[name := 0], nextEtag := g.nextEtag + 1)
    case Due(a, name) => g.(attempts := g.attempts[a := Attempt(name, g.deliveries[name], false, Read)])
    case Lookup(a) =>
      g.(attempts := g.attempts[a := g.attempts[a].(gone := g.attempts[a].dl.webhook !in g.hooks, phase := Looked)])
    case Clock(a) => g.(attempts := g.attempts[a := g.attempts[a].(phase := Clocked(g.now))])
    case Claim(a) =>
      var t := g.attempts[a];
      if Unchanged(g, t) then
        var d := ClaimOf(p, t, g.nextEtag);
        g.(deliveries := g.deliveries[t.name := d], nextEtag := g.nextEtag + 1,
           attempts := g.attempts[a := t.(dl := d, phase := Claimed(t.phase.at))])
      else g.(attempts := g.attempts - {a}) // ErrConflict: another server claimed it
    case Post(a) => g.(attempts := g.attempts[a := g.attempts[a].(phase := Posting(g.attempts[a].phase.at))])
    case Answer(a, ok) => g.(attempts := g.attempts[a := g.attempts[a].(phase := Answered(g.attempts[a].phase.at, ok))])
    case Finish(a, at) =>
      var t := g.attempts[a];
      var g' := g.(attempts := g.attempts - {a});
      if Unchanged(g, t)
      then g'.(deliveries := g.deliveries[t.name := Outcome(p, t, at, g.nextEtag)], nextEtag := g.nextEtag + 1,
               outcomes := g.outcomes[t.name := 1 + if t.name in g.outcomes then g.outcomes[t.name] else 0])
      else g'
    case Drop(a) => g.(attempts := g.attempts - {a})
    case Prune(name) => g.(deliveries := g.deliveries - {name})
  }

  ghost predicate Next(p: Policy, g: State, g': State) {
    exists step :: Enabled(p, g, step) && g' == Apply(p, g, step)
  }

  /** The i-th state is one step after the one before. */
  ghost predicate Stepped(p: Policy, run: seq<State>, i: nat)
    requires 0 < i < |run|
  {
    Next(p, run[i-1], run[i])
  }

  ghost predicate Run(p: Policy, run: seq<State>) {
    && |run| > 0 && Init(run[0])
    && forall i | 0 < i < |run| :: Stepped(p, run, i)
  }
}
