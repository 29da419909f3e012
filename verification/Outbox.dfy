/**
 The notification outbox: deliveries are claimed under a lease, sent, and completed, failed or
 retried by claim token (internal/storage/deliveries.go, events.go, notifications.go), with
 the dispatcher's retry decisions (internal/notification/dispatcher.go).

 A delivery's id is its position; ids are compared in that order. Lease and schedule columns
 hold RFC 3339 text; the model compares the instants. `claimedAt`, `cycleAt`, `takenOver`
 and `exhausted` are history columns.
 */
module Outbox {
  import opened Options

  const SECOND: int := 1_000_000_000
  const LEASE: int := 30 * SECOND
  const DefaultBackoffs: seq<int> := [2 * SECOND, 5 * SECOND, 15 * SECOND, 30 * SECOND, 60 * SECOND, 120 * SECOND,
                                      300 * SECOND, 600 * SECOND, 900 * SECOND, 1800 * SECOND]
  const DEFAULT_MAX_RETRIES: nat := 154

  datatype Status = Pending | InFlight | Delivered | DeadLetter

  datatype Delivery = Delivery(
    endpoint: nat, status: Status, attempts: int, cycleStart: int, token: Option<nat>, lease: Option<int>, next: int,
    claimedAt: int, cycleAt: Option<int>, takenOver: bool, exhausted: bool)

  /** What a worker remembers of the delivery it claimed. */
  datatype Claim = Claim(delivery: nat, token: nat, attempts: int, cycleStart: int, now: int)

  datatype State = State(rows: seq<Delivery>, active: set<nat>, nextToken: nat, clock: int, held: map<nat, Claim>)

  // ---------------------------------------------------------------- claiming

  predicate Due(d: Delivery, now: int) {
    (d.status.Pending? && d.next <= now) || (d.status.InFlight? && d.lease.Some? && d.lease.value < now)
  }

  predicate LeasedAt(d: Delivery, now: int) {
    d.status.InFlight? && d.lease.Some? && now <= d.lease.value
  }

  predicate EndpointBusy(rows: seq<Delivery>, i: nat, now: int)
    requires i < |rows|
  {
    exists j :: 0 <= j < |rows| && j != i && rows[j].endpoint == rows[i].endpoint && LeasedAt(rows[j], now)
  }

  predicate Eligible(rows: seq<Delivery>, active: set<nat>, i: nat, now: int)
    requires i < |rows|
  {
    rows[i].endpoint in active && Due(rows[i], now) && !EndpointBusy(rows, i, now)
  }

  /** ORDER BY next_attempt_at, id LIMIT 1, over the first n rows. */
  function Earliest(rows: seq<Delivery>, active: set<nat>, now: int, n: nat): (best: Option<nat>)
    requires n <= |rows|
    ensures best.Some? ==> best.value < n && Eligible(rows, active, best.value, now)
    ensures best.Some? ==> forall j: nat :: j < n && Eligible(rows, active, j, now) ==>
              rows[best.value].next < rows[j].next || (rows[best.value].next == rows[j].next && best.value <= j)
    ensures best.None? ==> forall j: nat :: j < n ==> !Eligible(rows, active, j, now)
  {
    if n == 0 then None else
    var before := Earliest(rows, active, now, n - 1);
    if Eligible(rows, active, n - 1, now) && (before.None? || rows[n - 1].next < rows[before.value].next) then Some(n - 1)
    else before
  }

  function ClaimedRow(d: Delivery, token: nat, now: int): Delivery {
    var first := d.status.Pending? && d.attempts == d.cycleStart;
    d.(status := InFlight, attempts := d.attempts + 1, token := Some(token), lease := Some(now + LEASE), claimedAt := now,
       cycleAt := if first then Some(now) else d.cycleAt,
       takenOver := if first then false else d.takenOver || d.status.InFlight?)
  }

  /** ClaimDelivery by a worker that read the clock at `now`. */
  function ClaimDelivery(s: State, worker: nat, now: int): (State, Option<nat>) {
    var best := Earliest(s.rows, s.active, now, |s.rows|);
    if best.None? then (s, None) else
    var d := ClaimedRow(s.rows[best.value], s.nextToken, now);
    (s.(rows := s.rows[best.value := d], nextToken := s.nextToken + 1,
        held := s.held[worker := Claim(best.value, s.nextToken, d.attempts, d.cycleStart, now)]), best)
  }

  // ---------------------------------------------------------------- finishing

  predicate HoldsClaim(rows: seq<Delivery>, i: nat, token: nat) {
    i < |rows| && rows[i].status.InFlight? && rows[i].token == Some(token)
  }

  /** CompleteDelivery; false is sql.ErrNoRows. */
  function CompleteDelivery(rows: seq<Delivery>, i: nat, token: nat, delivered: bool, retryAt: int): (seq<Delivery>, bool) {
    if !HoldsClaim(rows, i, token) then (rows, false)
    else (rows[i := rows[i].(status := if delivered then Delivered else Pending, next := retryAt, token := None, lease := None)], true)
  }

  function FailDelivery(rows: seq<Delivery>, i: nat, token: nat, exhausted: bool): (seq<Delivery>, bool) {
    if !HoldsClaim(rows, i, token) then (rows, false)
    else (rows[i := rows[i].(status := DeadLetter, token := None, lease := None, exhausted := exhausted)], true)
  }

  function ReplayDelivery(s: State, i: nat, now: int): (State, bool) {
    if i >= |s.rows| || !s.rows[i].status.DeadLetter? || s.rows[i].endpoint !in s.active then (s, false)
    else (s.(rows := s.rows[i := s.rows[i].(status := Pending, next := now, cycleStart := s.rows[i].attempts,
                                            cycleAt := None, takenOver := false, exhausted := false)]), true)
  }

  // ---------------------------------------------------------------- the dispatcher's decision

  datatype Policy = Policy(maxRetries: nat, backoffs: seq<int>)

  const DefaultPolicy := Policy(DEFAULT_MAX_RETRIES, DefaultBackoffs)

  predicate PolicyOk(p: Policy) {
    p.maxRetries > 0 && p.backoffs != [] && forall i :: 0 <= i < |p.backoffs| ==> p.backoffs[i] >= 0
  }

  datatype SendOutcome = Unavailable | Success | Retry | TerminalFailure

  datatype Decision = Deliver | Again(retryAt: int) | GiveUp(exhausted: bool)

  function EffectiveAttempts(c: Claim): int {
    if c.attempts - c.cycleStart < 1 then 1 else c.attempts - c.cycleStart
  }

  /** The wait after the k-th attempt of a cycle: the last backoff repeats. */
  function Backoff(p: Policy, k: int): int
    requires PolicyOk(p)
  {
    p.backoffs[if k < 1 then 0 else if k > |p.backoffs| then |p.backoffs| - 1 else k - 1]
  }

  function Decide(p: Policy, c: Claim, outcome: SendOutcome): Decision
    requires PolicyOk(p)
  {
    var effective := EffectiveAttempts(c);
    if outcome.Unavailable? then GiveUp(false)
    else if outcome.Success? then Deliver
    else if outcome.TerminalFailure? || effective >= p.maxRetries then GiveUp(outcome.Retry?)
    else Again(c.now + Backoff(p, effective))
  }

  function Finish(p: Policy, s: State, worker: nat, outcome: SendOutcome): State
    requires PolicyOk(p)
  {
    if worker !in s.held then s else
    var c := s.held[worker];
    var rows := match Decide(p, c, outcome)
      case Deliver => CompleteDelivery(s.rows, c.delivery, c.token, true, 0).0
      case Again(at) => CompleteDelivery(s.rows, c.delivery, c.token, false, at).0
      case GiveUp(exhausted) => FailDelivery(s.rows, c.delivery, c.token, exhausted).0;
    s.(rows := rows, held := s.held - {worker})
  }

  // ---------------------------------------------------------------- runs

  datatype Step =
    | InsertStep(endpoint: nat, at: int)
    | ClaimStep(worker: nat, now: int)
    | FinishStep(worker: nat, outcome: SendOutcome)
    | CrashStep(worker: nat)
    | ReplayStep(delivery: nat, at: int)
    | EndpointStep(endpoint: nat, active: bool)
    | TickStep(elapsed: nat)

  function NewDelivery(endpoint: nat, at: int): Delivery {
    Delivery(endpoint, Pending, 0, 0, None, None, at, 0, None, false, false)
  }

  /** A worker reads the clock before its claim, so `now` is never ahead of it. */
  function Next(p: Policy, s: State, step: Step): State
    requires PolicyOk(p)
  {
    match step
    case InsertStep(endpoint, at) => s.(rows := s.rows + [NewDelivery(endpoint, at)])
    case ClaimStep(worker, now) => if now > s.clock || worker in s.held then s else ClaimDelivery(s, worker, now).0
    case FinishStep(worker, outcome) => Finish(p, s, worker, outcome)
    case CrashStep(worker) => s.(held := s.held - {worker})
    case ReplayStep(i, at) => ReplayDelivery(s, i, at).0
    case EndpointStep(endpoint, on) => s.(active := if on then s.active + {endpoint} else s.active - {endpoint})
    case TickStep(elapsed) => s.(clock := s.clock + elapsed)
  }

  function Run(p: Policy, s: State, steps: seq<Step>): State
    requires PolicyOk(p)
    decreases |steps|
  {
    if steps == [] then s else Run(p, Next(p, s, steps[0]), steps[1..])
  }

  function Empty(clock: int): State {
    State([], {}, 0, clock, map[])
  }

  // ---------------------------------------------------------------- the invariant

  /** The backoffs of the first n waits. */
  function TotalBackoff(p: Policy, n: int): (total: int)
    requires PolicyOk(p)
    ensures total >= 0
    decreases n
  {
    if n <= 0 then 0 else TotalBackoff(p, n - 1) + Backoff(p, n)
  }

  ghost predicate LeaseOk(d: Delivery, nextToken: nat) {
    && 0 <= d.cycleStart <= d.attempts
    && (d.status.InFlight? <==> d.token.Some?) && (d.token.Some? <==> d.lease.Some?)
    && (d.status.InFlight? ==> d.token.value < nextToken && d.lease.value == d.claimedAt + LEASE && d.cycleStart < d.attempts)
  }

  ghost predicate CycleOk(p: Policy, d: Delivery)
    requires PolicyOk(p)
  {
    var k := d.attempts - d.cycleStart;
    && (d.status.Pending? ==> k < p.maxRetries)
    && (d.status.DeadLetter? && d.exhausted ==> k >= p.maxRetries)
    && (!d.takenOver ==>
          && (d.status.Pending? && k > 0 ==> d.cycleAt.Some? && d.next >= d.cycleAt.value + TotalBackoff(p, k))
          && (d.status.InFlight? || (d.status.DeadLetter? && d.exhausted) ==>
                d.cycleAt.Some? && d.claimedAt >= d.cycleAt.value + TotalBackoff(p, k - 1)))
  }

  ghost predicate RowsOk(p: Policy, rows: seq<Delivery>, nextToken: nat)
    requires PolicyOk(p)
  {
    && (forall i :: 0 <= i < |rows| ==> LeaseOk(rows[i], nextToken) && CycleOk(p, rows[i]))
    && (forall i, j :: 0 <= i < j < |rows| && rows[i].token.Some? ==> rows[i].token != rows[j].token)
  }

  /** A claim in memory whose token is still current describes the row exactly. */
  ghost predicate ClaimOk(s: State, c: Claim) {
    && c.delivery < |s.rows| && c.token < s.nextToken
    && (s.rows[c.delivery].token == Some(c.token) ==>
          var d := s.rows[c.delivery];
          d.status.InFlight? && d.attempts == c.attempts && d.cycleStart == c.cycleStart && d.claimedAt == c.now)
  }

  /** Per endpoint at most one delivery holds an unexpired claim. */
  ghost predicate Exclusive(rows: seq<Delivery>, clock: int) {
    forall i, j :: 0 <= i < |rows| && 0 <= j < |rows| && i != j && rows[i].endpoint == rows[j].endpoint ==>
      !(LeasedAt(rows[i], clock) && LeasedAt(rows[j], clock))
  }

  ghost predicate Inv(p: Policy, s: State)
    requires PolicyOk(p)
  {
    && RowsOk(p, s.rows, s.nextToken) && Exclusive(s.rows, s.clock)
    && (forall w :: w in s.held ==> ClaimOk(s, s.held[w]))
  }
}
