/**
 What a send's outcome does to its delivery (internal/notification/dispatcher.go): the row a
 holder leaves behind, and over every run that a row is delivered exactly when a holder of
 its claim reported success.
 */
module OutboxOutcomes {
  import opened Options
  import opened Outbox
  import opened OutboxRuns

  /** The wait after the k-th attempt of a cycle; the last entry of the schedule repeats. */
  function WaitAfter(p: Policy, k: int): int
    requires PolicyOk(p) && k >= 1
  {
    if k <= |p.backoffs| then p.backoffs[k - 1] else p.backoffs[|p.backoffs| - 1]
  }

  ghost predicate Holds(s: State, worker: nat) {
    worker in s.held && HoldsClaim(s.rows, s.held[worker].delivery, s.held[worker].token)
  }

  /** The claim has ended and the history of the row stays. */
  ghost predicate Ended(d: Delivery, d': Delivery) {
    d'.token.None? && d'.lease.None? && d'.endpoint == d.endpoint && d'.attempts == d.attempts && d'.cycleStart == d.cycleStart
    && d'.claimedAt == d.claimedAt && d'.cycleAt == d.cycleAt && d'.takenOver == d.takenOver
  }

  /**
   A holder's outcome: success delivers; an unavailable endpoint or a final failure makes a dead
   letter that was not exhausted; a failure worth a retry waits for the schedule from the claim
   on while the cycle has retries left, and is an exhausted dead letter when it has none.
   */
  lemma OutcomeDecidesRow(p: Policy, s: State, worker: nat, outcome: SendOutcome)
    requires PolicyOk(p) && Inv(p, s) && Holds(s, worker)
    ensures var i, s' := s.held[worker].delivery, Finish(p, s, worker, outcome);
      && |s'.rows| == |s.rows| && (forall j :: 0 <= j < |s.rows| && j != i ==> s'.rows[j] == s.rows[j]) && worker !in s'.held
      && var d, d' := s.rows[i], s'.rows[i];
      var k := d.attempts - d.cycleStart;
      && k >= 1 && Ended(d, d')
      && (outcome.Success? ==> d'.status.Delivered?)
      && (outcome.Unavailable? || outcome.TerminalFailure? ==> d'.status.DeadLetter? && !d'.exhausted)
      && (outcome.Retry? && k < p.maxRetries ==> d'.status.Pending? && d'.next == d.claimedAt + WaitAfter(p, k))
      && (outcome.Retry? && k >= p.maxRetries ==> d'.status.DeadLetter? && d'.exhausted)
  {
    var c := s.held[worker];
    assert ClaimOk(s, c) && LeaseOk(s.rows[c.delivery], s.nextToken);
  }

  /** A worker whose claim was taken over leaves every row as it is. */
  lemma LostHolderIsInert(p: Policy, s: State, worker: nat, outcome: SendOutcome)
    requires PolicyOk(p) && worker in s.held && !Holds(s, worker)
    ensures Finish(p, s, worker, outcome) == s.(held := s.held - {worker})
  {
  }

  /** A claim is the row's next attempt, under a fresh token and a new lease; it is what the worker remembers. */
  lemma ClaimTakesRow(p: Policy, s: State, worker: nat, now: int)
    requires PolicyOk(p) && Inv(p, s) && worker !in s.held && ClaimDelivery(s, worker, now).1.Some?
    ensures var (s', best) := ClaimDelivery(s, worker, now);
      && best.value < |s.rows| == |s'.rows| && Holds(s', worker) && s'.held[worker].delivery == best.value
      && (forall j :: 0 <= j < |s.rows| && j != best.value ==> s'.rows[j] == s.rows[j])
      && var d, d' := s.rows[best.value], s'.rows[best.value];
         && d'.status.InFlight? && d'.attempts == d.attempts + 1 && d'.cycleStart == d.cycleStart && d'.claimedAt == now
         && d'.lease == Some(now + LEASE) && d'.token == Some(s.nextToken) && d.token != d'.token && d'.next == d.next
  {
    var best := ClaimDelivery(s, worker, now).1.value;
    assert LeaseOk(s.rows[best], s.nextToken);
  }

  // ---------------------------------------------------------------- over runs

  /** What a worker reported about a delivery, and whether it still held the claim. */
  datatype Report = Report(delivery: nat, outcome: SendOutcome, current: bool)

  ghost function ReportOf(s: State, step: Step): seq<Report> {
    if step.FinishStep? && step.worker in s.held
    then [Report(s.held[step.worker].delivery, step.outcome, Holds(s, step.worker))] else []
  }

  /** All reports of a run, in order. */
  ghost function Reports(p: Policy, s: State, steps: seq<Step>): seq<Report>
    requires PolicyOk(p)
    decreases |steps|
  {
    if steps == [] then [] else ReportOf(s, steps[0]) + Reports(p, Next(p, s, steps[0]), steps[1..])
  }

  lemma NextDelivers(p: Policy, s: State, step: Step, i: nat)
    requires PolicyOk(p) && Inv(p, s) && i < |Next(p, s, step).rows|
    ensures Next(p, s, step).rows[i].status.Delivered? <==>
              (i < |s.rows| && s.rows[i].status.Delivered?) || Report(i, Success, true) in ReportOf(s, step)
  {
    if step.FinishStep? && step.worker in s.held {
      if Holds(s, step.worker) {
        OutcomeDecidesRow(p, s, step.worker, step.outcome);
      } else {
        LostHolderIsInert(p, s, step.worker, step.outcome);
      }
    }
  }

  lemma RowsStay(p: Policy, s: State, step: Step)
    requires PolicyOk(p)
    ensures |s.rows| <= |Next(p, s, step).rows|
  {
  }

  lemma {:induction false} RunRows(p: Policy, s: State, steps: seq<Step>)
    requires PolicyOk(p)
    ensures |s.rows| <= |Run(p, s, steps).rows|
    decreases |steps|
  {
    if steps != [] {
      RowsStay(p, s, steps[0]);
      RunRows(p, Next(p, s, steps[0]), steps[1..]);
    }
  }

  /** A row beyond the table was reported by nobody. */
  lemma ReportsAreOfRows(p: Policy, s: State, step: Step, r: Report)
    requires PolicyOk(p) && Inv(p, s) && r in ReportOf(s, step)
    ensures r.delivery < |s.rows|
  {
    assert ClaimOk(s, s.held[step.worker]);
  }

  lemma {:induction false} RunDelivers(p: Policy, s: State, steps: seq<Step>, i: nat)
    requires PolicyOk(p) && Inv(p, s) && i < |Run(p, s, steps).rows|
    ensures Run(p, s, steps).rows[i].status.Delivered? <==>
              (i < |s.rows| && s.rows[i].status.Delivered?) || Report(i, Success, true) in Reports(p, s, steps)
    decreases |steps|
  {
    if steps != [] {
      var s1, first := Next(p, s, steps[0]), ReportOf(s, steps[0]);
      NextKeepsInv(p, s, steps[0]);
      RunDelivers(p, s1, steps[1..], i);
      if i < |s1.rows| {
        NextDelivers(p, s, steps[0], i);
      } else {
        RowsStay(p, s, steps[0]);
        if Report(i, Success, true) in first { ReportsAreOfRows(p, s, steps[0], Report(i, Success, true)); }
      }
    }
  }

  /**
   In every reachable state a row is delivered if and only if some holder of its claim reported
   success: nothing else delivers it, and a success that a holder reported is never
   dead-lettered, retried or replayed.
   */
  lemma DeliveredIffReported(p: Policy, clock: int, steps: seq<Step>, i: nat)
    requires PolicyOk(p) && i < |Run(p, Empty(clock), steps).rows|
    ensures Run(p, Empty(clock), steps).rows[i].status.Delivered? <==> Report(i, Success, true) in Reports(p, Empty(clock), steps)
  {
    RunDelivers(p, Empty(clock), steps, i);
  }

  /** What a holder must have said for the row to be a dead letter, exhausted or not. */
  ghost predicate Condemns(r: Report, i: nat, exhausted: bool) {
    r.delivery == i && r.current && (if exhausted then r.outcome.Retry? else r.outcome.Unavailable? || r.outcome.TerminalFailure?)
  }

  lemma NextCondemns(p: Policy, s: State, step: Step, i: nat)
    requires PolicyOk(p) && Inv(p, s) && i < |Next(p, s, step).rows| && Next(p, s, step).rows[i].status.DeadLetter?
    ensures (i < |s.rows| && s.rows[i] == Next(p, s, step).rows[i])
            || exists r :: r in ReportOf(s, step) && Condemns(r, i, Next(p, s, step).rows[i].exhausted)
  {
    if step.FinishStep? && step.worker in s.held {
      var r := ReportOf(s, step)[0];
      assert r in ReportOf(s, step);
      if Holds(s, step.worker) {
        OutcomeDecidesRow(p, s, step.worker, step.outcome);
        if r.delivery == i { assert Condemns(r, i, Next(p, s, step).rows[i].exhausted); }
      } else {
        LostHolderIsInert(p, s, step.worker, step.outcome);
      }
    }
  }

  lemma {:induction false} RunCondemns(p: Policy, s: State, steps: seq<Step>, i: nat)
    requires PolicyOk(p) && Inv(p, s) && i < |Run(p, s, steps).rows| && Run(p, s, steps).rows[i].status.DeadLetter?
    ensures (i < |s.rows| && s.rows[i] == Run(p, s, steps).rows[i])
            || exists r :: r in Reports(p, s, steps) && Condemns(r, i, Run(p, s, steps).rows[i].exhausted)
    decreases |steps|
  {
    if steps != [] {
      var s1 := Next(p, s, steps[0]);
      NextKeepsInv(p, s, steps[0]);
      RunCondemns(p, s1, steps[1..], i);
      if i < |s1.rows| && s1.rows[i] == Run(p, s, steps).rows[i] {
        NextCondemns(p, s, steps[0], i);
      }
    }
  }

  /** Every dead letter was condemned by a holder of its claim: exhausted by a failure worth a retry, else by one that is not. */
  lemma DeadLetterWasReported(p: Policy, clock: int, steps: seq<Step>, i: nat)
    requires PolicyOk(p) && i < |Run(p, Empty(clock), steps).rows| && Run(p, Empty(clock), steps).rows[i].status.DeadLetter?
    ensures exists r :: r in Reports(p, Empty(clock), steps) && Condemns(r, i, Run(p, Empty(clock), steps).rows[i].exhausted)
  {
    RunCondemns(p, Empty(clock), steps, i);
  }

  // ---------------------------------------------------------------- what is claimed and replayed

  /** Waiting and due, or abandoned past its lease. */
  predicate Waits(d: Delivery, now: int) {
    (d.status.Pending? && d.next <= now) || (d.status.InFlight? && d.lease.Some? && d.lease.value < now)
  }

  /** There is work: a waiting delivery of an active endpoint of which no other delivery is held. */
  ghost predicate Claimable(s: State, i: nat, now: int) {
    && i < |s.rows| && s.rows[i].endpoint in s.active && Waits(s.rows[i], now)
    && forall j :: 0 <= j < |s.rows| && j != i && s.rows[j].endpoint == s.rows[i].endpoint ==>
         !(s.rows[j].status.InFlight? && s.rows[j].lease.Some? && now <= s.rows[j].lease.value)
  }

  /** A claim finds work iff there is some, and takes what has waited longest. */
  lemma ClaimFindsWorkIff(s: State, worker: nat, now: int)
    ensures var r := ClaimDelivery(s, worker, now).1;
      && (r.Some? <==> exists i: nat :: Claimable(s, i, now))
      && (r.Some? ==> Claimable(s, r.value, now) && forall i: nat :: Claimable(s, i, now) ==> s.rows[r.value].next <= s.rows[i].next)
      && (r.None? ==> ClaimDelivery(s, worker, now).0 == s)
  {
    forall i: nat | i < |s.rows| ensures Eligible(s.rows, s.active, i, now) <==> Claimable(s, i, now) {}
  }

  /** A replay is granted iff the row is a dead letter of an active endpoint, and starts a new cycle at its attempts so far. */
  lemma ReplayIff(s: State, i: nat, now: int)
    ensures var (s', ok) := ReplayDelivery(s, i, now);
      && (ok <==> i < |s.rows| && s.rows[i].status.DeadLetter? && s.rows[i].endpoint in s.active)
      && (!ok ==> s' == s)
      && (ok ==> |s'.rows| == |s.rows| && s' == s.(rows := s.rows[i := s'.rows[i]])
                 && s'.rows[i].status.Pending? && s'.rows[i].next == now && s'.rows[i].attempts == s'.rows[i].cycleStart == s.rows[i].attempts
                 && s'.rows[i].endpoint == s.rows[i].endpoint && !s'.rows[i].exhausted)
  {
  }
}
