/** What every run of the outbox keeps. */
module OutboxRuns {
  import opened Options
  import opened Outbox

  // ---------------------------------------------------------------- one step

  lemma ClaimKeepsRow(p: Policy, d: Delivery, nextToken: nat, now: int)
    requires PolicyOk(p) && LeaseOk(d, nextToken) && CycleOk(p, d) && Due(d, now)
    ensures var c := ClaimedRow(d, nextToken, now);
      LeaseOk(c, nextToken + 1) && CycleOk(p, c)
  {
  }

  lemma ClaimKeepsInv(p: Policy, s: State, worker: nat, now: int)
    requires PolicyOk(p) && Inv(p, s) && now <= s.clock && worker !in s.held
    ensures Inv(p, ClaimDelivery(s, worker, now).0)
  {
    var (s', best) := ClaimDelivery(s, worker, now);
    if best.Some? {
      var i := best.value;
      ClaimKeepsRow(p, s.rows[i], s.nextToken, now);
      forall k | 0 <= k < |s'.rows| ensures LeaseOk(s'.rows[k], s'.nextToken) && CycleOk(p, s'.rows[k]) {
        assert LeaseOk(s.rows[k], s.nextToken);
      }
      forall j | 0 <= j < |s.rows| && j != i && s.rows[j].endpoint == s.rows[i].endpoint
        ensures !LeasedAt(s'.rows[j], s'.clock)
      {
        assert !EndpointBusy(s.rows, i, now);
        assert !LeasedAt(s.rows[j], now);
      }
      forall w | w in s'.held ensures ClaimOk(s', s'.held[w]) {
        if w != worker { assert ClaimOk(s, s.held[w]); }
      }
    }
  }

  /** A held claim ends its row's lease, whatever the decision. */
  lemma FinishedRow(p: Policy, d: Delivery, nextToken: nat, c: Claim, outcome: SendOutcome)
    requires PolicyOk(p) && LeaseOk(d, nextToken) && CycleOk(p, d) && d.status.InFlight?
    requires d.attempts == c.attempts && d.cycleStart == c.cycleStart && d.claimedAt == c.now
    ensures match Decide(p, c, outcome)
      case Deliver => true
      case Again(at) => CycleOk(p, d.(status := Pending, next := at, token := None, lease := None))
      case GiveUp(exhausted) => CycleOk(p, d.(status := DeadLetter, token := None, lease := None, exhausted := exhausted))
  {
    var k := d.attempts - d.cycleStart;
    assert EffectiveAttempts(c) == k;
    assert TotalBackoff(p, k) == TotalBackoff(p, k - 1) + Backoff(p, k);
  }

  lemma FinishKeepsInv(p: Policy, s: State, worker: nat, outcome: SendOutcome)
    requires PolicyOk(p) && Inv(p, s)
    ensures Inv(p, Finish(p, s, worker, outcome))
  {
    var s' := Finish(p, s, worker, outcome);
    if worker in s.held {
      var c := s.held[worker];
      assert ClaimOk(s, c);
      if HoldsClaim(s.rows, c.delivery, c.token) { FinishedRow(p, s.rows[c.delivery], s.nextToken, c, outcome); }
      forall w | w in s'.held ensures ClaimOk(s', s'.held[w]) { assert ClaimOk(s, s.held[w]); }
    }
  }

  lemma ReplayKeepsInv(p: Policy, s: State, i: nat, at: int)
    requires PolicyOk(p) && Inv(p, s)
    ensures Inv(p, ReplayDelivery(s, i, at).0)
  {
    var s' := ReplayDelivery(s, i, at).0;
    forall w | w in s'.held ensures ClaimOk(s', s'.held[w]) { assert ClaimOk(s, s.held[w]); }
  }

  lemma InsertKeepsInv(p: Policy, s: State, endpoint: nat, at: int)
    requires PolicyOk(p) && Inv(p, s)
    ensures Inv(p, s.(rows := s.rows + [NewDelivery(endpoint, at)]))
  {
    var s' := s.(rows := s.rows + [NewDelivery(endpoint, at)]);
    forall w | w in s'.held ensures ClaimOk(s', s'.held[w]) { assert ClaimOk(s, s.held[w]); }
  }

  lemma NextKeepsInv(p: Policy, s: State, step: Step)
    requires PolicyOk(p) && Inv(p, s)
    ensures Inv(p, Next(p, s, step))
  {
    match step
    case InsertStep(endpoint, at) => InsertKeepsInv(p, s, endpoint, at);
    case ClaimStep(worker, now) => if now <= s.clock && worker !in s.held { ClaimKeepsInv(p, s, worker, now); }
    case FinishStep(worker, outcome) => FinishKeepsInv(p, s, worker, outcome);
    case CrashStep(worker) => forall w | w in Next(p, s, step).held ensures ClaimOk(s, s.held[w]) {}
    case ReplayStep(i, at) => ReplayKeepsInv(p, s, i, at);
    case EndpointStep(_, _) => forall w | w in s.held ensures ClaimOk(Next(p, s, step), s.held[w]) { assert ClaimOk(s, s.held[w]); }
    case TickStep(_) => forall w | w in s.held ensures ClaimOk(Next(p, s, step), s.held[w]) { assert ClaimOk(s, s.held[w]); }
  }

  lemma {:induction false} RunKeepsInv(p: Policy, s: State, steps: seq<Step>)
    requires PolicyOk(p) && Inv(p, s)
    ensures Inv(p, Run(p, s, steps))
    decreases |steps|
  {
    if steps != [] {
      NextKeepsInv(p, s, steps[0]);
      RunKeepsInv(p, Next(p, s, steps[0]), steps[1..]);
    }
  }

  // ---------------------------------------------------------------- the theorems

  /** In every reachable state: one unexpired claim per endpoint, no pending delivery out of
      retries, and an exhausted cycle without takeover that took at least its backoffs. */
  lemma OutboxIsSafe(p: Policy, clock: int, steps: seq<Step>)
    requires PolicyOk(p)
    ensures var s := Run(p, Empty(clock), steps);
      && (forall i, j :: 0 <= i < |s.rows| && 0 <= j < |s.rows| && i != j && s.rows[i].endpoint == s.rows[j].endpoint ==>
            !(LeasedAt(s.rows[i], s.clock) && LeasedAt(s.rows[j], s.clock)))
      && (forall i :: 0 <= i < |s.rows| && s.rows[i].status.Pending? ==> s.rows[i].attempts - s.rows[i].cycleStart < p.maxRetries)
      && (forall i :: 0 <= i < |s.rows| && s.rows[i].status.DeadLetter? && s.rows[i].exhausted && !s.rows[i].takenOver ==>
            s.rows[i].cycleAt.Some? && s.rows[i].claimedAt - s.rows[i].cycleAt.value >= TotalBackoff(p, p.maxRetries - 1))
  {
    RunKeepsInv(p, Empty(clock), steps);
    var s := Run(p, Empty(clock), steps);
    forall i | 0 <= i < |s.rows| && s.rows[i].status.DeadLetter? && s.rows[i].exhausted && !s.rows[i].takenOver
      ensures s.rows[i].cycleAt.Some? && s.rows[i].claimedAt - s.rows[i].cycleAt.value >= TotalBackoff(p, p.maxRetries - 1)
    {
      assert CycleOk(p, s.rows[i]);
      TotalBackoffRises(p, p.maxRetries - 1, s.rows[i].attempts - s.rows[i].cycleStart - 1);
    }
  }

  lemma {:induction false} TotalBackoffRises(p: Policy, m: int, n: int)
    requires PolicyOk(p) && m <= n
    ensures TotalBackoff(p, m) <= TotalBackoff(p, n)
    decreases n - m
  {
    if m < n { TotalBackoffRises(p, m, n - 1); }
  }

  /** From the ninth wait on, the default schedule adds half an hour each time. */
  lemma {:induction false} DefaultTotal(n: nat)
    requires n >= 9
    ensures PolicyOk(DefaultPolicy) && TotalBackoff(DefaultPolicy, n) == 2032 * SECOND + (n - 9) * 1800 * SECOND
    decreases n
  {
    var p := DefaultPolicy;
    if n > 9 {
      DefaultTotal(n - 1);
    } else {
      assert TotalBackoff(p, 2) == 7 * SECOND;
      assert TotalBackoff(p, 4) == 52 * SECOND;
      assert TotalBackoff(p, 6) == 232 * SECOND;
      assert TotalBackoff(p, 8) == 1132 * SECOND;
    }
  }

  /** With the shipped constants an undisturbed exhausted cycle lasts more than 72 hours. */
  lemma DefaultCycleOutlasts72Hours(clock: int, steps: seq<Step>, i: nat)
    requires PolicyOk(DefaultPolicy)
    requires var s := Run(DefaultPolicy, Empty(clock), steps);
      i < |s.rows| && s.rows[i].status.DeadLetter? && s.rows[i].exhausted && !s.rows[i].takenOver
    ensures var d := Run(DefaultPolicy, Empty(clock), steps).rows[i];
      d.cycleAt.Some? && d.claimedAt - d.cycleAt.value > 72 * 3600 * SECOND
  {
    OutboxIsSafe(DefaultPolicy, clock, steps);
    DefaultTotal(153);
  }

  /** A claim token that has been replaced or cleared. */
  ghost predicate TokenLost(s: State, i: nat, token: nat) {
    token < s.nextToken && i < |s.rows| && s.rows[i].token != Some(token)
  }

  lemma NextKeepsTokenLost(p: Policy, s: State, step: Step, i: nat, token: nat)
    requires PolicyOk(p) && TokenLost(s, i, token)
    ensures TokenLost(Next(p, s, step), i, token)
  {
  }

  lemma {:induction false} RunKeepsTokenLost(p: Policy, s: State, steps: seq<Step>, i: nat, token: nat)
    requires PolicyOk(p) && TokenLost(s, i, token)
    ensures TokenLost(Run(p, s, steps), i, token)
    decreases |steps|
  {
    if steps != [] {
      NextKeepsTokenLost(p, s, steps[0], i, token);
      RunKeepsTokenLost(p, Next(p, s, steps[0]), steps[1..], i, token);
    }
  }

  /** Over every continuation, completing or failing with a lost token changes nothing. */
  lemma LateCompletionFails(p: Policy, s: State, steps: seq<Step>, i: nat, token: nat, delivered: bool, at: int, exhausted: bool)
    requires PolicyOk(p) && TokenLost(s, i, token)
    ensures var rows := Run(p, s, steps).rows;
      CompleteDelivery(rows, i, token, delivered, at) == (rows, false) && FailDelivery(rows, i, token, exhausted) == (rows, false)
  {
    RunKeepsTokenLost(p, s, steps, i, token);
  }

  /** A takeover loses the previous holder's token. */
  lemma TakeoverLosesToken(p: Policy, s: State, worker: nat, now: int, i: nat, token: nat)
    requires PolicyOk(p) && Inv(p, s) && i < |s.rows| && s.rows[i].token == Some(token)
    requires ClaimDelivery(s, worker, now).1 == Some(i)
    ensures TokenLost(ClaimDelivery(s, worker, now).0, i, token)
  {
    assert LeaseOk(s.rows[i], s.nextToken);
  }

  /** Delivered rows never change again: a success is never retried, replayed or lost. */
  lemma {:induction false} DeliveredIsFinal(p: Policy, s: State, steps: seq<Step>, i: nat)
    requires PolicyOk(p) && i < |s.rows| && s.rows[i].status.Delivered?
    ensures i < |Run(p, s, steps).rows| && Run(p, s, steps).rows[i] == s.rows[i]
    decreases |steps|
  {
    if steps != [] {
      assert i < |Next(p, s, steps[0]).rows| && Next(p, s, steps[0]).rows[i] == s.rows[i];
      DeliveredIsFinal(p, Next(p, s, steps[0]), steps[1..], i);
    }
  }
}
