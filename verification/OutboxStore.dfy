/** The delivery methods of the Store, on the rows they change in place, and one dispatch. */
module OutboxStore {
  import opened Options
  import opened Outbox

  class Store {
    var rows: seq<Delivery>
    var active: set<nat>
    var nextToken: nat
    var clock: int
    var held: map<nat, Claim>

    ghost function View(): State
      reads this
    {
      State(rows, active, nextToken, clock, held)
    }

    constructor (clock: int)
      ensures View() == Empty(clock)
    {
      rows, active, nextToken, this.clock, held := [], {}, 0, clock, map[];
    }

    /** The NOT EXISTS subquery. */
    method IsEndpointBusy(i: nat, now: int) returns (busy: bool)
      requires i < |rows|
      ensures busy <==> EndpointBusy(rows, i, now)
    {
      var all := rows;
      var j := 0;
      while j < |all|
        invariant j <= |all|
        invariant forall k :: 0 <= k < j && k != i && all[k].endpoint == all[i].endpoint ==> !LeasedAt(all[k], now)
      {
        if j != i && all[j].endpoint == all[i].endpoint && LeasedAt(all[j], now) { return true; }
        j := j + 1;
      }
      return false;
    }

    method ClaimDelivery(worker: nat, now: int) returns (claimed: Option<nat>)
      modifies this`rows, this`nextToken, this`held
      ensures (View(), claimed) == Outbox.ClaimDelivery(old(View()), worker, now)
    {
      claimed := None;
      var i := 0;
      while i < |rows|
        invariant i <= |rows| && rows == old(rows) && nextToken == old(nextToken) && held == old(held)
        invariant claimed == Earliest(rows, active, now, i)
      {
        if rows[i].endpoint in active && Due(rows[i], now) {
          var busy := IsEndpointBusy(i, now);
          if !busy {
            if claimed.None? { claimed := Some(i); }
            else if rows[i].next < rows[claimed.value].next { claimed := Some(i); }
          }
        }
        i := i + 1;
      }
      if claimed.Some? {
        var d := rows[claimed.value];
        var claim := ClaimedRow(d, nextToken, now);
        rows := rows[claimed.value := claim];
        held := held[worker := Claim(claimed.value, nextToken, claim.attempts, claim.cycleStart, now)];
        nextToken := nextToken + 1;
      }
    }

    method CompleteDelivery(i: nat, token: nat, delivered: bool, retryAt: int) returns (ok: bool)
      modifies this`rows
      ensures (rows, ok) == Outbox.CompleteDelivery(old(rows), i, token, delivered, retryAt)
    {
      if i >= |rows| || !rows[i].status.InFlight? || rows[i].token != Some(token) { return false; }
      var status := Pending;
      if delivered { status := Delivered; }
      rows := rows[i := rows[i].(status := status, next := retryAt, token := None, lease := None)];
      return true;
    }

    method FailDelivery(i: nat, token: nat, exhausted: bool) returns (ok: bool)
      modifies this`rows
      ensures (rows, ok) == Outbox.FailDelivery(old(rows), i, token, exhausted)
    {
      if i >= |rows| || !rows[i].status.InFlight? || rows[i].token != Some(token) { return false; }
      rows := rows[i := rows[i].(status := DeadLetter, token := None, lease := None, exhausted := exhausted)];
      return true;
    }

    method ReplayDelivery(i: nat, now: int) returns (ok: bool)
      modifies this`rows
      ensures (View(), ok) == Outbox.ReplayDelivery(old(View()), i, now)
    {
      if i >= |rows| || !rows[i].status.DeadLetter? { return false; }
      if rows[i].endpoint !in active { return false; }
      rows := rows[i := rows[i].(status := Pending, next := now, cycleStart := rows[i].attempts,
                                 cycleAt := None, takenOver := false, exhausted := false)];
      return true;
    }

    /** The second half of DispatchOne: what the send's outcome does to the claimed delivery. */
    method FinishDispatch(p: Policy, worker: nat, outcome: SendOutcome)
      requires PolicyOk(p) && worker in held
      modifies this`rows, this`held
      ensures View() == Finish(p, old(View()), worker, outcome)
    {
      var c := held[worker];
      held := held - {worker};
      if outcome.Unavailable? {
        var _ := FailDelivery(c.delivery, c.token, false);
        return;
      }
      var effective := c.attempts - c.cycleStart;
      if effective < 1 { effective := 1; }
      if outcome.Success? {
        var _ := CompleteDelivery(c.delivery, c.token, true, 0);
        return;
      }
      if outcome.TerminalFailure? || effective >= p.maxRetries {
        var _ := FailDelivery(c.delivery, c.token, outcome.Retry?);
        return;
      }
      var index := effective - 1;
      if index >= |p.backoffs| { index := |p.backoffs| - 1; }
      var _ := CompleteDelivery(c.delivery, c.token, false, c.now + p.backoffs[index]);
    }
  }
}
