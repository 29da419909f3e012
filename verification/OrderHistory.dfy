/**
 How one order may change over a run: PAID is absorbing, the provider binding is written
 once, and the operation token behaves as a lock with a single owner.
 */
module OrderHistory {
  import opened Options
  import opened PaymentTables
  import opened OrderLeases
  import opened Settlement
  import opened SettlementFrames
  import opened PaymentRuns

  ghost predicate Evolves(o: Order, o': Order) {
    && o'.code == o.code && o'.channel == o.channel && o'.key == o.key && o'.requestHash == o.requestHash
    && o'.amount == o.amount && o'.origin == o.origin && o'.expiresAt == o.expiresAt
    && (o.link != "" ==> o'.link == o.link)
    && (o.account != "" ==> o'.account == o.account)
    && (o.qr != "" ==> o'.qr == o.qr)
    && (o.qrAttempted ==> o'.qrAttempted)
    && (o.status.Paid? ==> o'.status.Paid? && o'.txn == o.txn && o'.paidAt == o.paidAt
                           && o'.link == o.link && o'.account == o.account && o'.lastError == o.lastError)
  }

  ghost predicate AllEvolve(db: Db, db': Db) {
    |db.orders| <= |db'.orders| && forall i :: 0 <= i < |db.orders| ==> Evolves(db.orders[i], db'.orders[i])
  }

  lemma NoMoneyEvolves(db: Db, db': Db, now: int)
    requires NoMoney(db, db', now)
    ensures AllEvolve(db, db')
  {
    forall i | 0 <= i < |db.orders| ensures Evolves(db.orders[i], db'.orders[i]) {
      assert Rescheduled(db.orders[i], db'.orders[i], now);
    }
  }

  lemma SettleEvolves(db: Db, s: SettleInput, now: int, admitted: bool)
    requires Inv(db)
    ensures AllEvolve(db, Settle(db, s, now, admitted).0)
  {
    if admitted && Decide(db, s).Accept? && !KeyTaken(db, KeyOf(s)) {
      AcceptedPaysOneOrder(db, s, now);
    } else {
      UnacceptedMovesNoMoney(db, s, now, admitted);
      NoMoneyEvolves(db, Settle(db, s, now, admitted).0, now);
    }
  }

  lemma CompletedEvolves(o: Order, u: Update)
    requires o.lease.Some? && (o.status.Paid? ==> o.link != "" && o.account != "")
    ensures Evolves(o, CompletedOrder(o, u))
  {
  }

  lemma PaidIsBound(db: Db, id: nat)
    requires Inv(db) && id < |db.orders| && db.orders[id].status.Paid?
    ensures db.orders[id].link != "" && db.orders[id].account != ""
  {
    assert OrderOk(db, id);
    assert PaymentOk(db, db.orders[id].txn.value);
  }

  lemma OneOrderEvolves(db: Db, db': Db, id: nat, o': Order)
    requires id < |db.orders| && db'.orders == db.orders[id := o'] && Evolves(db.orders[id], o')
    ensures AllEvolve(db, db')
  {
  }

  lemma CompleteEvolves(db: Db, id: nat, token: nat, u: Update, admitted: bool)
    requires Inv(db)
    ensures AllEvolve(db, Complete(db, id, token, u, admitted).0)
  {
    var db' := Complete(db, id, token, u, admitted).0;
    if db' != db {
      if db.orders[id].status.Paid? { PaidIsBound(db, id); }
      CompletedEvolves(db.orders[id], u);
      OneOrderEvolves(db, db', id, db'.orders[id]);
    }
  }

  lemma LeaseOpEvolves(db: Db, op: Op, now: int)
    requires Inv(db) && (op.ClaimOp? || op.RenewOp? || op.CompleteOp?)
    ensures AllEvolve(db, Apply(db, op, now)) && db.nextToken <= Apply(db, op, now).nextToken
  {
    match op
    case ClaimOp(id, admitted) =>
      var db' := Claim(db, id, now, admitted).0;
      if db' != db { OneOrderEvolves(db, db', id, db'.orders[id]); }
    case RenewOp(id, token, qr, admitted) =>
      var db' := Renew(db, id, token, qr, now, admitted).0;
      if db' != db { OneOrderEvolves(db, db', id, db'.orders[id]); }
    case CompleteOp(id, token, u, admitted) => CompleteEvolves(db, id, token, u, admitted);
    case _ =>
  }

  lemma ApplyEvolves(db: Db, op: Op, now: int)
    requires Inv(db)
    ensures AllEvolve(db, Apply(db, op, now)) && db.nextToken <= Apply(db, op, now).nextToken
  {
    match op
    case SettleOp(s, admitted) =>
      SettleEvolves(db, s, now, admitted);
      TokensKept(db, op, now);
    case SaveCallbackOp(c, reason, admitted) =>
      InsertInboxMovesNoMoney(db, c, reason, now);
      if admitted { NoMoneyEvolves(db, Apply(db, op, now), now); }
    case PromoteOp(code, admitted) =>
      PromoteMovesNoMoney(db, code, now);
      NoMoneyEvolves(db, PromoteUnknown(db, code, now), now);
    case ReserveOp(_, _, _) =>
    case EndpointsOp(_) =>
    case _ => LeaseOpEvolves(db, op, now);
  }

  /** Settlements and inbox writes leave every lease as it is. */
  lemma TokensKept(db: Db, op: Op, now: int)
    requires op.SettleOp? || op.SaveCallbackOp? || op.PromoteOp?
    ensures var db' := Apply(db, op, now);
      db'.nextToken == db.nextToken && |db'.orders| == |db.orders|
      && forall i :: 0 <= i < |db.orders| ==> db'.orders[i].lease == db.orders[i].lease
  {
    match op
    case SettleOp(s, admitted) =>
      if admitted && Decide(db, s).Accept? && !KeyTaken(db, KeyOf(s)) {
        AcceptedPaysOneOrder(db, s, now);
      } else {
        UnacceptedMovesNoMoney(db, s, now, admitted);
      }
    case SaveCallbackOp(c, reason, _) => InsertInboxMovesNoMoney(db, c, reason, now);
    case PromoteOp(code, _) => PromoteMovesNoMoney(db, code, now);
  }

  /** Over every run: PAID absorbs, link, QR and account are bound once, the QR recovery mark never clears. */
  lemma {:induction false} RunEvolves(db: Db, steps: seq<Step>)
    requires Inv(db)
    ensures AllEvolve(db, Run(db, steps)) && db.nextToken <= Run(db, steps).nextToken
    decreases |steps|
  {
    if steps != [] {
      var mid := Apply(db, steps[0].op, steps[0].now);
      ApplyKeepsInv(db, steps[0].op, steps[0].now);
      ApplyEvolves(db, steps[0].op, steps[0].now);
      RunEvolves(mid, steps[1..]);
      var end := Run(db, steps);
      forall i | 0 <= i < |db.orders| ensures Evolves(db.orders[i], end.orders[i]) {
        assert Evolves(db.orders[i], mid.orders[i]) && Evolves(mid.orders[i], end.orders[i]);
      }
    }
  }

  // ---------------------------------------------------------------- superseded tokens

  ghost predicate Retired(db: Db, id: nat, token: nat) {
    token < db.nextToken && !HasToken(db, id, token)
  }

  lemma ApplyKeepsRetired(db: Db, op: Op, now: int, id: nat, token: nat)
    requires Inv(db) && Retired(db, id, token)
    ensures Retired(Apply(db, op, now), id, token)
  {
    if op.SettleOp? || op.SaveCallbackOp? || op.PromoteOp? { TokensKept(db, op, now); }
  }

  lemma {:induction false} RunKeepsRetired(db: Db, steps: seq<Step>, id: nat, token: nat)
    requires Inv(db) && Retired(db, id, token)
    ensures Retired(Run(db, steps), id, token)
    decreases |steps|
  {
    if steps != [] {
      ApplyKeepsInv(db, steps[0].op, steps[0].now);
      ApplyKeepsRetired(db, steps[0].op, steps[0].now, id, token);
      RunKeepsRetired(Apply(db, steps[0].op, steps[0].now), steps[1..], id, token);
    }
  }

  /** Whatever happens after a token lost its order, its Renew and Complete change nothing, at any later time. */
  lemma SupersededTokenIsInert(db: Db, steps: seq<Step>, id: nat, token: nat, u: Update, qr: bool, now: int, admitted: bool)
    requires Inv(db) && Retired(db, id, token)
    ensures var db' := Run(db, steps);
      Renew(db', id, token, qr, now, admitted) == (db', RenewLost)
      && Complete(db', id, token, u, admitted) == (db', if ValidUpdate(u) then CompleteLost else InvalidUpdate)
  {
    RunKeepsRetired(db, steps, id, token);
  }

  /** A takeover supersedes: after a claim succeeds, every token the order had before is retired. */
  lemma ClaimSupersedes(db: Db, id: nat, now: int, superseded: nat)
    requires Inv(db) && id < |db.orders| && HasToken(db, id, superseded) && Claim(db, id, now, true).1.Claimed?
    ensures Retired(Claim(db, id, now, true).0, id, superseded)
    ensures now >= db.orders[id].lease.value.until
  {
    assert OrderOk(db, id);
  }

  // ---------------------------------------------------------------- refinement of a lock

  /** The abstract lock: free, or held by one owner until an instant. */
  datatype Lock = Free | Held(owner: nat, until: int)

  function LockOf(o: Order): Lock {
    match o.lease
    case None => Free
    case Some(l) => Held(l.token, l.until)
  }

  /** What one step may do to a lock: nothing, be acquired by a new owner when free or
      expired, be extended or released by its owner. */
  ghost predicate LockStep(l: Lock, l': Lock, op: Op, id: nat, newOwner: nat, now: int) {
    || l' == l
    || (op.ClaimOp? && op.id == id && (l.Free? || now >= l.until) && l' == Held(newOwner, now + OPERATION_LEASE))
    || (op.RenewOp? && op.id == id && l.Held? && l.owner == op.token && l' == Held(op.token, now + OPERATION_LEASE))
    || (op.CompleteOp? && op.id == id && l.Held? && l.owner == op.token && l' == Free)
  }

  /** Every transaction refines a step of the lock, and a new owner is unlike any earlier one. */
  lemma LeaseRefinesLock(db: Db, op: Op, now: int, id: nat)
    requires Inv(db) && id < |db.orders|
    ensures id < |Apply(db, op, now).orders|
    ensures LockStep(LockOf(db.orders[id]), LockOf(Apply(db, op, now).orders[id]), op, id, db.nextToken, now)
    ensures LockOf(db.orders[id]).Held? ==> LockOf(db.orders[id]).owner < db.nextToken
  {
    if op.SettleOp? || op.SaveCallbackOp? || op.PromoteOp? { TokensKept(db, op, now); }
    assert OrderOk(db, id);
  }
}
