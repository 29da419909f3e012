/** What the inbox writes and each settlement outcome leave untouched. */
module SettlementFrames {
  import opened Options
  import opened PaymentTables
  import opened OrderLeases
  import opened Settlement

  /** Only the schedule and the error of an unpaid order may move, and the schedule never goes away. */
  ghost predicate Rescheduled(o: Order, o': Order, now: int) {
    && o' == o.(next := o'.next, lastError := o'.lastError)
    && (o.status.Paid? ==> o' == o)
    && (o'.next != o.next ==> o'.next.Some? && now <= o'.next.value
                              && (o.lease.Some? ==> o.lease.value.until <= o'.next.value))
    && (o'.lastError != o.lastError ==> o'.lastError == PaymentDetailsPendingError)
  }

  /** No financial row changes, and orders are at most rescheduled. */
  ghost predicate NoMoney(db: Db, db': Db, now: int) {
    && db'.receipts == db.receipts && db'.transactions == db.transactions && db'.events == db.events
    && db'.journal == db.journal && db'.deliveries == db.deliveries && db'.audience == db.audience
    && db'.nextToken == db.nextToken && db'.activeEndpoints == db.activeEndpoints
    && |db'.orders| == |db.orders|
    && forall i :: 0 <= i < |db.orders| ==> Rescheduled(db.orders[i], db'.orders[i], now)
  }

  lemma InsertInboxMovesNoMoney(db: Db, c: Payload, reason: Reason, now: int)
    ensures NoMoney(db, InsertInbox(db, c, reason, now), now)
  {
  }

  lemma ReviewMovesNoMoney(db: Db, s: SettleInput, reason: Reason, now: int)
    ensures NoMoney(db, RecordReview(db, s, reason, now).0, now)
  {
    if s.callback.Some? { InsertInboxMovesNoMoney(db, s.callback.value, reason, now); }
  }

  lemma PromoteMovesNoMoney(db: Db, code: int, now: int)
    ensures NoMoney(db, PromoteUnknown(db, code, now), now)
  {
  }

  /** A settlement that accepts nothing moves no money. */
  lemma UnacceptedMovesNoMoney(db: Db, s: SettleInput, now: int, admitted: bool)
    requires !admitted || !Decide(db, s).Accept? || KeyTaken(db, KeyOf(s))
    ensures NoMoney(db, Settle(db, s, now, admitted).0, now)
  {
    if admitted && Decide(db, s).Review? { ReviewMovesNoMoney(db, s, Decide(db, s).reason, now); }
  }

  /** An accepted one changes exactly one order. */
  lemma AcceptedPaysOneOrder(db: Db, s: SettleInput, now: int)
    requires Decide(db, s).Accept? && !KeyTaken(db, KeyOf(s))
    ensures s.at.Some? && Decide(db, s).order < |db.orders|
    ensures var i, db' := Decide(db, s).order, Settle(db, s, now, true).0;
      && db'.orders == db.orders[i := PaidOrder(db.orders[i], s, |db.transactions|)]
      && db'.nextToken == db.nextToken && !db.orders[i].status.Paid? && db.orders[i].code == s.code
  {
  }
}
