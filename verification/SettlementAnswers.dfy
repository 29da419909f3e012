/**
 What SettlePayment answers (internal/storage/settlement.go): each review reason, and the
 duplicate, in terms of the order, the receipts and the inbox, whatever the order of the
 checks; and what a review files.
 */
module SettlementAnswers {
  import opened Options
  import opened PaymentTables
  import opened OrderLeases
  import opened Settlement
  import opened SettlementFrames
  import opened PaymentRuns
  import opened Confluence
  import LinkSettlement

  // ---------------------------------------------------------------- the conditions

  ghost predicate HasReference(db: Db, s: SettleInput, k: nat) {
    k < |db.receipts| && db.receipts[k].channel == s.channel && db.receipts[k].reference == s.reference
  }

  predicate SamePayment(r: Receipt, s: SettleInput, i: nat) {
    r.order == i && r.link == s.link && r.amount == s.amount && Some(r.at) == s.at
  }

  /** The reference is booked, for this very payment of the order. */
  ghost predicate Recorded(db: Db, s: SettleInput, i: nat) {
    exists k: nat :: HasReference(db, s, k) && SamePayment(db.receipts[k], s, i)
  }

  /** The reference is booked for something else. */
  ghost predicate Conflicting(db: Db, s: SettleInput, i: nat) {
    exists k: nat :: HasReference(db, s, k) && !SamePayment(db.receipts[k], s, i)
  }

  predicate LinkFits(o: Order, s: SettleInput) {
    o.channel == s.channel && o.amount == s.amount && (o.link == "" || o.link == s.link)
  }

  predicate AccountFits(o: Order, s: SettleInput) {
    InputAccount(s) != "" && (o.account == "" || o.account == InputAccount(s))
  }

  predicate Bound(o: Order) { o.link != "" && o.account != "" }

  /** A Get is needed for an unbound order, for a terminal one without the receipt, and to consume a stored callback. */
  predicate NeedsGet(o: Order, s: SettleInput, recorded: bool) {
    !Bound(o) || (Terminal(o.status) && !recorded) || s.inbox.Some?
  }

  ghost predicate Evidenced(o: Order, s: SettleInput, recorded: bool) {
    (s.get.Some? ==> GetMatches(s)) && (NeedsGet(o, s, recorded) ==> s.get.Some?)
  }

  predicate StoredAsGiven(db: Db, s: SettleInput) {
    s.inbox.Some? ==> s.inbox.value in db.inbox && InboxMatches(db.inbox[s.inbox.value], s.inbox.value, s)
  }

  /** Order, account, evidence and stored callback all agree with the payment. */
  ghost predicate Fits(db: Db, s: SettleInput, i: nat)
    requires i < |db.orders|
  {
    var o := db.orders[i];
    LinkFits(o, s) && AccountFits(o, s) && Evidenced(o, s, Recorded(db, s, i)) && StoredAsGiven(db, s)
  }

  lemma FoundReceipt(db: Db, s: SettleInput, i: nat)
    requires Inv(db) && s.at.Some? && i < |db.orders|
    ensures var found := IndexOfReceipt(db.receipts, s.channel, s.reference);
      && (Recorded(db, s, i) <==> found.Some? && db.receipts[found.value].hash == CanonicalHash(s) && db.receipts[found.value].order == i)
      && (Conflicting(db, s, i) <==> found.Some? && !(db.receipts[found.value].hash == CanonicalHash(s) && db.receipts[found.value].order == i))
  {
    var found := IndexOfReceipt(db.receipts, s.channel, s.reference);
    if found.Some? {
      assert PaymentOk(db, found.value) && HasReference(db, s, found.value);
      forall k: nat | HasReference(db, s, k) ensures k == found.value {}
    }
  }

  lemma FoundOrder(db: Db, s: SettleInput, i: nat)
    requires Inv(db) && i < |db.orders| && db.orders[i].code == s.code
    ensures IndexOfCode(db.orders, s.code) == Some(i)
  {
  }

  // ---------------------------------------------------------------- the verdicts

  lemma UnreadableIff(db: Db, s: SettleInput)
    ensures Decide(db, s) == Review(InvalidTransactionDate) <==> s.at.None?
    ensures Decide(db, s) == Review(UnknownOrder) <==>
              s.at.Some? && WellFormed(s) && forall i :: 0 <= i < |db.orders| ==> db.orders[i].code != s.code
    ensures s.at.Some? && !WellFormed(s) ==> Decide(db, s) == Review(PaymentMismatch)
  {
  }

  /** The answer about a known order: each verdict has exactly one condition. */
  lemma VerdictIff(db: Db, s: SettleInput, i: nat)
    requires Inv(db) && s.at.Some? && WellFormed(s) && i < |db.orders| && db.orders[i].code == s.code
    ensures var o, v := db.orders[i], Decide(db, s);
      && (v == Review(ReferenceConflict) <==> o.channel == s.channel && Conflicting(db, s, i))
      && (v == Review(AwaitingOrderBind) <==>
            !Conflicting(db, s, i) && LinkFits(o, s) && AccountFits(o, s) && s.get.None? && !Bound(o))
      && (v == Review(PaymentDetailsPending) <==>
            !Conflicting(db, s, i) && LinkFits(o, s)
            && (InputAccount(s) == ""
                || (AccountFits(o, s) && s.get.None? && Bound(o) && NeedsGet(o, s, Recorded(db, s, i)))))
      && (v == Review(ExtraPaymentReview) <==>
            !Conflicting(db, s, i) && !Recorded(db, s, i) && Fits(db, s, i) && o.status.Paid?)
      && (v == AlreadyReceived(i) <==> Recorded(db, s, i) && Fits(db, s, i))
      && (v == Accept(i) <==> !Conflicting(db, s, i) && !Recorded(db, s, i) && Fits(db, s, i) && !o.status.Paid?)
  {
    FoundReceipt(db, s, i);
    FoundOrder(db, s, i);
    assert OrderOk(db, i);
    NeverBroken(db, s);
    VerdictOfChain(db, s, i);
  }

  lemma VerdictOfChain(db: Db, s: SettleInput, i: nat)
    requires Inv(db) && s.at.Some? && WellFormed(s) && i < |db.orders| && IndexOfCode(db.orders, s.code) == Some(i)
    ensures Decide(db, s).AlreadyReceived? || Decide(db, s).Accept? ==> Decide(db, s).order == i
  {
  }

  /** What is left: a contradiction in link, amount, channel, account, Get or stored row; or no stored row at all. */
  lemma ContradictionIff(db: Db, s: SettleInput, i: nat)
    requires Inv(db) && s.at.Some? && WellFormed(s) && i < |db.orders| && db.orders[i].code == s.code
    ensures var o, v := db.orders[i], Decide(db, s);
      && (v == InboxRowMissing <==>
            !Conflicting(db, s, i) && LinkFits(o, s) && AccountFits(o, s) && GetMatches(s) && s.inbox.Some? && s.inbox.value !in db.inbox)
      && (v == Review(PaymentMismatch) <==>
            o.channel != s.channel
            || (!Conflicting(db, s, i)
                && (!LinkFits(o, s)
                    || (InputAccount(s) != ""
                        && (!AccountFits(o, s) || (s.get.Some? && !GetMatches(s))
                            || (s.inbox.Some? && s.get.Some? && s.inbox.value in db.inbox && !StoredAsGiven(db, s)))))))
  {
    FoundReceipt(db, s, i);
    FoundOrder(db, s, i);
    NeverBroken(db, s);
  }

  // ---------------------------------------------------------------- what a review files

  /** A review of a signed callback: its first observation is stored under the reason, a stored one
      is only demoted from a reason that later evidence could still cure. */
  lemma CallbackReviewIsFiled(db: Db, s: SettleInput, now: int)
    requires Decide(db, s).Review? && s.callback.Some?
    ensures var (after, r) := Settle(db, s, now, true);
      var p, reason := s.callback.value, Decide(db, s).reason;
      && r == Reviewed(reason) && p in after.inbox
      && (forall q :: q != p ==> (q in after.inbox <==> q in db.inbox))
      && (forall q :: q != p && q in db.inbox ==> after.inbox[q] == db.inbox[q])
      && (p !in db.inbox ==> after.inbox[p] == InboxRow(reason, false))
      && (p in db.inbox ==> after.inbox[p].processed == db.inbox[p].processed)
      && (p in db.inbox && (Bindable(reason) || db.inbox[p].processed || !Bindable(db.inbox[p].reason)) ==> after == db)
      && (p in db.inbox && !Bindable(reason) && !db.inbox[p].processed && Bindable(db.inbox[p].reason) ==> after.inbox[p].reason == reason)
  {
  }

  /** The new callback of an unpaid order that a Get could settle makes the order due at once, or when its lease ends. */
  lemma NewCallbackWakesOrder(db: Db, s: SettleInput, now: int, i: nat)
    requires Inv(db) && s.callback.Some? && s.callback.value.code == s.code && s.callback.value !in db.inbox
    requires Decide(db, s) == Review(AwaitingOrderBind) || Decide(db, s) == Review(PaymentDetailsPending)
    requires i < |db.orders| && db.orders[i].code == s.code && !db.orders[i].status.Paid?
    ensures var o, o' := db.orders[i], Settle(db, s, now, true).0.orders[i];
      && (LeaseLive(o, now) ==> o'.next == Some(o.lease.value.until))
      && (!LeaseLive(o, now) ==> o'.next == Some(now))
      && (Decide(db, s) == Review(PaymentDetailsPending) ==> o'.lastError == PaymentDetailsPendingError)
  {
    FoundOrder(db, s, i);
  }

  /** Without a callback the named inbox row takes the reason, unless it was processed; without either nothing is kept. */
  lemma OtherReviewIsFiled(db: Db, s: SettleInput, now: int)
    requires Decide(db, s).Review? && s.callback.None?
    ensures var (after, r) := Settle(db, s, now, true);
      && after == db.(inbox := after.inbox)
      && (s.inbox.None? ==> after == db && r == ReviewRefused(Decide(db, s).reason))
      && (s.inbox.Some? && s.inbox.value in db.inbox && !db.inbox[s.inbox.value].processed ==>
            r == Reviewed(Decide(db, s).reason) && after.inbox == db.inbox[s.inbox.value := InboxRow(Decide(db, s).reason, false)])
      && (s.inbox.Some? && (s.inbox.value !in db.inbox || db.inbox[s.inbox.value].processed) ==> after == db && r == RolledBack)
  {
  }

  // ---------------------------------------------------------------- what a callback is told

  ghost predicate KnownOrder(db: Db, f: Fact, i: nat) {
    i < |db.orders| && db.orders[i].code == f.code
  }

  /** The order is PAID, agrees in everything, and no receipt has this reference: a second payment. */
  ghost predicate SecondPayment(db: Db, f: Fact, i: nat)
    requires i < |db.orders|
  {
    var o := db.orders[i];
    o.status.Paid? && o.channel == f.channel && o.amount == f.amount && o.link == f.link && o.account == f.account
    && IndexOfReceipt(db.receipts, f.channel, f.reference).None?
  }

  lemma InputsOfFact(f: Fact, a: Arrival)
    requires ValidFact(f) && Agrees(f, a)
    ensures var s := InputOf(f, a);
      s.at == Some(f.at) && WellFormed(s) && s.channel == f.channel && s.code == f.code && s.link == f.link
      && s.reference == f.reference && s.amount == f.amount && InputAccount(s) == f.account
      && (s.get.Some? <==> a.GetArrival?) && (s.get.Some? ==> GetMatches(s))
      && (a.CallbackArrival? ==> s.inbox.None? && s.callback == Some(PayloadOf(f, a)))
      && (a.GetArrival? ==> s.callback.None? && s.inbox == a.inbox)
  {
  }

  /**
   The signed callback of a payment, admitted, in any reachable state. It is a duplicate iff the
   payment is booked, and then nothing changes; it books the payment iff the order is open,
   bound and live; otherwise it is kept under the one reason that applies.
   */
  lemma CallbackIsAnswered(db: Db, f: Fact, a: Arrival, i: nat)
    requires Inv(db) && ValidFact(f) && Agrees(f, a) && a.CallbackArrival? && a.admitted && KnownOrder(db, f, i)
    ensures var (after, r) := Settle(db, InputOf(f, a), a.now, true);
      && (r == Settled(i, true) <==> LinkSettlement.Received(db, f))
      && (LinkSettlement.Received(db, f) ==> after == db)
      && (r == Settled(i, false) <==> Open(db, f) && BoundAndLive(db, f))
      && (r == Reviewed(AwaitingOrderBind) <==> Open(db, f) && !Bound(db.orders[i]))
      && (r == Reviewed(PaymentDetailsPending) <==> Open(db, f) && Bound(db.orders[i]) && Terminal(db.orders[i].status))
      && (r == Reviewed(ExtraPaymentReview) <==> SecondPayment(db, f, i))
      && (r == Reviewed(ReferenceConflict) <==> db.orders[i].channel == f.channel && Conflicting(db, InputOf(f, a), i))
  {
    var s := InputOf(f, a);
    InputsOfFact(f, a);
    VerdictIff(db, s, i);
    FoundReceipt(db, s, i);
    FoundOrder(db, s, i);
    assert OrderOk(db, i);
    if db.orders[i].status.Paid? { assert PaymentOk(db, db.orders[i].txn.value); }
    ReceivedIff(db, f, s, i);
    if Decide(db, s).Accept? { AcceptedKeyIsFree(db, s); }
  }

  /** A callback of an unknown code is kept for an order to come. */
  lemma UnknownCallbackIsKept(db: Db, f: Fact, a: Arrival)
    requires Inv(db) && ValidFact(f) && Agrees(f, a) && a.CallbackArrival? && a.admitted
    ensures Settle(db, InputOf(f, a), a.now, true).1 == Reviewed(UnknownOrder) <==> forall i: nat :: !KnownOrder(db, f, i)
  {
    InputsOfFact(f, a);
    UnreadableIff(db, InputOf(f, a));
    if forall i: nat :: !KnownOrder(db, f, i) {
      forall i | 0 <= i < |db.orders| ensures db.orders[i].code != f.code { assert !KnownOrder(db, f, i); }
    }
  }

  /** Booked for this fact: the receipt, and a PAID order that still says the same. */
  lemma ReceivedIff(db: Db, f: Fact, s: SettleInput, i: nat)
    requires Inv(db) && ValidFact(f) && i < |db.orders| && db.orders[i].code == f.code == s.code
    requires s.at == Some(f.at) && s.channel == f.channel && s.link == f.link && s.reference == f.reference && s.amount == f.amount
    requires InputAccount(s) == f.account
    ensures LinkSettlement.Received(db, f) <==>
              Recorded(db, s, i) && LinkFits(db.orders[i], s) && AccountFits(db.orders[i], s)
    ensures Recorded(db, s, i) ==> Bound(db.orders[i]) && db.orders[i].status.Paid? && LinkFits(db.orders[i], s)
  {
    FoundReceipt(db, s, i);
    FoundOrder(db, s, i);
    var found := IndexOfReceipt(db.receipts, s.channel, s.reference);
    if found.Some? {
      assert PaymentOk(db, found.value);
      assert OrderOk(db, db.receipts[found.value].order);
    }
  }

  /** Any further agreeing report of a booked payment, callback or Get, changes nothing. */
  lemma RepeatIsIdle(db: Db, f: Fact, a: Arrival, i: nat)
    requires Inv(db) && ValidFact(f) && Agrees(f, a) && a.admitted && (a.GetArrival? ==> a.inbox.None?)
    requires LinkSettlement.Received(db, f) && KnownOrder(db, f, i)
    ensures Settle(db, InputOf(f, a), a.now, true) == (db, Settled(i, true))
  {
    var s := InputOf(f, a);
    InputsOfFact(f, a);
    ReceivedIff(db, f, s, i);
    VerdictIff(db, s, i);
    FoundReceipt(db, s, i);
  }

  // ---------------------------------------------------------------- what an accepted payment writes

  /** Every row of an accepted payment: the PAID order, its receipt and credit, the event with one delivery for each
      endpoint active now, and one journal row; a named callback is processed, and nothing else changes. */
  lemma AcceptedPaymentIsWritten(db: Db, s: SettleInput, now: int, i: nat)
    requires Inv(db) && Decide(db, s) == Accept(i)
    ensures s.at.Some? && i < |db.orders|
    ensures var (after, r) := Settle(db, s, now, true);
      var k, key := |db.transactions|, SemanticKey(s.channel, s.reference);
      && r == Settled(i, false) && |after.orders| == |db.orders|
      && (forall j :: 0 <= j < |db.orders| && j != i ==> after.orders[j] == db.orders[j])
      && (var o, o' := db.orders[i], after.orders[i];
          && o'.status.Paid? && o'.link == s.link && o'.account == InputAccount(s) && o'.txn == Some(k) && o'.paidAt == s.at
          && o'.next.None? && o'.lastError.NoError?
          && o' == o.(status := Paid, link := o'.link, account := o'.account, txn := o'.txn, paidAt := o'.paidAt, next := None, lastError := NoError))
      && after.receipts == db.receipts + [Receipt(s.channel, s.reference, i, s.link, s.amount, s.at.value,
                                                  Canonical(s.channel, s.link, s.reference, s.amount, s.at.value), k)]
      && after.transactions == db.transactions + [Txn(key, Canonical(s.channel, s.link, s.reference, s.amount, s.at.value), s.amount, s.at.value, s.source)]
      && after.events == db.events + [Event(key, k)] && after.journal == db.journal + [k]
      && (forall d :: d in after.deliveries <==> d in db.deliveries || (d.event == key && d.endpoint in db.activeEndpoints))
      && after.audience == db.audience[key := db.activeEndpoints]
      && after.inbox == (if s.inbox.Some? && s.inbox.value in db.inbox
                         then db.inbox[s.inbox.value := db.inbox[s.inbox.value].(processed := true)] else db.inbox)
      && after.nextToken == db.nextToken && after.activeEndpoints == db.activeEndpoints
  {
    AcceptedKeyIsFree(db, s);
  }

  /** A closed gate rolls everything back. */
  lemma ClosedGateRollsBack(db: Db, s: SettleInput, p: Payload, reason: Reason, now: int)
    ensures Settle(db, s, now, false) == (db, RolledBack) && SaveCallback(db, p, reason, now, false) == db
  {
  }

  /** A callback saved without a settlement is kept like a reviewed one. */
  lemma SavedCallbackIsKept(db: Db, p: Payload, reason: Reason, now: int)
    ensures var after := SaveCallback(db, p, reason, now, true);
      && p in after.inbox && (forall q :: q != p ==> (q in after.inbox <==> q in db.inbox))
      && (forall q :: q != p && q in db.inbox ==> after.inbox[q] == db.inbox[q])
      && (p !in db.inbox ==> after.inbox[p] == InboxRow(reason, false))
      && (p in db.inbox ==>
            && after.inbox[p].processed == db.inbox[p].processed
            && after.inbox[p].reason == if !Bindable(reason) && !db.inbox[p].processed && Bindable(db.inbox[p].reason) then reason else db.inbox[p].reason)
  {
  }

  /** Promoting the callbacks of a code makes its unpaid order due at once, or when its lease ends. */
  lemma PromotionWakesOrder(db: Db, code: int, now: int, i: nat)
    requires Inv(db) && i < |db.orders| && db.orders[i].code == code
    ensures var after := PromoteUnknown(db, code, now);
      && |after.orders| == |db.orders| && (forall j :: 0 <= j < |db.orders| && j != i ==> after.orders[j] == db.orders[j])
      && var o, o' := db.orders[i], after.orders[i];
      && o' == o.(next := o'.next)
      && (o.status.Paid? ==> o' == o)
      && (!o.status.Paid? ==> o'.next == Some(if LeaseLive(o, now) then o.lease.value.until else now))
  {
    assert IndexOfCode(db.orders, code) == Some(i);
  }
}
