/**
 Every interleaving of the payOS transactions, by any callers: what holds in each
 reachable state, and how an order may change over a run.
 */
module PaymentRuns {
  import opened Options
  import opened PaymentTables
  import opened OrderLeases
  import opened Settlement

  datatype Op =
    | ReserveOp(intent: Intent, draws: seq<int>, admitted: bool)
    | ClaimOp(id: nat, admitted: bool)
    | RenewOp(id: nat, token: nat, qr: bool, admitted: bool)
    | CompleteOp(id: nat, token: nat, update: Update, admitted: bool)
    | SettleOp(input: SettleInput, admitted: bool)
    | SaveCallbackOp(callback: Payload, reason: Reason, admitted: bool)
    | PromoteOp(code: int, admitted: bool)
    | EndpointsOp(active: set<nat>)

  function Apply(db: Db, op: Op, now: int): Db {
    match op
    case ReserveOp(intent, draws, admitted) => Reserve(db, intent, draws, now, admitted).0
    case ClaimOp(id, admitted) => Claim(db, id, now, admitted).0
    case RenewOp(id, token, qr, admitted) => Renew(db, id, token, qr, now, admitted).0
    case CompleteOp(id, token, update, admitted) => Complete(db, id, token, update, admitted).0
    case SettleOp(s, admitted) => Settle(db, s, now, admitted).0
    case SaveCallbackOp(c, reason, admitted) => SaveCallback(db, c, reason, now, admitted)
    case PromoteOp(code, admitted) => if admitted && IndexOfCode(db.orders, code).Some? then PromoteUnknown(db, code, now) else db
    case EndpointsOp(active) => db.(activeEndpoints := active)
  }

  /** One step of a run: the operation and the instant it runs at. */
  datatype Step = Step(op: Op, now: int)

  function Run(db: Db, steps: seq<Step>): Db
    decreases |steps|
  {
    if steps == [] then db else Run(Apply(db, steps[0].op, steps[0].now), steps[1..])
  }

  // ---------------------------------------------------------------- the ledger invariant

  /** An order is PAID iff it has a transaction, and then the receipt of that transaction names it. */
  ghost predicate OrderOk(db: Db, i: nat)
    requires i < |db.orders|
  {
    var o := db.orders[i];
    && (o.status.Paid? <==> o.txn.Some?)
    && (o.txn.Some? ==> o.txn.value < |db.receipts| && db.receipts[o.txn.value].order == i)
    && (o.lease.Some? ==> o.lease.value.token < db.nextToken)
  }

  /** The rows of one payment: receipt, order, credit, event, journal row and deliveries. */
  ghost predicate PaymentOk(db: Db, k: nat)
    requires k < |db.receipts| == |db.transactions| == |db.events| == |db.journal|
  {
    var r := db.receipts[k];
    var key := SemanticKey(r.channel, r.reference);
    && r.txn == k
    && r.hash == Canonical(r.channel, r.link, r.reference, r.amount, r.at)
    && r.order < |db.orders|
    && (var o := db.orders[r.order];
        && o.txn == Some(k) && o.channel == r.channel && o.amount == r.amount
        && o.link == r.link && o.link != "" && o.account != "" && o.paidAt == Some(r.at))
    && (var t := db.transactions[k]; t.key == key && t.hash == r.hash && t.credit == r.amount && t.at == r.at)
    && db.events[k] == Event(key, k)
    && db.journal[k] == k
    && key in db.audience
    && (forall ep :: Delivery(key, ep) in db.deliveries <==> ep in db.audience[key])
  }

  ghost predicate SameRows(db: Db) {
    |db.receipts| == |db.transactions| == |db.events| == |db.journal|
  }

  ghost predicate ReferencesDistinct(db: Db) {
    forall j, k :: 0 <= j < k < |db.receipts| ==>
      db.receipts[j].channel != db.receipts[k].channel || db.receipts[j].reference != db.receipts[k].reference
  }

  /** Deliveries exist only for written events and their audience. */
  ghost predicate DeliveriesOk(db: Db) {
    && (forall d :: d in db.deliveries ==> d.event in db.audience && d.endpoint in db.audience[d.event])
    && (forall key :: key in db.audience ==> exists k :: 0 <= k < |db.events| && db.events[k].key == key)
  }

  ghost predicate CodesDistinct(db: Db) {
    forall j, k :: 0 <= j < k < |db.orders| ==> db.orders[j].code != db.orders[k].code
  }

  ghost predicate KeysDistinct(db: Db) {
    forall j, k :: 0 <= j < k < |db.orders| ==>
      db.orders[j].channel != db.orders[k].channel || db.orders[j].key != db.orders[k].key
  }

  /** A processed inbox row is the callback of a committed receipt. */
  ghost predicate ReceiptFor(db: Db, p: Payload) {
    exists k :: 0 <= k < |db.receipts| && db.receipts[k].order < |db.orders| &&
      var r := db.receipts[k];
      db.orders[r.order].code == p.code && r.link == p.link && r.reference == p.reference
      && r.amount == p.amount && Some(r.at) == p.at
  }

  ghost predicate InboxOk(db: Db) {
    forall p :: p in db.inbox && db.inbox[p].processed ==> ReceiptFor(db, p)
  }

  function SumPaid(orders: seq<Order>): int {
    if orders == [] then 0
    else (if orders[0].status.Paid? then orders[0].amount else 0) + SumPaid(orders[1..])
  }

  function SumReceipts(receipts: seq<Receipt>): int {
    if receipts == [] then 0 else receipts[0].amount + SumReceipts(receipts[1..])
  }

  function SumCredits(transactions: seq<Txn>): int {
    if transactions == [] then 0 else transactions[0].credit + SumCredits(transactions[1..])
  }

  ghost predicate Conserved(db: Db) {
    SumPaid(db.orders) == SumReceipts(db.receipts) == SumCredits(db.transactions)
  }

  ghost predicate Inv(db: Db) {
    && SameRows(db)
    && (forall i :: 0 <= i < |db.orders| ==> OrderOk(db, i))
    && (forall k :: 0 <= k < |db.receipts| ==> PaymentOk(db, k))
    && ReferencesDistinct(db) && CodesDistinct(db) && KeysDistinct(db)
    && DeliveriesOk(db)
    && InboxOk(db)
    && Conserved(db)
  }

  // ---------------------------------------------------------------- sums under an update

  lemma {:induction false} SumPaidUpdate(orders: seq<Order>, i: nat, o: Order)
    requires i < |orders|
    ensures SumPaid(orders[i := o]) == SumPaid(orders)
              - (if orders[i].status.Paid? then orders[i].amount else 0)
              + (if o.status.Paid? then o.amount else 0)
  {
    if i == 0 {
      assert orders[0 := o][1..] == orders[1..];
    } else {
      assert orders[i := o][1..] == orders[1..][i - 1 := o];
      SumPaidUpdate(orders[1..], i - 1, o);
    }
  }

  lemma {:induction false} SumPaidAppend(orders: seq<Order>, o: Order)
    ensures SumPaid(orders + [o]) == SumPaid(orders) + (if o.status.Paid? then o.amount else 0)
  {
    if orders == [] {
      assert orders + [o] == [o];
    } else {
      assert (orders + [o])[1..] == orders[1..] + [o];
      SumPaidAppend(orders[1..], o);
    }
  }

  lemma {:induction false} SumReceiptsAppend(receipts: seq<Receipt>, r: Receipt)
    ensures SumReceipts(receipts + [r]) == SumReceipts(receipts) + r.amount
  {
    if receipts == [] {
      assert receipts + [r] == [r];
    } else {
      assert (receipts + [r])[1..] == receipts[1..] + [r];
      SumReceiptsAppend(receipts[1..], r);
    }
  }

  lemma {:induction false} SumCreditsAppend(transactions: seq<Txn>, t: Txn)
    ensures SumCredits(transactions + [t]) == SumCredits(transactions) + t.credit
  {
    if transactions == [] {
      assert transactions + [t] == [t];
    } else {
      assert (transactions + [t])[1..] == transactions[1..] + [t];
      SumCreditsAppend(transactions[1..], t);
    }
  }

  // ---------------------------------------------------------------- steps keep the invariant

  /** An order update that touches no financial column. */
  ghost predicate Unfinancial(o: Order, o': Order) {
    && o'.code == o.code && o'.channel == o.channel && o'.key == o.key && o'.amount == o.amount
    && o'.txn == o.txn && o'.paidAt == o.paidAt && (o'.status.Paid? <==> o.status.Paid?)
    && (o.link != "" ==> o'.link == o.link) && (o.account != "" ==> o'.account == o.account)
  }

  lemma OrderUpdateKeepsInv(db: Db, i: nat, o: Order, tokens: nat)
    requires Inv(db) && i < |db.orders| && Unfinancial(db.orders[i], o)
    requires tokens >= db.nextToken && (o.lease.Some? ==> o.lease.value.token < tokens)
    ensures Inv(db.(orders := db.orders[i := o], nextToken := tokens))
  {
    var db' := db.(orders := db.orders[i := o], nextToken := tokens);
    SumPaidUpdate(db.orders, i, o);
    assert OrderOk(db, i);
    forall j | 0 <= j < |db'.orders| ensures OrderOk(db', j) { assert OrderOk(db, j); }
    forall k | 0 <= k < |db'.receipts| ensures PaymentOk(db', k) { assert PaymentOk(db, k); }
    forall p | p in db'.inbox && db'.inbox[p].processed ensures ReceiptFor(db', p) {
      assert ReceiptFor(db, p);
    }
  }

  /** Inbox rows may come, go and change reason, so long as `processed` is only ever set with a receipt. */
  lemma InboxUpdateKeepsInv(db: Db, inbox: map<Payload, InboxRow>)
    requires Inv(db)
    requires forall p :: p in inbox && inbox[p].processed ==> ReceiptFor(db, p)
    ensures Inv(db.(inbox := inbox))
  {
    var db' := db.(inbox := inbox);
    forall j | 0 <= j < |db'.orders| ensures OrderOk(db', j) { assert OrderOk(db, j); }
    forall k | 0 <= k < |db'.receipts| ensures PaymentOk(db', k) { assert PaymentOk(db, k); }
    forall p | p in db'.inbox && db'.inbox[p].processed ensures ReceiptFor(db', p) {
      assert ReceiptFor(db, p);
    }
  }

  lemma ReserveKeepsInv(db: Db, in_: Intent, draws: seq<int>, now: int, admitted: bool)
    requires Inv(db)
    ensures Inv(Reserve(db, in_, draws, now, admitted).0)
  {
    var (db', r) := Reserve(db, in_, draws, now, admitted);
    if r.Created? {
      SumPaidAppend(db.orders, db'.orders[|db.orders|]);
      forall j | 0 <= j < |db'.orders| ensures OrderOk(db', j) {
        if j < |db.orders| { assert OrderOk(db, j); }
      }
      forall k | 0 <= k < |db'.receipts| ensures PaymentOk(db', k) { assert PaymentOk(db, k); }
      forall p | p in db'.inbox && db'.inbox[p].processed ensures ReceiptFor(db', p) {
        assert ReceiptFor(db, p);
      }
    }
  }

  lemma LeaseOpsKeepInv(db: Db, op: Op, now: int)
    requires Inv(db) && (op.ClaimOp? || op.RenewOp? || op.CompleteOp?)
    ensures Inv(Apply(db, op, now))
  {
    var db' := Apply(db, op, now);
    if db' != db {
      assert OrderOk(db, op.id);
      OrderUpdateKeepsInv(db, op.id, db'.orders[op.id], db'.nextToken);
    }
  }

  lemma WakeKeepsInv(db: Db, code: int, now: int)
    requires Inv(db)
    ensures Inv(WakeOrder(db, code, now)) && WakeOrder(db, code, now).inbox == db.inbox
  {
    var found := IndexOfCode(db.orders, code);
    if found.Some? {
      assert OrderOk(db, found.value);
      OrderUpdateKeepsInv(db, found.value, Woken(db.orders[found.value], now), db.nextToken);
    }
  }

  lemma InsertInboxKeepsInv(db: Db, c: Payload, reason: Reason, now: int)
    requires Inv(db)
    ensures Inv(InsertInbox(db, c, reason, now))
  {
    if c in db.inbox {
      InboxUpdateKeepsInv(db, db.inbox[c := db.inbox[c].(reason := reason)]);
    } else {
      var inbox := db.inbox[c := InboxRow(reason, false)];
      InboxUpdateKeepsInv(db, inbox);
      var inserted := db.(inbox := inbox);
      WakeKeepsInv(inserted, c.code, now);
      var woken := WakeOrder(inserted, c.code, now);
      var found := IndexOfCode(woken.orders, c.code);
      if found.Some? {
        var o := woken.orders[found.value];
        assert OrderOk(woken, found.value);
        OrderUpdateKeepsInv(woken, found.value, o.(lastError := PaymentDetailsPendingError), woken.nextToken);
      }
    }
  }

  lemma PromoteKeepsInv(db: Db, code: int, now: int)
    requires Inv(db)
    ensures Inv(PromoteUnknown(db, code, now))
  {
    var inbox := map p | p in db.inbox ::
      (var row := db.inbox[p];
       if p.code == code && row.reason.UnknownOrder? && !row.processed
       then row.(reason := AwaitingOrderBind) else row);
    InboxUpdateKeepsInv(db, inbox);
    WakeKeepsInv(db.(inbox := inbox), code, now);
  }

  /** Under the invariant an accepted payment meets no UNIQUE conflict, so it is never rolled back. */
  lemma AcceptedKeyIsFree(db: Db, s: SettleInput)
    requires Inv(db) && Decide(db, s).Accept?
    ensures !KeyTaken(db, KeyOf(s))
  {
    forall j | 0 <= j < |db.transactions| ensures db.transactions[j].key != KeyOf(s) && db.events[j].key != KeyOf(s) && db.events[j].txn == j {
      assert PaymentOk(db, j);
    }
  }

  /** What a payment needs to be accepted, apart from the order in which it is asked. */
  ghost predicate Acceptable(db: Db, s: SettleInput, i: nat) {
    && s.at.Some? && WellFormed(s) && i < |db.orders|
    && (var o := db.orders[i];
        && o.code == s.code && o.channel == s.channel && o.amount == s.amount && !o.status.Paid?
        && (o.link == "" || o.link == s.link) && InputAccount(s) != "" && (o.account == "" || o.account == InputAccount(s))
        && (o.link == "" || o.account == "" || Terminal(o.status) || s.inbox.Some? || s.get.Some? ==> GetMatches(s)))
    && (forall k :: 0 <= k < |db.receipts| ==> db.receipts[k].channel != s.channel || db.receipts[k].reference != s.reference)
    && (s.inbox.Some? ==> s.inbox.value in db.inbox && InboxMatches(db.inbox[s.inbox.value], s.inbox.value, s))
  }

  /** The chain of checks accepts exactly the acceptable payments. */
  lemma AcceptIff(db: Db, s: SettleInput, i: nat)
    requires Inv(db)
    ensures Decide(db, s) == Accept(i) <==> Acceptable(db, s, i)
  {
    if i < |db.orders| { assert OrderOk(db, i); }
    if s.at.Some? && IndexOfCode(db.orders, s.code).Some? {
      var j := IndexOfCode(db.orders, s.code).value;
      assert OrderOk(db, j);
      if i < |db.orders| && db.orders[i].code == s.code { assert i == j; }
    }
  }

  /** Under the invariant a receipt and its order never disagree. */
  lemma NeverBroken(db: Db, s: SettleInput)
    requires Inv(db)
    ensures Decide(db, s) != Broken
  {
    var found := IndexOfReceipt(db.receipts, s.channel, s.reference);
    if found.Some? {
      assert PaymentOk(db, found.value);
      assert OrderOk(db, db.receipts[found.value].order);
    }
  }

  /** The credit's own rows, and every earlier payment, are in order. */
  lemma CreditedPaymentOk(db: Db, s: SettleInput, i: nat, k: nat)
    requires Inv(db) && Decide(db, s) == Accept(i) && k <= |db.receipts| && !KeyTaken(db, KeyOf(s))
    ensures PaymentOk(Credit(db, i, s), k)
  {
    var db' := Credit(db, i, s);
    if k < |db.receipts| {
      assert PaymentOk(db, k);
      var key := SemanticKey(db.receipts[k].channel, db.receipts[k].reference);
      assert db.transactions[k].key == key;
      assert key != KeyOf(s);
    } else {
      assert KeyOf(s) !in db.audience;
    }
  }

  lemma CreditedOrderOk(db: Db, s: SettleInput, i: nat, j: nat)
    requires Inv(db) && Decide(db, s) == Accept(i) && j < |db.orders|
    ensures OrderOk(Credit(db, i, s), j)
  {
    assert OrderOk(db, j);
  }

  lemma CreditedReferences(db: Db, s: SettleInput, i: nat)
    requires Inv(db) && Decide(db, s) == Accept(i)
    ensures ReferencesDistinct(Credit(db, i, s))
  {
  }

  lemma CreditedDeliveries(db: Db, s: SettleInput, i: nat)
    requires Inv(db) && Decide(db, s) == Accept(i) && !KeyTaken(db, KeyOf(s))
    ensures DeliveriesOk(Credit(db, i, s))
  {
    var db' := Credit(db, i, s);
    assert KeyOf(s) !in db.audience;
    forall key | key in db'.audience ensures exists k :: 0 <= k < |db'.events| && db'.events[k].key == key {
      if key == KeyOf(s) {
        assert db'.events[|db.events|].key == key;
      } else {
        var k :| 0 <= k < |db.events| && db.events[k].key == key;
        assert db'.events[k].key == key;
      }
    }
  }

  lemma CreditedReceiptFor(db: Db, s: SettleInput, i: nat, p: Payload)
    requires Inv(db) && Decide(db, s) == Accept(i) && ReceiptFor(db, p)
    ensures ReceiptFor(Credit(db, i, s), p)
  {
    var db' := Credit(db, i, s);
    var k :| 0 <= k < |db.receipts| && db.receipts[k].order < |db.orders| &&
      (var r := db.receipts[k];
       db.orders[r.order].code == p.code && r.link == p.link && r.reference == p.reference
       && r.amount == p.amount && Some(r.at) == p.at);
    assert db'.receipts[k] == db.receipts[k];
    assert db'.orders[db'.receipts[k].order].code == db.orders[db.receipts[k].order].code;
  }

  lemma CreditConserves(db: Db, s: SettleInput, i: nat)
    requires Inv(db) && Decide(db, s) == Accept(i)
    ensures Conserved(Credit(db, i, s))
  {
    var db' := Credit(db, i, s);
    assert OrderOk(db, i);
    SumPaidUpdate(db.orders, i, db'.orders[i]);
    SumReceiptsAppend(db.receipts, db'.receipts[|db.receipts|]);
    SumCreditsAppend(db.transactions, db'.transactions[|db.transactions|]);
  }

  lemma CreditKeepsInv(db: Db, s: SettleInput, i: nat)
    requires Inv(db) && Decide(db, s) == Accept(i)
    ensures Inv(Credit(db, i, s))
  {
    var db' := Credit(db, i, s);
    AcceptedKeyIsFree(db, s);
    CreditConserves(db, s, i);
    CreditedReferences(db, s, i);
    CreditedDeliveries(db, s, i);
    forall j | 0 <= j < |db'.orders| ensures OrderOk(db', j) { CreditedOrderOk(db, s, i, j); }
    forall k | 0 <= k < |db'.receipts| ensures PaymentOk(db', k) { CreditedPaymentOk(db, s, i, k); }
    forall p | p in db'.inbox && db'.inbox[p].processed ensures ReceiptFor(db', p) {
      assert ReceiptFor(db, p);
      CreditedReceiptFor(db, s, i, p);
    }
  }

  /** A receipt that matches the consumed callback exists when the callback is marked processed. */
  lemma MarkKeepsInv(db: Db, s: SettleInput, i: nat, k: nat)
    requires Inv(db) && s.at.Some? && i < |db.orders| && db.orders[i].code == s.code
    requires k < |db.receipts| && db.receipts[k].order == i && db.receipts[k].hash == CanonicalHash(s) && db.receipts[k].reference == s.reference
    requires s.inbox.Some? ==> s.inbox.value in db.inbox && InboxMatches(db.inbox[s.inbox.value], s.inbox.value, s)
    ensures Inv(MarkProcessed(db, s.inbox))
  {
    if s.inbox.Some? {
      var p := s.inbox.value;
      var inbox := db.inbox[p := db.inbox[p].(processed := true)];
      assert PaymentOk(db, k);
      assert ReceiptFor(db, p);
      forall q | q in inbox && inbox[q].processed ensures ReceiptFor(db, q) {
        if q != p { assert q in db.inbox && db.inbox[q].processed; }
      }
      InboxUpdateKeepsInv(db, inbox);
    }
  }

  lemma ReviewKeepsInv(db: Db, s: SettleInput, reason: Reason, now: int)
    requires Inv(db)
    ensures Inv(RecordReview(db, s, reason, now).0)
  {
    if s.callback.Some? {
      InsertInboxKeepsInv(db, s.callback.value, reason, now);
    } else if s.inbox.Some? && s.inbox.value in db.inbox && !db.inbox[s.inbox.value].processed {
      InboxUpdateKeepsInv(db, db.inbox[s.inbox.value := db.inbox[s.inbox.value].(reason := reason)]);
    }
  }

  lemma SettleKeepsInv(db: Db, s: SettleInput, now: int, admitted: bool)
    requires Inv(db)
    ensures Inv(Settle(db, s, now, admitted).0)
  {
    match Decide(db, s)
    case Review(reason) => ReviewKeepsInv(db, s, reason, now);
    case AlreadyReceived(i) =>
      MarkKeepsInv(db, s, i, IndexOfReceipt(db.receipts, s.channel, s.reference).value);
    case Accept(i) =>
      CreditKeepsInv(db, s, i);
      MarkKeepsInv(Credit(db, i, s), s, i, |db.receipts|);
    case _ =>
  }

  lemma ApplyKeepsInv(db: Db, op: Op, now: int)
    requires Inv(db)
    ensures Inv(Apply(db, op, now))
  {
    match op
    case ReserveOp(intent, draws, admitted) => ReserveKeepsInv(db, intent, draws, now, admitted);
    case ClaimOp(_, _) => LeaseOpsKeepInv(db, op, now);
    case RenewOp(_, _, _, _) => LeaseOpsKeepInv(db, op, now);
    case CompleteOp(_, _, _, _) => LeaseOpsKeepInv(db, op, now);
    case SettleOp(s, admitted) => SettleKeepsInv(db, s, now, admitted);
    case SaveCallbackOp(c, reason, admitted) => InsertInboxKeepsInv(db, c, reason, now);
    case PromoteOp(code, admitted) => PromoteKeepsInv(db, code, now);
    case EndpointsOp(active) => EndpointsKeepInv(db, active);
  }

  lemma EndpointsKeepInv(db: Db, active: set<nat>)
    requires Inv(db)
    ensures Inv(db.(activeEndpoints := active))
  {
    var db' := db.(activeEndpoints := active);
    forall j | 0 <= j < |db'.orders| ensures OrderOk(db', j) { assert OrderOk(db, j); }
    forall k | 0 <= k < |db'.receipts| ensures PaymentOk(db', k) { assert PaymentOk(db, k); }
    forall p | p in db'.inbox && db'.inbox[p].processed ensures ReceiptFor(db', p) { assert ReceiptFor(db, p); }
  }

  lemma {:induction false} RunKeepsInv(db: Db, steps: seq<Step>)
    requires Inv(db)
    ensures Inv(Run(db, steps))
    decreases |steps|
  {
    if steps != [] {
      ApplyKeepsInv(db, steps[0].op, steps[0].now);
      RunKeepsInv(Apply(db, steps[0].op, steps[0].now), steps[1..]);
    }
  }

  // ---------------------------------------------------------------- what every reachable state says

  lemma EmptyInv()
    ensures Inv(EmptyDb)
  {
  }

  ghost predicate NamedBy(db: Db, i: nat, k: nat) {
    k < |db.receipts| && db.receipts[k].order == i
  }

  /**
   In every state of every run: an order is PAID iff it has a transaction iff exactly one
   receipt names it; that receipt has the order's amount and link, and its transaction, event
   and journal row are the only ones of the payment, delivered exactly to the endpoints that
   were active when it was committed.
   */
  lemma PaidIffOneReceipt(steps: seq<Step>, i: nat)
    requires i < |Run(EmptyDb, steps).orders|
    ensures var db := Run(EmptyDb, steps); var o := db.orders[i];
      && (o.status.Paid? <==> o.txn.Some?)
      && (o.status.Paid? <==> exists k: nat :: NamedBy(db, i, k))
      && (forall k: nat, k': nat :: NamedBy(db, i, k) && NamedBy(db, i, k') ==> k == k')
      && (o.status.Paid? ==> NamedBy(db, i, o.txn.value) && SameRows(db) && PaymentOk(db, o.txn.value))
  {
    EmptyInv();
    RunKeepsInv(EmptyDb, steps);
    var db := Run(EmptyDb, steps);
    assert OrderOk(db, i);
    forall k: nat | NamedBy(db, i, k) ensures db.orders[i].txn == Some(k) { assert PaymentOk(db, k); }
    if db.orders[i].status.Paid? {
      assert NamedBy(db, i, db.orders[i].txn.value);
      assert PaymentOk(db, db.orders[i].txn.value);
    }
  }

  /** Every row of the ledger belongs to exactly one payment: nothing is credited, announced or journalled twice. */
  lemma OneRowPerPayment(steps: seq<Step>, j: nat, k: nat)
    requires j < k < |Run(EmptyDb, steps).receipts|
    ensures var db := Run(EmptyDb, steps);
      SameRows(db) && db.receipts[j].order != db.receipts[k].order
      && db.transactions[j].key != db.transactions[k].key
      && db.events[j].key != db.events[k].key && db.journal[j] != db.journal[k]
  {
    EmptyInv();
    RunKeepsInv(EmptyDb, steps);
    var db := Run(EmptyDb, steps);
    assert PaymentOk(db, j);
    assert PaymentOk(db, k);
  }

  /** Money is conserved over every run. */
  lemma CreditsEqualReceiptsEqualPaidOrders(steps: seq<Step>)
    ensures var db := Run(EmptyDb, steps);
      SumPaid(db.orders) == SumReceipts(db.receipts) == SumCredits(db.transactions)
  {
    EmptyInv();
    RunKeepsInv(EmptyDb, steps);
  }

  /** Every processed inbox row is the callback of a committed receipt. */
  lemma ProcessedCallbackHasReceipt(steps: seq<Step>, p: Payload)
    requires p in Run(EmptyDb, steps).inbox && Run(EmptyDb, steps).inbox[p].processed
    ensures ReceiptFor(Run(EmptyDb, steps), p)
  {
    EmptyInv();
    RunKeepsInv(EmptyDb, steps);
  }
}
