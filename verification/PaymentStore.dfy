/**
 The Store methods of the payOS tables, statement by statement. Each runs as one
 transaction: on an error after the first write every table is put back.
 */
module PaymentStore {
  import opened Options
  import opened PaymentTables
  import opened OrderLeases
  import opened Settlement

  class Store {
    var orders: seq<Order>
    var receipts: seq<Receipt>
    var transactions: seq<Txn>
    var events: seq<Event>
    var journal: seq<nat>
    var deliveries: set<Delivery>
    var inbox: map<Payload, InboxRow>
    var activeEndpoints: set<nat>
    var audience: map<SemanticKey, set<nat>>
    var nextToken: nat

    function View(): Db
      reads this
    {
      Db(orders, receipts, transactions, events, journal, deliveries, inbox, activeEndpoints, audience, nextToken)
    }

    constructor ()
      ensures View() == EmptyDb
    {
      orders, receipts, transactions, events, journal := [], [], [], [], [];
      deliveries, inbox, activeEndpoints, audience, nextToken := {}, map[], {}, map[], 0;
    }

    method Rollback(before: Db)
      modifies this
      ensures View() == before
    {
      orders, receipts, transactions := before.orders, before.receipts, before.transactions;
      events, journal, deliveries := before.events, before.journal, before.deliveries;
      inbox, activeEndpoints := before.inbox, before.activeEndpoints;
      audience, nextToken := before.audience, before.nextToken;
    }

    method FreshToken() returns (token: nat)
      modifies this`nextToken
      ensures token == old(nextToken) && nextToken == token + 1
    {
      token := nextToken;
      nextToken := nextToken + 1;
    }

    /** Draws order codes until one is free; an exhausted supply is a cancelled context. */
    method ReservePaymentOrder(intent: Intent, draws: seq<int>, now: int, admitted: bool) returns (r: ReserveResult)
      modifies this
      ensures (View(), r) == Reserve(old(View()), intent, draws, now, admitted)
    {
      if !ValidIntent(intent) { return InvalidIntent; }
      var found := IndexOfKey(orders, intent.channel, intent.key);
      if found.Some? {
        var o := orders[found.value];
        if o.requestHash != intent.requestHash || o.amount != intent.amount || o.origin != intent.origin {
          return KeyConflict;
        }
        return Replayed(found.value);
      }
      if !admitted { return ReserveRefused; }
      var i := 0;
      while i < |draws|
        invariant i <= |draws| && View() == old(View())
        invariant FirstFreeCode(orders, draws) == FirstFreeCode(orders, draws[i..])
      {
        if IndexOfCode(orders, draws[i]).None? {
          var token := FreshToken();
          orders := orders + [NewOrder(intent, draws[i], token, now)];
          return Created(|orders| - 1);
        }
        i := i + 1;
      }
      return GaveUp;
    }

    method ClaimPaymentOrder(id: nat, now: int, admitted: bool) returns (r: ClaimResult)
      modifies this
      ensures (View(), r) == Claim(old(View()), id, now, admitted)
    {
      if id >= |orders| { return NoOrder; }
      var o := orders[id];
      if o.status.Paid? { return NotClaimed(o); }
      if o.lease.Some? {
        if now < o.lease.value.until { return NotClaimed(o); }
      }
      if !admitted { return ClaimRefused; }
      var until := now + OPERATION_LEASE;
      var next := Some(until);
      if o.next.Some? {
        if o.next.value > until { next := o.next; }
      }
      var token := FreshToken();
      orders := orders[id := o.(lease := Some(Lease(token, until)), next := next)];
      return Claimed(orders[id]);
    }

    method RenewPaymentOrderOperation(id: nat, token: nat, qr: bool, now: int, admitted: bool) returns (r: RenewResult)
      modifies this
      ensures (View(), r) == Renew(old(View()), id, token, qr, now, admitted)
    {
      if id >= |orders| || orders[id].lease.None? || orders[id].lease.value.token != token { return RenewLost; }
      if orders[id].status.Paid? { return RenewLost; }
      if !admitted { return RenewRefused; }
      var o := orders[id];
      var until := now + OPERATION_LEASE;
      var next := Some(until);
      if o.next.Some? {
        if o.next.value > until { next := o.next; }
      }
      orders := orders[id := o.(lease := Some(Lease(token, until)), next := next, qrAttempted := o.qrAttempted || qr)];
      return Renewed(orders[id]);
    }

    /** The UPDATE comes before the gate check, whose failure rolls it back. */
    method CompletePaymentOrderOperation(id: nat, token: nat, u: Update, admitted: bool) returns (r: CompleteResult)
      modifies this
      ensures (View(), r) == Complete(old(View()), id, token, u, admitted)
    {
      if u.status == Some(Paid) || u.attempts < 0 { return InvalidUpdate; }
      var before := View();
      if id >= |orders| || orders[id].lease.None? || orders[id].lease.value.token != token { return CompleteLost; }
      var current := orders[id];
      var status := current.status;
      if u.status.Some? { status := u.status.value; }
      var next := u.next;
      if status.Creating? || status.Processing? {
        if u.next.None? || u.next.value < current.lease.value.until { next := Some(current.lease.value.until); }
      }
      assert current.status.Paid? || next == CompletedNext(current, u);
      var o := current.(link := if current.link != "" then current.link else u.link,
                        qr := if current.qr != "" then current.qr else u.qr,
                        account := if current.account != "" then current.account else u.account,
                        attempts := if u.reset then 0 else if current.attempts < u.attempts then u.attempts else current.attempts,
                        qrAttempted := current.qrAttempted || u.qrAttempted,
                        lease := None);
      if current.status.Paid? {
        o := o.(next := None);
      } else {
        o := o.(status := status, lastError := u.lastError, next := next);
      }
      assert o == CompletedOrder(current, u);
      orders := orders[id := o];
      if !admitted {
        Rollback(before);
        return CompleteRefused;
      }
      return Completed(orders[id]);
    }

    method WakePaymentOrderInboxTx(code: int, now: int)
      modifies this`orders
      ensures View() == WakeOrder(old(View()), code, now)
    {
      var found := IndexOfCode(orders, code);
      if found.None? { return; }
      var o := orders[found.value];
      if o.status.Paid? {
        assert orders == orders[found.value := o];
        return;
      }
      var due := now;
      if o.lease.Some? {
        if o.lease.value.until > due { due := o.lease.value.until; }
      }
      orders := orders[found.value := o.(next := Some(due))];
    }

    method InsertPaymentInboxTx(p: Payload, reason: Reason, now: int)
      modifies this`orders, this`inbox
      ensures View() == InsertInbox(old(View()), p, reason, now)
    {
      var inserted := p !in inbox;
      if inserted {
        inbox := inbox[p := InboxRow(reason, false)];
      } else if !Bindable(reason) {
        if !inbox[p].processed && Bindable(inbox[p].reason) {
          inbox := inbox[p := inbox[p].(reason := reason)];
        }
      }
      if inserted && (reason.AwaitingOrderBind? || reason.PaymentDetailsPending?) {
        WakePaymentOrderInboxTx(p.code, now);
        if reason.PaymentDetailsPending? {
          var found := IndexOfCode(orders, p.code);
          if found.Some? && !orders[found.value].status.Paid? {
            orders := orders[found.value := orders[found.value].(lastError := PaymentDetailsPendingError)];
          }
        }
      }
    }

    /** Whether the code's unprocessed UNKNOWN_ORDER callbacks have an order of the channel by now. */
    method IsPromotable(channel: string, code: int) returns (yes: bool)
      ensures yes <==> Promotable(View(), channel, code)
    {
      var pending := false;
      var rest := inbox.Keys;
      while rest != {} && !pending
        invariant rest <= inbox.Keys
        invariant pending ==> exists p :: p in inbox && p.code == code && inbox[p].reason.UnknownOrder? && !inbox[p].processed
        invariant !pending ==> forall p :: p in inbox && p !in rest ==> !(p.code == code && inbox[p].reason.UnknownOrder? && !inbox[p].processed)
        decreases rest
      {
        var p :| p in rest;
        rest := rest - {p};
        pending := p.code == code && inbox[p].reason.UnknownOrder? && !inbox[p].processed;
      }
      if !pending { return false; }
      var i := 0;
      while i < |orders|
        invariant i <= |orders|
        invariant forall j :: 0 <= j < i ==> !(orders[j].code == code && orders[j].channel == channel)
      {
        if orders[i].code == code && orders[i].channel == channel { return true; }
        i := i + 1;
      }
      return false;
    }

    /** The least promotable code above `above`, if there is one. */
    method NextPromotable(channel: string, above: Option<int>) returns (code: Option<int>)
      ensures code.Some? ==> Promotable(View(), channel, code.value) && (above.Some? ==> above.value < code.value)
      ensures forall c :: Promotable(View(), channel, c) && (above.Some? ==> above.value < c) ==> code.Some? && code.value <= c
    {
      code := None;
      var rest := inbox.Keys;
      while rest != {}
        invariant rest <= inbox.Keys
        invariant code.Some? ==> Promotable(View(), channel, code.value) && (above.Some? ==> above.value < code.value)
        invariant forall p :: p in inbox && p !in rest && Promotable(View(), channel, p.code) && (above.Some? ==> above.value < p.code) ==>
                    code.Some? && code.value <= p.code
        decreases rest
      {
        var p :| p in rest;
        rest := rest - {p};
        if (above.None? || above.value < p.code) && (code.None? || p.code < code.value) {
          var yes := IsPromotable(channel, p.code);
          if yes { code := Some(p.code); }
        }
      }
    }

    /** SELECT DISTINCT order_code … ORDER BY order_code LIMIT 20. */
    method PendingOrderCodes(channel: string) returns (codes: seq<int>)
      ensures FirstCodes(View(), channel, codes)
    {
      codes := [];
      var above: Option<int> := None;
      while |codes| < WAKE_LIMIT
        invariant |codes| <= WAKE_LIMIT && CodesInOrder(View(), channel, codes)
        invariant above == if codes == [] then None else Some(codes[|codes| - 1])
        decreases WAKE_LIMIT - |codes|
      {
        var next := NextPromotable(channel, above);
        if next.None? { return codes; }
        CodesGrow(View(), channel, codes, next.value);
        codes, above := codes + [next.value], next;
      }
    }

    /** Promotes the first twenty codes whose order of this channel has appeared. */
    method WakePendingPaymentCallbacks(channel: string, now: int, admitted: bool) returns (codes: seq<int>)
      modifies this
      ensures admitted ==> FirstCodes(old(View()), channel, codes) && View() == PromoteAll(old(View()), codes, now)
      ensures !admitted ==> View() == old(View())
    {
      if !admitted { return []; }
      codes := PendingOrderCodes(channel);
      var i := 0;
      while i < |codes|
        invariant i <= |codes|
        invariant PromoteAll(old(View()), codes, now) == PromoteAll(View(), codes[i..], now)
      {
        inbox := map p | p in inbox ::
          (var row := inbox[p];
           if p.code == codes[i] && row.reason.UnknownOrder? && !row.processed
           then row.(reason := AwaitingOrderBind) else row);
        WakePaymentOrderInboxTx(codes[i], now);
        i := i + 1;
      }
    }

    /** The event with its deliveries and journal row. A second event of the transaction is quietly
        left out; a second event of the semantic key breaks the primary key. */
    method EmitTransactionEventTx(txn: nat, key: SemanticKey) returns (r: EmitResult)
      modifies this`events, this`deliveries, this`audience, this`journal
      ensures r.NoNewEvent? <==> EventOfTxn(old(View()), txn)
      ensures r.EventIdConflict? <==> !EventOfTxn(old(View()), txn) && EventIdTaken(old(View()), key)
      ensures View() == if r.EventWritten? then Emit(old(View()), txn, key) else old(View())
    {
      var sameKey := false;
      var j := 0;
      while j < |events|
        invariant j <= |events|
        invariant forall k :: 0 <= k < j ==> events[k].txn != txn
        invariant sameKey <==> exists k :: 0 <= k < j && events[k].key == key
      {
        if events[j].txn == txn { return NoNewEvent; }
        if events[j].key == key { sameKey := true; }
        j := j + 1;
      }
      if sameKey { return EventIdConflict; }
      events := events + [Event(key, txn)];
      audience := audience[key := activeEndpoints];
      var rest := activeEndpoints;
      while rest != {}
        invariant rest <= activeEndpoints && View() == old(View()).(events := events, audience := audience, deliveries := deliveries)
        invariant events == old(events) + [Event(key, txn)] && audience == old(audience)[key := activeEndpoints]
        invariant deliveries == old(deliveries) + Fanout(key, activeEndpoints - rest)
        decreases rest
      {
        var ep :| ep in rest;
        deliveries := deliveries + {Delivery(key, ep)};
        assert Fanout(key, activeEndpoints - (rest - {ep})) == Fanout(key, activeEndpoints - rest) + {Delivery(key, ep)};
        rest := rest - {ep};
      }
      assert activeEndpoints - rest == activeEndpoints;
      journal := journal + [txn];
      return EventWritten;
    }

    method TransactionKeyTaken(key: SemanticKey) returns (taken: bool)
      ensures taken <==> exists j :: 0 <= j < |transactions| && transactions[j].key == key
    {
      var j := 0;
      while j < |transactions|
        invariant j <= |transactions|
        invariant forall k :: 0 <= k < j ==> transactions[k].key != key
      {
        if transactions[j].key == key { return true; }
        j := j + 1;
      }
      return false;
    }

    /** The evidence a payment still lacks, or what it contradicts; None when nothing stands in its way. */
    method CheckEvidence(s: SettleInput, i: nat, found: Option<nat>) returns (v: Option<Verdict>)
      requires s.at.Some? && WellFormed(s) && IndexOfCode(orders, s.code) == Some(i) && i < |orders| && orders[i].channel == s.channel
      requires found == IndexOfReceipt(receipts, s.channel, s.reference)
      requires found.Some? ==> receipts[found.value].hash == CanonicalHash(s) && receipts[found.value].order == i
      requires orders[i].amount == s.amount && (orders[i].link == "" || orders[i].link == s.link)
      ensures v.Some? ==> Decide(View(), s) == v.value
      ensures v.None? && found.Some? ==>
                Decide(View(), s) == (if orders[i].txn != Some(receipts[found.value].txn) || !orders[i].status.Paid? then Broken else AlreadyReceived(i))
      ensures v.None? && found.None? ==>
                Decide(View(), s) == (if orders[i].status.Paid? || orders[i].txn.Some? then Review(ExtraPaymentReview) else Accept(i))
    {
      var o, duplicate := orders[i], found.Some?;
      var account := EffectiveAccount(s.account, s.virtual);
      if account == "" { return Some(Review(PaymentDetailsPending)); }
      if o.account != "" && o.account != account { return Some(Review(PaymentMismatch)); }
      var matches := GetMatches(s);
      if s.get.Some? && !matches { return Some(Review(PaymentMismatch)); }
      if (o.link == "" || o.account == "") && !matches { return Some(Review(AwaitingOrderBind)); }
      if (o.status.Cancelled? || o.status.Expired? || o.status.Failed?) && !duplicate && !matches {
        return Some(Review(PaymentDetailsPending));
      }
      if s.inbox.Some? {
        if !matches { return Some(Review(PaymentDetailsPending)); }
        if s.inbox.value !in inbox { return Some(InboxRowMissing); }
        if !InboxMatches(inbox[s.inbox.value], s.inbox.value, s) { return Some(Review(PaymentMismatch)); }
      }
      return None;
    }

    /** The checks of a payment, in the order they are made. */
    method DecidePayment(s: SettleInput) returns (v: Verdict)
      ensures v == Decide(View(), s)
    {
      if s.at.None? { return Review(InvalidTransactionDate); }
      if s.channel == "" || s.code <= 0 || s.link == "" || Blank(s.reference) || s.amount <= 0 || s.source.OtherSource? {
        return Review(PaymentMismatch);
      }
      var i := IndexOfCode(orders, s.code);
      if i.None? { return Review(UnknownOrder); }
      var o := orders[i.value];
      if o.channel != s.channel { return Review(PaymentMismatch); }
      var found := IndexOfReceipt(receipts, s.channel, s.reference);
      if found.Some? {
        if receipts[found.value].hash != CanonicalHash(s) || receipts[found.value].order != i.value { return Review(ReferenceConflict); }
      }
      if o.amount != s.amount || (o.link != "" && o.link != s.link) { return Review(PaymentMismatch); }
      var lacking := CheckEvidence(s, i.value, found);
      if lacking.Some? { return lacking.value; }
      if found.Some? {
        if o.txn != Some(receipts[found.value].txn) || !o.status.Paid? { return Broken; }
        return AlreadyReceived(i.value);
      }
      if o.status.Paid? || o.txn.Some? { return Review(ExtraPaymentReview); }
      return Accept(i.value);
    }

    /** The sole payOS financial write path. */
    method SettlePayment(s: SettleInput, now: int, admitted: bool) returns (r: SettleResult)
      modifies this
      ensures (View(), r) == Settle(old(View()), s, now, admitted)
    {
      var before := View();
      if !admitted { return RolledBack; }
      var verdict := DecidePayment(s);
      match verdict {
        case Review(reason) =>
          if s.callback.Some? {
            InsertPaymentInboxTx(s.callback.value, reason, now);
            return Reviewed(reason);
          }
          if s.inbox.None? { return ReviewRefused(reason); }
          if s.inbox.value !in inbox || inbox[s.inbox.value].processed { return RolledBack; }
          inbox := inbox[s.inbox.value := inbox[s.inbox.value].(reason := reason)];
          return Reviewed(reason);
        case InboxRowMissing => return RolledBack;
        case Broken => return RolledBack;
        case AlreadyReceived(i) =>
          var marked := MarkSettlementInboxProcessed(s.inbox);
          return Settled(i, true);
        case Accept(i) =>
          var key := KeyOf(s);
          var txn := |transactions|;
          var taken := TransactionKeyTaken(key);
          if taken { return RolledBack; }
          transactions := transactions + [Txn(key, CanonicalHash(s), s.amount, s.at.value, s.source)];
          receipts := receipts + [Receipt(s.channel, s.reference, i, s.link, s.amount, s.at.value, CanonicalHash(s), txn)];
          orders := orders[i := orders[i].(status := Paid, link := s.link, account := InputAccount(s), txn := Some(txn),
                                           paidAt := s.at, lastError := NoError, next := None)];
          var emitted := EmitTransactionEventTx(txn, key);
          if !emitted.EventWritten? {
            Rollback(before);
            return RolledBack;
          }
          // A missing row was ruled out by the checks, so this cannot fail any more.
          var marked := MarkSettlementInboxProcessed(s.inbox);
          assert marked;
          return Settled(i, false);
      }
    }

    /** False is sql.ErrNoRows: the named row is missing. An already processed row keeps its time. */
    method MarkSettlementInboxProcessed(row: Option<Payload>) returns (ok: bool)
      modifies this`inbox
      ensures ok <==> row.None? || row.value in old(inbox)
      ensures View() == MarkProcessed(old(View()), row)
      ensures ok && row.Some? ==> row.value in inbox && inbox[row.value].processed
    {
      if row.None? { return true; }
      if row.value !in inbox { return false; }
      inbox := inbox[row.value := inbox[row.value].(processed := true)];
      return true;
    }
  }

  datatype EmitResult = EventWritten | NoNewEvent | EventIdConflict

  const WAKE_LIMIT: nat := 20

  /** Promotable codes in ascending order, the least first, none passed over. */
  ghost predicate CodesInOrder(db: Db, channel: string, codes: seq<int>) {
    && (forall i, j :: 0 <= i < j < |codes| ==> codes[i] < codes[j])
    && (forall c :: c in codes ==> Promotable(db, channel, c))
    && (forall c :: codes != [] && c <= codes[|codes| - 1] && Promotable(db, channel, c) ==> c in codes)
  }

  /** The result of the query: the first codes, and all of them unless the limit was reached. */
  ghost predicate FirstCodes(db: Db, channel: string, codes: seq<int>) {
    && |codes| <= WAKE_LIMIT && CodesInOrder(db, channel, codes)
    && (|codes| < WAKE_LIMIT ==> forall c :: Promotable(db, channel, c) ==> c in codes)
  }

  lemma CodesGrow(db: Db, channel: string, codes: seq<int>, next: int)
    requires CodesInOrder(db, channel, codes) && Promotable(db, channel, next)
    requires codes != [] ==> codes[|codes| - 1] < next
    requires forall c :: Promotable(db, channel, c) && (codes != [] ==> codes[|codes| - 1] < c) ==> next <= c
    ensures CodesInOrder(db, channel, codes + [next])
  {
    var grown := codes + [next];
    forall c | c <= next && Promotable(db, channel, c) ensures c in grown {
      if codes != [] && c <= codes[|codes| - 1] { assert c in codes; } else { assert grown[|codes|] == c; }
    }
    forall i, j | 0 <= i < j < |grown| ensures grown[i] < grown[j] {
      if j == |codes| { assert codes[i] <= codes[|codes| - 1]; }
    }
  }

  function PromoteAll(db: Db, codes: seq<int>, now: int): Db
    decreases |codes|
  {
    if codes == [] then db else PromoteAll(PromoteUnknown(db, codes[0], now), codes[1..], now)
  }

  /** What the promotion does to the inbox: exactly the unprocessed UNKNOWN_ORDER rows of the codes wait for a Get now. */
  lemma {:induction false} PromotedRows(db: Db, codes: seq<int>, now: int, p: Payload)
    requires p in db.inbox
    ensures var after := PromoteAll(db, codes, now).inbox;
      p in after && after[p] == if p.code in codes && db.inbox[p].reason.UnknownOrder? && !db.inbox[p].processed
                                then db.inbox[p].(reason := AwaitingOrderBind) else db.inbox[p]
    decreases |codes|
  {
    if codes != [] { PromotedRows(PromoteUnknown(db, codes[0], now), codes[1..], now, p); }
  }
}
