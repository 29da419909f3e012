/**
 The payOS financial write path (internal/storage/settlement.go) with the inbox writes
 of payos_receipts.go that share its transaction.
 */
module Settlement {
  import opened Options
  import opened PaymentTables
  import opened OrderLeases

  /** A verified Get: the provider's own record of one transaction. */
  datatype Evidence = Evidence(code: int, link: string, reference: string, amount: int, at: int,
                               account: string, virtual: string)

  datatype SettleInput = SettleInput(
    channel: string, code: int, link: string, reference: string, amount: int, at: Option<int>,
    account: string, virtual: string, source: Source, inbox: Option<Payload>,
    callback: Option<Payload>, get: Option<Evidence>)

  function InputAccount(s: SettleInput): string {
    EffectiveAccount(s.account, s.virtual)
  }

  predicate GetMatches(s: SettleInput) {
    s.get.Some? && s.at.Some? &&
    var e := s.get.value;
    e.code == s.code && e.link == s.link && e.reference == s.reference && e.amount == s.amount && e.at == s.at.value
    && EffectiveAccount(e.account, e.virtual) != "" && EffectiveAccount(e.account, e.virtual) == InputAccount(s)
  }

  /** settlementInboxMatches on an existing inbox row. */
  predicate InboxMatches(row: InboxRow, p: Payload, s: SettleInput) {
    Bindable(row.reason)
    && p.code == s.code && p.link == s.link && p.reference == s.reference && p.amount == s.amount
    && p.currency == "VND" && p.resultCode == "00"
    && EffectiveAccount(p.account, p.virtual) == InputAccount(s) && p.at == s.at && p.at.Some?
  }

  function CanonicalHash(s: SettleInput): Canonical
    requires s.at.Some?
  {
    Canonical(s.channel, s.link, s.reference, s.amount, s.at.value)
  }

  function KeyOf(s: SettleInput): SemanticKey { SemanticKey(s.channel, s.reference) }

  predicate WellFormed(s: SettleInput) {
    s.channel != "" && s.code > 0 && s.link != "" && !Blank(s.reference) && s.amount > 0 && !s.source.OtherSource?
  }

  /** The decision SettlePayment reaches, in the order of its checks. */
  datatype Verdict =
    | Review(reason: Reason)
    | AlreadyReceived(order: nat)   // an exact duplicate of a committed receipt
    | Accept(order: nat)
    | InboxRowMissing               // the named inbox row does not exist: rolled back
    | Broken                        // receipt and order disagree: rolled back

  function Decide(db: Db, s: SettleInput): Verdict {
    if s.at.None? then Review(InvalidTransactionDate) else
    if !WellFormed(s) then Review(PaymentMismatch) else
    match IndexOfCode(db.orders, s.code)
    case None => Review(UnknownOrder)
    case Some(i) =>
      var o := db.orders[i];
      if o.channel != s.channel then Review(PaymentMismatch) else
      var found := IndexOfReceipt(db.receipts, s.channel, s.reference);
      if found.Some? && (db.receipts[found.value].hash != CanonicalHash(s) || db.receipts[found.value].order != i)
      then Review(ReferenceConflict) else
      if o.amount != s.amount || (o.link != "" && o.link != s.link) then Review(PaymentMismatch) else
      if InputAccount(s) == "" then Review(PaymentDetailsPending) else
      if o.account != "" && o.account != InputAccount(s) then Review(PaymentMismatch) else
      if s.get.Some? && !GetMatches(s) then Review(PaymentMismatch) else
      if (o.link == "" || o.account == "") && !GetMatches(s) then Review(AwaitingOrderBind) else
      if Terminal(o.status) && found.None? && !GetMatches(s) then Review(PaymentDetailsPending) else
      if s.inbox.Some? && !GetMatches(s) then Review(PaymentDetailsPending) else
      if s.inbox.Some? && s.inbox.value !in db.inbox then InboxRowMissing else
      if s.inbox.Some? && !InboxMatches(db.inbox[s.inbox.value], s.inbox.value, s) then Review(PaymentMismatch) else
      if found.Some? then
        if o.txn != Some(db.receipts[found.value].txn) || !o.status.Paid? then Broken else AlreadyReceived(i)
      else if o.status.Paid? || o.txn.Some? then Review(ExtraPaymentReview) else
      Accept(i)
  }

  /** insertPaymentInboxTx: a new callback wakes its order; a known one can only lose its bindable reason. */
  function InsertInbox(db: Db, p: Payload, reason: Reason, now: int): Db {
    if p in db.inbox then
      var row := db.inbox[p];
      if !Bindable(reason) && !row.processed && Bindable(row.reason)
      then db.(inbox := db.inbox[p := row.(reason := reason)]) else db
    else
      var inserted := db.(inbox := db.inbox[p := InboxRow(reason, false)]);
      if reason.AwaitingOrderBind? then WakeOrder(inserted, p.code, now)
      else if reason.PaymentDetailsPending? then MarkDetailsPending(WakeOrder(inserted, p.code, now), p.code)
      else inserted
  }

  function MarkDetailsPending(db: Db, code: int): Db {
    match IndexOfCode(db.orders, code)
    case None => db
    case Some(i) =>
      if db.orders[i].status.Paid? then db
      else db.(orders := db.orders[i := db.orders[i].(lastError := PaymentDetailsPendingError)])
  }

  /** The codes whose UNKNOWN_ORDER callbacks now have an order of this channel. */
  ghost predicate Promotable(db: Db, channel: string, code: int) {
    && (exists p :: p in db.inbox && p.code == code && db.inbox[p].reason.UnknownOrder? && !db.inbox[p].processed)
    && (exists i :: 0 <= i < |db.orders| && db.orders[i].code == code && db.orders[i].channel == channel)
  }

  function MarkProcessed(db: Db, inbox: Option<Payload>): Db {
    if inbox.Some? && inbox.value in db.inbox
    then db.(inbox := db.inbox[inbox.value := db.inbox[inbox.value].(processed := true)]) else db
  }

  function PaidOrder(o: Order, s: SettleInput, txn: nat): Order
    requires s.at.Some?
  {
    o.(status := Paid, link := s.link, account := InputAccount(s), txn := Some(txn), paidAt := s.at,
       lastError := NoError, next := None)
  }

  function Fanout(key: SemanticKey, endpoints: set<nat>): set<Delivery> {
    set ep | ep in endpoints :: Delivery(key, ep)
  }

  /** emitTransactionEventTx: the event, one delivery for every active endpoint, one journal row. */
  function Emit(db: Db, txn: nat, key: SemanticKey): Db {
    db.(events := db.events + [Event(key, txn)],
        deliveries := db.deliveries + Fanout(key, db.activeEndpoints),
        audience := db.audience[key := db.activeEndpoints],
        journal := db.journal + [txn])
  }

  /** The rows of one accepted payment. */
  function Credit(db: Db, i: nat, s: SettleInput): Db
    requires i < |db.orders| && s.at.Some?
  {
    var txn := |db.transactions|;
    Emit(db.(transactions := db.transactions + [Txn(KeyOf(s), CanonicalHash(s), s.amount, s.at.value, s.source)],
             receipts := db.receipts + [Receipt(s.channel, s.reference, i, s.link, s.amount, s.at.value, CanonicalHash(s), txn)],
             orders := db.orders[i := PaidOrder(db.orders[i], s, txn)]),
         txn, KeyOf(s))
  }

  datatype SettleResult =
    | Settled(order: nat, duplicate: bool)
    | Reviewed(reason: Reason)
    | ReviewRefused(reason: Reason)   // SettlementReviewError: nothing to attach the review to
    | RolledBack

  /** An event of this transaction exists: ON CONFLICT(transaction_id, event_type), of which the model has one type. */
  predicate EventOfTxn(db: Db, txn: nat) {
    exists j :: 0 <= j < |db.events| && db.events[j].txn == txn
  }

  /** The event id is a hash of the semantic key, so a second event of the key is a constraint error. */
  predicate EventIdTaken(db: Db, key: SemanticKey) {
    exists j :: 0 <= j < |db.events| && db.events[j].key == key
  }

  /** What stops a new credit: UNIQUE(connection_id, semantic_key) of transactions, or its event. */
  predicate KeyTaken(db: Db, key: SemanticKey) {
    (exists j :: 0 <= j < |db.transactions| && db.transactions[j].key == key)
    || EventOfTxn(db, |db.transactions|) || EventIdTaken(db, key)
  }

  function RecordReview(db: Db, s: SettleInput, reason: Reason, now: int): (Db, SettleResult) {
    if s.callback.Some? then (InsertInbox(db, s.callback.value, reason, now), Reviewed(reason))
    else if s.inbox.Some? then
      if s.inbox.value in db.inbox && !db.inbox[s.inbox.value].processed
      then (db.(inbox := db.inbox[s.inbox.value := db.inbox[s.inbox.value].(reason := reason)]), Reviewed(reason))
      else (db, RolledBack)
    else (db, ReviewRefused(reason))
  }

  function Settle(db: Db, s: SettleInput, now: int, admitted: bool): (Db, SettleResult) {
    if !admitted then (db, RolledBack) else
    match Decide(db, s)
    case Review(reason) => RecordReview(db, s, reason, now)
    case AlreadyReceived(i) => (MarkProcessed(db, s.inbox), Settled(i, true))
    case Accept(i) =>
      if KeyTaken(db, KeyOf(s)) then (db, RolledBack)
      else (MarkProcessed(Credit(db, i, s), s.inbox), Settled(i, false))
    case InboxRowMissing => (db, RolledBack)
    case Broken => (db, RolledBack)
  }

  /** SaveVerifiedPaymentCallback */
  function SaveCallback(db: Db, p: Payload, reason: Reason, now: int, admitted: bool): Db {
    if admitted then InsertInbox(db, p, reason, now) else db
  }

  /** WakePendingPaymentCallbacks for one order code. */
  function PromoteUnknown(db: Db, code: int, now: int): Db {
    WakeOrder(db.(inbox := map p | p in db.inbox ::
                      (var row := db.inbox[p];
                       if p.code == code && row.reason.UnknownOrder? && !row.processed
                       then row.(reason := AwaitingOrderBind) else row)),
              code, now)
  }
}
