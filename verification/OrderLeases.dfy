/**
 The lease protocol of payment orders (internal/storage/payment_orders.go): what each
 transaction does to the tables. `admitted` is the verdict of the transaction's own
 mutation check, which module Admission models.
 */
module OrderLeases {
  import opened Options
  import opened PaymentTables

  datatype Intent = Intent(channel: string, key: string, requestHash: string, amount: int, origin: Origin)

  datatype ReserveResult = Created(order: nat) | Replayed(order: nat) | KeyConflict | InvalidIntent | ReserveRefused | GaveUp

  predicate ValidIntent(in_: Intent) {
    in_.channel != "" && in_.key != "" && in_.requestHash != "" && in_.amount > 0
  }

  /** The first drawn order code that no order uses; an INSERT of any other draw does nothing. */
  function FirstFreeCode(orders: seq<Order>, draws: seq<int>): (r: Option<int>)
    ensures r.Some? ==> r.value in draws && IndexOfCode(orders, r.value).None?
    ensures r.None? ==> forall d :: d in draws ==> IndexOfCode(orders, d).Some?
  {
    if draws == [] then None
    else if IndexOfCode(orders, draws[0]).None? then Some(draws[0])
    else FirstFreeCode(orders, draws[1..])
  }

  function NewOrder(in_: Intent, code: int, token: nat, now: int): Order {
    Order(code, in_.channel, in_.key, in_.requestHash, in_.amount, in_.origin, Creating, "", "", "", None,
          NoError, Some(now + OPERATION_LEASE), 0, Some(Lease(token, now + OPERATION_LEASE)), false,
          now + ORDER_LIFETIME, None)
  }

  function Reserve(db: Db, in_: Intent, draws: seq<int>, now: int, admitted: bool): (Db, ReserveResult) {
    if !ValidIntent(in_) then (db, InvalidIntent) else
    match IndexOfKey(db.orders, in_.channel, in_.key)
    case Some(i) =>
      var o := db.orders[i];
      (db, if o.requestHash != in_.requestHash || o.amount != in_.amount || o.origin != in_.origin
           then KeyConflict else Replayed(i))
    case None =>
      if !admitted then (db, ReserveRefused) else
      match FirstFreeCode(db.orders, draws)
      case None => (db, GaveUp)
      case Some(code) =>
        (db.(orders := db.orders + [NewOrder(in_, code, db.nextToken, now)], nextToken := db.nextToken + 1),
         Created(|db.orders|))
  }

  datatype ClaimResult = NoOrder | NotClaimed(snapshot: Order) | Claimed(snapshot: Order) | ClaimRefused

  /** The schedule a lease leaves behind: never before the lease ends, never earlier than it was. */
  function NextAfterLease(next: Option<int>, until: int): Option<int> {
    if next.Some? && next.value > until then next else Some(until)
  }

  predicate LeaseLive(o: Order, now: int) {
    o.lease.Some? && now < o.lease.value.until
  }

  function Claim(db: Db, id: nat, now: int, admitted: bool): (Db, ClaimResult) {
    if id >= |db.orders| then (db, NoOrder) else
    var o := db.orders[id];
    if o.status.Paid? || LeaseLive(o, now) then (db, NotClaimed(o)) else
    if !admitted then (db, ClaimRefused) else
    var until := now + OPERATION_LEASE;
    var claimed := o.(lease := Some(Lease(db.nextToken, until)), next := NextAfterLease(o.next, until));
    (db.(orders := db.orders[id := claimed], nextToken := db.nextToken + 1), Claimed(claimed))
  }

  predicate HasToken(db: Db, id: nat, token: nat) {
    id < |db.orders| && db.orders[id].lease.Some? && db.orders[id].lease.value.token == token
  }

  datatype RenewResult = Renewed(snapshot: Order) | RenewLost | RenewRefused

  function Renew(db: Db, id: nat, token: nat, qr: bool, now: int, admitted: bool): (Db, RenewResult) {
    if !HasToken(db, id, token) || db.orders[id].status.Paid? then (db, RenewLost) else
    if !admitted then (db, RenewRefused) else
    var o := db.orders[id];
    var until := now + OPERATION_LEASE;
    var renewed := o.(lease := Some(Lease(token, until)), next := NextAfterLease(o.next, until),
                      qrAttempted := o.qrAttempted || qr);
    (db.(orders := db.orders[id := renewed]), Renewed(renewed))
  }

  datatype Update = Update(status: Option<Status>, link: string, qr: string, account: string, lastError: ErrorCode,
                           next: Option<int>, attempts: int, reset: bool, qrAttempted: bool)

  const NoUpdate := Update(None, "", "", "", NoError, None, 0, false, false)

  datatype CompleteResult = Completed(snapshot: Order) | CompleteLost | InvalidUpdate | CompleteRefused

  predicate ValidUpdate(u: Update) {
    u.status != Some(Paid) && u.attempts >= 0
  }

  function Bind(bound: string, offered: string): string {
    if bound != "" then bound else offered
  }

  /** The next_reconcile_at that CompletePaymentOrderOperation stores for an unpaid order. */
  function CompletedNext(o: Order, u: Update): Option<int>
    requires o.lease.Some?
  {
    var status := if u.status.Some? then u.status.value else o.status;
    if (status.Creating? || status.Processing?) && (u.next.None? || u.next.value < o.lease.value.until)
    then Some(o.lease.value.until) else u.next
  }

  function CompletedOrder(o: Order, u: Update): Order
    requires o.lease.Some?
  {
    var paid := o.status.Paid?;
    o.(status := if paid || u.status.None? then o.status else u.status.value,
       link := Bind(o.link, u.link), qr := Bind(o.qr, u.qr), account := Bind(o.account, u.account),
       lastError := if paid then o.lastError else u.lastError,
       next := if paid then None else CompletedNext(o, u),
       attempts := if u.reset then 0 else Max(o.attempts, u.attempts),
       qrAttempted := o.qrAttempted || u.qrAttempted, lease := None)
  }

  /** The gate is checked after the UPDATE, so a closed gate rolls the update back. */
  function Complete(db: Db, id: nat, token: nat, u: Update, admitted: bool): (Db, CompleteResult) {
    if !ValidUpdate(u) then (db, InvalidUpdate) else
    if !HasToken(db, id, token) then (db, CompleteLost) else
    if !admitted then (db, CompleteRefused) else
    var o := CompletedOrder(db.orders[id], u);
    (db.(orders := db.orders[id := o]), Completed(o))
  }

  /** wakePaymentOrderInboxTx on one order. */
  function Woken(o: Order, now: int): Order {
    if o.status.Paid? then o
    else o.(next := Some(if o.lease.Some? then Max(now, o.lease.value.until) else now))
  }

  function WakeOrder(db: Db, code: int, now: int): Db {
    match IndexOfCode(db.orders, code)
    case None => db
    case Some(i) => db.(orders := db.orders[i := Woken(db.orders[i], now)])
  }

  /** What DuePaymentOrders selects. */
  predicate Due(o: Order, channel: string, now: int) {
    o.channel == channel && !o.status.Paid? && o.next.Some? && o.next.value <= now && !LeaseLive(o, now)
  }
}
