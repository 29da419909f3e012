/**
 A signed callback and a verified Get may report the same payment in any order and any
 number of times. Which of them arrive, and when, decides only whether the payment is
 booked yet, never what is booked.
 */
module Confluence {
  import opened Options
  import opened PaymentTables
  import opened OrderLeases
  import opened Settlement
  import opened SettlementFrames
  import opened PaymentRuns

  /** What callback and Get agree on. */
  datatype Fact = Fact(channel: string, code: int, link: string, reference: string, amount: int, at: int, account: string)

  predicate ValidFact(f: Fact) {
    f.channel != "" && f.code > 0 && f.link != "" && !Blank(f.reference) && f.amount > 0 && f.account != ""
  }

  /** One arrival: `account` and `virtual` may be split differently by the two channels. */
  datatype Arrival =
    | CallbackArrival(account: string, virtual: string, now: int, admitted: bool)
    | GetArrival(account: string, virtual: string, source: Source, inbox: Option<Payload>, now: int, admitted: bool)

  predicate Agrees(f: Fact, a: Arrival) {
    EffectiveAccount(a.account, a.virtual) == f.account && (a.GetArrival? ==> !a.source.OtherSource?)
  }

  function PayloadOf(f: Fact, a: Arrival): Payload {
    Payload(f.code, f.link, f.reference, f.amount, "VND", "00", a.account, a.virtual, Some(f.at))
  }

  /** The settlement input that HandleWebhook or verifiedLinkSettlement builds. */
  function InputOf(f: Fact, a: Arrival): SettleInput {
    match a
    case CallbackArrival(account, virtual, _, _) =>
      SettleInput(f.channel, f.code, f.link, f.reference, f.amount, Some(f.at), account, virtual, Realtime,
                  None, Some(PayloadOf(f, a)), None)
    case GetArrival(account, virtual, source, inbox, _, _) =>
      SettleInput(f.channel, f.code, f.link, f.reference, f.amount, Some(f.at), account, virtual, source,
                  inbox, None, Some(Evidence(f.code, f.link, f.reference, f.amount, f.at, account, virtual)))
  }

  function Arrive(db: Db, f: Fact, a: Arrival): Db {
    Settle(db, InputOf(f, a), a.now, a.admitted).0
  }

  function ArriveAll(db: Db, f: Fact, arrivals: seq<Arrival>): Db
    decreases |arrivals|
  {
    if arrivals == [] then db else ArriveAll(Arrive(db, f, arrivals[0]), f, arrivals[1..])
  }

  // ---------------------------------------------------------------- the books

  datatype OrderBooks = OrderBooks(code: int, amount: int, status: Status, link: string, account: string,
                                   txn: Option<nat>, paidAt: Option<int>)
  datatype CreditBooks = CreditBooks(key: SemanticKey, hash: Canonical, credit: int, at: int)

  /** The financial columns: everything but leases, schedules, the inbox, and how a payment was seen. */
  datatype Books = Books(orders: seq<OrderBooks>, receipts: seq<Receipt>, credits: seq<CreditBooks>)

  function OrderBooksOf(o: Order): OrderBooks {
    OrderBooks(o.code, o.amount, o.status, o.link, o.account, o.txn, o.paidAt)
  }

  function BooksOf(db: Db): Books {
    Books(seq(|db.orders|, i requires 0 <= i < |db.orders| => OrderBooksOf(db.orders[i])),
          db.receipts,
          seq(|db.transactions|, k requires 0 <= k < |db.transactions| =>
            CreditBooks(db.transactions[k].key, db.transactions[k].hash, db.transactions[k].credit, db.transactions[k].at)))
  }

  /** The payment can be booked: the order is unpaid, agrees, and no receipt has its reference. */
  predicate Open(db: Db, f: Fact) {
    var i := IndexOfCode(db.orders, f.code);
    i.Some? && OpenOrder(db.orders[i.value], f) && IndexOfReceipt(db.receipts, f.channel, f.reference).None?
  }

  predicate OpenOrder(o: Order, f: Fact) {
    o.channel == f.channel && o.amount == f.amount && !o.status.Paid? && o.txn.None?
    && (o.link == "" || o.link == f.link) && (o.account == "" || o.account == f.account)
  }

  /** The books with the payment in them. */
  function Booked(db: Db, f: Fact): Books
    requires Open(db, f)
  {
    var i := IndexOfCode(db.orders, f.code).value;
    var b := BooksOf(db);
    var txn := |db.transactions|;
    var hash := Canonical(f.channel, f.link, f.reference, f.amount, f.at);
    Books(b.orders[i := OrderBooks(f.code, f.amount, Paid, f.link, f.account, Some(txn), Some(f.at))],
          b.receipts + [Receipt(f.channel, f.reference, i, f.link, f.amount, f.at, hash, txn)],
          b.credits + [CreditBooks(SemanticKey(f.channel, f.reference), hash, f.amount, f.at)])
  }

  /** Whether this arrival books the payment. A callback alone suffices only for a bound, live order. */
  predicate Decisive(db: Db, f: Fact, a: Arrival) {
    Open(db, f) && a.admitted &&
    var o := db.orders[IndexOfCode(db.orders, f.code).value];
    match a
    case CallbackArrival(_, _, _, _) => o.link != "" && o.account != "" && !Terminal(o.status)
    case GetArrival(_, _, _, inbox, _, _) =>
      inbox.None? || (inbox.value in db.inbox && InboxMatches(db.inbox[inbox.value], inbox.value, InputOf(f, a)))
  }

  /** Some arrival of the run is decisive when it comes. */
  predicate Settles(db: Db, f: Fact, arrivals: seq<Arrival>)
    decreases |arrivals|
  {
    arrivals != [] && (Decisive(db, f, arrivals[0]) || Settles(Arrive(db, f, arrivals[0]), f, arrivals[1..]))
  }

  // ---------------------------------------------------------------- one arrival

  lemma DecisiveIsAccept(db: Db, f: Fact, a: Arrival)
    requires Inv(db) && ValidFact(f) && Agrees(f, a)
    ensures a.admitted ==> (Decisive(db, f, a) <==> Decide(db, InputOf(f, a)).Accept?)
    ensures Decide(db, InputOf(f, a)).Accept? ==> Decide(db, InputOf(f, a)) == Accept(IndexOfCode(db.orders, f.code).value)
  {
    var i := IndexOfCode(db.orders, f.code);
    if i.Some? { assert OrderOk(db, i.value); }
  }

  lemma {:induction false} SameCodes(orders: seq<Order>, orders': seq<Order>, code: int, from: nat)
    requires from <= |orders| == |orders'|
    requires forall i :: 0 <= i < |orders| ==> orders'[i].code == orders[i].code
    ensures IndexOfCode(orders', code, from) == IndexOfCode(orders, code, from)
    decreases |orders| - from
  {
    if from < |orders| { SameCodes(orders, orders', code, from + 1); }
  }

  lemma NoMoneyKeepsBooks(db: Db, db': Db, f: Fact, now: int)
    requires NoMoney(db, db', now)
    ensures BooksOf(db') == BooksOf(db) && (Open(db', f) <==> Open(db, f))
    ensures Open(db, f) ==> Booked(db', f) == Booked(db, f)
    ensures IndexOfCode(db'.orders, f.code) == IndexOfCode(db.orders, f.code)
  {
    forall i | 0 <= i < |db.orders| ensures db'.orders[i].code == db.orders[i].code
      && OrderBooksOf(db'.orders[i]) == OrderBooksOf(db.orders[i]) && (OpenOrder(db'.orders[i], f) <==> OpenOrder(db.orders[i], f)) {
      assert Rescheduled(db.orders[i], db'.orders[i], now);
    }
    SameCodes(db.orders, db'.orders, f.code, 0);
  }

  lemma {:induction false} AppendedReceiptFound(receipts: seq<Receipt>, r: Receipt, from: nat)
    requires from <= |receipts|
    ensures IndexOfReceipt(receipts + [r], r.channel, r.reference, from).Some?
    decreases |receipts| - from
  {
    var all := receipts + [r];
    assert all[|receipts|] == r;
  }

  lemma DecisiveBooks(db: Db, f: Fact, a: Arrival)
    requires Inv(db) && ValidFact(f) && Agrees(f, a) && Decisive(db, f, a)
    ensures BooksOf(Arrive(db, f, a)) == Booked(db, f) && !Open(Arrive(db, f, a), f)
  {
    hide Inv;
    var s := InputOf(f, a);
    var i := IndexOfCode(db.orders, f.code).value;
    DecisiveIsAccept(db, f, a);
    AcceptedKeyIsFree(db, s);
    var credited := Credit(db, i, s);
    var b := Arrive(db, f, a);
    assert b.orders == credited.orders && b.receipts == credited.receipts && b.transactions == credited.transactions;
    AppendedReceiptFound(db.receipts, credited.receipts[|db.receipts|], 0);
    assert BooksOf(b).orders == Booked(db, f).orders;
    assert BooksOf(b).credits == Booked(db, f).credits;
  }

  lemma IndecisiveBooks(db: Db, f: Fact, a: Arrival)
    requires Inv(db) && ValidFact(f) && Agrees(f, a) && !Decisive(db, f, a)
    ensures NoMoney(db, Arrive(db, f, a), a.now)
    ensures BooksOf(Arrive(db, f, a)) == BooksOf(db) && (Open(Arrive(db, f, a), f) <==> Open(db, f))
    ensures Open(db, f) ==> Booked(Arrive(db, f, a), f) == Booked(db, f)
  {
    if a.admitted { DecisiveIsAccept(db, f, a); }
    UnacceptedMovesNoMoney(db, InputOf(f, a), a.now, a.admitted);
    NoMoneyKeepsBooks(db, Arrive(db, f, a), f, a.now);
  }

  // ---------------------------------------------------------------- any order, any repetition

  lemma {:induction false} SettlesOnlyIfOpen(db: Db, f: Fact, arrivals: seq<Arrival>)
    requires Inv(db) && ValidFact(f) && forall i :: 0 <= i < |arrivals| ==> Agrees(f, arrivals[i])
    ensures Settles(db, f, arrivals) ==> Open(db, f)
    decreases |arrivals|
  {
    if arrivals != [] && !Decisive(db, f, arrivals[0]) {
      IndecisiveBooks(db, f, arrivals[0]);
      SettleKeepsInv(db, InputOf(f, arrivals[0]), arrivals[0].now, arrivals[0].admitted);
      SettlesOnlyIfOpen(Arrive(db, f, arrivals[0]), f, arrivals[1..]);
    }
  }

  /**
   The outcome of any run of agreeing arrivals: the payment is booked once, with the same
   order, receipt and credit whichever arrival booked it, if some arrival was decisive; if
   none was, no financial row has changed.
   */
  lemma {:induction false} ArrivalOrderIsImmaterial(db: Db, f: Fact, arrivals: seq<Arrival>)
    requires Inv(db) && ValidFact(f) && forall i :: 0 <= i < |arrivals| ==> Agrees(f, arrivals[i])
    ensures Settles(db, f, arrivals) ==> Open(db, f) && BooksOf(ArriveAll(db, f, arrivals)) == Booked(db, f)
    ensures !Settles(db, f, arrivals) ==> BooksOf(ArriveAll(db, f, arrivals)) == BooksOf(db)
    decreases |arrivals|
  {
    if arrivals != [] {
      var next := Arrive(db, f, arrivals[0]);
      SettleKeepsInv(db, InputOf(f, arrivals[0]), arrivals[0].now, arrivals[0].admitted);
      ArrivalOrderIsImmaterial(next, f, arrivals[1..]);
      if Decisive(db, f, arrivals[0]) {
        DecisiveBooks(db, f, arrivals[0]);
        SettlesOnlyIfOpen(next, f, arrivals[1..]);
      } else {
        IndecisiveBooks(db, f, arrivals[0]);
      }
    }
  }

  /** An open payment is booked by any run that contains one admitted plain Get. */
  lemma {:induction false} GetSettles(db: Db, f: Fact, arrivals: seq<Arrival>, k: nat)
    requires Inv(db) && ValidFact(f) && (forall i :: 0 <= i < |arrivals| ==> Agrees(f, arrivals[i])) && Open(db, f)
    requires k < |arrivals| && arrivals[k].GetArrival? && arrivals[k].inbox.None? && arrivals[k].admitted
    ensures Settles(db, f, arrivals)
    decreases k
  {
    if !Decisive(db, f, arrivals[0]) {
      IndecisiveBooks(db, f, arrivals[0]);
      SettleKeepsInv(db, InputOf(f, arrivals[0]), arrivals[0].now, arrivals[0].admitted);
      GetSettles(Arrive(db, f, arrivals[0]), f, arrivals[1..], k - 1);
    }
  }

  /** What a callback needs of the order to be enough by itself. */
  predicate BoundAndLive(db: Db, f: Fact) {
    var i := IndexOfCode(db.orders, f.code);
    i.Some? && db.orders[i.value].link != "" && db.orders[i.value].account != "" && !Terminal(db.orders[i.value].status)
  }

  lemma IndecisiveKeepsBinding(db: Db, f: Fact, a: Arrival)
    requires Inv(db) && ValidFact(f) && Agrees(f, a) && !Decisive(db, f, a)
    ensures BoundAndLive(Arrive(db, f, a), f) <==> BoundAndLive(db, f)
  {
    IndecisiveBooks(db, f, a);
    NoMoneyKeepsBooks(db, Arrive(db, f, a), f, a.now);
    var i := IndexOfCode(db.orders, f.code);
    if i.Some? { assert Rescheduled(db.orders[i.value], Arrive(db, f, a).orders[i.value], a.now); }
  }

  /**
   Callbacks alone book an open payment exactly when the order is bound and not terminal and
   one of them is admitted; otherwise they are kept as evidence and no money moves.
   */
  lemma {:induction false} CallbacksAloneSettle(db: Db, f: Fact, arrivals: seq<Arrival>)
    requires Inv(db) && ValidFact(f) && (forall i :: 0 <= i < |arrivals| ==> Agrees(f, arrivals[i]))
    requires forall i :: 0 <= i < |arrivals| ==> arrivals[i].CallbackArrival?
    ensures Settles(db, f, arrivals) <==>
              Open(db, f) && BoundAndLive(db, f) && exists k :: 0 <= k < |arrivals| && arrivals[k].admitted
    decreases |arrivals|
  {
    if arrivals != [] {
      var next, rest := Arrive(db, f, arrivals[0]), arrivals[1..];
      if !Decisive(db, f, arrivals[0]) {
        IndecisiveBooks(db, f, arrivals[0]);
        IndecisiveKeepsBinding(db, f, arrivals[0]);
        SettleKeepsInv(db, InputOf(f, arrivals[0]), arrivals[0].now, arrivals[0].admitted);
        CallbacksAloneSettle(next, f, rest);
        if k :| 0 <= k < |arrivals| && arrivals[k].admitted {
          if k > 0 { assert rest[k - 1].admitted; }
        }
        if j :| 0 <= j < |rest| && rest[j].admitted { assert arrivals[j + 1].admitted; }
      }
    }
  }

  // ---------------------------------------------------------------- the service's Get

  /** PendingPaymentCallbacks */
  predicate PendingFor(db: Db, p: Payload, code: int) {
    p in db.inbox && p.code == code && !db.inbox[p].processed
    && (db.inbox[p].reason.AwaitingOrderBind? || db.inbox[p].reason.PaymentDetailsPending?)
  }

  /** callbackMatchesSettlement */
  predicate CallbackAgrees(p: Payload, f: Fact) {
    p.resultCode == "00" && p.currency == "VND" && p.code == f.code && p.link == f.link && p.reference == f.reference
    && p.amount == f.amount && p.at == Some(f.at) && EffectiveAccount(p.account, p.virtual) == f.account
  }

  /** The Get that settleVerifiedLink may send: it names each agreeing pending callback, or none if none is pending. */
  ghost predicate ServiceGet(db: Db, f: Fact, a: Arrival) {
    a.GetArrival? && a.admitted && Agrees(f, a) &&
    match a.inbox
    case Some(p) => PendingFor(db, p, f.code) && CallbackAgrees(p, f)
    case None => forall p :: p in db.inbox ==> !PendingFor(db, p, f.code)
  }

  /**
   A verified Get books an open payment unless pending callbacks exist and all of them
   disagree with it: exactly then the service has no Get to send.
   */
  lemma ServiceGetSettles(db: Db, f: Fact, account: string, now: int)
    requires Inv(db) && ValidFact(f) && account == f.account
    ensures (exists a :: ServiceGet(db, f, a) && Decisive(db, f, a)) <==>
              Open(db, f) && ((forall p :: p in db.inbox ==> !PendingFor(db, p, f.code))
                              || (exists p :: PendingFor(db, p, f.code) && CallbackAgrees(p, f)))
    ensures forall a :: ServiceGet(db, f, a) && Open(db, f) ==> Decisive(db, f, a)
  {
    if Open(db, f) {
      if p :| PendingFor(db, p, f.code) && CallbackAgrees(p, f) {
        var a := GetArrival(account, "", CatchUp, Some(p), now, true);
        assert ServiceGet(db, f, a) && Decisive(db, f, a);
      } else if forall p :: p in db.inbox ==> !PendingFor(db, p, f.code) {
        var a := GetArrival(account, "", CatchUp, None, now, true);
        assert ServiceGet(db, f, a) && Decisive(db, f, a);
      }
    }
  }

  /** A callback kept because the order was unbound or terminal is consumed by a later Get that names it. */
  lemma KeptCallbackIsConsumed(db: Db, f: Fact, a: Arrival, get: Arrival)
    requires Inv(db) && ValidFact(f) && Agrees(f, a) && Agrees(f, get) && Open(db, f)
    requires a.CallbackArrival? && a.admitted && !Decisive(db, f, a) && PayloadOf(f, a) !in db.inbox
    requires get.GetArrival? && get.admitted && get.inbox == Some(PayloadOf(f, a))
    ensures PendingFor(Arrive(db, f, a), PayloadOf(f, a), f.code)
    ensures Decisive(Arrive(db, f, a), f, get)
    ensures Arrive(Arrive(db, f, a), f, get).inbox[PayloadOf(f, a)].processed
  {
    hide Inv;
    IndecisiveBooks(db, f, a);
    DecisiveIsAccept(db, f, a);
    SettleKeepsInv(db, InputOf(f, a), a.now, true);
    var kept := Arrive(db, f, a);
    assert kept.inbox[PayloadOf(f, a)].reason == Decide(db, InputOf(f, a)).reason;
    DecisiveIsAccept(kept, f, get);
    AcceptedKeyIsFree(kept, InputOf(f, get));
  }
}
