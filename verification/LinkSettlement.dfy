/**
 Settling a verified payment link (settleVerifiedLink, internal/payments/reconcile.go): the
 loop over the order's pending callbacks, each agreeing one settled by a Get that names it,
 and a plain Get only when none is pending.
 */
module LinkSettlement {
  import opened Options
  import opened PaymentTables
  import opened OrderLeases
  import opened Settlement
  import opened SettlementFrames
  import opened PaymentRuns
  import opened Confluence
  import PaymentStore

  /** The provider's own account columns; Confluence's fact fixes everything else of the Get. */
  datatype Accounts = Accounts(account: string, virtual: string)

  datatype LinkResult = DetailsPending | Answered(result: SettleResult)

  function GetFor(g: Accounts, source: Source, inbox: Option<Payload>, now: int, admitted: bool): Arrival {
    GetArrival(g.account, g.virtual, source, inbox, now, admitted)
  }

  /** The loop: disagreeing items are passed over, the first refusal or review ends it. */
  function SettleItems(db: Db, f: Fact, g: Accounts, items: seq<Payload>, sources: seq<Source>, now: int, admitted: bool): (Db, Option<SettleResult>)
    requires |sources| == |items|
    decreases |items|
  {
    if items == [] then (db, None)
    else if !CallbackAgrees(items[0], f) then SettleItems(db, f, g, items[1..], sources[1..], now, admitted)
    else
      var step := Settle(db, InputOf(f, GetFor(g, sources[0], Some(items[0]), now, admitted)), now, admitted);
      if !step.1.Settled? then (step.0, Some(step.1))
      else
        var rest := SettleItems(step.0, f, g, items[1..], sources[1..], now, admitted);
        (rest.0, if rest.1.Some? then rest.1 else Some(step.1))
  }

  function SettleVerifiedLink(db: Db, f: Fact, g: Accounts, items: seq<Payload>, sources: seq<Source>, now: int, admitted: bool): (Db, LinkResult)
    requires |sources| == |items|
  {
    var listed := SettleItems(db, f, g, items, sources, now, admitted);
    if listed.1.Some? then (listed.0, Answered(listed.1.value))
    else if items != [] then (db, DetailsPending)
    else
      var plain := Settle(db, InputOf(f, GetFor(g, CatchUp, None, now, admitted)), now, admitted);
      (plain.0, Answered(plain.1))
  }

  /** The service's loop over the store. */
  method SettleLink(store: PaymentStore.Store, f: Fact, g: Accounts, items: seq<Payload>, sources: seq<Source>, now: int, admitted: bool)
    returns (r: LinkResult)
    requires |sources| == |items|
    modifies store
    ensures (store.View(), r) == SettleVerifiedLink(old(store.View()), f, g, items, sources, now, admitted)
  {
    ghost var start := store.View();
    var last: Option<SettleResult> := None;
    var i := 0;
    while i < |items|
      invariant i <= |items|
      invariant last.None? ==> store.View() == start
      invariant var rest := SettleItems(store.View(), f, g, items[i..], sources[i..], now, admitted);
        SettleItems(start, f, g, items, sources, now, admitted) == (rest.0, if rest.1.Some? then rest.1 else last)
    {
      assert items[i..][0] == items[i] && items[i..][1..] == items[i + 1..];
      assert sources[i..][0] == sources[i] && sources[i..][1..] == sources[i + 1..];
      if CallbackAgrees(items[i], f) {
        var step := store.SettlePayment(InputOf(f, GetFor(g, sources[i], Some(items[i]), now, admitted)), now, admitted);
        if !step.Settled? { return Answered(step); }
        last := Some(step);
      }
      i := i + 1;
    }
    if last.Some? { return Answered(last.value); }
    if items != [] { return DetailsPending; }
    var plain := store.SettlePayment(InputOf(f, GetFor(g, CatchUp, None, now, admitted)), now, admitted);
    return Answered(plain);
  }

  // ---------------------------------------------------------------- what the loop achieves

  /** The query's result: the pending callbacks of the order, each once, in some order. */
  ghost predicate Lists(db: Db, f: Fact, items: seq<Payload>) {
    && (forall p :: p in items <==> PendingFor(db, p, f.code))
    && (forall i, j :: 0 <= i < j < |items| ==> items[i] != items[j])
  }

  ghost predicate SourcesOk(sources: seq<Source>) {
    forall k :: 0 <= k < |sources| ==> !sources[k].OtherSource?
  }

  /** The payment is booked for this fact. */
  ghost predicate Received(db: Db, f: Fact) {
    var i, k := IndexOfCode(db.orders, f.code), IndexOfReceipt(db.receipts, f.channel, f.reference);
    i.Some? && k.Some? &&
    var o, r := db.orders[i.value], db.receipts[k.value];
    && o.channel == f.channel && o.amount == f.amount && o.status.Paid? && o.link == f.link && o.account == f.account
    && r.hash == Canonical(f.channel, f.link, f.reference, f.amount, f.at) && r.order == i.value && o.txn == Some(r.txn)
  }

  ghost predicate Agreeing(db: Db, f: Fact, p: Payload) {
    PendingFor(db, p, f.code) && CallbackAgrees(p, f)
  }

  /** An agreeing callback of a booked payment is a duplicate: it is marked and nothing else changes. */
  lemma ReceivedMarks(db: Db, f: Fact, g: Accounts, source: Source, p: Payload, now: int)
    requires Inv(db) && ValidFact(f) && EffectiveAccount(g.account, g.virtual) == f.account && !source.OtherSource?
    requires Received(db, f) && Agreeing(db, f, p)
    ensures var s := InputOf(f, GetFor(g, source, Some(p), now, true));
      && Settle(db, s, now, true).1.Settled? && Settle(db, s, now, true).0 == MarkProcessed(db, Some(p))
      && Received(Settle(db, s, now, true).0, f) && BooksOf(Settle(db, s, now, true).0) == BooksOf(db)
  {
    var s := InputOf(f, GetFor(g, source, Some(p), now, true));
    assert Decide(db, s) == AlreadyReceived(IndexOfCode(db.orders, f.code).value);
  }

  /** An agreeing callback of an open payment books it and is marked. */
  lemma OpenBooks(db: Db, f: Fact, g: Accounts, source: Source, p: Payload, now: int)
    requires Inv(db) && ValidFact(f) && EffectiveAccount(g.account, g.virtual) == f.account && !source.OtherSource?
    requires Open(db, f) && Agreeing(db, f, p)
    ensures var s := InputOf(f, GetFor(g, source, Some(p), now, true));
      var db' := Settle(db, s, now, true).0;
      && Settle(db, s, now, true).1.Settled? && Received(db', f) && BooksOf(db') == Booked(db, f)
      && db'.inbox == db.inbox[p := db.inbox[p].(processed := true)]
  {
    var a := GetFor(g, source, Some(p), now, true);
    assert InboxMatches(db.inbox[p], p, InputOf(f, a));
    assert Decisive(db, f, a);
    DecisiveBooks(db, f, a);
    DecisiveIsAccept(db, f, a);
    AcceptedKeyIsFree(db, InputOf(f, a));
    BookedIsReceived(db, f, a);
  }

  lemma BookedIsReceived(db: Db, f: Fact, a: Arrival)
    requires Inv(db) && ValidFact(f) && Agrees(f, a) && Decisive(db, f, a)
    ensures Received(Arrive(db, f, a), f)
  {
    DecisiveIsAccept(db, f, a);
    AcceptedKeyIsFree(db, InputOf(f, a));
    var i := IndexOfCode(db.orders, f.code).value;
    var db' := Arrive(db, f, a);
    var credited := Credit(db, i, InputOf(f, a));
    assert db'.orders == credited.orders && db'.receipts == credited.receipts;
    SameCodes(db.orders, db'.orders, f.code, 0);
    AppendedReceiptFound(db.receipts, credited.receipts[|db.receipts|], 0);
    var k := IndexOfReceipt(db'.receipts, f.channel, f.reference).value;
    assert k == |db.receipts|;
  }

  /** One agreeing item, whether it is the first to settle or finds the payment booked. */
  lemma ItemStep(db: Db, f: Fact, g: Accounts, source: Source, p: Payload, now: int)
    requires Inv(db) && ValidFact(f) && EffectiveAccount(g.account, g.virtual) == f.account && !source.OtherSource?
    requires (Open(db, f) || Received(db, f)) && Agreeing(db, f, p)
    ensures var step := Settle(db, InputOf(f, GetFor(g, source, Some(p), now, true)), now, true);
      && step.1.Settled? && Inv(step.0) && Received(step.0, f) && !Open(step.0, f)
      && BooksOf(step.0) == (if Open(db, f) then Booked(db, f) else BooksOf(db))
      && step.0.inbox == db.inbox[p := db.inbox[p].(processed := true)]
  {
    if Open(db, f) { OpenBooks(db, f, g, source, p, now); } else { ReceivedMarks(db, f, g, source, p, now); }
    SettleKeepsInv(db, InputOf(f, GetFor(g, source, Some(p), now, true)), now, true);
  }

  ghost predicate ItemsBook(db: Db, f: Fact, items: seq<Payload>, r: (Db, Option<SettleResult>)) {
    && (r.1.None? <==> forall p :: p in items ==> !CallbackAgrees(p, f))
    && (r.1.None? ==> r.0 == db)
    && (r.1.Some? ==> r.1.value.Settled? && Received(r.0, f))
    && (r.1.Some? ==> BooksOf(r.0) == if Open(db, f) then Booked(db, f) else BooksOf(db))
  }

  /** Every agreeing item is marked, every other row is as it was. */
  ghost predicate Marks(db: Db, f: Fact, items: seq<Payload>, after: Db) {
    && (forall p :: p in after.inbox <==> p in db.inbox)
    && (forall p :: p in db.inbox ==> after.inbox[p] == if p in items && CallbackAgrees(p, f) then db.inbox[p].(processed := true) else db.inbox[p])
  }

  lemma {:induction false} ItemsSettle(db: Db, f: Fact, g: Accounts, items: seq<Payload>, sources: seq<Source>, now: int)
    requires Inv(db) && ValidFact(f) && EffectiveAccount(g.account, g.virtual) == f.account
    requires |sources| == |items| && SourcesOk(sources) && (Open(db, f) || Received(db, f))
    requires forall p :: p in items ==> PendingFor(db, p, f.code)
    requires forall i, j :: 0 <= i < j < |items| ==> items[i] != items[j]
    ensures ItemsBook(db, f, items, SettleItems(db, f, g, items, sources, now, true))
    ensures Marks(db, f, items, SettleItems(db, f, g, items, sources, now, true).0)
    decreases |items|
  {
    if items != [] {
      var p, rest, restSources := items[0], items[1..], sources[1..];
      assert items == [p] + rest && p !in rest;
      if !CallbackAgrees(p, f) {
        ItemsSettle(db, f, g, rest, restSources, now);
      } else {
        assert Agreeing(db, f, p);
        ItemStep(db, f, g, sources[0], p, now);
        var next := Settle(db, InputOf(f, GetFor(g, sources[0], Some(p), now, true)), now, true).0;
        forall q | q in rest ensures PendingFor(next, q, f.code) { assert q in items && q != p; }
        ItemsSettle(next, f, g, rest, restSources, now);
        MarksCompose(db, f, p, rest, next, SettleItems(next, f, g, rest, restSources, now, true).0);
      }
    }
  }

  lemma MarksCompose(db: Db, f: Fact, p: Payload, rest: seq<Payload>, next: Db, after: Db)
    requires p in db.inbox && CallbackAgrees(p, f) && next.inbox == db.inbox[p := db.inbox[p].(processed := true)]
    requires p !in rest && Marks(next, f, rest, after)
    ensures Marks(db, f, [p] + rest, after)
  {
  }

  /**
   A verified Get of an open payment books it exactly when no callback is pending or one of the
   pending ones agrees; then every agreeing callback is processed. Otherwise nothing changes.
   */
  lemma LinkBooksIff(db: Db, f: Fact, g: Accounts, items: seq<Payload>, sources: seq<Source>, now: int)
    requires Inv(db) && ValidFact(f) && EffectiveAccount(g.account, g.virtual) == f.account
    requires |sources| == |items| && SourcesOk(sources) && Lists(db, f, items) && Open(db, f)
    ensures var r := SettleVerifiedLink(db, f, g, items, sources, now, true);
      var books := (forall p :: !PendingFor(db, p, f.code)) || (exists p :: Agreeing(db, f, p));
      && (books ==> BooksOf(r.0) == Booked(db, f) && Received(r.0, f) && forall p :: Agreeing(db, f, p) ==> p in r.0.inbox && r.0.inbox[p].processed)
      && (!books ==> r == (db, DetailsPending))
  {
    ItemsSettle(db, f, g, items, sources, now);
    if items == [] {
      var a := GetFor(g, CatchUp, None, now, true);
      assert Decisive(db, f, a);
      DecisiveBooks(db, f, a);
      BookedIsReceived(db, f, a);
    } else {
      assert items[0] in items;
      forall p | p in items && CallbackAgrees(p, f) ensures Agreeing(db, f, p) {}
    }
  }

  /** A repeated Get of a booked payment marks what agrees and changes no financial row. */
  lemma LinkAgainIsIdle(db: Db, f: Fact, g: Accounts, items: seq<Payload>, sources: seq<Source>, now: int)
    requires Inv(db) && ValidFact(f) && EffectiveAccount(g.account, g.virtual) == f.account
    requires |sources| == |items| && SourcesOk(sources) && Lists(db, f, items) && Received(db, f)
    ensures BooksOf(SettleVerifiedLink(db, f, g, items, sources, now, true).0) == BooksOf(db)
  {
    ItemsSettle(db, f, g, items, sources, now);
    if items == [] {
      var s := InputOf(f, GetFor(g, CatchUp, None, now, true));
      assert Decide(db, s) == AlreadyReceived(IndexOfCode(db.orders, f.code).value);
    }
  }

  // ---------------------------------------------------------------- a Get that is held back

  const Paying := Fact("shop", 7, "link", "REF-2", 1000, 60, "123")
  const Disagreeing := Payload(7, "link", "REF-1", 1000, "VND", "00", "123", "", Some(50))

  /** One order reserved, then a callback for it under another reference, kept until the order is bound. */
  const DisagreeingRun: seq<Step> := [
    Step(ReserveOp(Intent("shop", "key", "hash", 1000, StaticUrl), [7], true), 0),
    Step(SettleOp(SettleInput("shop", 7, "link", "REF-1", 1000, Some(50), "123", "", Realtime, None, Some(Disagreeing), None), true), 55)]

  /**
   A reachable state in which the payment is open and the provider reports it, but the only
   pending callback disagrees, so the Get is held back and nothing is booked.
   */
  lemma DisagreeingCallbackHoldsBackGet(now: int)
    ensures var db := Run(EmptyDb, DisagreeingRun);
      && ValidFact(Paying) && Open(db, Paying) && Lists(db, Paying, [Disagreeing]) && !CallbackAgrees(Disagreeing, Paying)
      && SettleVerifiedLink(db, Paying, Accounts("123", ""), [Disagreeing], [CatchUp], now, true) == (db, DetailsPending)
      && !exists a :: ServiceGet(db, Paying, a)
  {
    var steps := DisagreeingRun;
    var one := Apply(EmptyDb, steps[0].op, 0);
    ReservedState();
    var two := Apply(one, steps[1].op, 55);
    KeptState(one);
    assert steps[1..] == [steps[1]] && steps[1..][1..] == [];
    assert Run(EmptyDb, steps) == two by {
      assert Run(one, [steps[1]]) == Run(two, []);
    }
    assert "REF-2"[0] == 'R' && Disagreeing in two.inbox;
    forall p ensures p in [Disagreeing] <==> PendingFor(two, p, 7) {}
    var rest := SettleItems(two, Paying, Accounts("123", ""), [], [], now, true);
    assert [Disagreeing][1..] == [] && [CatchUp][1..] == [];
    assert SettleItems(two, Paying, Accounts("123", ""), [Disagreeing], [CatchUp], now, true) == rest;
  }

  lemma ReservedState()
    ensures var one := Apply(EmptyDb, DisagreeingRun[0].op, 0);
      && one.orders == [NewOrder(Intent("shop", "key", "hash", 1000, StaticUrl), 7, 0, 0)] && one.inbox == map[] && one.receipts == []
  {
    assert FirstFreeCode([], [7]) == Some(7);
  }

  lemma KeptState(one: Db)
    requires one.orders == [NewOrder(Intent("shop", "key", "hash", 1000, StaticUrl), 7, 0, 0)] && one.inbox == map[] && one.receipts == []
    ensures var two := Apply(one, DisagreeingRun[1].op, 55);
      && two.inbox == map[Disagreeing := InboxRow(AwaitingOrderBind, false)] && Open(two, Paying)
  {
    hide Decide;
    KeptDecision(one);
    assert IndexOfCode(one.orders, 7) == Some(0);
  }

  lemma KeptDecision(one: Db)
    requires one.orders == [NewOrder(Intent("shop", "key", "hash", 1000, StaticUrl), 7, 0, 0)] && one.inbox == map[] && one.receipts == []
    ensures Decide(one, DisagreeingRun[1].op.input) == Review(AwaitingOrderBind)
  {
    assert "REF-1"[0] == 'R' && !Blank("REF-1") && "REF-2"[0] == 'R' && !Blank("REF-2");
    assert IndexOfCode(one.orders, 7) == Some(0);
  }
}
