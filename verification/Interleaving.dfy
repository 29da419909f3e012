/**
 Callbacks and verified Gets of one payment among everything else that happens to the
 tables: claims, renewals, completions, other payments, kept callbacks, endpoint changes.
 */
module Interleaving {
  import opened Options
  import opened PaymentTables
  import opened OrderLeases
  import opened Settlement
  import opened SettlementFrames
  import opened PaymentRuns
  import opened OrderHistory
  import opened Confluence

  datatype Event = Arrives(arrival: Arrival) | Other(op: Op, now: int)

  function Happen(db: Db, f: Fact, e: Event): Db {
    match e
    case Arrives(a) => Arrive(db, f, a)
    case Other(op, now) => Apply(db, op, now)
  }

  function HappenAll(db: Db, f: Fact, events: seq<Event>): Db
    decreases |events|
  {
    if events == [] then db else HappenAll(Happen(db, f, events[0]), f, events[1..])
  }

  /** Arrivals agree on the payment, and nobody else settles its reference. */
  ghost predicate Concerns(f: Fact, e: Event) {
    match e
    case Arrives(a) => Agrees(f, a)
    case Other(op, _) => op.SettleOp? ==> op.input.channel != f.channel || op.input.reference != f.reference
  }

  /** Receipt k is this payment, and its order says so. */
  ghost predicate IsBooked(db: Db, f: Fact, k: nat) {
    && k < |db.receipts| && db.receipts[k].order < |db.orders|
    && var r, o := db.receipts[k], db.orders[db.receipts[k].order];
       && r == Receipt(f.channel, f.reference, r.order, f.link, f.amount, f.at, Canonical(f.channel, f.link, f.reference, f.amount, f.at), k)
       && o.code == f.code && o.status.Paid? && o.txn == Some(k) && o.link == f.link && o.account == f.account && o.paidAt == Some(f.at)
  }

  ghost predicate HasReference(db: Db, f: Fact, k: nat) {
    k < |db.receipts| && db.receipts[k].channel == f.channel && db.receipts[k].reference == f.reference
  }

  /** No receipt carries the reference but the payment's own. */
  ghost predicate OnlyThis(db: Db, f: Fact) {
    forall k: nat :: HasReference(db, f, k) ==> IsBooked(db, f, k)
  }

  /** A transaction adds at most one receipt, and that under the reference it settles. */
  lemma ReceiptsGrow(db: Db, op: Op, now: int)
    requires Inv(db)
    ensures var after := Apply(db, op, now).receipts;
      after == db.receipts
      || (op.SettleOp? && |after| == |db.receipts| + 1 && after[..|db.receipts|] == db.receipts
          && after[|db.receipts|].channel == op.input.channel && after[|db.receipts|].reference == op.input.reference)
  {
    match op
    case SettleOp(s, admitted) =>
      if admitted && Decide(db, s).Accept? {
        AcceptedKeyIsFree(db, s);
      } else {
        UnacceptedMovesNoMoney(db, s, now, admitted);
      }
    case SaveCallbackOp(c, reason, _) => InsertInboxMovesNoMoney(db, c, reason, now);
    case PromoteOp(code, _) => PromoteMovesNoMoney(db, code, now);
    case _ =>
  }

  lemma BookedPersists(db: Db, db': Db, f: Fact, k: nat)
    requires IsBooked(db, f, k) && AllEvolve(db, db') && k < |db'.receipts| && db'.receipts[k] == db.receipts[k]
    ensures IsBooked(db', f, k)
  {
    assert Evolves(db.orders[db.receipts[k].order], db'.orders[db.receipts[k].order]);
  }

  lemma OtherKeepsOnlyThis(db: Db, f: Fact, op: Op, now: int)
    requires Inv(db) && OnlyThis(db, f) && Concerns(f, Other(op, now))
    ensures OnlyThis(Apply(db, op, now), f)
    ensures forall k: nat :: HasReference(db, f, k) ==> HasReference(Apply(db, op, now), f, k)
  {
    hide Inv, Apply;
    var db' := Apply(db, op, now);
    ReceiptsGrow(db, op, now);
    ApplyEvolves(db, op, now);
    forall k: nat | k < |db.receipts| ensures k < |db'.receipts| && db'.receipts[k] == db.receipts[k] {
      if db'.receipts != db.receipts { assert db'.receipts[..|db.receipts|][k] == db.receipts[k]; }
    }
    forall k: nat | HasReference(db', f, k) ensures IsBooked(db', f, k) {
      assert HasReference(db, f, k);
      BookedPersists(db, db', f, k);
    }
  }

  /** The decisive arrival writes exactly this payment. */
  lemma DecisiveIsBooked(db: Db, f: Fact, a: Arrival)
    requires Inv(db) && ValidFact(f) && Agrees(f, a) && Decisive(db, f, a)
    ensures |Arrive(db, f, a).receipts| == |db.receipts| + 1 && IsBooked(Arrive(db, f, a), f, |db.receipts|)
    ensures forall k: nat :: k < |db.receipts| ==> Arrive(db, f, a).receipts[k] == db.receipts[k]
  {
    DecisiveIsAccept(db, f, a);
    AcceptedKeyIsFree(db, InputOf(f, a));
    var i := IndexOfCode(db.orders, f.code).value;
    var credited := Credit(db, i, InputOf(f, a));
    assert Arrive(db, f, a).orders == credited.orders && Arrive(db, f, a).receipts == credited.receipts;
  }

  lemma ArrivalKeepsOnlyThis(db: Db, f: Fact, a: Arrival)
    requires Inv(db) && ValidFact(f) && OnlyThis(db, f) && Agrees(f, a)
    ensures OnlyThis(Arrive(db, f, a), f)
    ensures forall k: nat :: HasReference(db, f, k) ==> HasReference(Arrive(db, f, a), f, k)
    ensures Decisive(db, f, a) ==> HasReference(Arrive(db, f, a), f, |db.receipts|)
  {
    hide Inv, Decisive;
    var db' := Arrive(db, f, a);
    SettleEvolves(db, InputOf(f, a), a.now, a.admitted);
    if Decisive(db, f, a) {
      DecisiveIsBooked(db, f, a);
    } else {
      IndecisiveBooks(db, f, a);
    }
    forall k: nat | HasReference(db', f, k) ensures IsBooked(db', f, k) {
      if k < |db.receipts| {
        assert HasReference(db, f, k);
        BookedPersists(db, db', f, k);
      }
    }
  }

  /** Some arrival is decisive when it comes. */
  ghost predicate SettlesAmong(db: Db, f: Fact, events: seq<Event>)
    decreases |events|
  {
    events != [] && ((events[0].Arrives? && Decisive(db, f, events[0].arrival)) || SettlesAmong(Happen(db, f, events[0]), f, events[1..]))
  }

  lemma HappenKeepsInv(db: Db, f: Fact, e: Event)
    requires Inv(db)
    ensures Inv(Happen(db, f, e))
  {
    match e
    case Arrives(a) => SettleKeepsInv(db, InputOf(f, a), a.now, a.admitted);
    case Other(op, now) => ApplyKeepsInv(db, op, now);
  }

  /**
   Whatever else happens in between: at the end the reference has at most one receipt, it is the
   receipt of this payment on its PAID order, and it is there if some arrival was decisive.
   */
  lemma {:induction false} InterleavedArrivalsAgree(db: Db, f: Fact, events: seq<Event>)
    requires Inv(db) && ValidFact(f) && OnlyThis(db, f) && forall i :: 0 <= i < |events| ==> Concerns(f, events[i])
    ensures var end := HappenAll(db, f, events);
      && Inv(end) && OnlyThis(end, f)
      && (forall j: nat, k: nat :: HasReference(end, f, j) && HasReference(end, f, k) ==> j == k)
      && (forall k: nat :: HasReference(db, f, k) ==> HasReference(end, f, k))
      && (SettlesAmong(db, f, events) ==> exists k: nat :: HasReference(end, f, k))
    decreases |events|
  {
    if events != [] {
      var next := Happen(db, f, events[0]);
      assert Concerns(f, events[0]);
      HappenKeepsInv(db, f, events[0]);
      match events[0] {
        case Arrives(a) => ArrivalKeepsOnlyThis(db, f, a);
        case Other(op, now) => OtherKeepsOnlyThis(db, f, op, now);
      }
      InterleavedArrivalsAgree(next, f, events[1..]);
    }
  }
}
