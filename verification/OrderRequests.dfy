/**
 What a request for a payment order is answered (ReservePaymentOrder,
 internal/storage/payment_orders.go), now and at any later time, and what claim and renewal
 grant.
 */
module OrderRequests {
  import opened Options
  import opened PaymentTables
  import opened OrderLeases
  import opened PaymentRuns
  import opened OrderHistory

  /** The order that was issued for this key. */
  ghost predicate IssuedFor(db: Db, in_: Intent, i: nat) {
    i < |db.orders| && db.orders[i].channel == in_.channel && db.orders[i].key == in_.key
  }

  predicate SameRequest(o: Order, in_: Intent) {
    o.requestHash == in_.requestHash && o.amount == in_.amount && o.origin == in_.origin
  }

  lemma FoundKey(db: Db, in_: Intent, i: nat)
    requires Inv(db) && IssuedFor(db, in_, i)
    ensures IndexOfKey(db.orders, in_.channel, in_.key) == Some(i)
  {
  }

  /** A known key is replayed iff hash, amount and origin are the issued ones, and conflicts otherwise, gate open or not. */
  lemma KnownKeyIsReplayedIff(db: Db, in_: Intent, i: nat, draws: seq<int>, now: int, admitted: bool)
    requires Inv(db) && ValidIntent(in_) && IssuedFor(db, in_, i)
    ensures Reserve(db, in_, draws, now, admitted) == (db, if SameRequest(db.orders[i], in_) then Replayed(i) else KeyConflict)
  {
    FoundKey(db, in_, i);
  }

  /** The code a new order gets: drawn, free, and no earlier draw was free. */
  ghost predicate FirstFree(db: Db, draws: seq<int>, code: int) {
    (forall o :: o in db.orders ==> o.code != code)
    && exists k :: 0 <= k < |draws| && draws[k] == code && forall j :: 0 <= j < k ==> IndexOfCode(db.orders, draws[j]).Some?
  }

  lemma {:induction false} FirstFreeIsFirst(db: Db, draws: seq<int>)
    ensures FirstFreeCode(db.orders, draws).Some? ==> FirstFree(db, draws, FirstFreeCode(db.orders, draws).value)
    ensures FirstFreeCode(db.orders, draws).Some? <==> exists d :: d in draws && forall o :: o in db.orders ==> o.code != d
    decreases |draws|
  {
    if draws != [] {
      FirstFreeIsFirst(db, draws[1..]);
      var first := FirstFreeCode(db.orders, draws);
      CodeFree(db, draws[0]);
      if first.Some? && IndexOfCode(db.orders, draws[0]).Some? {
        CodeFree(db, first.value);
        var k :| 0 <= k < |draws[1..]| && draws[1..][k] == first.value && forall j :: 0 <= j < k ==> IndexOfCode(db.orders, draws[1..][j]).Some?;
        assert draws[k + 1] == first.value;
        forall j | 0 <= j < k + 1 ensures IndexOfCode(db.orders, draws[j]).Some? {
          if j > 0 { assert draws[j] == draws[1..][j - 1]; }
        }
      }
      if d :| d in draws && forall o :: o in db.orders ==> o.code != d {
        CodeFree(db, d);
        assert d == draws[0] || d in draws[1..];
      }
    }
  }

  lemma CodeFree(db: Db, code: int)
    ensures IndexOfCode(db.orders, code).None? <==> forall o :: o in db.orders ==> o.code != code
  {
    var k := IndexOfCode(db.orders, code);
    if k.Some? { assert db.orders[k.value] in db.orders; }
  }

  /**
   A new key is issued iff the gate admits it and some drawn code is free. The order is the request's own, under
   the first free code, unbound, CREATING, leased to its creator for half a minute and valid for half an hour.
   */
  lemma NewKeyIsIssuedIff(db: Db, in_: Intent, draws: seq<int>, now: int, admitted: bool)
    requires Inv(db) && ValidIntent(in_) && forall i: nat :: !IssuedFor(db, in_, i)
    ensures var (db', r) := Reserve(db, in_, draws, now, admitted);
      && (r.Created? <==> admitted && exists d :: d in draws && forall o :: o in db.orders ==> o.code != d)
      && (!r.Created? ==> db' == db && r == if admitted then GaveUp else ReserveRefused)
      && (r.Created? ==>
            && r.order == |db.orders| && |db'.orders| == |db.orders| + 1 && db'.orders[..|db.orders|] == db.orders
            && db' == db.(orders := db'.orders, nextToken := db.nextToken + 1)
            && var o := db'.orders[r.order];
               && FirstFree(db, draws, o.code) && o.channel == in_.channel && o.key == in_.key && SameRequest(o, in_)
               && o.status.Creating? && o.link == "" && o.qr == "" && o.account == "" && o.txn.None? && !o.qrAttempted
               && o.lease == Some(Lease(db.nextToken, now + 30 * SECOND)) && o.next == Some(now + 30 * SECOND)
               && o.expiresAt == now + 30 * 60 * SECOND && o.attempts == 0 && o.lastError.NoError?)
  {
    var k := IndexOfKey(db.orders, in_.channel, in_.key);
    if k.Some? { assert IssuedFor(db, in_, k.value); }
    FirstFreeIsFirst(db, draws);
  }

  /** An incomplete request is refused before anything else. */
  lemma IncompleteRequestIsRefused(db: Db, in_: Intent, draws: seq<int>, now: int, admitted: bool)
    ensures Reserve(db, in_, draws, now, admitted).1 == InvalidIntent <==>
              in_.channel == "" || in_.key == "" || in_.requestHash == "" || in_.amount <= 0
    ensures Reserve(db, in_, draws, now, admitted).1 == InvalidIntent ==> Reserve(db, in_, draws, now, admitted).0 == db
  {
  }

  /**
   Once a request was answered with an order, the same request is answered with that order at any later time,
   whatever happened in between, and one that changes hash, amount or origin under its key conflicts.
   */
  lemma AnswerIsForever(db: Db, in_: Intent, draws: seq<int>, now: int, admitted: bool, steps: seq<Step>,
                        again: Intent, redraws: seq<int>, later: int, admittedLater: bool, i: nat)
    requires Inv(db) && ValidIntent(again) && again.channel == in_.channel && again.key == in_.key
    requires var r := Reserve(db, in_, draws, now, admitted).1; r == Created(i) || r == Replayed(i)
    ensures var end := Run(Reserve(db, in_, draws, now, admitted).0, steps);
      Reserve(end, again, redraws, later, admittedLater) == (end, if again == in_ then Replayed(i) else KeyConflict)
  {
    var first := Reserve(db, in_, draws, now, admitted).0;
    ApplyKeepsInv(db, ReserveOp(in_, draws, admitted), now);
    RunKeepsInv(first, steps);
    RunEvolves(first, steps);
    var end := Run(first, steps);
    assert IssuedFor(first, in_, i) && SameRequest(first.orders[i], in_);
    assert Evolves(first.orders[i], end.orders[i]);
    KnownKeyIsReplayedIff(end, again, i, redraws, later, admittedLater);
  }

  // ---------------------------------------------------------------- claim and renewal

  /** The order after a grant: leased for half a minute from now, due then or when it was if that is later, otherwise as it was. */
  ghost predicate Granted(o: Order, o': Order, token: nat, now: int) {
    && o'.lease == Some(Lease(token, now + 30 * SECOND))
    && o'.next == Some(if o.next.None? then now + 30 * SECOND else Max(o.next.value, now + 30 * SECOND))
    && o' == o.(lease := o'.lease, next := o'.next, qrAttempted := o'.qrAttempted)
  }

  /** A claim is granted iff the order exists, is unpaid and has no unexpired lease, under an open gate. */
  lemma ClaimIff(db: Db, id: nat, now: int, admitted: bool)
    ensures var (db', r) := Claim(db, id, now, admitted);
      var free := id < |db.orders| && !db.orders[id].status.Paid? && !(db.orders[id].lease.Some? && now < db.orders[id].lease.value.until);
      && (r.Claimed? <==> free && admitted) && (!r.Claimed? ==> db' == db)
      && (r.NoOrder? <==> id >= |db.orders|) && (r.ClaimRefused? <==> free && !admitted)
      && (r.Claimed? ==>
            && |db'.orders| == |db.orders| && db' == db.(orders := db.orders[id := db'.orders[id]], nextToken := db.nextToken + 1)
            && Granted(db.orders[id], db'.orders[id], db.nextToken, now) && db'.orders[id].qrAttempted == db.orders[id].qrAttempted
            && r.snapshot == db'.orders[id])
  {
  }

  /** A renewal is granted iff the token still owns the unpaid order, expired or not, under an open gate. */
  lemma RenewIff(db: Db, id: nat, token: nat, qr: bool, now: int, admitted: bool)
    ensures var (db', r) := Renew(db, id, token, qr, now, admitted);
      var owns := id < |db.orders| && db.orders[id].lease.Some? && db.orders[id].lease.value.token == token && !db.orders[id].status.Paid?;
      && (r.Renewed? <==> owns && admitted) && (!r.Renewed? ==> db' == db) && (r.RenewRefused? <==> owns && !admitted)
      && (r.Renewed? ==>
            && |db'.orders| == |db.orders| && db' == db.(orders := db.orders[id := db'.orders[id]])
            && Granted(db.orders[id], db'.orders[id], token, now) && db'.orders[id].qrAttempted == (db.orders[id].qrAttempted || qr)
            && r.snapshot == db'.orders[id])
  {
  }

  /** A completion by the owner of an unpaid order: each offered column is bound if it was empty, the status is the
      offered one, and the lease is gone. Of a PAID order only lease, schedule and counters move. */
  lemma CompleteIff(db: Db, id: nat, token: nat, u: Update, admitted: bool)
    ensures var (db', r) := Complete(db, id, token, u, admitted);
      var owns := id < |db.orders| && db.orders[id].lease.Some? && db.orders[id].lease.value.token == token;
      && (r.Completed? <==> ValidUpdate(u) && owns && admitted) && (!r.Completed? ==> db' == db)
      && (r.Completed? ==>
            && |db'.orders| == |db.orders| && db' == db.(orders := db.orders[id := db'.orders[id]])
            && var o, o' := db.orders[id], db'.orders[id];
            && o'.lease.None? && r.snapshot == o'
            && o'.link == (if o.link == "" then u.link else o.link)
            && o'.qr == (if o.qr == "" then u.qr else o.qr)
            && o'.account == (if o.account == "" then u.account else o.account)
            && (!o.status.Paid? ==>
                  && o'.status == (if u.status.Some? then u.status.value else o.status) && o'.lastError == u.lastError
                  && (o'.next == u.next || ((o'.status.Creating? || o'.status.Processing?) && o'.next == Some(o.lease.value.until))))
            && (o.status.Paid? ==> o'.status.Paid? && o'.lastError == o.lastError && o'.next.None?)
            && o' == o.(status := o'.status, link := o'.link, qr := o'.qr, account := o'.account, lastError := o'.lastError,
                        next := o'.next, attempts := o'.attempts, qrAttempted := o.qrAttempted || u.qrAttempted, lease := None))
  {
  }
}
