/**
 What the payment workers achieve (internal/payments/reconcile.go, cancel.go,
 order_create.go): from every reachable state, what a reply followed by the worker's own
 transactions leaves in the order's row, and that a payment whose callback was lost is
 booked by a recovery that runs undisturbed.
 */
module RecoveryProgress {
  import opened Options
  import opened PaymentTables
  import opened OrderLeases
  import opened Settlement
  import opened PaymentRuns
  import opened OrderHistory
  import opened Confluence
  import opened RecoveryLogic
  import opened RecoveryRuns
  import opened RecoverySafety
  import LinkSettlement
  import SettlementAnswers
  import SettlementFrames

  /** Worker w holds the token of an unpaid order. */
  ghost predicate Owns(s: Sys, w: nat) {
    var pc := PcOf(s, w);
    !pc.Idle? && HasToken(s.db, pc.j.id, pc.j.token) && !s.db.orders[pc.j.id].status.Paid?
  }

  function RowOf(s: Sys, w: nat): Order
    requires !PcOf(s, w).Idle? && PcOf(s, w).j.id < |s.db.orders|
  {
    s.db.orders[PcOf(s, w).j.id]
  }

  lemma OwnerKnows(s: Sys, w: nat)
    requires SysInv(s) && Owns(s, w)
    ensures var j, o := PcOf(s, w).j, RowOf(s, w);
      && JobOk(s.db, j) && o.lease.Some? && o.code == j.o.code && o.amount == j.o.amount && o.expiresAt == j.o.expiresAt
      && o.link == j.o.link && o.status == j.o.status && o.qr == j.o.qr && o.account == j.o.account
      && o.attempts == j.o.attempts >= 0 && o.qrAttempted == j.o.qrAttempted
  {
    assert PcInv(s, PcOf(s, w));
    assert OrderFacts(s.log, PcOf(s, w).j.id, RowOf(s, w), s.clock);
  }

  /** Only the order's row changed, and the worker is done. */
  ghost predicate Ends(s: Sys, s': Sys, w: nat, o': Order)
    requires !PcOf(s, w).Idle? && PcOf(s, w).j.id < |s.db.orders|
  {
    s'.db == s.db.(orders := s.db.orders[PcOf(s, w).j.id := o']) && PcOf(s', w).Idle?
  }

  lemma FinishWrites(s: Sys, w: nat)
    requires SysInv(s) && Owns(s, w) && PcOf(s, w).Finishing? && ValidUpdate(PcOf(s, w).u)
    ensures RowOf(s, w).lease.Some? && Ends(s, Next(s, FinishStep(w, true)), w, CompletedOrder(RowOf(s, w), PcOf(s, w).u))
  {
  }

  /** The worker's reply, then its completion under an open gate. */
  function Concluded(s: Sys, step: SysStep, w: nat): Sys {
    Next(Next(s, step), FinishStep(w, true))
  }

  predicate Replies(step: SysStep, w: nat) {
    (step.LinkReplyStep? || step.CreateReplyStep?) && step.w == w
  }

  /** A reply commits nothing: the next state differs in the worker and the log. */
  lemma ReplyKeepsRow(s: Sys, step: SysStep, w: nat)
    requires SysInv(s) && Owns(s, w) && Replies(step, w) && Enabled(s, step)
    ensures var s1 := Next(s, step);
      && SysInv(s1) && s1.db == s.db && s1.clock == s.clock && (PcOf(s1, w).Idle? || PcOf(s1, w).j.id == PcOf(s, w).j.id)
  {
    hide SysInv;
    NextKeepsInv(s, step);
  }

  lemma ConcludedRow(s: Sys, step: SysStep, w: nat, j: Job, u: Update)
    requires SysInv(s) && Owns(s, w) && Replies(step, w) && Enabled(s, step)
    requires PcOf(Next(s, step), w) == Finishing(j, u) && ValidUpdate(u) && j.id == PcOf(s, w).j.id && j.token == PcOf(s, w).j.token
    ensures RowOf(s, w).lease.Some? && Ends(s, Concluded(s, step, w), w, CompletedOrder(RowOf(s, w), u))
  {
    ReplyKeepsRow(s, step, w);
    FinishWrites(Next(s, step), w);
  }

  lemma ConcludedInv(s: Sys, step: SysStep, w: nat)
    requires SysInv(s)
    ensures SysInv(Concluded(s, step, w)) && Inv(Concluded(s, step, w).db)
  {
    NextKeepsInv(s, step);
    NextKeepsInv(Next(s, step), FinishStep(w, true));
  }

  // ---------------------------------------------------------------- Create

  /** A usable answer to a Create for this order and the link the worker knows. */
  predicate UsableCreate(o: Order, known: string, r: CreateResponse) {
    && r.code == o.code && r.amount == o.amount && r.vnd && r.pending && r.complete
    && !Blank(r.link) && !Blank(r.qr) && !Blank(r.account) && (known == "" || known == r.link)
  }

  /** The row of a created order: PENDING, and bound to the reply's link, QR and account as far as it was unbound. */
  ghost predicate BoundTo(o: Order, o': Order, r: CreateResponse, now: int) {
    && o'.status.Pending? && o'.lastError.NoError? && o'.next == Some(now + MINUTE) && o'.lease.None?
    && o'.link == (if o.link != "" then o.link else r.link)
    && o'.qr == (if o.qr != "" then o.qr else r.qr)
    && o'.account == (if o.account != "" then o.account else r.account)
    && o' == o.(status := o'.status, link := o'.link, qr := o'.qr, account := o'.account, lastError := o'.lastError,
                next := o'.next, attempts := o'.attempts, lease := o'.lease)
  }

  /** A usable Create reply and the completion under it bind the order. */
  lemma CreateBinds(s: Sys, w: nat, r: CreateResponse, jitter: int)
    requires SysInv(s) && Owns(s, w) && Enabled(s, CreateReplyStep(w, GotCreate(r), jitter))
    requires UsableCreate(RowOf(s, w), PcOf(s, w).j.link, r)
    ensures var s' := Concluded(s, CreateReplyStep(w, GotCreate(r), jitter), w);
      && PcOf(s, w).j.id < |s'.db.orders| && Ends(s, s', w, s'.db.orders[PcOf(s, w).j.id])
      && BoundTo(RowOf(s, w), s'.db.orders[PcOf(s, w).j.id], r, s.clock)
  {
    hide SysInv;
    OwnerKnows(s, w);
    var step, pc := CreateReplyStep(w, GotCreate(r), jitter), PcOf(s, w);
    var u := if pc.FirstCreate? then CreatedUpdate(r, s.clock).(reset := false) else CreatedUpdate(r, s.clock);
    assert ValidCreate(pc.j, r);
    ConcludedRow(s, step, w, pc.j, u);
  }

  /** From then on the payer's own callback books the payment. */
  lemma CreatedOrderTakesCallback(s: Sys, w: nat, r: CreateResponse, jitter: int, f: Fact, a: Arrival)
    requires SysInv(s) && Owns(s, w) && Enabled(s, CreateReplyStep(w, GotCreate(r), jitter))
    requires UsableCreate(RowOf(s, w), PcOf(s, w).j.link, r)
    requires var o := RowOf(s, w);
      (o.link == "" || o.link == r.link) && (o.account == "" || o.account == r.account)
      && f == Fact(o.channel, o.code, r.link, f.reference, o.amount, f.at, r.account)
    requires ValidFact(f) && Agrees(f, a) && a.CallbackArrival? && a.admitted
    requires IndexOfReceipt(s.db.receipts, f.channel, f.reference).None?
    ensures var db := Concluded(s, CreateReplyStep(w, GotCreate(r), jitter), w).db;
      BoundAndLive(db, f) && Decisive(db, f, a) && Settle(db, InputOf(f, a), a.now, true).1 == Settled(PcOf(s, w).j.id, false)
  {
    hide SysInv, Next, Concluded;
    var id, step := PcOf(s, w).j.id, CreateReplyStep(w, GotCreate(r), jitter);
    CreateBinds(s, w, r, jitter);
    ConcludedInv(s, step, w);
    CallbackBooks(Concluded(s, step, w).db, f, a, id);
  }

  lemma CallbackBooks(db: Db, f: Fact, a: Arrival, id: nat)
    requires Inv(db) && ValidFact(f) && Agrees(f, a) && a.CallbackArrival? && a.admitted && id < |db.orders|
    requires var o := db.orders[id];
      && o.code == f.code && o.channel == f.channel && o.amount == f.amount && o.link == f.link && o.account == f.account
      && !o.status.Paid? && !Terminal(o.status)
    requires IndexOfReceipt(db.receipts, f.channel, f.reference).None?
    ensures BoundAndLive(db, f) && Decisive(db, f, a) && Settle(db, InputOf(f, a), a.now, true).1 == Settled(id, false)
  {
    assert OrderOk(db, id);
    SettlementAnswers.FoundOrder(db, InputOf(f, a), id);
    SettlementAnswers.CallbackIsAnswered(db, f, a, id);
  }

  // ---------------------------------------------------------------- retries

  /** The provider refused: a client error that is neither a timeout nor a rate limit, reported beyond doubt. */
  predicate Refused(f: Failure) {
    f.ProviderFailure? && !f.indeterminate && f.http / 100 == 4 && f.http !in {408, 429}
  }

  /** A definite rejection is remembered as such, any other failed Create as unknown; a bad answer as invalid. */
  function FirstCreateError(reply: CreateReply): ErrorCode {
    if !reply.CreateError? then InvalidCreateResponse
    else if Refused(reply.failure) then CreateRejected(reply.failure.http) else CreateOutcomeUnknown
  }

  /** A first Create without a usable answer leaves the order unbound and due when its lease ends, or later if the provider says so. */
  lemma FirstCreateFails(s: Sys, w: nat, reply: CreateReply, jitter: int)
    requires SysInv(s) && Owns(s, w) && PcOf(s, w).FirstCreate?
    requires reply.GotCreate? ==> !ValidCreate(PcOf(s, w).j, reply.response)
    ensures var o, s' := RowOf(s, w), Concluded(s, CreateReplyStep(w, reply, jitter), w);
      && PcOf(s, w).j.id < |s'.db.orders| && Ends(s, s', w, s'.db.orders[PcOf(s, w).j.id])
      && var o' := s'.db.orders[PcOf(s, w).j.id];
      && o'.status.Creating? && o'.lastError == FirstCreateError(reply) && o'.lease.None?
      && o'.link == o.link && o'.qr == o.qr && o'.account == o.account
      && o.lease.Some? && o'.next.Some? && o'.next.value >= o.lease.value.until
      && (reply.CreateError? && reply.failure.ProviderFailure? ==> o'.next.value >= s.clock + reply.failure.retryAfter)
  {
    hide SysInv;
    OwnerKnows(s, w);
    var step, j := CreateReplyStep(w, reply, jitter), PcOf(s, w).j;
    ConcludedRow(s, step, w, j, AfterFirstCreate(j, reply, s.clock).u);
  }

  /** Nothing was decided: the order is as it was, one attempt older, and due after the backoff. */
  ghost predicate Retried(o: Order, o': Order, code: ErrorCode, failure: Option<Failure>, now: int, jitter: int) {
    && o'.next.Some? && o'.next.value >= now + FailureDelay(o, failure, jitter)
    && (o'.next.value > now + FailureDelay(o, failure, jitter) ==>
          (o.status.Creating? || o.status.Processing?) && o.lease.Some? && o'.next == Some(o.lease.value.until))
    && o'.lastError == (if now >= RetentionEnd(o) && o.status.Creating? then CreateOutcomeUnknown else code)
    && o' == o.(next := o'.next, lastError := o'.lastError, attempts := o.attempts + 1, lease := None)
  }

  lemma RetryConcludes(s: Sys, w: nat, step: SysStep, failure: Option<Failure>, code: ErrorCode, jitter: int)
    requires SysInv(s) && Owns(s, w) && Replies(step, w) && Enabled(s, step) && !code.ProviderUnavailable?
    requires PcOf(Next(s, step), w) == Retry(PcOf(s, w).j, failure, code, s.clock, jitter)
    ensures var s' := Concluded(s, step, w);
      && PcOf(s, w).j.id < |s'.db.orders| && Ends(s, s', w, s'.db.orders[PcOf(s, w).j.id])
      && Retried(RowOf(s, w), s'.db.orders[PcOf(s, w).j.id], code, failure, s.clock, jitter)
  {
    hide SysInv, Next, Concluded;
    OwnerKnows(s, w);
    var j := PcOf(s, w).j;
    ConcludedRow(s, step, w, j, FailureUpdate(j.o, failure, code, s.clock, jitter));
  }

  // ---------------------------------------------------------------- Get

  /** The link is this order's, and the one the worker knows if it knows one. */
  predicate IsLinkOf(o: Order, known: string, link: PaymentLink) {
    link.code == o.code && link.amount == o.amount && !Blank(link.id) && (known == "" || known == link.id)
  }

  lemma MatchesRow(s: Sys, w: nat, link: PaymentLink)
    requires SysInv(s) && Owns(s, w)
    ensures LinkMatches(PcOf(s, w).j, link) <==> IsLinkOf(RowOf(s, w), PcOf(s, w).j.link, link)
  {
    OwnerKnows(s, w);
  }

  predicate AwaitsGet(s: Sys, w: nat) { PcOf(s, w).During? && PcOf(s, w).call == GetCall }

  /** A foreign link, or a status nobody knows, only retries. */
  lemma OddLinkIsRetried(s: Sys, w: nat, link: PaymentLink, jitter: int, jitter2: int)
    requires SysInv(s) && Owns(s, w) && AwaitsGet(s, w)
    requires !IsLinkOf(RowOf(s, w), PcOf(s, w).j.link, link) || link.status.LinkOther?
    ensures var s' := Concluded(s, LinkReplyStep(w, GotLink(link), jitter, jitter2), w);
      && PcOf(s, w).j.id < |s'.db.orders| && Ends(s, s', w, s'.db.orders[PcOf(s, w).j.id])
      && Retried(RowOf(s, w), s'.db.orders[PcOf(s, w).j.id],
                 if IsLinkOf(RowOf(s, w), PcOf(s, w).j.link, link) then PaymentDetailsPendingError else PaymentMismatchError,
                 None, s.clock, jitter)
  {
    hide SysInv;
    MatchesRow(s, w, link);
    RetryConcludes(s, w, LinkReplyStep(w, GotLink(link), jitter, jitter2), None,
                   if LinkMatches(PcOf(s, w).j, link) then PaymentDetailsPendingError else PaymentMismatchError, jitter);
  }

  /** The order's row after a link with this status was verified. */
  ghost predicate StatusWritten(o: Order, o': Order, link: PaymentLink, status: Status) {
    && o'.status == status && o'.link == (if o.link != "" then o.link else link.id) && o'.attempts == 0 && o'.lease.None?
    && o' == o.(status := o'.status, link := o'.link, lastError := o'.lastError, next := o'.next, attempts := 0, lease := None)
  }

  /** Whether a live link calls for more than its status: a cancellation of unknown outcome, or a QR never stored. */
  predicate NeedsRecovery(j: Job, link: PaymentLink) {
    j.o.lastError.CancelOutcomeUnknown? || (j.o.qr == "" && link.status.LinkPending?)
  }

  /** A live link that needs nothing else ends with exactly its status on the order, looked at again in a minute. */
  lemma LiveLinkIsWritten(s: Sys, w: nat, link: PaymentLink, jitter: int, jitter2: int)
    requires SysInv(s) && Owns(s, w) && AwaitsGet(s, w) && IsLinkOf(RowOf(s, w), PcOf(s, w).j.link, link)
    requires link.status.LinkPending? || link.status.LinkProcessing? || link.status.LinkUnderpaid?
    requires !NeedsRecovery(PcOf(s, w).j, link)
    ensures var o, s' := RowOf(s, w), Concluded(s, LinkReplyStep(w, GotLink(link), jitter, jitter2), w);
      && PcOf(s, w).j.id < |s'.db.orders| && Ends(s, s', w, s'.db.orders[PcOf(s, w).j.id])
      && var o' := s'.db.orders[PcOf(s, w).j.id];
      && (link.status.LinkPending? ==> StatusWritten(o, o', link, Pending))
      && (link.status.LinkProcessing? ==> StatusWritten(o, o', link, Processing))
      && (link.status.LinkUnderpaid? ==> StatusWritten(o, o', link, Underpaid))
      && o'.lastError.NoError? && o'.next.Some? && o'.next.value >= s.clock + MINUTE
      && (!link.status.LinkProcessing? ==> o'.next.value == s.clock + MINUTE)
  {
    hide SysInv;
    OwnerKnows(s, w);
    MatchesRow(s, w, link);
    var step, j := LinkReplyStep(w, GotLink(link), jitter, jitter2), PcOf(s, w).j;
    ConcludedRow(s, step, w, j, ApplyLink(j, link, s.clock, jitter).u);
  }

  /** A terminal link ends with exactly its status, looked at once more when retention ends. */
  lemma TerminalLinkIsWritten(s: Sys, w: nat, link: PaymentLink, jitter: int, jitter2: int)
    requires SysInv(s) && Owns(s, w) && AwaitsGet(s, w) && IsLinkOf(RowOf(s, w), PcOf(s, w).j.link, link)
    requires link.status.LinkCancelled? || link.status.LinkExpired? || link.status.LinkFailed?
    ensures var o, s' := RowOf(s, w), Concluded(s, LinkReplyStep(w, GotLink(link), jitter, jitter2), w);
      && PcOf(s, w).j.id < |s'.db.orders| && Ends(s, s', w, s'.db.orders[PcOf(s, w).j.id])
      && var o' := s'.db.orders[PcOf(s, w).j.id];
      && (link.status.LinkCancelled? ==> StatusWritten(o, o', link, Cancelled))
      && (link.status.LinkExpired? ==> StatusWritten(o, o', link, Expired))
      && (link.status.LinkFailed? ==> StatusWritten(o, o', link, Failed))
      && o'.next == (if s.clock >= RetentionEnd(o) then None else Some(RetentionEnd(o)))
      && o'.lastError == (if o.qrAttempted && o.qr == "" && link.status.LinkCancelled? then QrRecoveryCancelled else NoError)
  {
    hide SysInv;
    OwnerKnows(s, w);
    MatchesRow(s, w, link);
    var step, j := LinkReplyStep(w, GotLink(link), jitter, jitter2), PcOf(s, w).j;
    ConcludedRow(s, step, w, j, TerminalUpdate(j, link, s.clock));
  }

  // ---------------------------------------------------------------- PAID

  /** Reply, settlement with the Get built from it, completion. */
  function Paid3(s: Sys, w: nat, link: PaymentLink, f: Fact, a: Arrival, jitter: int): Sys {
    var s1 := Next(s, LinkReplyStep(w, GotLink(link), jitter, jitter));
    var s2 := Next(s1, SettleStep(w, InputOf(f, a), true, true, jitter));
    Next(s2, FinishStep(w, true))
  }

  /** The fact a PAID link states of its order. */
  predicate StatesPayment(link: PaymentLink, f: Fact) {
    link.status.LinkPaid? && f.code == link.code && f.amount == link.amount && f.link == link.id
  }

  /** Whether the reply of this call settles when it is a matching PAID link. */
  predicate MaySettle(pc: Pc) { pc.During? && (pc.call == GetCall || pc.call.GetAfterCancel?) }

  /**
   A matching PAID reply to a Get, the settlement the service builds from it, and the completion
   end with the order PAID and its receipt written, whenever the payment is open and its pending
   callbacks do not all disagree.
   */
  lemma PaidLinkIsSettled(s: Sys, w: nat, link: PaymentLink, f: Fact, a: Arrival, jitter: int)
    requires SysInv(s) && Owns(s, w) && MaySettle(PcOf(s, w)) && IsLinkOf(RowOf(s, w), PcOf(s, w).j.link, link)
    requires StatesPayment(link, f) && ValidFact(f) && Open(s.db, f) && ServiceGet(s.db, f, a) && a.now == s.clock
    ensures var s' := Paid3(s, w, link, f, a, jitter);
      && SysInv(s') && LinkSettlement.Received(s'.db, f) && BooksOf(s'.db) == Booked(s.db, f)
      && PcOf(s', w).Idle? && PcOf(s, w).j.id < |s'.db.orders|
      && s'.db.orders[PcOf(s, w).j.id].status.Paid? && s'.db.orders[PcOf(s, w).j.id].lease.None?
  {
    hide SysInv, Settle;
    var step := LinkReplyStep(w, GotLink(link), jitter, jitter);
    MatchesRow(s, w, link);
    ReplyKeepsRow(s, step, w);
    var s1 := Next(s, step);
    SettledOnce(s1, w, f, a, jitter);
  }

  lemma ServiceGetIsDecisive(db: Db, f: Fact, a: Arrival)
    requires Inv(db) && ValidFact(f) && Open(db, f) && ServiceGet(db, f, a)
    ensures Decisive(db, f, a) && Settle(db, InputOf(f, a), a.now, true).1.Settled?
    ensures LinkSettlement.Received(Arrive(db, f, a), f) && BooksOf(Arrive(db, f, a)) == Booked(db, f)
  {
    ServiceGetSettles(db, f, f.account, a.now);
    DecisiveBooks(db, f, a);
    DecisiveIsAccept(db, f, a);
    AcceptedKeyIsFree(db, InputOf(f, a));
    LinkSettlement.BookedIsReceived(db, f, a);
  }

  /** From the decision to settle: the settlement and the completion. */
  lemma SettledOnce(s: Sys, w: nat, f: Fact, a: Arrival, jitter: int)
    requires SysInv(s) && Owns(s, w) && PcOf(s, w).Settling? && PcOf(s, w).j.o.code == f.code
    requires ValidFact(f) && Open(s.db, f) && ServiceGet(s.db, f, a) && a.now == s.clock
    ensures var s' := Next(Next(s, SettleStep(w, InputOf(f, a), true, true, jitter)), FinishStep(w, true));
      && SysInv(s') && LinkSettlement.Received(s'.db, f) && BooksOf(s'.db) == Booked(s.db, f)
      && PcOf(s', w).Idle? && PcOf(s, w).j.id < |s'.db.orders|
      && s'.db.orders[PcOf(s, w).j.id].status.Paid? && s'.db.orders[PcOf(s, w).j.id].lease.None?
  {
    hide Settle, LinkSettlement.Received;
    var step := SettleStep(w, InputOf(f, a), true, true, jitter);
    ServiceGetIsDecisive(s.db, f, a);
    NextKeepsInv(s, step);
    var s2 := Next(s, step);
    assert s2.db == Arrive(s.db, f, a) && PcOf(s2, w) == Finishing(PcOf(s, w).j, NoUpdate);
    NextKeepsInv(s2, FinishStep(w, true));
    PaidOrderCompletes(s, s2, w, f, a);
  }

  lemma PaidOrderCompletes(s: Sys, s2: Sys, w: nat, f: Fact, a: Arrival)
    requires SysInv(s) && Owns(s, w) && PcOf(s, w).j.o.code == f.code
    requires ValidFact(f) && Open(s.db, f) && ServiceGet(s.db, f, a)
    requires s2.db == Arrive(s.db, f, a) && PcOf(s2, w) == Finishing(PcOf(s, w).j, NoUpdate)
    ensures var s' := Next(s2, FinishStep(w, true));
      && LinkSettlement.Received(s'.db, f) && BooksOf(s'.db) == Booked(s.db, f)
      && PcOf(s', w).Idle? && PcOf(s, w).j.id < |s'.db.orders|
      && s'.db.orders[PcOf(s, w).j.id].status.Paid? && s'.db.orders[PcOf(s, w).j.id].lease.None?
  {
    hide SysInv, Arrive, LinkSettlement.Received, BooksOf, Booked;
    var j := PcOf(s, w).j;
    OwnerKnows(s, w);
    LedgerOf(s);
    ServiceGetIsDecisive(s.db, f, a);
    PaidKeepsToken(s.db, f, a, j.id, j.token);
    CompletePaid(s2.db, f, j.id, j.token);
  }

  lemma LedgerOf(s: Sys)
    requires SysInv(s)
    ensures Inv(s.db)
  {
  }

  /** The settlement pays the order and leaves its lease. */
  lemma PaidKeepsToken(db: Db, f: Fact, a: Arrival, id: nat, token: nat)
    requires Inv(db) && ValidFact(f) && Open(db, f) && ServiceGet(db, f, a)
    requires HasToken(db, id, token) && db.orders[id].code == f.code
    ensures HasToken(Arrive(db, f, a), id, token) && Arrive(db, f, a).orders[id].status.Paid?
  {
    hide Settle;
    var s := InputOf(f, a);
    ServiceGetIsDecisive(db, f, a);
    DecisiveIsAccept(db, f, a);
    AcceptedKeyIsFree(db, s);
    SettlementFrames.AcceptedPaysOneOrder(db, s, a.now);
    SettlementAnswers.FoundOrder(db, s, id);
  }

  /** Completing a PAID order only clears its lease and schedule. */
  lemma CompletePaid(db: Db, f: Fact, id: nat, token: nat)
    requires HasToken(db, id, token) && db.orders[id].status.Paid? && LinkSettlement.Received(db, f)
    ensures var (db', r) := Complete(db, id, token, NoUpdate, true);
      && r.Completed? && |db'.orders| == |db.orders| && db'.orders[id].status.Paid? && db'.orders[id].lease.None?
      && BooksOf(db') == BooksOf(db) && LinkSettlement.Received(db', f)
  {
    var db' := Complete(db, id, token, NoUpdate, true).0;
    SameCodes(db.orders, db'.orders, f.code, 0);
    assert forall i :: 0 <= i < |db.orders| ==> OrderBooksOf(db'.orders[i]) == OrderBooksOf(db.orders[i]);
    assert BooksOf(db').orders == BooksOf(db).orders;
  }

  // ---------------------------------------------------------------- claim, renew, and then

  /** A lease was taken or extended: nothing else about the order changed but its schedule and the QR mark. */
  ghost predicate Leased(o: Order, o': Order, token: nat, now: int) {
    && o'.lease == Some(Lease(token, now + OPERATION_LEASE)) && o'.next.Some? && o'.next.value >= now + OPERATION_LEASE
    && o' == o.(lease := o'.lease, next := o'.next, qrAttempted := o'.qrAttempted)
  }

  /** The renewal under an open gate and a free slot sends the request. */
  lemma RenewSends(s: Sys, w: nat, jitter: int)
    requires SysInv(s) && Owns(s, w) && PcOf(s, w).Before?
    ensures var s1, pc := Next(s, RenewStep(w, true, true, jitter, jitter)), PcOf(s, w);
      && SysInv(s1) && Owns(s1, w) && s1.clock == s.clock && PcOf(s1, w).During? && PcOf(s1, w).call == pc.call
      && PcOf(s1, w).j.id == pc.j.id && PcOf(s1, w).j.token == pc.j.token
      && PcOf(s1, w).j.link == (if pc.call.CreateCall? && pc.j.link == "" then RowOf(s, w).link else pc.j.link)
      && (!pc.call.CreateCall? ==> PcOf(s1, w).j == pc.j)
      && s1.db == s.db.(orders := s.db.orders[pc.j.id := RowOf(s1, w)]) && Leased(RowOf(s, w), RowOf(s1, w), pc.j.token, s.clock)
      && RowOf(s1, w).qrAttempted == (RowOf(s, w).qrAttempted || pc.call == CreateCall(true))
  {
    OwnerKnows(s, w);
    NextKeepsInv(s, RenewStep(w, true, true, jitter, jitter));
  }

  /** A claim of an unpaid order without a live lease starts its Get. */
  lemma ClaimStartsGet(s: Sys, w: nat, id: nat)
    requires SysInv(s) && PcOf(s, w).Idle? && id < |s.db.orders|
    requires !s.db.orders[id].status.Paid? && !LeaseLive(s.db.orders[id], s.clock)
    ensures var s1 := Next(s, StartReconcile(w, id, true));
      && SysInv(s1) && Owns(s1, w) && s1.clock == s.clock && PcOf(s1, w).Before? && PcOf(s1, w).call == GetCall
      && PcOf(s1, w).j.id == id && PcOf(s1, w).j.link == s.db.orders[id].link
      && s1.db == s.db.(orders := s.db.orders[id := RowOf(s1, w)], nextToken := s.db.nextToken + 1)
      && Leased(s.db.orders[id], RowOf(s1, w), s.db.nextToken, s.clock) && RowOf(s1, w).qrAttempted == s.db.orders[id].qrAttempted
  {
    NextKeepsInv(s, StartReconcile(w, id, true));
  }

  /** Leases are none of the books' business. */
  lemma LeaseKeepsOpen(db: Db, db': Db, id: nat, token: nat, now: int, f: Fact, a: Arrival)
    requires id < |db.orders| == |db'.orders| && Leased(db.orders[id], db'.orders[id], token, now)
    requires db' == db.(orders := db.orders[id := db'.orders[id]], nextToken := db'.nextToken)
    ensures Open(db', f) <==> Open(db, f)
    ensures ServiceGet(db', f, a) <==> ServiceGet(db, f, a)
    ensures Open(db, f) ==> Booked(db', f) == Booked(db, f)
  {
    SameCodes(db.orders, db'.orders, f.code, 0);
    assert forall i :: 0 <= i < |db.orders| ==> OrderBooksOf(db'.orders[i]) == OrderBooksOf(db.orders[i]);
    assert BooksOf(db').orders == BooksOf(db).orders && BooksOf(db') == BooksOf(db);
  }

  function Recovered(s: Sys, w: nat, id: nat, link: PaymentLink, f: Fact, a: Arrival, jitter: int): Sys {
    var s1 := Next(s, StartReconcile(w, id, true));
    var s2 := Next(s1, RenewStep(w, true, true, jitter, jitter));
    Paid3(s2, w, link, f, a, jitter)
  }

  /**
   A payment whose callback was lost is booked: in any reachable state, a worker that claims the
   due order, is told PAID by the provider and is not stopped ends with the order PAID, its
   receipt and credit written once.
   */
  lemma LostCallbackIsRecovered(s: Sys, w: nat, id: nat, link: PaymentLink, f: Fact, a: Arrival, jitter: int)
    requires SysInv(s) && PcOf(s, w).Idle? && id < |s.db.orders|
    requires !s.db.orders[id].status.Paid? && !LeaseLive(s.db.orders[id], s.clock)
    requires IsLinkOf(s.db.orders[id], s.db.orders[id].link, link) && StatesPayment(link, f) && ValidFact(f)
    requires Open(s.db, f) && ServiceGet(s.db, f, a) && a.now == s.clock
    ensures var s' := Recovered(s, w, id, link, f, a, jitter);
      && SysInv(s') && LinkSettlement.Received(s'.db, f) && BooksOf(s'.db) == Booked(s.db, f)
      && id < |s'.db.orders| && s'.db.orders[id].status.Paid? && PcOf(s', w).Idle?
  {
    hide SysInv, Next, Open, ServiceGet, Booked, BooksOf, Paid3;
    ClaimStartsGet(s, w, id);
    var s1 := Next(s, StartReconcile(w, id, true));
    LeaseKeepsOpen(s.db, s1.db, id, s.db.nextToken, s.clock, f, a);
    RenewSends(s1, w, jitter);
    var s2 := Next(s1, RenewStep(w, true, true, jitter, jitter));
    LeaseKeepsOpen(s1.db, s2.db, id, s.db.nextToken, s.clock, f, a);
    PaidLinkIsSettled(s2, w, link, f, a, jitter);
  }

  // ---------------------------------------------------------------- a QR that was never stored

  /** Get, renewal, Create with the link known, completion. */
  function QrRecovered(s: Sys, w: nat, link: PaymentLink, r: CreateResponse, jitter: int): Sys {
    var s1 := Next(s, LinkReplyStep(w, GotLink(link), jitter, jitter));
    var s2 := Next(s1, RenewStep(w, true, true, jitter, jitter));
    Concluded(s2, CreateReplyStep(w, GotCreate(r), jitter), w)
  }

  /** A pending link without a stored QR is asked for again, once, and the answer's QR is stored. */
  lemma QrIsRecovered(s: Sys, w: nat, link: PaymentLink, r: CreateResponse, jitter: int)
    requires SysInv(s) && Owns(s, w) && AwaitsGet(s, w) && IsLinkOf(RowOf(s, w), PcOf(s, w).j.link, link) && link.status.LinkPending?
    requires RowOf(s, w).qr == "" && !RowOf(s, w).qrAttempted && !PcOf(s, w).j.o.lastError.CancelOutcomeUnknown?
    requires UsableCreate(RowOf(s, w), link.id, r)
    ensures var s' := QrRecovered(s, w, link, r, jitter);
      && PcOf(s, w).j.id < |s'.db.orders| && PcOf(s', w).Idle?
      && var o, o' := RowOf(s, w), s'.db.orders[PcOf(s, w).j.id];
      && o'.status.Pending? && o'.qr == r.qr && o'.qrAttempted && o'.lease.None? && o'.lastError.NoError?
      && o'.link == (if o.link != "" then o.link else r.link) && o'.account == (if o.account != "" then o.account else r.account)
  {
    hide SysInv, Next;
    OwnerKnows(s, w);
    var step := LinkReplyStep(w, GotLink(link), jitter, jitter);
    MatchesRow(s, w, link);
    ReplyKeepsRow(s, step, w);
    LinkReplyMoves(s, w, GotLink(link), jitter);
    var s1 := Next(s, step);
    RenewSends(s1, w, jitter);
    var s2 := Next(s1, RenewStep(w, true, true, jitter, jitter));
    CreateBinds(s2, w, r, jitter);
  }

  lemma LinkReplyMoves(s: Sys, w: nat, reply: LinkReply, jitter: int)
    requires PcOf(s, w).During? && !PcOf(s, w).call.CreateCall?
    ensures PcOf(Next(s, LinkReplyStep(w, reply, jitter, jitter)), w)
         == AfterLinkReply(PcOf(s, w).j, PcOf(s, w).call, reply, s.clock, jitter, jitter)
  {
  }

  /** A recovery that was tried, or whose answer is unusable, cancels the link instead of asking a second time. */
  lemma QrIsAskedForOnce(s: Sys, w: nat, link: PaymentLink, jitter: int)
    requires SysInv(s) && Owns(s, w) && AwaitsGet(s, w) && IsLinkOf(RowOf(s, w), PcOf(s, w).j.link, link) && link.status.LinkPending?
    requires RowOf(s, w).qr == "" && RowOf(s, w).qrAttempted && !PcOf(s, w).j.o.lastError.CancelOutcomeUnknown?
    ensures var pc := PcOf(Next(s, LinkReplyStep(w, GotLink(link), jitter, jitter)), w);
      pc == Before(PcOf(s, w).j.(link := link.id), CancelCall(QrCancel))
  {
    hide SysInv;
    OwnerKnows(s, w);
    MatchesRow(s, w, link);
  }

  lemma UnusableQrIsCancelled(s: Sys, w: nat, reply: CreateReply, jitter: int)
    requires SysInv(s) && Owns(s, w) && PcOf(s, w).During? && PcOf(s, w).call == CreateCall(true)
    requires reply.GotCreate? ==> !UsableCreate(RowOf(s, w), PcOf(s, w).j.link, reply.response)
    ensures PcOf(Next(s, CreateReplyStep(w, reply, jitter)), w) == Before(PcOf(s, w).j, CancelCall(QrCancel))
  {
    hide SysInv;
    OwnerKnows(s, w);
  }

  // ---------------------------------------------------------------- a link the provider does not know

  predicate IsAbsence(reply: LinkReply) {
    reply.LinkError? && reply.failure.ProviderFailure? && reply.failure.http == 404
  }

  function CreatedAgain(s: Sys, w: nat, absent: LinkReply, r: CreateResponse, jitter: int): Sys {
    var s1 := Next(s, LinkReplyStep(w, absent, jitter, jitter));
    var s2 := Next(s1, RenewStep(w, true, true, jitter, jitter));
    Concluded(s2, CreateReplyStep(w, GotCreate(r), jitter), w)
  }

  /** A Create of unknown outcome that the provider never saw is repeated before the order expires, and binds it. */
  lemma AbsentOrderIsCreatedAgain(s: Sys, w: nat, absent: LinkReply, r: CreateResponse, jitter: int)
    requires SysInv(s) && Owns(s, w) && AwaitsGet(s, w) && IsAbsence(absent) && PcOf(s, w).j.link == RowOf(s, w).link
    requires RowOf(s, w).status.Creating? && !RowOf(s, w).qrAttempted && s.clock < RowOf(s, w).expiresAt
    requires !PcOf(s, w).j.o.lastError.CancelOutcomeUnknown? && !PcOf(s, w).j.o.lastError.CreateRejected?
    requires UsableCreate(RowOf(s, w), RowOf(s, w).link, r)
    ensures var s' := CreatedAgain(s, w, absent, r, jitter);
      && PcOf(s, w).j.id < |s'.db.orders| && PcOf(s', w).Idle?
      && var o, o' := RowOf(s, w), s'.db.orders[PcOf(s, w).j.id];
      && o'.status.Pending? && o'.lease.None? && o'.lastError.NoError?
      && o'.link == (if o.link != "" then o.link else r.link) && o'.qr == (if o.qr != "" then o.qr else r.qr)
      && o'.account == (if o.account != "" then o.account else r.account)
  {
    hide SysInv, Next;
    OwnerKnows(s, w);
    var step := LinkReplyStep(w, absent, jitter, jitter);
    ReplyKeepsRow(s, step, w);
    LinkReplyMoves(s, w, absent, jitter);
    var s1 := Next(s, step);
    RenewSends(s1, w, jitter);
    var s2 := Next(s1, RenewStep(w, true, true, jitter, jitter));
    CreateBinds(s2, w, r, jitter);
  }

  /** An order whose Create was definitely rejected and that the provider does not know has failed; one past its time
      keeps its status and is looked at when retention ends. */
  lemma AbsentOrderIsGivenUp(s: Sys, w: nat, absent: LinkReply, jitter: int)
    requires SysInv(s) && Owns(s, w) && AwaitsGet(s, w) && IsAbsence(absent)
    requires !RowOf(s, w).qrAttempted && !PcOf(s, w).j.o.lastError.CancelOutcomeUnknown?
    requires PcOf(s, w).j.o.lastError.CreateRejected? || s.clock >= RowOf(s, w).expiresAt
    ensures var o, s', e := RowOf(s, w), Concluded(s, LinkReplyStep(w, absent, jitter, jitter), w), PcOf(s, w).j.o.lastError;
      && PcOf(s, w).j.id < |s'.db.orders| && Ends(s, s', w, s'.db.orders[PcOf(s, w).j.id])
      && var o' := s'.db.orders[PcOf(s, w).j.id];
      && o'.status == (if e.CreateRejected? then Failed else o.status)
      && o'.lastError == (if e.CreateRejected? then e else CreateOutcomeUnknown)
      && o'.link == o.link && o'.qr == o.qr && o'.account == o.account && o'.attempts == o.attempts && o'.lease.None?
      && (!o'.status.Creating? && !o'.status.Processing? ==>
            o'.next == if s.clock >= RetentionEnd(o) then None else Some(RetentionEnd(o)))
  {
    hide SysInv;
    OwnerKnows(s, w);
    var step, j := LinkReplyStep(w, absent, jitter, jitter), PcOf(s, w).j;
    ConcludedRow(s, step, w, j, RecoverAbsent(j, s.clock).u);
  }

  /** Any other failure of a Get is retried; only a remembered rejection or open cancellation stays remembered. */
  lemma UnavailableIsRetried(s: Sys, w: nat, failure: Failure, jitter: int)
    requires SysInv(s) && Owns(s, w) && AwaitsGet(s, w) && !IsAbsence(LinkError(failure))
    ensures var o, e := RowOf(s, w), PcOf(s, w).j.o.lastError;
      var s' := Concluded(s, LinkReplyStep(w, LinkError(failure), jitter, jitter), w);
      && PcOf(s, w).j.id < |s'.db.orders| && Ends(s, s', w, s'.db.orders[PcOf(s, w).j.id])
      && Retried(o, s'.db.orders[PcOf(s, w).j.id],
                 if e.CreateRejected? || e.CancelOutcomeUnknown? || e.QrRecoveryCancelPending? then e else ProviderUnavailable,
                 Some(failure), s.clock, jitter)
  {
    hide SysInv;
    OwnerKnows(s, w);
    var step, j := LinkReplyStep(w, LinkError(failure), jitter, jitter), PcOf(s, w).j;
    ConcludedRow(s, step, w, j, FailureUpdate(j.o, Some(failure), ProviderUnavailable, s.clock, jitter));
  }

  // ---------------------------------------------------------------- cancelling

  predicate AwaitsCancel(pc: Pc, kind: CancelKind) {
    pc.During? && (pc.call == CancelCall(kind) || (pc.call.GetAfterCancel? && pc.call.kind == kind))
  }

  /** A confirmed cancellation or expiry is written, whether the Cancel or the Get behind it reported it. */
  lemma CancellationIsWritten(s: Sys, w: nat, kind: CancelKind, link: PaymentLink, jitter: int)
    requires SysInv(s) && Owns(s, w) && AwaitsCancel(PcOf(s, w), kind) && IsLinkOf(RowOf(s, w), PcOf(s, w).j.link, link)
    requires link.status.LinkCancelled? || link.status.LinkExpired?
    ensures var o, s' := RowOf(s, w), Concluded(s, LinkReplyStep(w, GotLink(link), jitter, jitter), w);
      && PcOf(s, w).j.id < |s'.db.orders| && Ends(s, s', w, s'.db.orders[PcOf(s, w).j.id])
      && var o' := s'.db.orders[PcOf(s, w).j.id];
      && StatusWritten(o, o', link, if link.status.LinkCancelled? then Cancelled else Expired)
      && o'.next == (if s.clock >= RetentionEnd(o) then None else Some(RetentionEnd(o)))
      && o'.lastError == (if kind.QrCancel? && o.qrAttempted && o.qr == "" && link.status.LinkCancelled? then QrRecoveryCancelled else NoError)
  {
    hide SysInv, Next, Concluded;
    OwnerKnows(s, w);
    MatchesRow(s, w, link);
    LinkReplyMoves(s, w, GotLink(link), jitter);
    var step, j := LinkReplyStep(w, GotLink(link), jitter, jitter), PcOf(s, w).j;
    ConcludedRow(s, step, w, j, Conclude(j, kind, link, s.clock, jitter).u);
  }

  /** A Cancel that did not confirm asks with a Get. */
  lemma CancelAsksAgain(s: Sys, w: nat, kind: CancelKind, reply: LinkReply, jitter: int)
    requires SysInv(s) && Owns(s, w) && PcOf(s, w).During? && PcOf(s, w).call == CancelCall(kind)
    requires reply.GotLink? && IsLinkOf(RowOf(s, w), PcOf(s, w).j.link, reply.link) ==>
      !reply.link.status.LinkCancelled? && !reply.link.status.LinkExpired?
    ensures PcOf(Next(s, LinkReplyStep(w, reply, jitter, jitter)), w)
         == Before(PcOf(s, w).j, GetAfterCancel(kind, if reply.LinkError? then Some(reply.failure) else None))
  {
    hide SysInv;
    if reply.GotLink? { MatchesRow(s, w, reply.link); }
  }

  /** A Get behind a Cancel that finds the link PAID goes on to settle it, as a cancellation if the operator asked for one. */
  lemma CancelFindsPayment(s: Sys, w: nat, kind: CancelKind, cancelError: Option<Failure>, link: PaymentLink, jitter: int)
    requires SysInv(s) && Owns(s, w) && PcOf(s, w).During? && PcOf(s, w).call == GetAfterCancel(kind, cancelError)
    requires IsLinkOf(RowOf(s, w), PcOf(s, w).j.link, link) && link.status.LinkPaid?
    ensures PcOf(Next(s, LinkReplyStep(w, GotLink(link), jitter, jitter)), w) == Settling(PcOf(s, w).j, link, kind == OperatorCancel)
  {
    hide SysInv;
    MatchesRow(s, w, link);
  }

  /** The failure that asks for the longer wait. */
  function Longer(a: Option<Failure>, b: Option<Failure>): Option<Failure> {
    if RetryAfterOf(b) > RetryAfterOf(a) then b else a
  }

  lemma RetryCancelIsRetry(j: Job, kind: CancelKind, a: Option<Failure>, b: Option<Failure>, now: int, jitter: int)
    ensures RetryCancel(j, kind, a, b, now, jitter, jitter) == Retry(j, Longer(a, b), CancelPending(kind), now, jitter)
  {
  }

  /** A Get after a Cancel that decides nothing either is retried, and the open cancellation remembered. */
  lemma OpenCancellationIsRemembered(s: Sys, w: nat, kind: CancelKind, cancelError: Option<Failure>, reply: LinkReply, jitter: int)
    requires SysInv(s) && Owns(s, w) && PcOf(s, w).During? && PcOf(s, w).call == GetAfterCancel(kind, cancelError)
    requires reply.GotLink? && IsLinkOf(RowOf(s, w), PcOf(s, w).j.link, reply.link) ==>
      !reply.link.status.LinkCancelled? && !reply.link.status.LinkExpired? && !reply.link.status.LinkPaid?
    ensures var id, s' := PcOf(s, w).j.id, Concluded(s, LinkReplyStep(w, reply, jitter, jitter), w);
      && id < |s'.db.orders| && Ends(s, s', w, s'.db.orders[id])
      && Retried(RowOf(s, w), s'.db.orders[id], if kind.QrCancel? then QrRecoveryCancelPending else CancelOutcomeUnknown,
                 Longer(cancelError, if reply.LinkError? then Some(reply.failure) else None), s.clock, jitter)
  {
    hide SysInv, Concluded, Next;
    var step, j := LinkReplyStep(w, reply, jitter, jitter), PcOf(s, w).j;
    if reply.GotLink? { MatchesRow(s, w, reply.link); }
    LinkReplyMoves(s, w, reply, jitter);
    var failure := if reply.LinkError? then Some(reply.failure) else None;
    RetryCancelIsRetry(j, kind, cancelError, failure, s.clock, jitter);
    RetryConcludes(s, w, step, Longer(cancelError, failure), CancelPending(kind), jitter);
  }

  // ---------------------------------------------------------------- where a recovery goes on with a cancellation

  /** A cancellation of unknown outcome, and a QR recovery the provider does not know, are cancelled first. */
  lemma OpenCancellationIsResumed(s: Sys, w: nat, reply: LinkReply, jitter: int)
    requires SysInv(s) && Owns(s, w) && AwaitsGet(s, w)
    ensures var pc, j := PcOf(Next(s, LinkReplyStep(w, reply, jitter, jitter)), w), PcOf(s, w).j;
      && (reply.GotLink? && IsLinkOf(RowOf(s, w), j.link, reply.link) && j.o.lastError.CancelOutcomeUnknown?
          && (reply.link.status.LinkPending? || reply.link.status.LinkProcessing? || reply.link.status.LinkUnderpaid?) ==>
            pc == Before(j, CancelCall(OperatorCancel)))
      && (IsAbsence(reply) && RowOf(s, w).qrAttempted ==> pc == Before(j, CancelCall(QrCancel)))
      && (IsAbsence(reply) && !RowOf(s, w).qrAttempted && j.o.lastError.CancelOutcomeUnknown? ==> pc == Before(j, CancelCall(OperatorCancel)))
  {
    hide SysInv;
    OwnerKnows(s, w);
    if reply.GotLink? { MatchesRow(s, w, reply.link); }
  }

  /** The operator's cancel claims the order and asks the provider. */
  lemma ClaimStartsCancel(s: Sys, w: nat, id: nat)
    requires SysInv(s) && PcOf(s, w).Idle? && id < |s.db.orders|
    requires !s.db.orders[id].status.Paid? && !LeaseLive(s.db.orders[id], s.clock)
    ensures var s1 := Next(s, StartCancel(w, id, true));
      && SysInv(s1) && Owns(s1, w) && PcOf(s1, w).Before? && PcOf(s1, w).call == CancelCall(OperatorCancel)
      && PcOf(s1, w).j.id == id && PcOf(s1, w).j.link == s.db.orders[id].link
  {
    NextKeepsInv(s, StartCancel(w, id, true));
  }

  // ---------------------------------------------------------------- a new order

  /** A granted request starts its one Create as the owner of the new order. */
  lemma RequestStartsCreate(s: Sys, w: nat, intent: Intent, draws: seq<int>)
    requires SysInv(s) && PcOf(s, w).Idle? && Reserve(s.db, intent, draws, s.clock, true).1.Created?
    ensures var s1, id := Next(s, StartCreate(w, intent, draws, true)), |s.db.orders|;
      && SysInv(s1) && Owns(s1, w) && s1.clock == s.clock && PcOf(s1, w).FirstCreate? && PcOf(s1, w).j.id == id && PcOf(s1, w).j.link == ""
      && s1.db == Reserve(s.db, intent, draws, s.clock, true).0 && s1.log == s.log + [CreateIssued(id, s.db.nextToken, FirstRequest)]
  {
    NextKeepsInv(s, StartCreate(w, intent, draws, true));
  }

  /** Request, usable answer, completion. */
  function Ordered(s: Sys, w: nat, intent: Intent, draws: seq<int>, r: CreateResponse, jitter: int): Sys {
    Concluded(Next(s, StartCreate(w, intent, draws, true)), CreateReplyStep(w, GotCreate(r), jitter), w)
  }

  /** A granted request answered by the provider is an order the payer can pay: PENDING, with the answer's link, QR and
      account, and any callback of its payment books it. */
  lemma OrderedPaymentIsPayable(s: Sys, w: nat, intent: Intent, draws: seq<int>, r: CreateResponse, jitter: int, f: Fact, a: Arrival)
    requires SysInv(s) && PcOf(s, w).Idle? && Reserve(s.db, intent, draws, s.clock, true).1.Created?
    requires UsableCreate(Reserve(s.db, intent, draws, s.clock, true).0.orders[|s.db.orders|], "", r)
    requires f == Fact(intent.channel, r.code, r.link, f.reference, r.amount, f.at, r.account) && ValidFact(f)
    requires Agrees(f, a) && a.CallbackArrival? && a.admitted && IndexOfReceipt(s.db.receipts, f.channel, f.reference).None?
    ensures var s', id := Ordered(s, w, intent, draws, r, jitter), |s.db.orders|;
      && id < |s'.db.orders| && PcOf(s', w).Idle?
      && var o := s'.db.orders[id];
      && o.status.Pending? && o.link == r.link && o.qr == r.qr && o.account == r.account && o.amount == intent.amount
      && Settle(s'.db, InputOf(f, a), a.now, true).1 == Settled(id, false)
  {
    hide SysInv, Next, Settle;
    RequestStartsCreate(s, w, intent, draws);
    var s1 := Next(s, StartCreate(w, intent, draws, true));
    CreateBinds(s1, w, r, jitter);
    CreatedOrderTakesCallback(s1, w, r, jitter, f, a);
  }

  // ---------------------------------------------------------------- requests that were not sent, settlements that failed

  /** A repeated Create without a usable answer is retried, a definite rejection remembered. */
  lemma RepeatedCreateFails(s: Sys, w: nat, reply: CreateReply, jitter: int)
    requires SysInv(s) && Owns(s, w) && PcOf(s, w).During? && PcOf(s, w).call == CreateCall(false)
    requires reply.GotCreate? ==> !UsableCreate(RowOf(s, w), PcOf(s, w).j.link, reply.response)
    ensures var id, s' := PcOf(s, w).j.id, Concluded(s, CreateReplyStep(w, reply, jitter), w);
      && id < |s'.db.orders| && Ends(s, s', w, s'.db.orders[id])
      && var o, o' := RowOf(s, w), s'.db.orders[id];
      && o' == o.(next := o'.next, lastError := o'.lastError, attempts := o.attempts + 1, lease := None)
      && o'.next.Some? && o'.next.value >= s.clock + 30 * SECOND + jitter
      && (reply.CreateError? && Refused(reply.failure) ==> o'.lastError == CreateRejected(reply.failure.http))
      && (!(reply.CreateError? && Refused(reply.failure)) ==> o'.lastError == CreateOutcomeUnknown)
  {
    hide SysInv;
    OwnerKnows(s, w);
    BackoffRange(RowOf(s, w).attempts + 1);
    var j := PcOf(s, w).j;
    ConcludedRow(s, CreateReplyStep(w, reply, jitter), w, j, AfterCreate(j, false, reply, s.clock, jitter).u);
  }

  /** Without a provider slot, or with the gate closed, a Get is not sent: the worker retries as for an unavailable
      provider; a Create under a closed gate stops. */
  lemma UnsentRequest(s: Sys, w: nat, slot: bool, admitted: bool, jitter: int)
    requires SysInv(s) && Owns(s, w) && PcOf(s, w).Before? && (!slot || !admitted)
    ensures var s1, pc := Next(s, RenewStep(w, slot, admitted, jitter, jitter)), PcOf(s, w);
      && s1.db == s.db && s1.log == s.log
      && (pc.call == GetCall ==> PcOf(s1, w) == Retry(pc.j, Some(OtherFailure), ProviderUnavailable, s.clock, jitter))
      && (pc.call.CancelCall? ==> PcOf(s1, w) == Before(pc.j, GetAfterCancel(pc.call.kind, Some(OtherFailure))))
      && (pc.call.CreateCall? && !slot ==> PcOf(s1, w) == Retry(pc.j, Some(OtherFailure), CreateOutcomeUnknown, s.clock, jitter))
      && (pc.call.CreateCall? && slot ==> PcOf(s1, w).Idle?)
  {
  }

  /** A settlement that was not built, or was reviewed or refused, is retried as pending details; under the operator's
      cancel a rolled-back one stops instead. */
  lemma FailedSettlementIsRetried(s: Sys, w: nat, input: SettleInput, built: bool, admitted: bool, jitter: int)
    requires SysInv(s) && Owns(s, w) && PcOf(s, w).Settling? && input.code == PcOf(s, w).j.o.code
    requires built ==> !Settle(s.db, input, s.clock, admitted).1.Settled?
    ensures var s1, pc := Next(s, SettleStep(w, input, built, admitted, jitter)), PcOf(s, w);
      && s1.log == s.log && s1.db == (if built then Settle(s.db, input, s.clock, admitted).0 else s.db)
      && PcOf(s1, w) == if built && pc.cancelling && Settle(s.db, input, s.clock, admitted).1.RolledBack? then Idle
                        else Retry(pc.j, None, PaymentDetailsPendingError, s.clock, jitter)
  {
    hide Settle, SysInv;
  }
}
