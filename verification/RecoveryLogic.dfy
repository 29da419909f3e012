/**
 What a payment worker decides after each provider reply (internal/payments/reconcile.go,
 cancel.go, order_create.go). A worker holds a claimed order in memory; between two
 decisions it runs at most one transaction and one provider request.
 */
module RecoveryLogic {
  import opened Options
  import opened PaymentTables
  import opened OrderLeases

  datatype LinkStatus = LinkPending | LinkProcessing | LinkUnderpaid | LinkPaid | LinkCancelled | LinkExpired | LinkFailed | LinkOther

  datatype PaymentLink = PaymentLink(id: string, code: int, amount: int, status: LinkStatus)

  /** ProviderFailure is *ProviderError; every other error is OtherFailure. */
  datatype Failure = ProviderFailure(http: int, indeterminate: bool, retryAfter: int) | OtherFailure

  datatype LinkReply = GotLink(link: PaymentLink) | NilLink | LinkError(failure: Failure)

  /** `complete` says that bank, account name and checkout URL pass their checks. */
  datatype CreateResponse = CreateResponse(code: int, amount: int, vnd: bool, pending: bool, link: string, qr: string,
                                           account: string, complete: bool)

  datatype CreateReply = GotCreate(response: CreateResponse) | NilCreate | CreateError(failure: Failure)

  /** CancelOrder and reconcileCancellation continue alike; recoverCancel differs. */
  datatype CancelKind = OperatorCancel | QrCancel

  datatype Call =
    | GetCall
    | CancelCall(kind: CancelKind)
    | GetAfterCancel(kind: CancelKind, cancelError: Option<Failure>)
    | CreateCall(knownLink: bool)

  /** The operation a worker runs: `o` is the order as claimed or renewed, `link` the payment
      link id it works with, which a verified reply may have supplied. */
  datatype Job = Job(id: nat, token: nat, o: Order, link: string)

  datatype Pc =
    | Idle
    | FirstCreate(j: Job)             // CreateOrder, its Create request outstanding
    | Before(j: Job, call: Call)      // waiting for a provider slot, then for the lease renewal
    | During(j: Job, call: Call)      // renewed, request outstanding
    | Settling(j: Job, link: PaymentLink, cancelling: bool)
    | Finishing(j: Job, u: Update)

  // ---------------------------------------------------------------- retry schedule

  const FIRST_DELAY: int := 30 * SECOND
  const MAX_DELAY: int := 15 * MINUTE

  function Pow2(n: nat): int { if n == 0 then 1 else 2 * Pow2(n - 1) }

  /** Thirty seconds doubled for every earlier attempt, at most fifteen minutes. */
  function BackoffDelay(attempt: int): int {
    if attempt <= 1 then FIRST_DELAY
    else if FIRST_DELAY * Pow2(attempt - 1) > MAX_DELAY then MAX_DELAY else FIRST_DELAY * Pow2(attempt - 1)
  }

  lemma {:induction false} Pow2Grows(m: nat, n: nat)
    requires m <= n
    ensures 1 <= Pow2(m) <= Pow2(n)
    decreases n
  {
    if m < n { Pow2Grows(m, n - 1); }
    else if n > 0 { Pow2Grows(m - 1, n - 1); }
  }

  /** The doubling loop of failureUpdate. */
  method Backoff(attempt: int) returns (delay: int)
    ensures delay == BackoffDelay(attempt)
  {
    delay := FIRST_DELAY;
    var i := 1;
    while i < attempt && delay < MAX_DELAY
      invariant 1 <= i && (i <= attempt || i == 1)
      invariant delay == FIRST_DELAY * Pow2(i - 1)
      decreases attempt - i
    {
      delay := delay * 2;
      i := i + 1;
    }
    if i < attempt {
      Pow2Grows(i - 1, attempt - 1);
      assert FIRST_DELAY * Pow2(attempt - 1) >= delay >= MAX_DELAY;
    }
    if delay > MAX_DELAY { delay := MAX_DELAY; }
  }

  lemma BackoffRange(attempt: int)
    ensures FIRST_DELAY <= BackoffDelay(attempt) <= MAX_DELAY
  {
    if attempt > 1 { Pow2Grows(0, attempt - 1); }
  }

  /** Jitter is drawn from [0, delay/5]; a failed draw adds nothing. */
  predicate ValidJitter(o: Order, jitter: int) {
    0 <= jitter <= BackoffDelay(o.attempts + 1) / 5
  }

  function RetryAfterOf(failure: Option<Failure>): int {
    if failure.Some? && failure.value.ProviderFailure? then failure.value.retryAfter else 0
  }

  function FailureDelay(o: Order, failure: Option<Failure>, jitter: int): int {
    Max(BackoffDelay(o.attempts + 1) + jitter, RetryAfterOf(failure))
  }

  /** A retry waits between 30 seconds and 18 minutes, or longer when the provider asks for it. */
  lemma FailureDelayRange(o: Order, failure: Option<Failure>, jitter: int)
    requires ValidJitter(o, jitter)
    ensures 30 * SECOND <= FailureDelay(o, failure, jitter)
    ensures FailureDelay(o, failure, jitter) <= 18 * MINUTE || FailureDelay(o, failure, jitter) == RetryAfterOf(failure)
  {
    BackoffRange(o.attempts + 1);
  }

  function RetentionEnd(o: Order): int { o.expiresAt + 24 * HOUR }

  function FailureUpdate(o: Order, failure: Option<Failure>, code: ErrorCode, now: int, jitter: int): Update {
    var kept := if code.ProviderUnavailable? && (o.lastError.CreateRejected? || o.lastError.CancelOutcomeUnknown? || o.lastError.QrRecoveryCancelPending?)
                then o.lastError else code;
    var final := if now >= RetentionEnd(o) && o.status.Creating? then CreateOutcomeUnknown else kept;
    Update(None, "", "", "", final, Some(now + FailureDelay(o, failure, jitter)), o.attempts + 1, false, false)
  }

  /** terminalReconcileAt: the end of retention, or never once it has passed. */
  function TerminalAt(o: Order, now: int): Option<int> {
    if now >= RetentionEnd(o) then None else Some(RetentionEnd(o))
  }

  // ---------------------------------------------------------------- decisions

  predicate LinkMatches(j: Job, link: PaymentLink) {
    link.code == j.o.code && link.amount == j.o.amount && !Blank(link.id) && (j.link == "" || j.link == link.id)
  }

  predicate DefiniteRejection(f: Failure) {
    f.ProviderFailure? && !f.indeterminate && 400 <= f.http < 500 && f.http != 408 && f.http != 429
  }

  predicate ValidCreate(j: Job, r: CreateResponse) {
    r.code == j.o.code && r.amount == j.o.amount && r.vnd && r.pending
    && !Blank(r.link) && !Blank(r.qr) && !Blank(r.account) && r.complete
  }

  function Retry(j: Job, failure: Option<Failure>, code: ErrorCode, now: int, jitter: int): Pc {
    Finishing(j, FailureUpdate(j.o, failure, code, now, jitter))
  }

  function CreatedUpdate(r: CreateResponse, now: int): Update {
    Update(Some(Pending), r.link, r.qr, r.account, NoError, Some(now + MINUTE), 0, true, false)
  }

  /** CreateOrder after its single Create request. */
  function AfterFirstCreate(j: Job, reply: CreateReply, now: int): Pc
    requires j.o.lease.Some?
  {
    var lease := j.o.lease.value.until;
    match reply
    case CreateError(f) =>
      Finishing(j, Update(Some(Creating), "", "", "", if DefiniteRejection(f) then CreateRejected(f.http) else CreateOutcomeUnknown,
                          Some(if f.ProviderFailure? then Max(lease, now + f.retryAfter) else lease), 0, false, false))
    case GotCreate(r) =>
      if ValidCreate(j, r)
      then Finishing(j, CreatedUpdate(r, now).(reset := false))
      else Finishing(j, Update(Some(Creating), "", "", "", InvalidCreateResponse, Some(lease), 0, false, false))
    case NilCreate =>
      Finishing(j, Update(Some(Creating), "", "", "", InvalidCreateResponse, Some(lease), 0, false, false))
  }

  /** recoverCreate after its Create request. */
  function AfterCreate(j: Job, knownLink: bool, reply: CreateReply, now: int, jitter: int): Pc {
    if reply.GotCreate? && ValidCreate(j, reply.response) && (j.link == "" || j.link == reply.response.link)
    then Finishing(j, CreatedUpdate(reply.response, now))
    else if knownLink then Before(j, CancelCall(QrCancel))
    else
      var failure := if reply.CreateError? then Some(reply.failure) else None;
      var u := FailureUpdate(j.o, failure, CreateOutcomeUnknown, now, jitter);
      Finishing(j, if failure.Some? && DefiniteRejection(failure.value) then u.(lastError := CreateRejected(failure.value.http)) else u)
  }

  function TerminalStatus(s: LinkStatus): Status
    requires s.LinkCancelled? || s.LinkExpired? || s.LinkFailed?
  {
    match s
    case LinkCancelled => Cancelled
    case LinkExpired => Expired
    case LinkFailed => Failed
  }

  function LiveStatus(s: LinkStatus): Status
    requires s.LinkPending? || s.LinkProcessing? || s.LinkUnderpaid?
  {
    match s
    case LinkPending => Pending
    case LinkProcessing => Processing
    case LinkUnderpaid => Underpaid
  }

  /** applyVerifiedLink */
  function ApplyLink(j: Job, link: PaymentLink, now: int, jitter: int): Pc {
    if !LinkMatches(j, link) then Retry(j, None, PaymentMismatchError, now, jitter)
    else match link.status
    case LinkPaid => Settling(j, link, false)
    case LinkOther => Retry(j, None, PaymentDetailsPendingError, now, jitter)
    case LinkCancelled => Finishing(j, TerminalUpdate(j, link, now))
    case LinkExpired => Finishing(j, TerminalUpdate(j, link, now))
    case LinkFailed => Finishing(j, TerminalUpdate(j, link, now))
    case _ =>
      if j.o.lastError.CancelOutcomeUnknown? then Before(j, CancelCall(OperatorCancel))
      else if j.o.qr == "" && link.status.LinkPending? then
        var known := j.(link := link.id);
        if j.o.qrAttempted then Before(known, CancelCall(QrCancel)) else Before(known, CreateCall(true))
      else Finishing(j, Update(Some(LiveStatus(link.status)), link.id, "", "", NoError, Some(now + MINUTE), 0, true, false))
  }

  function TerminalUpdate(j: Job, link: PaymentLink, now: int): Update
    requires link.status.LinkCancelled? || link.status.LinkExpired? || link.status.LinkFailed?
  {
    Update(Some(TerminalStatus(link.status)), link.id, "", "",
           if j.o.qrAttempted && j.o.qr == "" && link.status.LinkCancelled? then QrRecoveryCancelled else NoError,
           TerminalAt(j.o, now), 0, true, false)
  }

  /** recoverAbsent: the provider answered 404. */
  function RecoverAbsent(j: Job, now: int): Pc {
    if j.o.qrAttempted then Before(j, CancelCall(QrCancel))
    else if j.o.lastError.CancelOutcomeUnknown? then Before(j, CancelCall(OperatorCancel))
    else if j.o.lastError.CreateRejected? then
      Finishing(j, Update(Some(Failed), "", "", "", j.o.lastError, TerminalAt(j.o, now), 0, false, false))
    else if now < j.o.expiresAt && (j.o.status.Creating? || j.o.lastError.CreateOutcomeUnknown? || j.o.lastError.InvalidCreateResponse?)
    then Before(j, CreateCall(false))
    else Finishing(j, Update(Some(j.o.status), "", "", "", CreateOutcomeUnknown, TerminalAt(j.o, now), 0, false, false))
  }

  /** completeCancellation */
  function CompleteCancellation(j: Job, link: PaymentLink, now: int): Pc
    requires link.status.LinkPaid? || link.status.LinkCancelled? || link.status.LinkExpired?
  {
    if link.status.LinkPaid? then Settling(j, link, true)
    else Finishing(j, Update(Some(TerminalStatus(link.status)), link.id, "", "", NoError, TerminalAt(j.o, now), 0, true, false))
  }

  function CancelPending(kind: CancelKind): ErrorCode {
    if kind.QrCancel? then QrRecoveryCancelPending else CancelOutcomeUnknown
  }

  /** Both requests of a cancellation left the outcome open: the later of the two retries. */
  function RetryCancel(j: Job, kind: CancelKind, cancelError: Option<Failure>, getError: Option<Failure>, now: int,
                       jitter: int, jitter2: int): Pc {
    var first := FailureUpdate(j.o, cancelError, CancelPending(kind), now, jitter);
    var second := FailureUpdate(j.o, getError, CancelPending(kind), now, jitter2);
    Finishing(j, if second.next.value > first.next.value then first.(next := second.next) else first)
  }

  function Conclude(j: Job, kind: CancelKind, link: PaymentLink, now: int, jitter: int): Pc
    requires link.status.LinkPaid? || link.status.LinkCancelled? || link.status.LinkExpired?
  {
    if kind.QrCancel? then ApplyLink(j, link, now, jitter) else CompleteCancellation(j, link, now)
  }

  /** A Get or Cancel that failed, at the provider or before it was sent. */
  function AfterLinkError(j: Job, call: Call, f: Failure, now: int, jitter: int, jitter2: int): Pc
    requires !call.CreateCall?
  {
    match call
    case GetCall =>
      if f.ProviderFailure? && f.http == 404 then RecoverAbsent(j, now)
      else Retry(j, Some(f), ProviderUnavailable, now, jitter)
    case CancelCall(kind) => Before(j, GetAfterCancel(kind, Some(f)))
    case GetAfterCancel(kind, cancelError) => RetryCancel(j, kind, cancelError, Some(f), now, jitter, jitter2)
  }

  function AfterLinkReply(j: Job, call: Call, reply: LinkReply, now: int, jitter: int, jitter2: int): Pc
    requires !call.CreateCall?
  {
    if reply.LinkError? then AfterLinkError(j, call, reply.failure, now, jitter, jitter2) else
    match call
    case GetCall =>
      if reply.GotLink? then ApplyLink(j, reply.link, now, jitter) else Retry(j, None, PaymentMismatchError, now, jitter)
    case CancelCall(kind) =>
      if reply.GotLink? && LinkMatches(j, reply.link) && (reply.link.status.LinkCancelled? || reply.link.status.LinkExpired?)
      then Conclude(j, kind, reply.link, now, jitter)
      else Before(j, GetAfterCancel(kind, None))
    case GetAfterCancel(kind, cancelError) =>
      if reply.GotLink? && LinkMatches(j, reply.link)
         && (reply.link.status.LinkPaid? || reply.link.status.LinkCancelled? || reply.link.status.LinkExpired?)
      then Conclude(j, kind, reply.link, now, jitter)
      else RetryCancel(j, kind, cancelError, None, now, jitter, jitter2)
  }
}
