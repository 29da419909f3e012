/**
 Any number of payment workers over one database, each of which may stop between any two
 transactions, with callbacks and settlements arriving at any time.
 */
module RecoveryRuns {
  import opened Options
  import opened PaymentTables
  import opened OrderLeases
  import opened Settlement
  import opened SettlementFrames
  import opened PaymentRuns
  import opened OrderHistory
  import opened RecoveryLogic

  datatype CreateKind = FirstRequest | AfterAbsent | QrRecovery

  /** What the provider was asked and answered, and which terminal statuses were written. */
  datatype Entry =
    | Replied(id: nat, token: nat, link: PaymentLink)
    | Absent(id: nat, token: nat, at: int)
    | Rejected(id: nat, token: nat, http: int)
    | CreateIssued(id: nat, token: nat, kind: CreateKind)
    | Wrote(id: nat, token: nat, status: Status, boundLink: string)

  datatype Sys = Sys(db: Db, workers: map<nat, Pc>, log: seq<Entry>, clock: int)

  datatype SysStep =
    | StartCreate(w: nat, intent: Intent, draws: seq<int>, admitted: bool)
    | StartReconcile(w: nat, id: nat, admitted: bool)
    | StartCancel(w: nat, id: nat, admitted: bool)
    | RenewStep(w: nat, slot: bool, admitted: bool, jitter: int, jitter2: int)
    | LinkReplyStep(w: nat, reply: LinkReply, jitter: int, jitter2: int)
    | CreateReplyStep(w: nat, createReply: CreateReply, jitter: int)
    | SettleStep(w: nat, input: SettleInput, built: bool, admitted: bool, jitter: int)
    | FinishStep(w: nat, admitted: bool)
    | Crash(w: nat)
    | Foreign(op: Op)
    | Tick(elapsed: nat)

  function PcOf(s: Sys, w: nat): Pc {
    if w in s.workers then s.workers[w] else Idle
  }

  /** Settlements, inbox writes and endpoint changes need no lease: anyone may make them. */
  predicate LeaseFree(op: Op) {
    op.SettleOp? || op.SaveCallbackOp? || op.PromoteOp? || op.EndpointsOp?
  }

  predicate Enabled(s: Sys, step: SysStep) {
    match step
    case StartCreate(w, _, _, _) => PcOf(s, w).Idle?
    case StartReconcile(w, _, _) => PcOf(s, w).Idle?
    case StartCancel(w, _, _) => PcOf(s, w).Idle?
    case RenewStep(w, _, _, _, _) => PcOf(s, w).Before?
    case LinkReplyStep(w, _, _, _) => PcOf(s, w).During? && !PcOf(s, w).call.CreateCall?
    case CreateReplyStep(w, _, _) => PcOf(s, w).FirstCreate? || (PcOf(s, w).During? && PcOf(s, w).call.CreateCall?)
    case SettleStep(w, input, _, _, _) => PcOf(s, w).Settling? && input.code == PcOf(s, w).j.o.code
    case FinishStep(w, _) => PcOf(s, w).Finishing?
    case Crash(_) => true
    case Foreign(op) => LeaseFree(op)
    case Tick(_) => true
  }

  /** The transaction a step commits, if any. */
  function TxOf(s: Sys, step: SysStep): Option<Op>
    requires Enabled(s, step)
  {
    match step
    case StartCreate(_, intent, draws, admitted) => Some(ReserveOp(intent, draws, admitted))
    case StartReconcile(_, id, admitted) => Some(ClaimOp(id, admitted))
    case StartCancel(_, id, admitted) => Some(ClaimOp(id, admitted))
    case RenewStep(w, slot, admitted, _, _) =>
      var pc := PcOf(s, w);
      if slot then Some(RenewOp(pc.j.id, pc.j.token, pc.call == CreateCall(true), admitted)) else None
    case LinkReplyStep(_, _, _, _) => None
    case CreateReplyStep(_, _, _) => None
    case SettleStep(_, input, built, admitted, _) => if built then Some(SettleOp(input, admitted)) else None
    case FinishStep(w, admitted) =>
      var pc := PcOf(s, w);
      Some(CompleteOp(pc.j.id, pc.j.token, pc.u, admitted))
    case Crash(_) => None
    case Foreign(op) => Some(op)
    case Tick(_) => None
  }

  function DbAfter(s: Sys, step: SysStep): Db
    requires Enabled(s, step)
  {
    match TxOf(s, step)
    case None => s.db
    case Some(op) => Apply(s.db, op, s.clock)
  }

  function KindOf(call: Call): CreateKind
    requires call.CreateCall?
  {
    if call.knownLink then QrRecovery else AfterAbsent
  }

  /** After a claim: the worker that got the lease starts its first request. */
  function AfterClaim(s: Sys, w: nat, id: nat, admitted: bool, call: Call): Sys {
    var (db, r) := Claim(s.db, id, s.clock, admitted);
    if r.Claimed?
    then s.(db := db, workers := s.workers[w := Before(Job(id, s.db.nextToken, r.snapshot, r.snapshot.link), call)])
    else s.(db := db)
  }

  /** After the slot and the renewal: a Create works with the renewed order, a Get or Cancel keeps its snapshot. */
  function AfterRenew(s: Sys, w: nat, j: Job, call: Call, slot: bool, admitted: bool, jitter: int, jitter2: int): Sys {
    if !slot then
      s.(workers := s.workers[w :=
        if call.CreateCall? then Retry(j, Some(OtherFailure), CreateOutcomeUnknown, s.clock, jitter)
        else AfterLinkError(j, call, OtherFailure, s.clock, jitter, jitter2)])
    else
      var (db, r) := Renew(s.db, j.id, j.token, call == CreateCall(true), s.clock, admitted);
      if r.Renewed? then
        if call.CreateCall? then
          s.(db := db, log := s.log + [CreateIssued(j.id, j.token, KindOf(call))],
             workers := s.workers[w := During(j.(o := r.snapshot, link := if j.link != "" then j.link else r.snapshot.link), call)])
        else s.(db := db, workers := s.workers[w := During(j, call)])
      else
        s.(db := db, workers := s.workers[w :=
          if call.CreateCall? then Idle else AfterLinkError(j, call, OtherFailure, s.clock, jitter, jitter2)])
  }

  function LinkReplyEntries(j: Job, call: Call, reply: LinkReply, now: int): seq<Entry> {
    if reply.GotLink? then [Replied(j.id, j.token, reply.link)]
    else if reply.LinkError? && reply.failure.ProviderFailure? && reply.failure.http == 404 && call.GetCall?
    then [Absent(j.id, j.token, now)] else []
  }

  function CreateReplyEntries(j: Job, reply: CreateReply): seq<Entry> {
    if reply.CreateError? && DefiniteRejection(reply.failure) then [Rejected(j.id, j.token, reply.failure.http)] else []
  }

  /** After the settlement of a verified PAID link; only its success ends without a retry. */
  function AfterSettle(s: Sys, w: nat, j: Job, cancelling: bool, input: SettleInput, built: bool, admitted: bool, jitter: int): Sys {
    var failed := Retry(j, None, PaymentDetailsPendingError, s.clock, jitter);
    if !built then s.(workers := s.workers[w := failed])
    else
      var (db, r) := Settle(s.db, input, s.clock, admitted);
      s.(db := db, workers := s.workers[w :=
        if r.Settled? then Finishing(j, NoUpdate)
        else if r.RolledBack? && cancelling then Idle
        else failed])
  }

  function AfterFinish(s: Sys, w: nat, j: Job, u: Update, admitted: bool): Sys {
    var (db, r) := Complete(s.db, j.id, j.token, u, admitted);
    var wrote := r.Completed? && Terminal(r.snapshot.status) && r.snapshot.status != s.db.orders[j.id].status;
    s.(db := db, workers := s.workers[w := Idle],
       log := if wrote then s.log + [Wrote(j.id, j.token, r.snapshot.status, r.snapshot.link)] else s.log)
  }

  function Next(s: Sys, step: SysStep): Sys {
    if !Enabled(s, step) then s else
    match step
    case StartCreate(w, intent, draws, admitted) =>
      var (db, r) := Reserve(s.db, intent, draws, s.clock, admitted);
      if r.Created?
      then s.(db := db, log := s.log + [CreateIssued(r.order, s.db.nextToken, FirstRequest)],
              workers := s.workers[w := FirstCreate(Job(r.order, s.db.nextToken, NewOrder(intent, FirstFreeCode(s.db.orders, draws).value, s.db.nextToken, s.clock), ""))])
      else s.(db := db)
    case StartReconcile(w, id, admitted) => AfterClaim(s, w, id, admitted, GetCall)
    case StartCancel(w, id, admitted) => AfterClaim(s, w, id, admitted, CancelCall(OperatorCancel))
    case RenewStep(w, slot, admitted, jitter, jitter2) =>
      AfterRenew(s, w, PcOf(s, w).j, PcOf(s, w).call, slot, admitted, jitter, jitter2)
    case LinkReplyStep(w, reply, jitter, jitter2) =>
      var pc := PcOf(s, w);
      s.(log := s.log + LinkReplyEntries(pc.j, pc.call, reply, s.clock),
         workers := s.workers[w := AfterLinkReply(pc.j, pc.call, reply, s.clock, jitter, jitter2)])
    case CreateReplyStep(w, reply, jitter) =>
      var pc := PcOf(s, w);
      s.(log := s.log + CreateReplyEntries(pc.j, reply),
         workers := s.workers[w :=
           if pc.FirstCreate? then (if pc.j.o.lease.Some? then AfterFirstCreate(pc.j, reply, s.clock) else Idle)
           else AfterCreate(pc.j, pc.call.knownLink, reply, s.clock, jitter)])
    case SettleStep(w, input, built, admitted, jitter) =>
      AfterSettle(s, w, PcOf(s, w).j, PcOf(s, w).cancelling, input, built, admitted, jitter)
    case FinishStep(w, admitted) => AfterFinish(s, w, PcOf(s, w).j, PcOf(s, w).u, admitted)
    case Crash(w) => s.(workers := s.workers[w := Idle])
    case Foreign(op) => s.(db := Apply(s.db, op, s.clock))
    case Tick(elapsed) => s.(clock := s.clock + elapsed)
  }

  function SysRun(s: Sys, steps: seq<SysStep>): Sys
    decreases |steps|
  {
    if steps == [] then s else SysRun(Next(s, steps[0]), steps[1..])
  }

  function Boot(clock: int): Sys { Sys(EmptyDb, map[], [], clock) }

  // ---------------------------------------------------------------- evidence in the log

  function LinkStatusOf(st: Status): LinkStatus
    requires Terminal(st)
  {
    match st
    case Cancelled => LinkCancelled
    case Expired => LinkExpired
    case Failed => LinkFailed
  }

  ghost predicate IsReply(e: Entry, id: nat, token: nat, code: int, amount: int, link: string, st: Status)
    requires Terminal(st)
  {
    e.Replied? && e.id == id && e.token == token && e.link == PaymentLink(link, code, amount, LinkStatusOf(st))
  }

  ghost predicate ReplyBefore(log: seq<Entry>, n: nat, id: nat, token: nat, code: int, amount: int, link: string, st: Status)
    requires n <= |log| && Terminal(st)
  {
    exists k :: 0 <= k < n && IsReply(log[k], id, token, code, amount, link, st)
  }

  ghost predicate RejectedBefore(log: seq<Entry>, n: nat, id: nat)
    requires n <= |log|
  {
    exists k :: 0 <= k < n && log[k].Rejected? && log[k].id == id
  }

  ghost predicate IsAbsent(e: Entry, id: nat, token: nat) {
    e.Absent? && e.id == id && e.token == token
  }

  /** A definite rejection of some Create, then a 404 Get under this token. */
  ghost predicate RejectedThenAbsent(log: seq<Entry>, n: nat, id: nat, token: nat)
    requires n <= |log|
  {
    exists k :: 0 <= k < n && IsAbsent(log[k], id, token) && RejectedBefore(log, k, id)
  }

  ghost predicate AbsentBefore(log: seq<Entry>, n: nat, id: nat, token: nat, deadline: int)
    requires n <= |log|
  {
    exists k :: 0 <= k < n && IsAbsent(log[k], id, token) && log[k].at < deadline
  }

  /** What justifies writing a terminal status under a token. */
  ghost predicate Justified(log: seq<Entry>, n: nat, id: nat, token: nat, code: int, amount: int, link: string, st: Status)
    requires n <= |log| && Terminal(st)
  {
    ReplyBefore(log, n, id, token, code, amount, link, st) || (st.Failed? && RejectedThenAbsent(log, n, id, token))
  }

  lemma EvidencePersists(log: seq<Entry>, log': seq<Entry>, id: nat, token: nat, code: int, amount: int, link: string, st: Status, deadline: int)
    requires log <= log' && Terminal(st)
    ensures ReplyBefore(log, |log|, id, token, code, amount, link, st) ==> ReplyBefore(log', |log'|, id, token, code, amount, link, st)
    ensures RejectedBefore(log, |log|, id) ==> RejectedBefore(log', |log'|, id)
    ensures RejectedThenAbsent(log, |log|, id, token) ==> RejectedThenAbsent(log', |log'|, id, token)
    ensures AbsentBefore(log, |log|, id, token, deadline) ==> AbsentBefore(log', |log'|, id, token, deadline)
  {
    if RejectedThenAbsent(log, |log|, id, token) {
      var k :| 0 <= k < |log| && IsAbsent(log[k], id, token) && RejectedBefore(log, k, id);
      PrefixRejection(log, log', k, id);
    }
  }

  lemma PrefixRejection(log: seq<Entry>, log': seq<Entry>, n: nat, id: nat)
    requires log <= log' && n <= |log|
    ensures RejectedBefore(log', n, id) <==> RejectedBefore(log, n, id)
  {
  }

  // ---------------------------------------------------------------- invariant of one worker

  ghost predicate JobOk(db: Db, j: Job) {
    && j.id < |db.orders| && j.token < db.nextToken && j.o.lease.Some?
    && j.o.code == db.orders[j.id].code && j.o.amount == db.orders[j.id].amount && j.o.expiresAt == db.orders[j.id].expiresAt
    && (j.link == j.o.link || j.o.link == "")
  }

  /** While the token owns an unpaid order, what the worker remembers of it is still true. */
  ghost predicate Own(db: Db, j: Job)
    requires j.id < |db.orders|
  {
    var o := db.orders[j.id];
    HasToken(db, j.id, j.token) && !o.status.Paid? ==>
      o.link == j.o.link && o.status == j.o.status && o.qrAttempted == j.o.qrAttempted && o.qr == j.o.qr && o.account == j.o.account
      && o.attempts == j.o.attempts
  }

  ghost predicate UpdateOk(s: Sys, j: Job, u: Update)
    requires j.id < |s.db.orders|
  {
    && (u.status.Some? && Terminal(u.status.value) ==>
          u.status.value == j.o.status
          || ((ReplyBefore(s.log, |s.log|, j.id, j.token, j.o.code, j.o.amount, u.link, u.status.value) && (j.o.link == "" || j.o.link == u.link))
              || (u.status.value.Failed? && RejectedThenAbsent(s.log, |s.log|, j.id, j.token))))
    && (u.lastError.CreateRejected? ==> RejectedBefore(s.log, |s.log|, j.id))
    && (u.next.Some? || s.clock >= RetentionEnd(j.o) || u.status == Some(Creating) || u.status == Some(Processing)
        || s.db.orders[j.id].status.Paid?)
  }

  ghost predicate PcFacts(s: Sys, pc: Pc)
    requires !pc.Idle? && pc.j.id < |s.db.orders|
  {
    && (pc.j.o.lastError.CreateRejected? ==> RejectedBefore(s.log, |s.log|, pc.j.id))
    && (pc.Before? && pc.call == CreateCall(true) ==> !pc.j.o.qrAttempted)
    && (pc.Before? && pc.call == CreateCall(false) ==> AbsentBefore(s.log, |s.log|, pc.j.id, pc.j.token, pc.j.o.expiresAt))
    && (pc.Finishing? ==> UpdateOk(s, pc.j, pc.u))
  }

  ghost predicate PcInv(s: Sys, pc: Pc) {
    pc.Idle? || (JobOk(s.db, pc.j) && Own(s.db, pc.j) && PcFacts(s, pc))
  }

  ghost predicate TokensDistinct(s: Sys) {
    forall w, w' :: w in s.workers && w' in s.workers && w != w' && !s.workers[w].Idle? && !s.workers[w'].Idle? ==>
      s.workers[w].j.token != s.workers[w'].j.token
  }

  // ---------------------------------------------------------------- invariant of the log and the orders

  ghost predicate IsCreate(e: Entry, id: nat, kind: CreateKind) {
    e.CreateIssued? && e.id == id && e.kind == kind
  }

  /** At most one first Create and one QR-recovery Create per order; every other Create follows its own 404. */
  ghost predicate CreatesOk(log: seq<Entry>, orders: seq<Order>) {
    && (forall k :: 0 <= k < |log| ==> log[k].id < |orders|)
    && (forall i, k :: 0 <= i < k < |log| && log[i].CreateIssued? && !log[i].kind.AfterAbsent? ==> !IsCreate(log[k], log[i].id, log[i].kind))
    && (forall k :: 0 <= k < |log| && log[k].CreateIssued? && log[k].kind.QrRecovery? ==> orders[log[k].id].qrAttempted)
    && (forall k :: 0 <= k < |log| && log[k].CreateIssued? && log[k].kind.AfterAbsent? ==>
          AbsentBefore(log, k, log[k].id, log[k].token, orders[log[k].id].expiresAt))
  }

  ghost predicate WritesOk(log: seq<Entry>, orders: seq<Order>) {
    forall k :: 0 <= k < |log| && log[k].Wrote? ==>
      log[k].id < |orders| && Terminal(log[k].status)
      && Justified(log, k, log[k].id, log[k].token, orders[log[k].id].code, orders[log[k].id].amount, log[k].boundLink, log[k].status)
  }

  ghost predicate IsWrite(e: Entry, id: nat, st: Status) {
    e.Wrote? && e.id == id && e.status == st
  }

  ghost predicate Written(log: seq<Entry>, id: nat, st: Status) {
    exists k :: 0 <= k < |log| && IsWrite(log[k], id, st)
  }

  /** An unpaid order is scheduled until retention ends, and never before its lease does. */
  ghost predicate Scheduled(o: Order, clock: int) {
    !o.status.Paid? ==>
      && (o.next.Some? || clock >= RetentionEnd(o))
      && (o.lease.Some? ==> o.next.Some? && o.next.value >= o.lease.value.until)
  }

  ghost predicate OrderFacts(log: seq<Entry>, id: nat, o: Order, clock: int) {
    && Scheduled(o, clock) && o.attempts >= 0
    && (Terminal(o.status) ==> Written(log, id, o.status))
    && (o.lastError.CreateRejected? ==> RejectedBefore(log, |log|, id))
  }

  ghost predicate OrdersInv(s: Sys) {
    forall i :: 0 <= i < |s.db.orders| ==> OrderFacts(s.log, i, s.db.orders[i], s.clock)
  }

  ghost predicate SysInv(s: Sys) {
    && Inv(s.db)
    && (forall w :: w in s.workers ==> PcInv(s, s.workers[w]))
    && TokensDistinct(s)
    && CreatesOk(s.log, s.db.orders) && WritesOk(s.log, s.db.orders) && OrdersInv(s)
  }
}
