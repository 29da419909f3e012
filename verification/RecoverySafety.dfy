/** The worker system keeps its invariant through every step, crash and takeover. */
module RecoverySafety {
  import opened Options
  import opened PaymentTables
  import opened OrderLeases
  import opened Settlement
  import opened SettlementFrames
  import opened PaymentRuns
  import opened OrderHistory
  import opened RecoveryLogic
  import opened RecoveryRuns

  // ---------------------------------------------------------------- the database under one transaction

  predicate UsesToken(op: Op, token: nat) {
    (op.RenewOp? || op.CompleteOp?) && op.token == token
  }

  lemma OwnUnderLeaseOp(db: Db, op: Op, now: int, j: Job)
    requires Inv(db) && JobOk(db, j) && Own(db, j) && !UsesToken(op, j.token)
    requires op.ClaimOp? || op.RenewOp? || op.CompleteOp? || op.ReserveOp?
    ensures j.id < |Apply(db, op, now).orders| && Own(Apply(db, op, now), j)
  {
  }

  lemma OwnUnderLeaseFree(db: Db, op: Op, now: int, j: Job)
    requires Inv(db) && JobOk(db, j) && Own(db, j) && LeaseFree(op)
    ensures j.id < |Apply(db, op, now).orders| && Own(Apply(db, op, now), j)
  {
    hide Settle, InsertInbox, PromoteUnknown;
    match op
    case SettleOp(s, admitted) =>
      if admitted && Decide(db, s).Accept? && !KeyTaken(db, KeyOf(s)) {
        AcceptedPaysOneOrder(db, s, now);
      } else {
        UnacceptedMovesNoMoney(db, s, now, admitted);
        assert Rescheduled(db.orders[j.id], Apply(db, op, now).orders[j.id], now);
      }
    case SaveCallbackOp(p, reason, _) =>
      InsertInboxMovesNoMoney(db, p, reason, now);
      assert Rescheduled(db.orders[j.id], InsertInbox(db, p, reason, now).orders[j.id], now);
    case PromoteOp(code, _) =>
      PromoteMovesNoMoney(db, code, now);
      assert Rescheduled(db.orders[j.id], PromoteUnknown(db, code, now).orders[j.id], now);
    case EndpointsOp(_) =>
  }

  lemma JobUnderOp(db: Db, op: Op, now: int, j: Job)
    requires Inv(db) && JobOk(db, j)
    ensures JobOk(Apply(db, op, now), j)
    ensures Own(db, j) && !UsesToken(op, j.token) ==> Own(Apply(db, op, now), j)
    ensures db.orders[j.id].status.Paid? ==> Apply(db, op, now).orders[j.id].status.Paid?
  {
    ApplyEvolves(db, op, now);
    assert Evolves(db.orders[j.id], Apply(db, op, now).orders[j.id]);
    if Own(db, j) && !UsesToken(op, j.token) {
      if LeaseFree(op) { OwnUnderLeaseFree(db, op, now, j); } else { OwnUnderLeaseOp(db, op, now, j); }
    }
  }

  // ---------------------------------------------------------------- shape of a step

  lemma StepShape(s: Sys, step: SysStep)
    requires Enabled(s, step)
    ensures Next(s, step).db == DbAfter(s, step)
    ensures s.log <= Next(s, step).log && s.clock <= Next(s, step).clock
    ensures |Next(s, step).log| <= |s.log| + 1
  {
  }

  function WorkerOf(step: SysStep): Option<nat> {
    match step
    case Foreign(_) => None
    case Tick(_) => None
    case StartCreate(w, _, _, _) => Some(w)
    case StartReconcile(w, _, _) => Some(w)
    case StartCancel(w, _, _) => Some(w)
    case RenewStep(w, _, _, _, _) => Some(w)
    case LinkReplyStep(w, _, _, _) => Some(w)
    case CreateReplyStep(w, _, _) => Some(w)
    case SettleStep(w, _, _, _, _) => Some(w)
    case FinishStep(w, _) => Some(w)
    case Crash(w) => Some(w)
  }

  lemma OthersKept(s: Sys, step: SysStep, w: nat)
    requires Enabled(s, step) && WorkerOf(step) != Some(w)
    ensures PcOf(Next(s, step), w) == PcOf(s, w) && (w in Next(s, step).workers <==> w in s.workers)
  {
  }

  // ---------------------------------------------------------------- a worker that does not move

  lemma FactsPersist(s: Sys, s': Sys, pc: Pc)
    requires !pc.Idle? && JobOk(s.db, pc.j) && JobOk(s'.db, pc.j) && PcFacts(s, pc)
    requires s.log <= s'.log && s.clock <= s'.clock
    requires s.db.orders[pc.j.id].status.Paid? ==> s'.db.orders[pc.j.id].status.Paid?
    ensures PcFacts(s', pc)
  {
    EvidencePersists(s.log, s'.log, pc.j.id, pc.j.token, 0, 0, "", Failed, pc.j.o.expiresAt);
    if pc.Finishing? && pc.u.status.Some? && Terminal(pc.u.status.value) {
      EvidencePersists(s.log, s'.log, pc.j.id, pc.j.token, pc.j.o.code, pc.j.o.amount, pc.u.link, pc.u.status.value, 0);
    }
  }

  lemma PcPersists(s: Sys, step: SysStep, pc: Pc)
    requires Inv(s.db) && Enabled(s, step) && PcInv(s, pc)
    requires !pc.Idle? && TxOf(s, step).Some? ==> !UsesToken(TxOf(s, step).value, pc.j.token)
    ensures PcInv(Next(s, step), pc)
  {
    if !pc.Idle? {
      StepShape(s, step);
      if TxOf(s, step).Some? { JobUnderOp(s.db, TxOf(s, step).value, s.clock, pc.j); }
      FactsPersist(s, Next(s, step), pc);
    }
  }

  // ---------------------------------------------------------------- decisions

  /** A state in which job `j` has just been answered: everything a decision may rely on. */
  ghost predicate Answered(s: Sys, j: Job) {
    JobOk(s.db, j) && Own(s.db, j) && (j.o.lastError.CreateRejected? ==> RejectedBefore(s.log, |s.log|, j.id))
  }

  ghost predicate HasReply(s: Sys, j: Job, link: PaymentLink) {
    exists k :: 0 <= k < |s.log| && s.log[k] == Replied(j.id, j.token, link)
  }

  lemma TerminalReply(s: Sys, j: Job, link: PaymentLink)
    requires HasReply(s, j, link) && LinkMatches(j, link) && JobOk(s.db, j)
    requires link.status.LinkCancelled? || link.status.LinkExpired? || link.status.LinkFailed?
    ensures ReplyBefore(s.log, |s.log|, j.id, j.token, j.o.code, j.o.amount, link.id, TerminalStatus(link.status))
    ensures j.o.link == "" || j.o.link == link.id
  {
    var k :| 0 <= k < |s.log| && s.log[k] == Replied(j.id, j.token, link);
    assert IsReply(s.log[k], j.id, j.token, j.o.code, j.o.amount, link.id, TerminalStatus(link.status));
  }

  lemma ApplyLinkOk(s: Sys, j: Job, link: PaymentLink, jitter: int)
    requires Answered(s, j) && HasReply(s, j, link)
    ensures PcInv(s, ApplyLink(j, link, s.clock, jitter))
  {
    if LinkMatches(j, link) && (link.status.LinkCancelled? || link.status.LinkExpired? || link.status.LinkFailed?) {
      TerminalReply(s, j, link);
    }
  }

  lemma ConcludeOk(s: Sys, j: Job, kind: CancelKind, link: PaymentLink, jitter: int)
    requires Answered(s, j) && HasReply(s, j, link) && LinkMatches(j, link)
    requires link.status.LinkPaid? || link.status.LinkCancelled? || link.status.LinkExpired?
    ensures PcInv(s, Conclude(j, kind, link, s.clock, jitter))
  {
    if kind.QrCancel? {
      ApplyLinkOk(s, j, link, jitter);
    } else if !link.status.LinkPaid? {
      TerminalReply(s, j, link);
    }
  }

  lemma RecoverAbsentOk(s: Sys, j: Job, n: nat)
    requires Answered(s, j) && |s.log| == n + 1 && s.log[n] == Absent(j.id, j.token, s.clock)
    requires j.o.lastError.CreateRejected? ==> RejectedBefore(s.log, n, j.id)
    ensures PcInv(s, RecoverAbsent(j, s.clock))
  {
    assert IsAbsent(s.log[n], j.id, j.token);
  }

  lemma LinkReplyOk(s: Sys, s': Sys, j: Job, call: Call, reply: LinkReply, jitter: int, jitter2: int)
    requires !call.CreateCall? && Answered(s, j) && s'.db == s.db && s'.clock == s.clock
    requires s'.log == s.log + LinkReplyEntries(j, call, reply, s.clock)
    ensures PcInv(s', AfterLinkReply(j, call, reply, s.clock, jitter, jitter2))
  {
    EvidencePersists(s.log, s'.log, j.id, j.token, 0, 0, "", Failed, 0);
    var n := |s.log|;
    if reply.GotLink? {
      assert s'.log[n] == Replied(j.id, j.token, reply.link);
      assert HasReply(s', j, reply.link);
      match call
      case GetCall => ApplyLinkOk(s', j, reply.link, jitter);
      case CancelCall(kind) =>
        if LinkMatches(j, reply.link) && (reply.link.status.LinkCancelled? || reply.link.status.LinkExpired?) {
          ConcludeOk(s', j, kind, reply.link, jitter);
        }
      case GetAfterCancel(kind, _) =>
        if LinkMatches(j, reply.link)
           && (reply.link.status.LinkPaid? || reply.link.status.LinkCancelled? || reply.link.status.LinkExpired?) {
          ConcludeOk(s', j, kind, reply.link, jitter);
        }
    } else if call.GetCall? && reply.LinkError? && reply.failure.ProviderFailure? && reply.failure.http == 404 {
      assert s'.log[n] == Absent(j.id, j.token, s.clock);
      PrefixRejection(s.log, s'.log, n, j.id);
      RecoverAbsentOk(s', j, n);
    }
  }

  lemma CreateReplyOk(s: Sys, s': Sys, pc: Pc, reply: CreateReply, jitter: int)
    requires pc.FirstCreate? || (pc.During? && pc.call.CreateCall?)
    requires Answered(s, pc.j) && s'.db == s.db && s'.clock == s.clock
    requires s'.log == s.log + CreateReplyEntries(pc.j, reply)
    ensures pc.FirstCreate? ==> PcInv(s', AfterFirstCreate(pc.j, reply, s.clock))
    ensures pc.During? ==> PcInv(s', AfterCreate(pc.j, pc.call.knownLink, reply, s.clock, jitter))
  {
    EvidencePersists(s.log, s'.log, pc.j.id, pc.j.token, 0, 0, "", Failed, 0);
    if reply.CreateError? && DefiniteRejection(reply.failure) {
      assert s'.log[|s.log|] == Rejected(pc.j.id, pc.j.token, reply.failure.http);
      assert RejectedBefore(s'.log, |s'.log|, pc.j.id);
    }
  }

  // ---------------------------------------------------------------- the worker that moves

  lemma StartPc(s: Sys, step: SysStep)
    requires SysInv(s) && Enabled(s, step) && (step.StartCreate? || step.StartReconcile? || step.StartCancel?)
    ensures PcInv(Next(s, step), PcOf(Next(s, step), step.w))
  {
    var s' := Next(s, step);
    if !step.StartCreate? && step.id < |s.db.orders| {
      assert OrderFacts(s.log, step.id, s.db.orders[step.id], s.clock);
    }
  }

  lemma RenewedJob(s: Sys, j: Job, qr: bool, admitted: bool)
    requires SysInv(s) && JobOk(s.db, j) && Own(s.db, j) && Renew(s.db, j.id, j.token, qr, s.clock, admitted).1.Renewed?
    ensures var (db, r) := Renew(s.db, j.id, j.token, qr, s.clock, admitted);
      JobOk(db, j) && (!qr || j.o.qrAttempted ==> Own(db, j))
      && JobOk(db, j.(o := r.snapshot, link := if j.link != "" then j.link else r.snapshot.link))
      && Own(db, j.(o := r.snapshot, link := if j.link != "" then j.link else r.snapshot.link))
      && (r.snapshot.lastError.CreateRejected? ==> RejectedBefore(s.log, |s.log|, j.id))
  {
    assert OrderFacts(s.log, j.id, s.db.orders[j.id], s.clock);
  }

  lemma RenewPc(s: Sys, step: SysStep)
    requires SysInv(s) && step.RenewStep? && Enabled(s, step)
    ensures PcInv(Next(s, step), PcOf(Next(s, step), step.w))
  {
    var s', pc := Next(s, step), PcOf(s, step.w);
    var j := pc.j;
    assert PcInv(s, pc);
    var qr := pc.call == CreateCall(true);
    if step.slot && Renew(s.db, j.id, j.token, qr, s.clock, step.admitted).1.Renewed? {
      RenewedJob(s, j, qr, step.admitted);
      EvidencePersists(s.log, s'.log, j.id, j.token, 0, 0, "", Failed, 0);
    } else if !pc.call.CreateCall? {
      LinkReplyOk(s, s', j, pc.call, LinkError(OtherFailure), step.jitter, step.jitter2);
    }
  }

  lemma SettlePcBuilt(s: Sys, step: SysStep)
    requires SysInv(s) && step.SettleStep? && Enabled(s, step) && step.built
    ensures PcInv(Next(s, step), PcOf(Next(s, step), step.w))
  {
    hide Settle;
    var j := PcOf(s, step.w).j;
    assert PcInv(s, PcOf(s, step.w));
    JobUnderOp(s.db, SettleOp(step.input, step.admitted), s.clock, j);
    if Settle(s.db, step.input, s.clock, step.admitted).1.Settled? {
      SettledIsPaid(s, j, step.input, step.admitted);
    }
  }

  lemma SettlePc(s: Sys, step: SysStep)
    requires SysInv(s) && step.SettleStep? && Enabled(s, step)
    ensures PcInv(Next(s, step), PcOf(Next(s, step), step.w))
  {
    if step.built { SettlePcBuilt(s, step); } else { assert PcInv(s, PcOf(s, step.w)); }
  }

  /** A settlement that succeeds or finds its duplicate leaves the order PAID. */
  lemma SettledIsPaid(s: Sys, j: Job, input: SettleInput, admitted: bool)
    requires SysInv(s) && JobOk(s.db, j) && input.code == j.o.code
    requires Settle(s.db, input, s.clock, admitted).1.Settled?
    ensures j.id < |Settle(s.db, input, s.clock, admitted).0.orders|
    ensures Settle(s.db, input, s.clock, admitted).0.orders[j.id].status.Paid?
  {
    var i := IndexOfCode(s.db.orders, input.code).value;
    assert s.db.orders[i].code == s.db.orders[j.id].code;
    assert i == j.id;
  }

  lemma MovedPc(s: Sys, step: SysStep)
    requires SysInv(s) && Enabled(s, step) && WorkerOf(step).Some?
    ensures PcInv(Next(s, step), PcOf(Next(s, step), WorkerOf(step).value))
  {
    match step
    case StartCreate(_, _, _, _) => StartPc(s, step);
    case StartReconcile(_, _, _) => StartPc(s, step);
    case StartCancel(_, _, _) => StartPc(s, step);
    case RenewStep(_, _, _, _, _) => RenewPc(s, step);
    case LinkReplyStep(w, reply, jitter, jitter2) =>
      LinkReplyOk(s, Next(s, step), PcOf(s, w).j, PcOf(s, w).call, reply, jitter, jitter2);
    case CreateReplyStep(w, reply, jitter) => CreateReplyOk(s, Next(s, step), PcOf(s, w), reply, jitter);
    case SettleStep(_, _, _, _, _) => SettlePc(s, step);
    case FinishStep(_, _) =>
    case Crash(_) =>
  }

  lemma WorkersKept(s: Sys, step: SysStep)
    requires SysInv(s) && Enabled(s, step)
    ensures forall w :: w in Next(s, step).workers ==> PcInv(Next(s, step), Next(s, step).workers[w])
    ensures TokensDistinct(Next(s, step))
  {
    var s' := Next(s, step);
    forall w | w in s'.workers ensures PcInv(s', s'.workers[w]) {
      if WorkerOf(step) == Some(w) {
        MovedPc(s, step);
      } else {
        OthersKept(s, step, w);
        PcPersists(s, step, PcOf(s, w));
      }
    }
    TokensKeptDistinct(s, step);
  }

  /** A worker keeps its token through its operation, and a new operation gets a fresh one. */
  lemma MovedToken(s: Sys, step: SysStep)
    requires SysInv(s) && Enabled(s, step) && WorkerOf(step).Some?
    ensures var pc, pc' := PcOf(s, WorkerOf(step).value), PcOf(Next(s, step), WorkerOf(step).value);
      pc'.Idle? || pc' == pc || (pc.Idle? && pc'.j.token == s.db.nextToken) || (!pc.Idle? && pc'.j.token == pc.j.token)
  {
    hide SysInv, Settle, Complete, Renew;
  }

  lemma TokensKeptDistinct(s: Sys, step: SysStep)
    requires SysInv(s) && Enabled(s, step)
    ensures TokensDistinct(Next(s, step))
  {
    var s' := Next(s, step);
    if WorkerOf(step).Some? { MovedToken(s, step); }
    forall w, w' | w in s'.workers && w' in s'.workers && w != w' && !s'.workers[w].Idle? && !s'.workers[w'].Idle?
      ensures s'.workers[w].j.token != s'.workers[w'].j.token
    {
      if WorkerOf(step) != Some(w) { OthersKept(s, step, w); assert PcInv(s, PcOf(s, w)); }
      if WorkerOf(step) != Some(w') { OthersKept(s, step, w'); assert PcInv(s, PcOf(s, w')); }
    }
  }

  // ---------------------------------------------------------------- the orders

  lemma WrittenPersists(log: seq<Entry>, log': seq<Entry>, id: nat, st: Status)
    requires log <= log'
    ensures Written(log, id, st) ==> Written(log', id, st)
  {
  }

  lemma OrderFactsPersist(s: Sys, s': Sys, id: nat, o: Order, o': Order)
    requires OrderFacts(s.log, id, o, s.clock) && s.log <= s'.log && s.clock <= s'.clock
    requires o'.status == o.status || o'.status.Paid?
    requires o'.attempts >= 0 && (o'.lastError == o.lastError || !o'.lastError.CreateRejected?)
    requires Scheduled(o, s.clock) && o'.expiresAt == o.expiresAt ==> Scheduled(o', s'.clock)
    requires o'.expiresAt == o.expiresAt
    ensures OrderFacts(s'.log, id, o', s'.clock)
  {
    EvidencePersists(s.log, s'.log, id, 0, 0, 0, "", Failed, 0);
    WrittenPersists(s.log, s'.log, id, o.status);
  }

  lemma OrderUnderReschedule(s: Sys, s': Sys, i: nat)
    requires SysInv(s) && i < |s.db.orders| && NoMoney(s.db, s'.db, s.clock) && s.log <= s'.log && s.clock <= s'.clock
    ensures |s'.db.orders| == |s.db.orders| && OrderFacts(s'.log, i, s'.db.orders[i], s'.clock)
  {
    assert OrderFacts(s.log, i, s.db.orders[i], s.clock);
    assert Rescheduled(s.db.orders[i], s'.db.orders[i], s.clock);
    OrderFactsPersist(s, s', i, s.db.orders[i], s'.db.orders[i]);
  }

  lemma OrderUnderSettle(s: Sys, s': Sys, input: SettleInput, i: nat)
    requires SysInv(s) && i < |s.db.orders| && Decide(s.db, input).Accept? && !KeyTaken(s.db, KeyOf(input))
    requires s'.db == Settle(s.db, input, s.clock, true).0 && s.log <= s'.log && s.clock <= s'.clock
    ensures |s'.db.orders| == |s.db.orders| && OrderFacts(s'.log, i, s'.db.orders[i], s'.clock)
  {
    assert OrderFacts(s.log, i, s.db.orders[i], s.clock);
    AcceptedPaysOneOrder(s.db, input, s.clock);
    OrderFactsPersist(s, s', i, s.db.orders[i], s'.db.orders[i]);
  }

  lemma OrderUnderLeaseFree(s: Sys, s': Sys, op: Op, i: nat)
    requires SysInv(s) && LeaseFree(op) && i < |s.db.orders|
    requires s'.db == Apply(s.db, op, s.clock) && s.log <= s'.log && s.clock <= s'.clock
    ensures |s'.db.orders| == |s.db.orders| && OrderFacts(s'.log, i, s'.db.orders[i], s'.clock)
  {
    match op
    case SettleOp(input, admitted) =>
      if admitted && Decide(s.db, input).Accept? && !KeyTaken(s.db, KeyOf(input)) {
        OrderUnderSettle(s, s', input, i);
      } else {
        UnacceptedMovesNoMoney(s.db, input, s.clock, admitted);
        OrderUnderReschedule(s, s', i);
      }
    case SaveCallbackOp(p, reason, admitted) =>
      InsertInboxMovesNoMoney(s.db, p, reason, s.clock);
      if admitted { OrderUnderReschedule(s, s', i); } else { OrderFactsPersist(s, s', i, s.db.orders[i], s.db.orders[i]); }
    case PromoteOp(code, admitted) =>
      PromoteMovesNoMoney(s.db, code, s.clock);
      if admitted { OrderUnderReschedule(s, s', i); } else { OrderFactsPersist(s, s', i, s.db.orders[i], s.db.orders[i]); }
    case EndpointsOp(_) =>
      OrderFactsPersist(s, s', i, s.db.orders[i], s.db.orders[i]);
  }

  /** A claim or renewal moves lease and schedule together. */
  lemma LeasedSchedule(db: Db, op: Op, now: int, i: nat)
    requires (op.ClaimOp? || op.RenewOp?) && i < |db.orders| && Scheduled(db.orders[i], now)
    ensures |Apply(db, op, now).orders| == |db.orders|
    ensures var o, o' := db.orders[i], Apply(db, op, now).orders[i];
      o'.status == o.status && o'.lastError == o.lastError && o'.expiresAt == o.expiresAt && Scheduled(o', now)
  {
  }

  lemma ReservedSchedule(db: Db, op: Op, now: int, i: nat)
    requires op.ReserveOp? && i < |Apply(db, op, now).orders|
    ensures i < |db.orders| ==> Apply(db, op, now).orders[i] == db.orders[i]
    ensures var o := Apply(db, op, now).orders[i];
      i >= |db.orders| ==> o.status.Creating? && o.lastError.NoError? && Scheduled(o, now)
  {
  }

  lemma OrderUnderLeaseOp(s: Sys, s': Sys, op: Op, i: nat)
    requires SysInv(s) && (op.ReserveOp? || op.ClaimOp? || op.RenewOp?)
    requires s'.db == Apply(s.db, op, s.clock) && s.log <= s'.log && s.clock <= s'.clock && i < |s'.db.orders|
    ensures OrderFacts(s'.log, i, s'.db.orders[i], s'.clock)
  {
    if op.ReserveOp? { ReservedSchedule(s.db, op, s.clock, i); }
    if i < |s.db.orders| {
      var o := s.db.orders[i];
      assert OrderFacts(s.log, i, o, s.clock);
      if !op.ReserveOp? { LeasedSchedule(s.db, op, s.clock, i); }
      OrderFactsPersist(s, s', i, o, s'.db.orders[i]);
    }
  }

  /** The order a finishing worker writes: its status has evidence and its schedule survives. */
  lemma FinishedOrder(s: Sys, step: SysStep)
    requires SysInv(s) && step.FinishStep? && Enabled(s, step)
    requires Complete(s.db, PcOf(s, step.w).j.id, PcOf(s, step.w).j.token, PcOf(s, step.w).u, step.admitted).1.Completed?
    ensures var s', j := Next(s, step), PcOf(s, step.w).j;
      j.id < |s'.db.orders| && OrderFacts(s'.log, j.id, s'.db.orders[j.id], s'.clock)
  {
    var s', j, u := Next(s, step), PcOf(s, step.w).j, PcOf(s, step.w).u;
    assert PcInv(s, PcOf(s, step.w));
    var o, o' := s.db.orders[j.id], s'.db.orders[j.id];
    assert OrderFacts(s.log, j.id, o, s.clock);
    EvidencePersists(s.log, s'.log, j.id, 0, 0, 0, "", Failed, 0);
    WrittenPersists(s.log, s'.log, j.id, o.status);
    if Terminal(o'.status) && o'.status != o.status {
      assert IsWrite(s'.log[|s.log|], j.id, o'.status);
    }
  }

  lemma OrdersKept(s: Sys, step: SysStep)
    requires SysInv(s) && Enabled(s, step)
    ensures OrdersInv(Next(s, step))
  {
    var s' := Next(s, step);
    StepShape(s, step);
    forall i | 0 <= i < |s'.db.orders| ensures OrderFacts(s'.log, i, s'.db.orders[i], s'.clock) {
      match TxOf(s, step)
      case None =>
        assert OrderFacts(s.log, i, s.db.orders[i], s.clock);
        OrderFactsPersist(s, s', i, s.db.orders[i], s'.db.orders[i]);
      case Some(op) =>
        if LeaseFree(op) {
          ApplyEvolves(s.db, op, s.clock);
          LeaseFreeKeepsOrders(s.db, op, s.clock);
          OrderUnderLeaseFree(s, s', op, i);
        } else if !op.CompleteOp? {
          OrderUnderLeaseOp(s, s', op, i);
        } else {
          var j := PcOf(s, step.w).j;
          if i == j.id && s'.db != s.db {
            FinishedOrder(s, step);
          } else {
            assert OrderFacts(s.log, i, s.db.orders[i], s.clock);
            OrderFactsPersist(s, s', i, s.db.orders[i], s'.db.orders[i]);
          }
        }
    }
  }

  /** Without a lease a status can only become PAID. */
  lemma StatusUnderLeaseFree(db: Db, op: Op, now: int, i: nat)
    requires LeaseFree(op) && i < |db.orders|
    ensures i < |Apply(db, op, now).orders|
    ensures Apply(db, op, now).orders[i].status == db.orders[i].status || Apply(db, op, now).orders[i].status.Paid?
  {
    hide Settle, InsertInbox, PromoteUnknown;
    match op
    case SettleOp(input, admitted) =>
      if admitted && Decide(db, input).Accept? && !KeyTaken(db, KeyOf(input)) {
        AcceptedPaysOneOrder(db, input, now);
      } else {
        UnacceptedMovesNoMoney(db, input, now, admitted);
        assert Rescheduled(db.orders[i], Apply(db, op, now).orders[i], now);
      }
    case SaveCallbackOp(p, reason, _) =>
      InsertInboxMovesNoMoney(db, p, reason, now);
      assert Rescheduled(db.orders[i], InsertInbox(db, p, reason, now).orders[i], now);
    case PromoteOp(code, _) =>
      PromoteMovesNoMoney(db, code, now);
      assert Rescheduled(db.orders[i], PromoteUnknown(db, code, now).orders[i], now);
    case EndpointsOp(_) =>
  }

  lemma LeaseFreeKeepsOrders(db: Db, op: Op, now: int)
    requires LeaseFree(op)
    ensures |Apply(db, op, now).orders| == |db.orders|
  {
    if !op.EndpointsOp? { TokensKept(db, op, now); }
  }

  // ---------------------------------------------------------------- the log

  lemma AbsentPrefix(log: seq<Entry>, log': seq<Entry>, n: nat, id: nat, token: nat, deadline: int)
    requires log <= log' && n <= |log|
    ensures AbsentBefore(log', n, id, token, deadline) <==> AbsentBefore(log, n, id, token, deadline)
  {
  }

  /** Appending an entry that is no Create, or a Create that keeps the rules. */
  lemma CreatesAppend(log: seq<Entry>, orders: seq<Order>, orders': seq<Order>, e: Entry)
    requires CreatesOk(log, orders) && |orders| <= |orders'| && e.id < |orders'|
    requires forall i :: 0 <= i < |orders| ==> Evolves(orders[i], orders'[i])
    requires e.CreateIssued? && e.kind.FirstRequest? ==> e.id >= |orders|
    requires e.CreateIssued? && e.kind.QrRecovery? ==> e.id < |orders| && !orders[e.id].qrAttempted && orders'[e.id].qrAttempted
    requires e.CreateIssued? && e.kind.AfterAbsent? ==> AbsentBefore(log, |log|, e.id, e.token, orders'[e.id].expiresAt)
    ensures CreatesOk(log + [e], orders')
  {
    var log' := log + [e];
    forall k | 0 <= k < |log'| && log'[k].CreateIssued? && log'[k].kind.AfterAbsent?
      ensures AbsentBefore(log', k, log'[k].id, log'[k].token, orders'[log'[k].id].expiresAt)
    {
      if k < |log| {
        assert Evolves(orders[log[k].id], orders'[log[k].id]);
        AbsentPrefix(log, log', k, log[k].id, log[k].token, orders[log[k].id].expiresAt);
      } else {
        AbsentPrefix(log, log', k, e.id, e.token, orders'[e.id].expiresAt);
      }
    }
    forall k | 0 <= k < |log'| && log'[k].CreateIssued? && log'[k].kind.QrRecovery? ensures orders'[log'[k].id].qrAttempted {
      if k < |log| { assert Evolves(orders[log[k].id], orders'[log[k].id]); }
    }
  }

  lemma CreatesEvolve(log: seq<Entry>, orders: seq<Order>, orders': seq<Order>)
    requires CreatesOk(log, orders) && |orders| <= |orders'|
    requires forall i :: 0 <= i < |orders| ==> Evolves(orders[i], orders'[i])
    ensures CreatesOk(log, orders')
  {
    forall k | 0 <= k < |log| ensures Evolves(orders[log[k].id], orders'[log[k].id]) {}
  }

  /** A step that issues a Create may: for a new order, once for QR recovery, or after a 404. */
  lemma CreateIsAllowed(s: Sys, step: SysStep, e: Entry)
    requires SysInv(s) && Enabled(s, step) && Next(s, step).log == s.log + [e] && e.CreateIssued?
    ensures e.id < |Next(s, step).db.orders|
    ensures e.kind.FirstRequest? ==> e.id >= |s.db.orders|
    ensures e.kind.QrRecovery? ==> e.id < |s.db.orders| && !s.db.orders[e.id].qrAttempted && Next(s, step).db.orders[e.id].qrAttempted
    ensures e.kind.AfterAbsent? ==> AbsentBefore(s.log, |s.log|, e.id, e.token, Next(s, step).db.orders[e.id].expiresAt)
  {
    assert e == Next(s, step).log[|s.log|];
    if !step.StartCreate? { assert PcInv(s, PcOf(s, step.w)); }
  }

  lemma EntryNamesOrder(s: Sys, step: SysStep, e: Entry)
    requires SysInv(s) && Enabled(s, step) && Next(s, step).log == s.log + [e]
    ensures e.id < |Next(s, step).db.orders|
  {
    assert e == Next(s, step).log[|s.log|];
    if !step.StartCreate? { assert PcInv(s, PcOf(s, step.w)); }
  }

  lemma CreatesKeptByEntry(s: Sys, step: SysStep, e: Entry)
    requires SysInv(s) && Enabled(s, step) && Next(s, step).log == s.log + [e]
    requires AllEvolve(s.db, Next(s, step).db)
    ensures CreatesOk(Next(s, step).log, Next(s, step).db.orders)
  {
    EntryNamesOrder(s, step, e);
    if e.CreateIssued? { CreateIsAllowed(s, step, e); }
    CreatesAppend(s.log, s.db.orders, Next(s, step).db.orders, e);
  }

  lemma DbEvolves(s: Sys, step: SysStep)
    requires SysInv(s) && Enabled(s, step)
    ensures AllEvolve(s.db, Next(s, step).db)
  {
    StepShape(s, step);
    if TxOf(s, step).Some? { ApplyEvolves(s.db, TxOf(s, step).value, s.clock); }
  }

  lemma CreatesKept(s: Sys, step: SysStep)
    requires SysInv(s) && Enabled(s, step)
    ensures CreatesOk(Next(s, step).log, Next(s, step).db.orders)
  {
    var s' := Next(s, step);
    StepShape(s, step);
    DbEvolves(s, step);
    if s'.log == s.log {
      CreatesEvolve(s.log, s.db.orders, s'.db.orders);
    } else {
      CreatesKeptByEntry(s, step, s'.log[|s.log|]);
    }
  }

  lemma EvidencePrefix(log: seq<Entry>, log': seq<Entry>, n: nat, id: nat, token: nat, code: int, amount: int, link: string, st: Status)
    requires log <= log' && n <= |log| && Terminal(st) && Justified(log, n, id, token, code, amount, link, st)
    ensures Justified(log', n, id, token, code, amount, link, st)
  {
    if ReplyBefore(log, n, id, token, code, amount, link, st) {
      var k :| 0 <= k < n && IsReply(log[k], id, token, code, amount, link, st);
      assert IsReply(log'[k], id, token, code, amount, link, st);
    } else {
      var k :| 0 <= k < n && IsAbsent(log[k], id, token) && RejectedBefore(log, k, id);
      PrefixRejection(log, log', k, id);
      assert IsAbsent(log'[k], id, token);
    }
  }

  lemma WritesEvolve(log: seq<Entry>, log': seq<Entry>, orders: seq<Order>, orders': seq<Order>)
    requires WritesOk(log, orders) && log <= log' && |log'| <= |log| + 1 && |orders| <= |orders'|
    requires forall i :: 0 <= i < |orders| ==> Evolves(orders[i], orders'[i])
    requires |log'| == |log| + 1 && log'[|log|].Wrote? ==>
      var e := log'[|log|];
      e.id < |orders'| && Terminal(e.status)
      && Justified(log, |log|, e.id, e.token, orders'[e.id].code, orders'[e.id].amount, e.boundLink, e.status)
    ensures WritesOk(log', orders')
  {
    forall k | 0 <= k < |log'| && log'[k].Wrote?
      ensures log'[k].id < |orders'| && Terminal(log'[k].status)
      ensures Justified(log', k, log'[k].id, log'[k].token, orders'[log'[k].id].code, orders'[log'[k].id].amount, log'[k].boundLink, log'[k].status)
    {
      var e := log'[k];
      if k < |log| {
        assert e == log[k];
        assert Evolves(orders[e.id], orders'[e.id]);
      }
      EvidencePrefix(log, log', k, e.id, e.token, orders'[e.id].code, orders'[e.id].amount, e.boundLink, e.status);
    }
  }

  lemma OnlyFinishWrites(s: Sys, step: SysStep)
    requires Enabled(s, step) && !step.FinishStep? && Next(s, step).log != s.log
    ensures |Next(s, step).log| == |s.log| + 1 && !Next(s, step).log[|s.log|].Wrote?
  {
  }

  lemma WritesKept(s: Sys, step: SysStep)
    requires SysInv(s) && Enabled(s, step)
    ensures WritesOk(Next(s, step).log, Next(s, step).db.orders)
  {
    var s' := Next(s, step);
    StepShape(s, step);
    DbEvolves(s, step);
    if s'.log != s.log {
      if step.FinishStep? { FinishEvidence(s, step); } else { OnlyFinishWrites(s, step); }
    }
    WritesEvolve(s.log, s'.log, s.db.orders, s'.db.orders);
  }

  lemma FinishEvidence(s: Sys, step: SysStep)
    requires SysInv(s) && step.FinishStep? && Enabled(s, step) && Next(s, step).log != s.log
    ensures var s', e := Next(s, step), Next(s, step).log[|s.log|];
      s'.log == s.log + [e] && e.Wrote? && e.id < |s'.db.orders| && Terminal(e.status)
      && Justified(s.log, |s.log|, e.id, e.token, s'.db.orders[e.id].code, s'.db.orders[e.id].amount, e.boundLink, e.status)
  {
    assert PcInv(s, PcOf(s, step.w));
  }

  // ---------------------------------------------------------------- every run

  lemma NextKeepsInv(s: Sys, step: SysStep)
    requires SysInv(s)
    ensures SysInv(Next(s, step))
  {
    if Enabled(s, step) {
      StepShape(s, step);
      if TxOf(s, step).Some? { ApplyKeepsInv(s.db, TxOf(s, step).value, s.clock); }
      WorkersKept(s, step);
      OrdersKept(s, step);
      CreatesKept(s, step);
      WritesKept(s, step);
    }
  }

  lemma {:induction false} SysRunKeepsInv(s: Sys, steps: seq<SysStep>)
    requires SysInv(s)
    ensures SysInv(SysRun(s, steps))
    decreases |steps|
  {
    if steps != [] {
      NextKeepsInv(s, steps[0]);
      SysRunKeepsInv(Next(s, steps[0]), steps[1..]);
    }
  }

  lemma BootInv(clock: int)
    ensures SysInv(Boot(clock))
  {
  }
}
