/** What every run of the payment workers guarantees, with crashes and lease takeovers anywhere. */
module RecoveryTheorems {
  import opened Options
  import opened PaymentTables
  import opened OrderLeases
  import opened PaymentRuns
  import opened OrderHistory
  import opened RecoveryLogic
  import opened RecoveryRuns
  import opened RecoverySafety

  /**
   No unpaid order is orphaned before its retention ends: it stays scheduled, not before the
   end of its lease, and from that instant on it is selected and can be claimed.
   */
  lemma NoOrphan(clock: int, steps: seq<SysStep>, i: nat, later: int)
    requires i < |SysRun(Boot(clock), steps).db.orders|
    requires !SysRun(Boot(clock), steps).db.orders[i].status.Paid?
    requires SysRun(Boot(clock), steps).clock < RetentionEnd(SysRun(Boot(clock), steps).db.orders[i])
    ensures var s := SysRun(Boot(clock), steps);
      var o := s.db.orders[i];
      && o.next.Some?
      && (o.lease.Some? ==> o.lease.value.until <= o.next.value)
      && (later >= o.next.value ==> Due(o, o.channel, later) && Claim(s.db, i, later, true).1.Claimed?)
  {
    BootInv(clock);
    SysRunKeepsInv(Boot(clock), steps);
    var s := SysRun(Boot(clock), steps);
    assert OrderFacts(s.log, i, s.db.orders[i], s.clock);
  }

  /** At most one QR-recovery Create, and one first Create, is ever issued for an order. */
  lemma AtMostOneQrRecovery(clock: int, steps: seq<SysStep>, id: nat, kind: CreateKind, j: nat, k: nat)
    requires !kind.AfterAbsent?
    requires j < |SysRun(Boot(clock), steps).log| && IsCreate(SysRun(Boot(clock), steps).log[j], id, kind)
    requires k < |SysRun(Boot(clock), steps).log| && IsCreate(SysRun(Boot(clock), steps).log[k], id, kind)
    ensures j == k
  {
    BootInv(clock);
    SysRunKeepsInv(Boot(clock), steps);
  }

  /** Every other repeated Create follows a 404 Get under its own token, answered before the order expired. */
  lemma RepeatedCreateFollowsAbsence(clock: int, steps: seq<SysStep>, k: nat)
    requires k < |SysRun(Boot(clock), steps).log|
    requires SysRun(Boot(clock), steps).log[k].CreateIssued? && SysRun(Boot(clock), steps).log[k].kind.AfterAbsent?
    ensures var s := SysRun(Boot(clock), steps);
      var e := s.log[k];
      e.id < |s.db.orders| && AbsentBefore(s.log, k, e.id, e.token, s.db.orders[e.id].expiresAt)
  {
    BootInv(clock);
    SysRunKeepsInv(Boot(clock), steps);
  }

  /**
   CANCELLED and EXPIRED are written only after a provider reply with that status for the same
   code, amount and link under the writing token; FAILED also after a definite Create
   rejection followed by a 404 Get under the writing token.
   */
  lemma TerminalWritesAreJustified(clock: int, steps: seq<SysStep>, k: nat)
    requires k < |SysRun(Boot(clock), steps).log| && SysRun(Boot(clock), steps).log[k].Wrote?
    ensures var s := SysRun(Boot(clock), steps);
      var e := s.log[k];
      && e.id < |s.db.orders| && Terminal(e.status)
      && (ReplyBefore(s.log, k, e.id, e.token, s.db.orders[e.id].code, s.db.orders[e.id].amount, e.boundLink, e.status)
          || (e.status.Failed? && RejectedThenAbsent(s.log, k, e.id, e.token)))
  {
    BootInv(clock);
    SysRunKeepsInv(Boot(clock), steps);
  }

  /** No order has a terminal status that was not so written. */
  lemma TerminalStatusWasWritten(clock: int, steps: seq<SysStep>, i: nat)
    requires i < |SysRun(Boot(clock), steps).db.orders| && Terminal(SysRun(Boot(clock), steps).db.orders[i].status)
    ensures Written(SysRun(Boot(clock), steps).log, i, SysRun(Boot(clock), steps).db.orders[i].status)
  {
    BootInv(clock);
    SysRunKeepsInv(Boot(clock), steps);
    var s := SysRun(Boot(clock), steps);
    assert OrderFacts(s.log, i, s.db.orders[i], s.clock);
  }

  ghost predicate TurnsTerminal(s: Sys, s': Sys, i: nat) {
    i < |s.db.orders| && i < |s'.db.orders| && Terminal(s'.db.orders[i].status) && s'.db.orders[i].status != s.db.orders[i].status
  }

  /** The step completes order i under the token that owns it, and the write is logged. */
  ghost predicate OwnedWrite(s: Sys, step: SysStep, i: nat) {
    && step.FinishStep? && PcOf(s, step.w).Finishing? && PcOf(s, step.w).j.id == i
    && HasToken(s.db, i, PcOf(s, step.w).j.token) && i < |Next(s, step).db.orders|
    && Next(s, step).log == s.log + [Wrote(i, PcOf(s, step.w).j.token, Next(s, step).db.orders[i].status, Next(s, step).db.orders[i].link)]
  }

  /** In every run, a step that makes a status terminal is a completion under the owning token, and is logged. */
  lemma TerminalWriteIsOwned(clock: int, steps: seq<SysStep>, step: SysStep, i: nat)
    ensures var s := SysRun(Boot(clock), steps); TurnsTerminal(s, Next(s, step), i) ==> OwnedWrite(s, step, i)
  {
    var s := SysRun(Boot(clock), steps);
    if TurnsTerminal(s, Next(s, step), i) {
      BootInv(clock);
      SysRunKeepsInv(Boot(clock), steps);
      assert Enabled(s, step);
      StepShape(s, step);
      if TxOf(s, step).Some? {
        var op := TxOf(s, step).value;
        if LeaseFree(op) {
          LeaseFreeKeepsOrders(s.db, op, s.clock);
          StatusUnderLeaseFree(s.db, op, s.clock, i);
        } else if op.ReserveOp? {
          ReservedSchedule(s.db, op, s.clock, i);
        } else if !op.CompleteOp? {
          assert OrderFacts(s.log, i, s.db.orders[i], s.clock);
          LeasedSchedule(s.db, op, s.clock, i);
        }
      }
    }
  }
}
