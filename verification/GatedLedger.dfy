/**
 The ledger and the admission control as one system: each transaction on the payment tables
 makes its own mutation check in the admission state it meets.
 */
module GatedLedger {
  import opened Options
  import opened PaymentTables
  import opened OrderLeases
  import opened Settlement
  import opened PaymentRuns
  import opened Interleaving
  import A = Admission

  datatype State = State(db: Db, adm: A.State)

  /** A payment transaction under the token of its context, or a step of provider and gate. */
  datatype Step = Money(op: Op, token: Option<nat>) | Control(step: A.Step)

  function WithVerdict(op: Op, admitted: bool): Op {
    match op
    case ReserveOp(intent, draws, _) => ReserveOp(intent, draws, admitted)
    case ClaimOp(id, _) => ClaimOp(id, admitted)
    case RenewOp(id, token, qr, _) => RenewOp(id, token, qr, admitted)
    case CompleteOp(id, token, update, _) => CompleteOp(id, token, update, admitted)
    case SettleOp(input, _) => SettleOp(input, admitted)
    case SaveCallbackOp(callback, reason, _) => SaveCallbackOp(callback, reason, admitted)
    case PromoteOp(code, _) => PromoteOp(code, admitted)
    case EndpointsOp(active) => op
  }

  /** A managed service reserves for the client of its pinned credentials. */
  predicate Issues(s: State, step: Step) {
    step.Money? && step.op.ReserveOp? ==>
      step.token.Some? && step.token.value in s.adm.pinned && step.op.intent.channel == s.adm.pinned[step.token.value].client
  }

  function Next(s: State, step: Step): State {
    match step
    case Money(op, token) =>
      var db := Apply(s.db, WithVerdict(op, A.MutationAllowed(s.adm, token)), s.adm.clock);
      var issued := if |db.orders| > |s.db.orders| then s.adm.(channels := s.adm.channels + [db.orders[|s.db.orders|].channel]) else s.adm;
      State(db, A.CommitMoney(issued, token))
    case Control(c) => if c.CommitStep? || c.IssueStep? then s else State(s.db, A.Next(s.adm, c))
  }

  function Run(s: State, steps: seq<Step>): State
    decreases |steps|
  {
    if steps == [] then s else Run(Next(s, steps[0]), steps[1..])
  }

  ghost predicate IssuesAll(s: State, steps: seq<Step>)
    decreases |steps|
  {
    steps != [] ==> Issues(s, steps[0]) && IssuesAll(Next(s, steps[0]), steps[1..])
  }

  ghost predicate Inv(s: State) {
    && PaymentRuns.Inv(s.db) && A.Inv(s.adm)
    && |s.adm.channels| == |s.db.orders| && forall i :: 0 <= i < |s.db.orders| ==> s.adm.channels[i] == s.db.orders[i].channel
  }

  lemma ApplyKeepsChannels(db: Db, op: Op, now: int)
    requires PaymentRuns.Inv(db)
    ensures var after := Apply(db, op, now).orders;
      && |db.orders| <= |after| <= |db.orders| + 1
      && (forall i :: 0 <= i < |db.orders| ==> after[i].channel == db.orders[i].channel)
      && (|after| > |db.orders| ==> op.ReserveOp? && op.admitted && after[|db.orders|].channel == op.intent.channel)
  {
    OrderHistory.ApplyEvolves(db, op, now);
    forall i | 0 <= i < |db.orders| ensures Apply(db, op, now).orders[i].channel == db.orders[i].channel {
      assert OrderHistory.Evolves(db.orders[i], Apply(db, op, now).orders[i]);
    }
    match op
    case SettleOp(s, admitted) => OneOrderAtMost(db, s, now, admitted);
    case SaveCallbackOp(c, reason, _) => SettlementFrames.InsertInboxMovesNoMoney(db, c, reason, now);
    case PromoteOp(code, _) => SettlementFrames.PromoteMovesNoMoney(db, code, now);
    case _ =>
  }

  lemma OneOrderAtMost(db: Db, s: SettleInput, now: int, admitted: bool)
    requires PaymentRuns.Inv(db)
    ensures |Settle(db, s, now, admitted).0.orders| == |db.orders|
  {
    if admitted && Decide(db, s).Accept? {
      AcceptedKeyIsFree(db, s);
      SettlementFrames.AcceptedPaysOneOrder(db, s, now);
    } else {
      SettlementFrames.UnacceptedMovesNoMoney(db, s, now, admitted);
    }
  }

  lemma NextKeepsInv(s: State, step: Step)
    requires Inv(s) && Issues(s, step)
    ensures Inv(Next(s, step))
  {
    match step
    case Control(c) =>
      A.NextKeepsInv(s.adm, c);
      if !c.CommitStep? && !c.IssueStep? { assert A.Next(s.adm, c).channels == s.adm.channels; }
    case Money(op, token) =>
      MoneyKeepsInv(s, op, token);
  }

  lemma MoneyKeepsInv(s: State, op: Op, token: Option<nat>)
    requires Inv(s) && Issues(s, Money(op, token))
    ensures Inv(Next(s, Money(op, token)))
  {
    hide PaymentRuns.Inv, Apply;
    var verdict := WithVerdict(op, A.MutationAllowed(s.adm, token));
    var db := Apply(s.db, verdict, s.adm.clock);
    ApplyKeepsInv(s.db, verdict, s.adm.clock);
    ApplyKeepsChannels(s.db, verdict, s.adm.clock);
    var adm := Next(s, Money(op, token)).adm;
    if |db.orders| > |s.db.orders| {
      assert A.LiveOperation(s.adm, token.value);
      A.NextKeepsInv(s.adm, A.IssueStep(token.value));
      assert A.IssueOrder(s.adm, token.value) == adm;
    } else {
      A.NextKeepsInv(s.adm, A.CommitStep(token));
    }
  }

  lemma {:induction false} RunKeepsInv(s: State, steps: seq<Step>)
    requires Inv(s) && IssuesAll(s, steps)
    ensures Inv(Run(s, steps))
    decreases |steps|
  {
    if steps != [] {
      NextKeepsInv(s, steps[0]);
      RunKeepsInv(Next(s, steps[0]), steps[1..]);
    }
  }

  /**
   In every run of payments, saves, leases, quiesces and gate changes: a step that adds a receipt
   or an order met an open gate, ran under a live operation if it had a token, and that operation
   had pinned the credentials then in force; and every order belongs to the configured client.
   */
  lemma ReceiptsNeedCurrentCredentials(clock: int, steps: seq<Step>, step: Step)
    requires IssuesAll(State(EmptyDb, A.Fresh([], clock)), steps)
    ensures var s := Run(State(EmptyDb, A.Fresh([], clock)), steps);
      && Inv(s)
      && (s.adm.cfg.creds.client != "" ==> forall i :: 0 <= i < |s.db.orders| ==> s.db.orders[i].channel == s.adm.cfg.creds.client)
      && (Next(s, step).db.receipts != s.db.receipts || |Next(s, step).db.orders| != |s.db.orders| ==>
            && step.Money? && !A.GateClosed(s.adm)
            && (step.token.Some? ==>
                  A.LiveOperation(s.adm, step.token.value) && step.token.value in s.adm.pinned
                  && s.adm.pinned[step.token.value] == s.adm.cfg.creds))
  {
    hide PaymentRuns.Inv;
    var start := State(EmptyDb, A.Fresh([], clock));
    EmptyInv();
    A.FreshInv([], clock);
    RunKeepsInv(start, steps);
    var s := Run(start, steps);
    if step.Money? {
      var verdict := WithVerdict(step.op, A.MutationAllowed(s.adm, step.token));
      ReceiptsGrow(s.db, verdict, s.adm.clock);
      ApplyKeepsChannels(s.db, verdict, s.adm.clock);
    }
  }
}
