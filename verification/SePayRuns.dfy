/**
 Runs of the SePay ingest: Telegram messages, native webhooks, redeliveries of both and
 configuration saves, in any order. Each handler works from a snapshot of some earlier
 revision. No bank transfer is credited twice for one store key, provided every save that
 activates a transport stamps a cutoff later than the transfers already credited through
 the other one.
 */
module SePayRuns {
  import opened Options
  import opened SePayTables
  import opened SePayIngest

  datatype Step =
    | TelegramStep(revision: int, update: Update, open: bool, now: int)
    | NativeStep(revision: int, hook: Hook, open: bool, now: int)
    | SaveStep(revision: int, draft: Draft, open: bool, now: int)

  function Next(db: Db, step: Step): Db {
    match step
    case TelegramStep(r, u, open, now) => if r in db.configAt then HandleUpdate(db, db.configAt[r], r, u, open, now).0 else db
    case NativeStep(r, h, open, now) => if r in db.configAt then HandleNativeWebhook(db, db.configAt[r], r, h, open, now).0 else db
    case SaveStep(r, d, open, now) => SaveAdmin(db, r, d, now, open).0
  }

  function Run(db: Db, steps: seq<Step>): Db
    decreases |steps|
  {
    if steps == [] then db else Run(Next(db, steps[0]), steps[1..])
  }

  function TransportOf(t: Txn): Transport {
    if t.key.TelegramKey? then Telegram else Native
  }

  // ---------------------------------------------------------------- the invariant

  ghost predicate SnapshotsOk(db: Db) {
    db.revision in db.configAt && db.configAt[db.revision] == db.cfg
  }

  ghost predicate TxnHasEvidence(db: Db, i: nat)
    requires i < |db.txns|
  {
    match db.txns[i].key
    case TelegramKey(s, r) => (s, r) in db.receipts && db.receipts[(s, r)].txn == i
    case NativeKey(s, p) => (s, p) in db.native && db.native[(s, p)].reason == Accepted && db.native[(s, p)].txn == Some(i)
  }

  ghost predicate ReceiptHasTxn(db: Db, k: (string, string))
    requires k in db.receipts
  {
    var r := db.receipts[k];
    r.txn < |db.txns| && db.txns[r.txn].key == TelegramKey(k.0, k.1) && db.txns[r.txn].hash == r.hash
  }

  ghost predicate NativeRowHasTxn(db: Db, k: (string, int))
    requires k in db.native
  {
    var r := db.native[k];
    r.reason == Accepted ==>
      r.txn.Some? && r.txn.value < |db.txns| && db.txns[r.txn.value].key == NativeKey(k.0, k.1) && k.0 == db.cfg.storeKey
  }

  /** Credits, receipts and accepted native rows name each other. */
  ghost predicate Ledger(db: Db) {
    && (forall i :: 0 <= i < |db.txns| ==> TxnHasEvidence(db, i) && 0 < db.txns[i].amount <= MAX_AMOUNT)
    && (forall k :: k in db.receipts ==> ReceiptHasTxn(db, k))
    && (forall k :: k in db.native ==> NativeRowHasTxn(db, k))
  }

  /** Whatever the other transport credited happened before the active authority's cutoff. */
  ghost predicate Cutoff(db: Db) {
    ActiveAuthority(db.cfg).Some? && db.cfg.activation.Some? ==>
      forall i :: 0 <= i < |db.txns| && Some(TransportOf(db.txns[i])) != ActiveAuthority(db.cfg) ==> db.txns[i].at < db.cfg.activation.value
  }

  ghost predicate TimesApart(txns: seq<Txn>) {
    forall i, j :: 0 <= i < |txns| && 0 <= j < |txns| && TransportOf(txns[i]) != TransportOf(txns[j]) ==> txns[i].at != txns[j].at
  }

  ghost predicate Inv(db: Db) {
    SnapshotsOk(db) && Ledger(db) && Cutoff(db) && TimesApart(db.txns)
  }

  /** The save's cutoff is later than every transfer credited through the transport it replaces. */
  ghost predicate TimelySave(db: Db, d: Draft, stamp: int) {
    ActiveAuthority(d.fields).Some? && ActiveAuthority(d.fields) != ActiveAuthority(db.cfg) ==>
      forall i :: 0 <= i < |db.txns| && Some(TransportOf(db.txns[i])) != ActiveAuthority(d.fields) ==> db.txns[i].at < stamp
  }

  ghost predicate Timely(db: Db, step: Step) {
    step.SaveStep? ==> TimelySave(db, step.draft, step.now)
  }

  ghost predicate TimelyRun(db: Db, steps: seq<Step>)
    decreases |steps|
  {
    steps == [] || (Timely(db, steps[0]) && TimelyRun(Next(db, steps[0]), steps[1..]))
  }

  // ---------------------------------------------------------------- what one step does

  ghost predicate TelegramCredited(db: Db, n: Notification, now: int, s: Db) {
    && n.mode == Active && n.revision == db.revision && n.activation.Some? && n.credit.Some? && n.credit.value.at.Some?
    && n.activation.value <= n.credit.value.at.value && 0 < n.credit.value.amount <= MAX_AMOUNT
    && (n.store, n.credit.value.reference) !in db.receipts
    && s.txns == db.txns + [TelegramTxn(n, n.credit.value, now)]
    && s.receipts == db.receipts[(n.store, n.credit.value.reference) :=
         Receipt(n.bank, n.account, HashOfCredit(n, n.credit.value.reference, n.credit.value.amount, n.credit.value.at.value), |db.txns|, n.message)]
  }

  /** A notification changes the money tables by one credit with its receipt, or not at all. */
  lemma NotificationEffect(db: Db, n: Notification, open: bool, now: int)
    ensures var s := IngestNotification(db, n, open, now).0;
      && s.native == db.native && s.cfg == db.cfg && s.configAt == db.configAt && s.revision == db.revision
      && ((s.txns == db.txns && s.receipts == db.receipts) || (open && TelegramCredited(db, n, now, s)))
  {
  }

  ghost predicate NativeCredited(db: Db, w: Webhook, now: int, s: Db) {
    && w.mode == Active && w.revision == db.revision && w.activation.Some? && w.at.Some?
    && w.activation.value <= w.at.value && 0 < w.amount <= MAX_AMOUNT
    && (w.store, w.provider) !in db.native
    && s.txns == db.txns + [NativeTxn(w, now)]
    && s.native == db.native[(w.store, w.provider) := NativeRow(w.reference, HashOfWebhook(w), Accepted, Some(|db.txns|))]
  }

  ghost predicate NativeFiled(db: Db, w: Webhook, s: Db) {
    && s.txns == db.txns
    && (s.native == db.native
        || ((w.store, w.provider) !in db.native
            && exists row: NativeRow :: row.reason != Accepted && s.native == db.native[(w.store, w.provider) := row]))
  }

  lemma NativeVerdictFacts(db: Db, w: Webhook)
    requires CompleteWebhook(w)
    ensures var v := NativeVerdict(db, w);
      && (v.Accept? ==> w.mode == Active && w.at.Some? && w.activation.value <= w.at.value && 0 < w.amount <= MAX_AMOUNT)
      && (!v.Accept? ==> v.reason != Accepted)
  {
  }

  lemma FiledNative(db: Db, w: Webhook, v: Verdict, now: int)
    requires (w.store, w.provider) !in db.native && !v.Accept? && v.reason != Accepted
    ensures var s := FileNative(db, w, v, now).0;
      NativeFiled(db, w, s) && s.receipts == db.receipts && s.cfg == db.cfg && s.configAt == db.configAt && s.revision == db.revision
  {
    var s := FileNative(db, w, v, now).0;
    assert s.native == db.native[(w.store, w.provider) := s.native[(w.store, w.provider)]];
  }

  lemma WebhookEffect(db: Db, w: Webhook, open: bool, now: int)
    ensures var s := IngestWebhook(db, w, open, now).0;
      && s.receipts == db.receipts && s.cfg == db.cfg && s.configAt == db.configAt && s.revision == db.revision
      && (NativeFiled(db, w, s) || (open && NativeCredited(db, w, now, s)))
  {
    if CompleteWebhook(w) && (w.store, w.provider) !in db.native {
      var v := NativeVerdict(db, w);
      var connected := db.(connections := db.connections[w.store := Receiver(w.bank, w.account)]);
      NativeVerdictFacts(db, w);
      if !v.Accept? { FiledNative(connected, w, v, now); }
    }
  }

  ghost predicate CreditedByAuthority(db: Db, s: Db) {
    && |s.txns| == |db.txns| + 1 && s.txns[..|db.txns|] == db.txns
    && ActiveAuthority(db.cfg) == Some(TransportOf(s.txns[|db.txns|]))
    && db.cfg.activation.Some? && db.cfg.activation.value <= s.txns[|db.txns|].at
    && s.txns[|db.txns|].key.store == db.cfg.storeKey && 0 < s.txns[|db.txns|].amount <= MAX_AMOUNT
    && s.cfg == db.cfg
  }

  /** Only the active authority credits, from its cutoff on, under the current revision and an open gate. */
  lemma OnlyAuthorityCredits(db: Db, step: Step)
    requires SnapshotsOk(db) && Next(db, step).txns != db.txns
    ensures CreditedByAuthority(db, Next(db, step))
    ensures !step.SaveStep? && step.open && step.revision == db.revision
  {
    match step
    case TelegramStep(r, u, open, now) => NotificationEffect(db, NotificationOf(db.configAt[r], r, u), open, now);
    case NativeStep(r, h, open, now) => WebhookEffect(db, WebhookOf(db.configAt[r], r, h), open, now);
    case SaveStep(_, _, _, _) =>
  }

  /** A filed Telegram notification keeps the ledger. */
  lemma NotificationKeepsLedger(db: Db, n: Notification, open: bool, now: int)
    requires Ledger(db)
    ensures Ledger(IngestNotification(db, n, open, now).0)
  {
    var s := IngestNotification(db, n, open, now).0;
    NotificationEffect(db, n, open, now);
    FramedTelegramLedger(db, n, now, s);
  }

  lemma FramedTelegramLedger(db: Db, n: Notification, now: int, s: Db)
    requires Ledger(db) && s.native == db.native && s.cfg == db.cfg
    requires (s.txns == db.txns && s.receipts == db.receipts) || TelegramCredited(db, n, now, s)
    ensures Ledger(s)
  {
    forall i | 0 <= i < |s.txns| ensures TxnHasEvidence(s, i) {
      if i < |db.txns| { assert TxnHasEvidence(db, i); }
    }
    forall k | k in s.receipts ensures ReceiptHasTxn(s, k) {
      if k in db.receipts { assert ReceiptHasTxn(db, k); }
    }
    forall k | k in s.native ensures NativeRowHasTxn(s, k) { assert NativeRowHasTxn(db, k); }
  }

  lemma WebhookKeepsLedger(db: Db, w: Webhook, open: bool, now: int)
    requires Ledger(db) && (w.store == db.cfg.storeKey || w.revision != db.revision)
    ensures Ledger(IngestWebhook(db, w, open, now).0)
  {
    var s := IngestWebhook(db, w, open, now).0;
    WebhookEffect(db, w, open, now);
    FramedNativeLedger(db, w, now, s);
  }

  lemma FramedNativeLedger(db: Db, w: Webhook, now: int, s: Db)
    requires Ledger(db) && s.receipts == db.receipts && s.cfg == db.cfg
    requires NativeFiled(db, w, s) || (NativeCredited(db, w, now, s) && w.store == db.cfg.storeKey)
    ensures Ledger(s)
  {
    forall i | 0 <= i < |s.txns| ensures TxnHasEvidence(s, i) {
      if i < |db.txns| { assert TxnHasEvidence(db, i); }
    }
    forall k | k in s.receipts ensures ReceiptHasTxn(s, k) { assert ReceiptHasTxn(db, k); }
    forall k | k in s.native ensures NativeRowHasTxn(s, k) {
      if k in db.native { assert NativeRowHasTxn(db, k); }
    }
  }

  /** A save moves no money, and never away from the key of an accepted webhook. */
  lemma SaveEffect(db: Db, revision: int, d: Draft, stamp: int, open: bool)
    ensures var s := SaveAdmin(db, revision, d, stamp, open).0;
      s.txns == db.txns && s.receipts == db.receipts && s.native == db.native
      && (s.cfg == db.cfg || !AcceptedElsewhere(db, s.cfg.storeKey))
  {
  }

  lemma SameEvidenceKeepsLedger(db: Db, s: Db)
    requires Ledger(db) && s.txns == db.txns && s.receipts == db.receipts && s.native == db.native
    requires s.cfg == db.cfg || !AcceptedElsewhere(db, s.cfg.storeKey)
    ensures Ledger(s)
  {
    forall i | 0 <= i < |s.txns| ensures TxnHasEvidence(s, i) { assert TxnHasEvidence(db, i); }
    forall k | k in s.receipts ensures ReceiptHasTxn(s, k) { assert ReceiptHasTxn(db, k); }
    forall k | k in s.native ensures NativeRowHasTxn(s, k) { assert NativeRowHasTxn(db, k); }
  }

  lemma SaveKeepsLedger(db: Db, revision: int, d: Draft, stamp: int, open: bool)
    requires Ledger(db)
    ensures Ledger(SaveAdmin(db, revision, d, stamp, open).0)
  {
    SaveEffect(db, revision, d, stamp, open);
    SameEvidenceKeepsLedger(db, SaveAdmin(db, revision, d, stamp, open).0);
  }

  lemma NextKeepsSnapshots(db: Db, step: Step)
    requires SnapshotsOk(db)
    ensures SnapshotsOk(Next(db, step))
  {
    match step
    case TelegramStep(r, u, open, now) => if r in db.configAt { NotificationEffect(db, NotificationOf(db.configAt[r], r, u), open, now); }
    case NativeStep(r, h, open, now) => if r in db.configAt { WebhookEffect(db, WebhookOf(db.configAt[r], r, h), open, now); }
    case SaveStep(_, _, _, _) =>
  }

  lemma HookKeepsLedger(db: Db, r: int, h: Hook, open: bool, now: int)
    requires Ledger(db) && SnapshotsOk(db) && r in db.configAt
    ensures Ledger(HandleNativeWebhook(db, db.configAt[r], r, h, open, now).0)
  {
    var w := WebhookOf(db.configAt[r], r, h);
    assert w.revision == r && w.store == db.configAt[r].storeKey;
    WebhookKeepsLedger(db, w, open, now);
  }

  lemma NextKeepsLedger(db: Db, step: Step)
    requires Ledger(db) && SnapshotsOk(db)
    ensures Ledger(Next(db, step)) && SnapshotsOk(Next(db, step))
  {
    NextKeepsSnapshots(db, step);
    match step
    case TelegramStep(r, u, open, now) => if r in db.configAt { NotificationKeepsLedger(db, NotificationOf(db.configAt[r], r, u), open, now); }
    case NativeStep(r, h, open, now) => if r in db.configAt { HookKeepsLedger(db, r, h, open, now); }
    case SaveStep(r, d, open, now) => SaveKeepsLedger(db, r, d, now, open);
  }

  lemma CreditKeepsCutoff(db: Db, s: Db)
    requires Cutoff(db) && TimesApart(db.txns) && CreditedByAuthority(db, s)
    ensures Cutoff(s) && TimesApart(s.txns)
  {
    var k := |db.txns|;
    forall i | 0 <= i < k ensures s.txns[i] == db.txns[i] { assert s.txns[..k][i] == db.txns[i]; }
  }

  lemma SaveKeepsCutoff(db: Db, revision: int, d: Draft, stamp: int, open: bool)
    requires Cutoff(db) && TimelySave(db, d, stamp)
    ensures Cutoff(SaveAdmin(db, revision, d, stamp, open).0)
  {
    var f := FieldsToSave(db.cfg, d, stamp);
    assert ActiveAuthority(f) == ActiveAuthority(d.fields);
  }

  lemma NextKeepsCutoff(db: Db, step: Step)
    requires Inv(db) && Timely(db, step)
    ensures Cutoff(Next(db, step)) && TimesApart(Next(db, step).txns)
  {
    var s := Next(db, step);
    if s.txns != db.txns {
      OnlyAuthorityCredits(db, step);
      CreditKeepsCutoff(db, s);
    } else {
      match step
      case TelegramStep(r, u, open, now) => if r in db.configAt { NotificationEffect(db, NotificationOf(db.configAt[r], r, u), open, now); }
      case NativeStep(r, h, open, now) => if r in db.configAt { WebhookEffect(db, WebhookOf(db.configAt[r], r, h), open, now); }
      case SaveStep(r, d, open, now) => SaveKeepsCutoff(db, r, d, now, open);
    }
  }

  lemma NextKeepsInv(db: Db, step: Step)
    requires Inv(db) && Timely(db, step)
    ensures Inv(Next(db, step))
  {
    NextKeepsLedger(db, step);
    NextKeepsCutoff(db, step);
  }

  lemma {:induction false} RunKeepsInv(db: Db, steps: seq<Step>)
    requires Inv(db) && TimelyRun(db, steps)
    ensures Inv(Run(db, steps))
    decreases |steps|
  {
    if steps != [] {
      NextKeepsInv(db, steps[0]);
      RunKeepsInv(Next(db, steps[0]), steps[1..]);
    }
  }

  // ---------------------------------------------------------------- no double credit

  /** A bank transfer: how Telegram names it, how SePay names it, and when it happened. */
  datatype Transfer = Transfer(reference: string, provider: int, at: int)

  predicate Credits(t: Txn, store: string, transfer: Transfer) {
    t.at == transfer.at && t.key.store == store
    && (t.key.TelegramKey? ==> t.key.reference == transfer.reference)
    && (t.key.NativeKey? ==> t.key.provider == transfer.provider)
  }

  lemma InvCreditsOnce(db: Db, store: string, transfer: Transfer, i: nat, j: nat)
    requires Inv(db) && i < |db.txns| && j < |db.txns|
    requires Credits(db.txns[i], store, transfer) && Credits(db.txns[j], store, transfer)
    ensures i == j
  {
    assert TxnHasEvidence(db, i) && TxnHasEvidence(db, j);
  }

  /** Over every run of messages, webhooks, redeliveries and timely saves, each transfer of a
      store is credited at most once, by an amount the inbox accepted. */
  lemma CreditedAtMostOnce(cfg: Config, steps: seq<Step>)
    requires TimelyRun(Bootstrap(cfg), steps)
    ensures var txns := Run(Bootstrap(cfg), steps).txns;
      && (forall store, transfer, i, j ::
            0 <= i < |txns| && 0 <= j < |txns| && Credits(txns[i], store, transfer) && Credits(txns[j], store, transfer) ==> i == j)
      && (forall i :: 0 <= i < |txns| ==> 0 < txns[i].amount <= MAX_AMOUNT)
  {
    var db := Run(Bootstrap(cfg), steps);
    RunKeepsInv(Bootstrap(cfg), steps);
    forall store, transfer, i, j | 0 <= i < |db.txns| && 0 <= j < |db.txns|
        && Credits(db.txns[i], store, transfer) && Credits(db.txns[j], store, transfer)
      ensures i == j
    {
      InvCreditsOnce(db, store, transfer, i, j);
    }
  }

  // ---------------------------------------------------------------- when saves are timely

  /** Transactions are serialized at strictly increasing instants, a save stamps the instant of
      its own transaction, and no transfer is reported before it happened. */
  ghost predicate Prompt(steps: seq<Step>, last: int)
    decreases |steps|
  {
    steps != [] ==>
    && last < steps[0].now
    && (steps[0].TelegramStep? && steps[0].update.parsed.Text? && steps[0].update.parsed.credit.at.Some? ==>
          steps[0].update.parsed.credit.at.value <= steps[0].now)
    && (steps[0].NativeStep? && steps[0].hook.at.Some? ==> steps[0].hook.at.value <= steps[0].now)
    && Prompt(steps[1..], steps[0].now)
  }

  lemma {:induction false} PromptRunsAreTimely(db: Db, steps: seq<Step>, last: int)
    requires Prompt(steps, last)
    requires forall i :: 0 <= i < |db.txns| ==> db.txns[i].at <= last
    ensures TimelyRun(db, steps)
    decreases |steps|
  {
    if steps != [] {
      PromptRunsAreTimely(Next(db, steps[0]), steps[1..], steps[0].now);
    }
  }

  lemma PromptRunsCreditOnce(cfg: Config, steps: seq<Step>, last: int)
    requires Prompt(steps, last)
    ensures forall store, transfer, i, j :: var txns := Run(Bootstrap(cfg), steps).txns;
      0 <= i < |txns| && 0 <= j < |txns| && Credits(txns[i], store, transfer) && Credits(txns[j], store, transfer) ==> i == j
  {
    PromptRunsAreTimely(Bootstrap(cfg), steps, last);
    CreditedAtMostOnce(cfg, steps);
  }
}
