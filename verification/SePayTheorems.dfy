/**
 More about SePay runs: evidence is never rewritten, every credit has exactly one accepted
 report, redeliveries change nothing, and the activation cutoff is exactly as sharp as it
 has to be.
 */
module SePayTheorems {
  import opened Options
  import opened SePayTables
  import opened SePayIngest
  import opened SePayRuns
  import PaymentTables

  // ---------------------------------------------------------------- evidence is append-only

  ghost predicate Extends(a: Db, b: Db) {
    && a.telegram <= b.telegram && a.txns <= b.txns && a.quarantine <= b.quarantine
    && (forall k :: k in a.native ==> k in b.native && b.native[k] == a.native[k])
    && (forall k :: k in a.receipts ==> k in b.receipts && b.receipts[k] == a.receipts[k])
    && (forall k :: k in a.connections ==> k in b.connections && b.connections[k] == a.connections[k])
  }

  lemma NotificationExtends(db: Db, n: Notification, open: bool, now: int)
    ensures Extends(db, IngestNotification(db, n, open, now).0)
  {
  }

  lemma WebhookExtends(db: Db, w: Webhook, open: bool, now: int)
    ensures Extends(db, IngestWebhook(db, w, open, now).0)
  {
  }

  lemma NextExtends(db: Db, step: Step)
    ensures Extends(db, Next(db, step))
  {
    match step
    case TelegramStep(r, u, open, now) => if r in db.configAt { NotificationExtends(db, NotificationOf(db.configAt[r], r, u), open, now); }
    case NativeStep(r, h, open, now) => if r in db.configAt { WebhookExtends(db, WebhookOf(db.configAt[r], r, h), open, now); }
    case SaveStep(_, _, _, _) =>
  }

  /** Inbox rows, receipts, credits and pinned receivers are never changed or removed. */
  lemma {:induction false} RunExtends(db: Db, steps: seq<Step>)
    ensures Extends(db, Run(db, steps))
    decreases |steps|
  {
    if steps != [] {
      NextExtends(db, steps[0]);
      RunExtends(Next(db, steps[0]), steps[1..]);
    }
  }

  lemma {:induction false} RunKeepsLedger(db: Db, steps: seq<Step>)
    requires Ledger(db) && SnapshotsOk(db)
    ensures Ledger(Run(db, steps)) && SnapshotsOk(Run(db, steps))
    decreases |steps|
  {
    if steps != [] {
      NextKeepsLedger(db, steps[0]);
      RunKeepsLedger(Next(db, steps[0]), steps[1..]);
    }
  }

  /** After the first native acceptance the store key never changes again. */
  lemma StoreKeyIsForever(db: Db, steps: seq<Step>, k: (string, int))
    requires Ledger(db) && SnapshotsOk(db) && k in db.native && db.native[k].reason == Accepted
    ensures Run(db, steps).cfg.storeKey == db.cfg.storeKey == k.0
  {
    RunExtends(db, steps);
    RunKeepsLedger(db, steps);
    assert NativeRowHasTxn(db, k) && NativeRowHasTxn(Run(db, steps), k);
  }

  // ---------------------------------------------------------------- one message per credit

  ghost predicate AcceptedRow(db: Db, j: nat, i: nat) {
    j < |db.telegram| && db.telegram[j].reason == Accepted && db.telegram[j].txn == Some(i)
  }

  ghost predicate RowHasCredit(db: Db, j: nat)
    requires j < |db.telegram|
  {
    var row := db.telegram[j];
    row.reason == Accepted ==>
      row.txn.Some? && row.txn.value < |db.txns| && db.txns[row.txn.value].key.TelegramKey? && db.txns[row.txn.value].key.store == row.store
  }

  ghost predicate MessagesMatch(db: Db) {
    && (forall j :: 0 <= j < |db.telegram| ==> RowHasCredit(db, j))
    && (forall j: nat, k: nat, i: nat :: AcceptedRow(db, j, i) && AcceptedRow(db, k, i) ==> j == k)
    && (forall i :: 0 <= i < |db.txns| && db.txns[i].key.TelegramKey? ==> exists j: nat :: AcceptedRow(db, j, i))
  }

  /** How the Telegram inbox grows beside the credits. */
  ghost predicate Reported(db: Db, s: Db) {
    || (s.telegram == db.telegram && (s.txns == db.txns || (|s.txns| == |db.txns| + 1 && db.txns < s.txns && s.txns[|db.txns|].key.NativeKey?)))
    || (|s.telegram| == |db.telegram| + 1 && db.telegram < s.telegram && s.telegram[|db.telegram|].reason != Accepted && s.txns == db.txns)
    || (|s.telegram| == |db.telegram| + 1 && db.telegram < s.telegram && |s.txns| == |db.txns| + 1 && db.txns < s.txns
        && s.txns[|db.txns|].key.TelegramKey? && s.telegram[|db.telegram|].store == s.txns[|db.txns|].key.store
        && s.telegram[|db.telegram|].reason == Accepted && s.telegram[|db.telegram|].txn == Some(|db.txns|))
  }

  lemma NotificationReports(db: Db, n: Notification, open: bool, now: int)
    ensures Reported(db, IngestNotification(db, n, open, now).0)
  {
  }

  lemma WebhookReports(db: Db, w: Webhook, open: bool, now: int)
    ensures Reported(db, IngestWebhook(db, w, open, now).0)
  {
    WebhookEffect(db, w, open, now);
  }

  lemma ReportedKeepsMessages(db: Db, s: Db)
    requires MessagesMatch(db) && Reported(db, s)
    ensures MessagesMatch(s)
  {
    forall j | 0 <= j < |s.telegram| ensures RowHasCredit(s, j) {
      if j < |db.telegram| { assert RowHasCredit(db, j); }
    }
    forall j: nat, k: nat, i: nat | AcceptedRow(s, j, i) && AcceptedRow(s, k, i) ensures j == k {
      if j < |db.telegram| { assert RowHasCredit(db, j) && AcceptedRow(db, j, i); }
      if k < |db.telegram| { assert RowHasCredit(db, k) && AcceptedRow(db, k, i); }
    }
    forall i | 0 <= i < |s.txns| && s.txns[i].key.TelegramKey? ensures exists j: nat :: AcceptedRow(s, j, i) {
      if i < |db.txns| {
        assert s.txns[i] == db.txns[i];
        var j: nat :| AcceptedRow(db, j, i);
        assert AcceptedRow(s, j, i);
      } else {
        assert AcceptedRow(s, |db.telegram|, i);
      }
    }
  }

  lemma NextKeepsMessages(db: Db, step: Step)
    requires MessagesMatch(db)
    ensures MessagesMatch(Next(db, step))
  {
    assert Reported(db, Next(db, step)) by {
      match step
      case TelegramStep(r, u, open, now) => if r in db.configAt { NotificationReports(db, NotificationOf(db.configAt[r], r, u), open, now); }
      case NativeStep(r, h, open, now) => if r in db.configAt { WebhookReports(db, WebhookOf(db.configAt[r], r, h), open, now); }
      case SaveStep(_, _, _, _) =>
    }
    ReportedKeepsMessages(db, Next(db, step));
  }

  lemma {:induction false} RunKeepsMessages(db: Db, steps: seq<Step>)
    requires MessagesMatch(db)
    ensures MessagesMatch(Run(db, steps))
    decreases |steps|
  {
    if steps != [] {
      NextKeepsMessages(db, steps[0]);
      RunKeepsMessages(Next(db, steps[0]), steps[1..]);
    }
  }

  /** In every reachable state, timely saves or not, each credit is backed by exactly one
      ACCEPTED inbox row of its own transport, and each ACCEPTED row by one credit. */
  lemma EveryCreditHasOneReport(cfg: Config, steps: seq<Step>)
    ensures var db := Run(Bootstrap(cfg), steps);
      && (forall i :: 0 <= i < |db.txns| && db.txns[i].key.TelegramKey? ==> exists j: nat :: AcceptedRow(db, j, i))
      && (forall j: nat, k: nat, i: nat :: AcceptedRow(db, j, i) && AcceptedRow(db, k, i) ==> j == k)
      && (forall j :: 0 <= j < |db.telegram| ==> RowHasCredit(db, j))
      && (forall i :: 0 <= i < |db.txns| ==> TxnHasEvidence(db, i))
      && (forall k :: k in db.native ==> NativeRowHasTxn(db, k))
  {
    RunKeepsMessages(Bootstrap(cfg), steps);
    RunKeepsLedger(Bootstrap(cfg), steps);
  }

  // ---------------------------------------------------------------- which notification is credited

  /** The gate is open, the snapshot current, and the account the one pinned for the store. */
  ghost predicate Admitted(db: Db, n: Notification, open: bool) {
    CompleteNotification(n) && open && n.revision == db.revision && ReceiverAgrees(db, n.store, n.bank, n.account)
  }

  ghost predicate NewUpdate(db: Db, n: Notification) {
    forall r :: r in db.telegram ==> r.bot != n.bot || r.update != n.update
  }

  ghost predicate NewMessage(db: Db, n: Notification) {
    forall r :: r in db.telegram ==> r.bot != n.bot || r.chat != n.chat || r.message != n.message
  }

  /** A credit that names its transfer. */
  predicate WellNamed(n: Notification) {
    n.credit.Some? &&
    var c := n.credit.value;
    0 < c.amount <= MAX_AMOUNT && c.at.Some? && !PaymentTables.Blank(c.reference) && |c.reference| <= 200
  }

  /**
   A notification becomes a credit if and only if it is admitted, neither its update nor its
   message was seen before, it needs no review and names its transfer, the transfer's reference
   is new to the store, it happened at or after the cutoff, and the store is active.
   */
  lemma NotificationCreditsIff(db: Db, n: Notification, open: bool, now: int)
    ensures IngestNotification(db, n, open, now).0.txns != db.txns <==>
      && Admitted(db, n, open) && NewUpdate(db, n) && NewMessage(db, n) && n.review.None? && WellNamed(n)
      && (n.store, n.credit.value.reference) !in db.receipts
      && n.credit.value.at.value >= n.activation.value && n.mode == Active
  {
    UpdateFound(db, n);
    MessageFound(db, n);
    if Admitted(db, n, open) && NewUpdate(db, n) {
      var v := TelegramVerdict(db, n);
      assert v.Accept? ==> |IngestNotification(db, n, open, now).0.txns| == |db.txns| + 1;
    }
  }

  lemma UpdateFound(db: Db, n: Notification)
    ensures FindUpdate(db.telegram, n.bot, n.update).None? <==> NewUpdate(db, n)
  {
    var k := FindUpdate(db.telegram, n.bot, n.update);
    if k.Some? { assert db.telegram[k.value] in db.telegram; }
  }

  lemma MessageFound(db: Db, n: Notification)
    ensures FindMessage(db.telegram, n.bot, n.chat, n.message).None? <==> NewMessage(db, n)
  {
    var k := FindMessage(db.telegram, n.bot, n.chat, n.message);
    if k.Some? { assert db.telegram[k.value] in db.telegram; }
  }

  /** The receipt was written for this very transfer. */
  predicate SameTransfer(h: Hash, n: Notification)
    requires WellNamed(n)
  {
    && h.TelegramHash? && h.store == n.store && h.bank == n.bank && h.account == n.account
    && h.reference == n.credit.value.reference && h.amount == n.credit.value.amount && h.at == n.credit.value.at.value
  }

  /** A new message about a reference with a receipt moves no money: it is a duplicate if and only if
      the receipt is for the same transfer, and quarantined as a conflict otherwise. */
  lemma KnownReferenceIsDuplicateIff(db: Db, n: Notification, open: bool, now: int)
    requires Admitted(db, n, open) && NewUpdate(db, n) && NewMessage(db, n) && n.review.None? && WellNamed(n)
    requires (n.store, n.credit.value.reference) in db.receipts
    ensures var (s, r) := IngestNotification(db, n, open, now);
      var same := SameTransfer(db.receipts[(n.store, n.credit.value.reference)].hash, n);
      && s.txns == db.txns && s.receipts == db.receipts && r.Outcome? && !r.event && (r.duplicate <==> same)
      && (!same ==> r.review == Some(ReferenceConflict) && CandidateOf(n, ReferenceConflict) in s.quarantine)
      && (same ==> r.review.None? && s.quarantine == db.quarantine)
  {
    UpdateFound(db, n);
    MessageFound(db, n);
  }

  /** A new update about a known message moves no money either: it is a duplicate if and only if it
      is not an edit and repeats the first row's text for the same store. */
  lemma KnownMessageIsDuplicateIff(db: Db, n: Notification, open: bool, now: int)
    requires Admitted(db, n, open) && NewUpdate(db, n) && !NewMessage(db, n)
    ensures var (s, r) := IngestNotification(db, n, open, now);
      var k := FindMessage(db.telegram, n.bot, n.chat, n.message);
      && s.txns == db.txns && s.receipts == db.receipts && r.Outcome? && !r.event && k.Some?
      && var first := db.telegram[k.value];
      && (r.duplicate <==> n.review != Some(EditedMessage) && first.body == n.body && first.store == n.store)
      && (r.duplicate ==>
            && s.quarantine == db.quarantine
            && r.review == if first.reason == Accepted || first.reason == Duplicate || first.reason == Observation then None else Some(first.reason))
      && (!r.duplicate ==>
            && r.review == Some(if n.review == Some(EditedMessage) then EditedMessage else ReferenceConflict)
            && s.quarantine == db.quarantine + {CandidateOf(n, r.review.value)})
  {
    UpdateFound(db, n);
    MessageFound(db, n);
  }

  // ---------------------------------------------------------------- redelivery

  /** A message that was answered once can be delivered again at any time: nothing changes. */
  lemma NotificationRedeliveryIsIdle(db: Db, n: Notification, open: bool, now: int, later: int)
    requires IngestNotification(db, n, open, now).1.Outcome?
    ensures var s := IngestNotification(db, n, open, now).0;
      IngestNotification(s, n, open, later).0 == s && IngestNotification(s, n, open, later).1.Outcome?
      && !IngestNotification(s, n, open, later).1.event
  {
    var s := IngestNotification(db, n, open, now).0;
    assert s.connections[n.store] == Receiver(n.bank, n.account) && s.revision == db.revision;
    if FindUpdate(db.telegram, n.bot, n.update).None? {
      assert s.telegram[|db.telegram|].body == n.body && |s.telegram| == |db.telegram| + 1;
      assert FindUpdate(s.telegram, n.bot, n.update) == Some(|db.telegram|);
    } else {
      assert s.telegram == db.telegram;
    }
    assert s.connections[n.store := Receiver(n.bank, n.account)] == s.connections;
  }

  lemma WebhookRedeliveryIsIdle(db: Db, w: Webhook, open: bool, now: int, later: int)
    requires IngestWebhook(db, w, open, now).1.Outcome?
    ensures var s := IngestWebhook(db, w, open, now).0;
      IngestWebhook(s, w, open, later).0 == s && IngestWebhook(s, w, open, later).1.Outcome?
      && !IngestWebhook(s, w, open, later).1.event
  {
    var s := IngestWebhook(db, w, open, now).0;
    WebhookEffect(db, w, open, now);
    assert s.connections[w.store := Receiver(w.bank, w.account)] == s.connections;
  }

  // ---------------------------------------------------------------- the cutoff is exact

  /** Telegram's first report of a transfer whose text the configuration accepts. */
  ghost predicate FirstReport(db: Db, u: Update) {
    && Trusted(db.cfg, u) && !u.edited && u.parsed.Text?
    && u.parsed.account == db.cfg.notifyAccount && u.parsed.bankName == db.cfg.bankName
    && FindUpdate(db.telegram, db.cfg.bot, u.update).None? && FindMessage(db.telegram, db.cfg.bot, u.chat, u.message).None?
    && var c := u.parsed.credit;
       && c.reference != "" && !PaymentTables.Blank(c.reference) && |c.reference| <= 200
       && (db.cfg.storeKey, c.reference) !in db.receipts
  }

  /**
   The owner switches to Telegram after SePay's webhook credited transfer `i`. Telegram's own
   report of that transfer is credited a second time if and only if the save's stamp is not
   later than the transfer.
   */
  lemma StampDecidesSecondCredit(db: Db, d: Draft, stamp: int, i: nat, u: Update, now: int)
    requires i < |db.txns| && db.txns[i].key.NativeKey? && 0 < db.txns[i].amount <= MAX_AMOUNT
    requires ActiveAuthority(d.fields) == Some(Telegram) && ActiveAuthority(db.cfg) != Some(Telegram)
    requires SaveAdmin(db, db.revision, d, stamp, true).1.Saved?
    requires FirstReport(SaveAdmin(db, db.revision, d, stamp, true).0, u)
    requires u.parsed.credit.amount == db.txns[i].amount && u.parsed.credit.at == Some(db.txns[i].at)
    ensures var s := SaveAdmin(db, db.revision, d, stamp, true).0;
      var credited := HandleUpdate(s, s.cfg, s.revision, u, true, now).0.txns;
      && (stamp <= db.txns[i].at ==> |credited| == |db.txns| + 1 && credited[|db.txns|].at == db.txns[i].at && credited[|db.txns|].amount == db.txns[i].amount)
      && (stamp > db.txns[i].at ==> credited == db.txns)
  {
    var s := SaveAdmin(db, db.revision, d, stamp, true).0;
    assert s.cfg.activation == Some(stamp) && s.cfg.mode == Active && s.cfg.transport == Telegram;
    var n := NotificationOf(s.cfg, s.revision, u);
    assert CompleteNotification(n) && ReceiverAgrees(s, n.store, n.bank, n.account);
    assert TelegramEnabled(s.cfg);
  }

  // ---------------------------------------------------------------- a late stamp

  const SECRET := "0123456789abcdef0123456789abcdef"
  const NativeConfig := Config(Active, Native, Active, "store", "bank", "BANK", "111", "111", "", 7, -9, 8, Some(0), true, SECRET)
  const TelegramDraft := Draft(NativeConfig.(transport := Telegram, nativeMode := Disabled), true, true, true)
  const NativeReport := Hook(42, "BANK", "111", "", "", "in", 1000, Some(10))
  const TelegramReport := Update(1, -9, 1, 8, false, 12, "body", Text("BANK", "111", Credit(1000, "FT1", Some(10))))

  lemma NativeCreditsFirst()
    ensures var s := Next(Bootstrap(NativeConfig), NativeStep(0, NativeReport, true, 11));
      && s.txns == [NativeTxn(WebhookOf(NativeConfig, 0, NativeReport), 11)] && s.cfg == NativeConfig
      && s.revision == 0 && s.telegram == [] && s.receipts == map[]
      && s.connections == map["store" := Receiver("bank", "111")] && s.configAt == map[0 := NativeConfig]
      && s.native.Keys == {("store", 42)}
  {
    assert |SECRET| == 32;
  }

  lemma TelegramTakesOver(s: Db)
    requires s.cfg == NativeConfig && s.revision == 0 && s.native.Keys == {("store", 42)}
    requires s.connections == map["store" := Receiver("bank", "111")]
    ensures SaveAdmin(s, 0, TelegramDraft, 5, true).1.Saved?
  {
    assert |SECRET| == 32;
    assert ActiveAuthority(FieldsToSave(s.cfg, TelegramDraft, 5)) == Some(Telegram);
    assert !AcceptedElsewhere(s, "store");
  }

  /** The condition on saves is needed: a stamp read at 5 but committed after the credit of a
      transfer of time 10 lets the same transfer be credited through Telegram as well. */
  lemma LateStampCreditsTwice()
    ensures var steps := [NativeStep(0, NativeReport, true, 11), SaveStep(0, TelegramDraft, true, 5), TelegramStep(1, TelegramReport, true, 13)];
      var txns := Run(Bootstrap(NativeConfig), steps).txns;
      |txns| == 2 && Credits(txns[0], "store", Transfer("FT1", 42, 10)) && Credits(txns[1], "store", Transfer("FT1", 42, 10))
  {
    var native, save, telegram := NativeStep(0, NativeReport, true, 11), SaveStep(0, TelegramDraft, true, 5), TelegramStep(1, TelegramReport, true, 13);
    var s1 := Next(Bootstrap(NativeConfig), native);
    NativeCreditsFirst();
    TelegramTakesOver(s1);
    var s2 := Next(s1, save);
    SecondCreditFollows(s1, s2);
    RunThree(Bootstrap(NativeConfig), native, save, telegram);
  }

  lemma SecondCreditFollows(s1: Db, s2: Db)
    requires s1.txns == [NativeTxn(WebhookOf(NativeConfig, 0, NativeReport), 11)] && s1.cfg == NativeConfig && s1.revision == 0
    requires s1.telegram == [] && s1.receipts == map[] && SaveAdmin(s1, 0, TelegramDraft, 5, true).1.Saved?
    requires s2 == SaveAdmin(s1, 0, TelegramDraft, 5, true).0
    ensures var txns := Next(s2, TelegramStep(1, TelegramReport, true, 13)).txns;
      |txns| == 2 && Credits(txns[0], "store", Transfer("FT1", 42, 10)) && Credits(txns[1], "store", Transfer("FT1", 42, 10))
  {
    assert "FT1"[0] == 'F';
    StampDecidesSecondCredit(s1, TelegramDraft, 5, 0, TelegramReport, 13);
    NextExtends(s2, TelegramStep(1, TelegramReport, true, 13));
    NotificationEffect(s2, NotificationOf(s2.cfg, 1, TelegramReport), true, 13);
  }

  lemma RunThree(db: Db, a: Step, b: Step, c: Step)
    ensures Run(db, [a, b, c]) == Next(Next(Next(db, a), b), c)
  {
    assert [a, b, c][1..] == [b, c] && [b, c][1..] == [c] && [c][1..] == [];
    assert Run(Next(Next(db, a), b), [c]) == Next(Next(Next(db, a), b), c);
    assert Run(Next(db, a), [b, c]) == Run(Next(Next(db, a), b), [c]);
  }
}
