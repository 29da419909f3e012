/**
 What the SePay handlers answer (internal/storage/sepay.go, internal/sepay/service.go): when a
 webhook or a message becomes a credit, in terms of what the bank reported and what is
 configured, and under which reason anything else is filed.
 */
module SePayAnswers {
  import opened Options
  import opened SePayTables
  import opened SePayIngest
  import opened SePayRuns
  import opened SePayTheorems
  import PaymentTables

  // ---------------------------------------------------------------- webhooks

  ghost predicate WebhookAdmitted(db: Db, w: Webhook, open: bool) {
    CompleteWebhook(w) && open && w.revision == db.revision && ReceiverAgrees(db, w.store, w.bank, w.account)
  }

  predicate NewProviderId(db: Db, w: Webhook) { (w.store, w.provider) !in db.native }

  /** An incoming amount at a known time. */
  predicate WellDated(w: Webhook) {
    w.review.None? && 0 < w.amount <= MAX_AMOUNT && w.at.Some?
  }

  /** Beside Telegram receipts a webhook must carry a reference, and an active one verified references. */
  predicate ReferenceUsable(db: Db, w: Webhook) {
    HasReceipts(db, w.store) ==> w.reference != "" && (w.mode == Active ==> w.verified)
  }

  /** No other webhook and no receipt of the store has the reference. */
  predicate ReferenceFree(db: Db, w: Webhook) {
    w.reference != "" ==> !ReferenceSeenNatively(db, w.store, w.reference, w.provider) && (w.store, w.reference) !in db.receipts
  }

  ghost predicate Creditable(db: Db, w: Webhook, open: bool) {
    && WebhookAdmitted(db, w, open) && NewProviderId(db, w) && WellDated(w) && ReferenceUsable(db, w) && ReferenceFree(db, w)
    && w.at.value >= w.activation.value && w.mode == Active
  }

  /**
   A webhook becomes a credit if and only if it is admitted, its provider id is new to the store,
   it needs no review, its amount is in range, its time is at or after the cutoff, the store is
   active, and its reference is usable and free; the credit is the webhook's own amount and time.
   */
  lemma WebhookCreditsIff(db: Db, w: Webhook, open: bool, now: int)
    ensures var (s, r) := IngestWebhook(db, w, open, now);
      && (s.txns != db.txns <==> Creditable(db, w, open))
      && (r.Outcome? && r.event <==> Creditable(db, w, open))
      && (Creditable(db, w, open) ==>
            && |s.txns| == |db.txns| + 1 && s.txns[..|db.txns|] == db.txns
            && var t := s.txns[|db.txns|];
               t.key == NativeKey(w.store, w.provider) && t.amount == w.amount && t.at == w.at.value
               && (t.source == Realtime <==> -30 * SECOND <= now - w.at.value <= 120 * SECOND))
  {
    if WebhookAdmitted(db, w, open) && NewProviderId(db, w) {
      var v := NativeVerdict(db, w);
      assert v.Accept? ==> |IngestWebhook(db, w, open, now).0.txns| == |db.txns| + 1;
    }
  }

  /** A flagged webhook is filed under its flag, whatever else it says. */
  lemma FlaggedWebhookIsFiled(db: Db, w: Webhook, open: bool, now: int)
    requires WebhookAdmitted(db, w, open) && NewProviderId(db, w) && w.review.Some?
    ensures var (s, r) := IngestWebhook(db, w, open, now);
      && r == Outcome(false, w.review, false) && s.txns == db.txns && s.quarantine == db.quarantine
      && (w.store, w.provider) in s.native && s.native[(w.store, w.provider)].reason == w.review.value
  {
  }

  /** Why an unflagged new webhook is not credited: each reason has exactly one condition. */
  lemma WebhookReasonIff(db: Db, w: Webhook, open: bool, now: int)
    requires WebhookAdmitted(db, w, open) && NewProviderId(db, w) && w.review.None?
    ensures var r := IngestWebhook(db, w, open, now).1;
      && r.Outcome?
      && (r.review == Some(InvalidAmount) <==> !(0 < w.amount <= MAX_AMOUNT))
      && (r.review == Some(InvalidTransactionDate) <==> 0 < w.amount <= MAX_AMOUNT && w.at.None?)
      && (r.review == Some(MissingReference) <==> WellDated(w) && HasReceipts(db, w.store) && w.reference == "")
      && (r.review == Some(PreActivation) <==>
            WellDated(w) && ReferenceUsable(db, w) && ReferenceFree(db, w) && w.at.value < w.activation.value)
      && (r.review == Some(Observation) <==>
            WellDated(w) && ReferenceUsable(db, w) && ReferenceFree(db, w) && w.at.value >= w.activation.value && w.mode == Observe)
      && (r.duplicate <==>
            WellDated(w) && ReferenceUsable(db, w) && SameAsReceipt(db, w))
      && (r.review == Some(ReferenceConflict) <==>
            WellDated(w) && !(HasReceipts(db, w.store) && w.reference == "")
            && (!ReferenceUsable(db, w) || (!ReferenceFree(db, w) && !SameAsReceipt(db, w))))
  {
    var v := NativeVerdict(db, w);
    assert (w.store, w.reference) in db.receipts ==> HasReceipts(db, w.store) by {
      if (w.store, w.reference) in db.receipts { assert (w.store, w.reference).0 == w.store; }
    }
  }

  /** It leaves one row under the answered reason, with the transaction it credited or repeats, and a candidate exactly for a taken reference. */
  lemma NewWebhookIsFiled(db: Db, w: Webhook, open: bool, now: int)
    requires WebhookAdmitted(db, w, open) && NewProviderId(db, w) && w.review.None?
    ensures var (s, r) := IngestWebhook(db, w, open, now);
      && r.Outcome?
      && s.quarantine == db.quarantine + (if WellDated(w) && ReferenceUsable(db, w) && !ReferenceFree(db, w) && !SameAsReceipt(db, w)
                                          then {NativeCandidate(w.store, w.provider, HashOfWebhook(w), ReferenceConflict)} else {})
      && s.native == db.native[(w.store, w.provider) := s.native[(w.store, w.provider)]]
      && var row := s.native[(w.store, w.provider)];
         && row.reference == w.reference && row.hash == HashOfWebhook(w)
         && row.reason == (if r.event then Accepted else if r.duplicate then Duplicate else r.review.value)
         && row.txn == (if r.event then Some(|db.txns|) else if r.duplicate then Some(db.receipts[(w.store, w.reference)].txn) else None)
  {
    var v := NativeVerdict(db, w);
    assert (w.store, w.reference) in db.receipts ==> HasReceipts(db, w.store) by {
      if (w.store, w.reference) in db.receipts { assert (w.store, w.reference).0 == w.store; }
    }
  }

  /** The receipt of this reference is for the same amount and time, and no other webhook has the reference. */
  ghost predicate SameAsReceipt(db: Db, w: Webhook) {
    && w.reference != "" && !ReferenceSeenNatively(db, w.store, w.reference, w.provider)
    && (w.store, w.reference) in db.receipts && w.verified && w.at.Some?
    && var txn := db.receipts[(w.store, w.reference)].txn;
    txn < |db.txns| && db.txns[txn].amount == w.amount && db.txns[txn].at == w.at.value
  }

  /** A known provider id moves no money: it is a duplicate iff it repeats the first report in full, and else quarantined. */
  lemma KnownProviderIdIsDuplicateIff(db: Db, w: Webhook, open: bool, now: int)
    requires WebhookAdmitted(db, w, open) && !NewProviderId(db, w)
    ensures var (s, r) := IngestWebhook(db, w, open, now);
      && s.txns == db.txns && s.native == db.native && s.receipts == db.receipts && r.Outcome? && !r.event
      && (r.duplicate <==> db.native[(w.store, w.provider)].hash == HashOfWebhook(w))
      && (!r.duplicate ==>
            r.review == Some(ReferenceConflict)
            && NativeCandidate(w.store, w.provider, HashOfWebhook(w), ReferenceConflict) in s.quarantine)
  {
  }

  /** The hash that decides this is equal exactly for equal reports. */
  lemma SameReportIff(w: Webhook, x: Webhook)
    ensures HashOfWebhook(w) == HashOfWebhook(x) <==>
              && w.store == x.store && w.provider == x.provider && w.gateway == x.gateway && w.notifyAccount == x.notifyAccount
              && w.subAccount == x.subAccount && w.amount == x.amount && w.transferType == x.transferType
              && w.reference == x.reference && w.at == x.at
  {
  }

  // ---------------------------------------------------------------- messages

  /** A known update moves no money and files nothing: it is a duplicate iff it repeats the first text for the same
      store, with the answer given then, and else a quarantined edit or conflict. */
  lemma KnownUpdateIsDuplicateIff(db: Db, n: Notification, open: bool, now: int)
    requires Admitted(db, n, open) && !NewUpdate(db, n)
    ensures var (s, r) := IngestNotification(db, n, open, now);
      var k := FindUpdate(db.telegram, n.bot, n.update);
      && k.Some? && r.Outcome? && !r.event
      && s == db.(connections := s.connections, quarantine := s.quarantine)
      && var first := db.telegram[k.value];
      && (r.duplicate <==> first.body == n.body && first.store == n.store)
      && (r.duplicate ==>
            && s.quarantine == db.quarantine
            && r.review == if first.reason == Accepted || first.reason == Duplicate then None else Some(first.reason))
      && (!r.duplicate ==>
            && r.review == Some(if n.review == Some(EditedMessage) then EditedMessage else ReferenceConflict)
            && s.quarantine == db.quarantine + {CandidateOf(n, r.review.value)})
  {
    UpdateFound(db, n);
  }

  /** A new update leaves exactly one row, under the reason that was answered and with the transaction it credited or repeats. */
  lemma NewUpdateIsFiled(db: Db, n: Notification, open: bool, now: int)
    requires Admitted(db, n, open) && NewUpdate(db, n)
    ensures var (s, r) := IngestNotification(db, n, open, now);
      && r.Outcome? && |s.telegram| == |db.telegram| + 1 && s.telegram[..|db.telegram|] == db.telegram && s.native == db.native
      && var row := s.telegram[|db.telegram|];
      && row.bot == n.bot && row.update == n.update && row.chat == n.chat && row.message == n.message && row.body == n.body && row.store == n.store
      && row.reason == (if r.event then Accepted else if r.review.Some? then r.review.value else Duplicate)
      && (r.event ==> row.txn == Some(|db.txns|))
      && (!r.event && r.review.Some? ==> row.txn.None?)
  {
    UpdateFound(db, n);
  }

  /** A flagged new message is filed under its flag, whatever else it says. */
  lemma FlaggedMessageIsFiled(db: Db, n: Notification, open: bool, now: int)
    requires Admitted(db, n, open) && NewUpdate(db, n) && NewMessage(db, n) && n.review.Some?
    ensures var (s, r) := IngestNotification(db, n, open, now);
      && r == Outcome(false, n.review, false) && s.txns == db.txns && s.quarantine == db.quarantine
      && |s.telegram| == |db.telegram| + 1 && s.telegram[|db.telegram|].reason == n.review.value
  {
    UpdateFound(db, n);
    MessageFound(db, n);
  }

  predicate Referenced(c: Credit) { !PaymentTables.Blank(c.reference) && |c.reference| <= 200 }

  /** Why an unflagged new message is not credited: each reason has exactly one condition. */
  lemma MessageReasonIff(db: Db, n: Notification, open: bool, now: int)
    requires Admitted(db, n, open) && NewUpdate(db, n) && NewMessage(db, n) && n.review.None?
    ensures var r := IngestNotification(db, n, open, now).1;
      && r.Outcome?
      && (r.review == Some(InvalidTemplate) <==> n.credit.None?)
      && (n.credit.Some? ==>
            var c := n.credit.value;
            var amountOk := 0 < c.amount <= MAX_AMOUNT;
            var unseen := (n.store, c.reference) !in db.receipts;
            && (r.review == Some(InvalidAmount) <==> !amountOk)
            && (r.review == Some(InvalidTransactionDate) <==> amountOk && c.at.None?)
            && (r.review == Some(MissingReference) <==> amountOk && c.at.Some? && !Referenced(c))
            && (r.review == Some(PreActivation) <==> WellNamed(n) && unseen && c.at.value < n.activation.value)
            && (r.review == Some(Observation) <==> WellNamed(n) && unseen && c.at.value >= n.activation.value && n.mode == Observe)
            && (r.event <==> WellNamed(n) && unseen && c.at.value >= n.activation.value && n.mode == Active))
  {
    UpdateFound(db, n);
    MessageFound(db, n);
  }

  // ---------------------------------------------------------------- the webhook handler

  predicate ConfigComplete(cfg: Config) {
    cfg.storeKey != "" && cfg.bank != "" && cfg.account != "" && cfg.activation.Some?
  }

  /** The hook reports money coming in to the configured account at the configured bank. */
  predicate IncomingToUs(cfg: Config, h: Hook) {
    h.transferType == "in" && h.gateway == cfg.bankName && h.account == cfg.notifyAccount && h.subAccount == cfg.subAccount
  }

  /**
   A hook is credited if and only if native transport is the active authority, the gate is open
   and the snapshot current, and it reports a new, well-dated payment into the configured
   account with a usable, free reference.
   */
  lemma HookCreditsIff(db: Db, cfg: Config, revision: int, h: Hook, open: bool, now: int)
    ensures HandleNativeWebhook(db, cfg, revision, h, open, now).0.txns != db.txns <==>
      && ActiveAuthority(cfg) == Some(Native) && |cfg.nativeSecret| >= 32 && ConfigComplete(cfg)
      && open && revision == db.revision && ReceiverAgrees(db, cfg.storeKey, cfg.bank, cfg.account)
      && h.provider > 0 && (cfg.storeKey, h.provider) !in db.native && IncomingToUs(cfg, h)
      && 0 < h.amount <= MAX_AMOUNT && h.at.Some? && h.at.value >= cfg.activation.value
      && (HasReceipts(db, cfg.storeKey) ==> h.reference != "" && cfg.referenceVerified)
      && (h.reference != "" ==> !ReferenceSeenNatively(db, cfg.storeKey, h.reference, h.provider)
                                && (cfg.storeKey, h.reference) !in db.receipts)
  {
    hide IngestWebhook;
    WebhookCreditsIff(db, WebhookOf(cfg, revision, h), open, now);
  }

  /** What is credited is what the bank reported. */
  lemma CreditedHookIsOurs(db: Db, cfg: Config, revision: int, h: Hook, open: bool, now: int)
    requires HandleNativeWebhook(db, cfg, revision, h, open, now).0.txns != db.txns
    ensures var s := HandleNativeWebhook(db, cfg, revision, h, open, now).0;
      && |s.txns| == |db.txns| + 1 && s.txns[..|db.txns|] == db.txns
      && var t := s.txns[|db.txns|];
         t.key == NativeKey(cfg.storeKey, h.provider) && t.amount == h.amount && Some(t.at) == h.at
  {
    hide IngestWebhook;
    WebhookCreditsIff(db, WebhookOf(cfg, revision, h), open, now);
  }

  /** An outgoing transfer, or one of another bank or account, is filed as such. */
  lemma ForeignHookIsFiled(db: Db, cfg: Config, revision: int, h: Hook, open: bool, now: int)
    requires NativeEnabled(cfg) && NativeModeOf(cfg) != Disabled && WebhookAdmitted(db, WebhookOf(cfg, revision, h), open)
    requires (cfg.storeKey, h.provider) !in db.native && !IncomingToUs(cfg, h)
    ensures HandleNativeWebhook(db, cfg, revision, h, open, now).1
         == Outcome(false, Some(if h.transferType != "in" then Outgoing else AccountMismatch), false)
  {
    hide IngestWebhook;
    FlaggedWebhookIsFiled(db, WebhookOf(cfg, revision, h), open, now);
  }

  // ---------------------------------------------------------------- the message handler

  /** An original message of the configured sender and chat that reports a credit to the configured account. */
  predicate ReportsToUs(cfg: Config, u: Update) {
    && u.update >= 0 && u.message > 0 && u.date > 0 && u.sender == cfg.sender && u.chat == cfg.chat && !u.edited
    && u.parsed.Text? && u.parsed.account == cfg.notifyAccount && u.parsed.bankName == cfg.bankName
  }

  /**
   A message is credited if and only if Telegram is the active authority, the gate is open and the
   snapshot current, and it is a new, unedited message of the configured sender about a
   well-named transfer to the configured account, at or after the cutoff, with a new reference.
   */
  lemma UpdateCreditsIff(db: Db, cfg: Config, revision: int, u: Update, open: bool, now: int)
    ensures HandleUpdate(db, cfg, revision, u, open, now).0.txns != db.txns <==>
      && ActiveAuthority(cfg) == Some(Telegram) && cfg.bot > 0 && cfg.chat < 0 && cfg.sender > 0 && ConfigComplete(cfg)
      && open && revision == db.revision && ReceiverAgrees(db, cfg.storeKey, cfg.bank, cfg.account)
      && ReportsToUs(cfg, u)
      && (forall r :: r in db.telegram && r.bot == cfg.bot ==> r.update != u.update && !(r.chat == u.chat && r.message == u.message))
      && var c := u.parsed.credit;
         && 0 < c.amount <= MAX_AMOUNT && c.at.Some? && !PaymentTables.Blank(c.reference) && |c.reference| <= 200
         && (cfg.storeKey, c.reference) !in db.receipts && c.at.value >= cfg.activation.value
  {
    hide IngestNotification;
    var n := NotificationOf(cfg, revision, u);
    NotificationCreditsIff(db, n, open, now);
  }

  /** What is credited is what the message says. */
  lemma CreditedUpdateIsOurs(db: Db, cfg: Config, revision: int, u: Update, open: bool, now: int)
    requires HandleUpdate(db, cfg, revision, u, open, now).0.txns != db.txns
    ensures u.parsed.Text?
    ensures var s := HandleUpdate(db, cfg, revision, u, open, now).0;
      && |s.txns| == |db.txns| + 1 && s.txns[..|db.txns|] == db.txns
      && var t, c := s.txns[|db.txns|], u.parsed.credit;
         t.key == TelegramKey(cfg.storeKey, c.reference) && t.amount == c.amount && Some(t.at) == c.at
  {
    hide IngestNotification;
    UpdateCreditsIff(db, cfg, revision, u, open, now);
    NotificationEffect(db, NotificationOf(cfg, revision, u), open, now);
  }

  /** An edited, unreadable or foreign message that is new is filed as such, and credits nothing. */
  lemma ForeignUpdateIsFiled(db: Db, cfg: Config, revision: int, u: Update, open: bool, now: int)
    requires TelegramEnabled(cfg) && Trusted(cfg, u) && !ReportsToUs(cfg, u)
    requires var n := NotificationOf(cfg, revision, u); Admitted(db, n, open) && NewUpdate(db, n) && NewMessage(db, n)
    ensures var (s, r) := HandleUpdate(db, cfg, revision, u, open, now);
      && s.txns == db.txns
      && r == Outcome(false, Some(if u.edited then EditedMessage else if u.parsed.ParseError? then u.parsed.reason else AccountMismatch), false)
  {
    var n := NotificationOf(cfg, revision, u);
    UpdateFound(db, n);
    MessageFound(db, n);
  }

  // ---------------------------------------------------------------- saving the configuration

  /** What a completed save leaves: the form's own fields, a stored secret kept where the form has none, and the
      cutoff: kept by an authority that stays, the save's stamp for one that starts, and for a first observation. */
  lemma SavedConfiguration(db: Db, revision: int, d: Draft, stamp: int, open: bool)
    requires SaveAdmin(db, revision, d, stamp, open).1.Saved?
    ensures var s := SaveAdmin(db, revision, d, stamp, open).0;
      && open && revision == db.revision && s.revision == revision + 1 && s == db.(revision := s.revision, cfg := s.cfg, configAt := s.configAt)
      && s.cfg == d.fields.(activation := s.cfg.activation, nativeSecret := s.cfg.nativeSecret)
      && s.cfg.nativeSecret == (if d.fields.nativeSecret == "" then db.cfg.nativeSecret else d.fields.nativeSecret)
      && (ActiveAuthority(s.cfg).Some? && ActiveAuthority(s.cfg) == ActiveAuthority(db.cfg) ==> s.cfg.activation == db.cfg.activation)
      && (ActiveAuthority(s.cfg).Some? && ActiveAuthority(s.cfg) != ActiveAuthority(db.cfg) ==> s.cfg.activation == Some(stamp))
      && (ActiveAuthority(s.cfg).None? && s.cfg.mode != Disabled && d.fields.activation.None? ==> s.cfg.activation == Some(stamp))
      && (ActiveAuthority(s.cfg).None? && (s.cfg.mode == Disabled || d.fields.activation.Some?) ==> s.cfg.activation == d.fields.activation)
      && (s.cfg.mode != Disabled ==> ConfigComplete(s.cfg) && s.cfg.bankName != "")
      && (s.cfg.mode != Disabled && s.cfg.transport == Telegram ==> s.cfg.bot > 0 && s.cfg.chat < 0 && s.cfg.sender > 0)
      && (s.cfg.mode == Active ==> d.receiverVerified && d.sourceSeparated)
      && (s.cfg.mode != Disabled && s.cfg.nativeMode == Active ==> s.cfg.transport == Native && s.cfg.mode == Active)
      && (s.cfg.mode != Disabled && s.cfg.nativeMode != Disabled ==> 32 <= |s.cfg.nativeSecret| <= 256)
  {
  }

  /** An id field of the form: right in sign, or empty while ingest is off. */
  predicate IdField(mode: Mode, id: int, sign: int) { id * sign > 0 || (id == 0 && mode == Disabled) }

  /** The form can be stored. A cutoff is missing only if the authority stays and had none: every other enabled save dates it. */
  predicate FormFits(current: Config, d: Draft) {
    var f := d.fields;
    var secret := if f.nativeSecret == "" then |current.nativeSecret| else |f.nativeSecret|;
    var stays := ActiveAuthority(f).Some? && ActiveAuthority(f) == ActiveAuthority(current);
    && d.patternsOk && (secret == 0 || 32 <= secret <= 256)
    && ((f.bot == 0 && f.chat == 0 && f.sender == 0 && f.transport == Native)
        || (IdField(f.mode, f.bot, 1) && IdField(f.mode, f.chat, -1) && IdField(f.mode, f.sender, 1)))
    && (f.mode != Disabled ==>
          && f.storeKey != "" && f.bank != "" && f.bankName != "" && f.account != ""
          && (stays ==> current.activation.Some?)
          && (f.nativeMode == Active ==> f.transport == Native && f.mode == Active)
          && (f.nativeMode != Disabled ==> secret > 0))
    && (f.mode == Active ==> d.receiverVerified && d.sourceSeparated)
  }

  /** A save completes iff its revision is the current one, the form fits, the gate is open, no other store key has
      accepted webhooks, no receipts are met by unverified references, and the pinned receiver stays. */
  lemma SaveCompletesIff(db: Db, revision: int, d: Draft, stamp: int, open: bool)
    ensures var (s, r) := SaveAdmin(db, revision, d, stamp, open);
      var f := d.fields;
      var unverified := ActiveAuthority(f) == Some(Native) && !f.referenceVerified && HasReceipts(db, f.storeKey);
      && (!r.Saved? ==> s == db)
      && (r.Saved? <==>
            && 0 <= revision < MAX_REVISION && revision == db.revision && FormFits(db.cfg, d) && open
            && !AcceptedElsewhere(db, f.storeKey) && !unverified
            && (f.storeKey != "" ==> ReceiverAgrees(db, f.storeKey, f.bank, f.account)))
  {
  }
}
