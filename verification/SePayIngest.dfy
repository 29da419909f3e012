/**
 What each SePay transaction does to the tables: the two ingest transactions
 (internal/storage/sepay.go), the configuration save (sepay_config.go and
 internal/sepay/managed.go) and the handlers that build their inputs (service.go).
 */
module SePayIngest {
  import opened Options
  import opened SePayTables
  import PaymentTables

  // ---------------------------------------------------------------- authority

  /** The one transport whose reports may become credits. */
  function ActiveAuthority(cfg: Config): Option<Transport> {
    if cfg.mode != Active then None
    else if cfg.transport == Native then (if cfg.nativeMode == Active then Some(Native) else None)
    else Some(Telegram)
  }

  // ---------------------------------------------------------------- Telegram notifications

  datatype Credit = Credit(amount: int, reference: string, at: Option<int>)

  datatype Notification = Notification(
    store: string, bank: string, account: string, mode: Mode, review: Option<Reason>, bot: int, update: int,
    chat: int, message: int, revision: int, activation: Option<int>, messageAt: int, body: string, credit: Option<Credit>)

  /** SePayIngestResult, or an error that left nothing behind. */
  datatype Result = Refused | Outcome(duplicate: bool, review: Option<Reason>, event: bool)

  /** What the transaction does with a row it has just inserted. */
  datatype Verdict =
    | Finish(reason: Reason, txn: Option<nat>, duplicate: bool)
    | Quarantine(reason: Reason)
    | Accept

  predicate CompleteNotification(n: Notification) {
    n.store != "" && n.bank != "" && n.account != "" && n.bot > 0 && n.update >= 0 && n.chat < 0 && n.message > 0
    && n.mode != Disabled && n.activation.Some? && (n.review.Some? ==> ValidReviewReason(n.review.value))
  }

  predicate ReceiverAgrees(db: Db, store: string, bank: string, account: string) {
    store in db.connections ==> db.connections[store] == Receiver(bank, account)
  }

  function HashOfCredit(n: Notification, reference: string, amount: int, at: int): Hash {
    TelegramHash(n.store, n.bank, n.account, reference, amount, at)
  }

  function SourceOf(received: int, at: int): Source {
    if -30 * SECOND <= received - at <= 120 * SECOND then Realtime else CatchUp
  }

  function TelegramVerdict(db: Db, n: Notification): Verdict
    requires CompleteNotification(n)
  {
    var previous := FindMessage(db.telegram, n.bot, n.chat, n.message);
    if previous.Some? then
      var p := db.telegram[previous.value];
      if n.review == Some(EditedMessage) then Quarantine(EditedMessage)
      else if p.body != n.body || p.store != n.store then Quarantine(ReferenceConflict)
      else if p.reason == Accepted || p.reason == Duplicate || p.reason == Observation then Finish(Duplicate, p.txn, true)
      else Finish(p.reason, None, true)
    else if n.review.Some? then Finish(n.review.value, None, false)
    else if n.credit.None? then Finish(InvalidTemplate, None, false)
    else
      var c := n.credit.value;
      if c.amount <= 0 || c.amount > MAX_AMOUNT then Finish(InvalidAmount, None, false)
      else if c.at.None? then Finish(InvalidTransactionDate, None, false)
      else if PaymentTables.Blank(c.reference) || |c.reference| > 200 then Finish(MissingReference, None, false)
      else if (n.store, c.reference) in db.receipts then
        var receipt := db.receipts[(n.store, c.reference)];
        if receipt.hash != HashOfCredit(n, c.reference, c.amount, c.at.value) then Quarantine(ReferenceConflict)
        else Finish(Duplicate, Some(receipt.txn), true)
      else if c.at.value < n.activation.value then Finish(PreActivation, None, false)
      else if n.mode == Observe then Finish(Observation, None, false)
      else Accept
  }

  function TelegramRowOf(n: Notification, reason: Reason, txn: Option<nat>): TelegramRow {
    TelegramRow(n.bot, n.update, n.chat, n.message, n.body, n.store, reason, txn)
  }

  function CandidateOf(n: Notification, reason: Reason): Candidate {
    TelegramCandidate(n.store, n.bot, n.update, n.body, reason)
  }

  function TelegramTxn(n: Notification, c: Credit, now: int): Txn
    requires c.at.Some?
  {
    Txn(TelegramKey(n.store, c.reference), HashOfCredit(n, c.reference, c.amount, c.at.value), c.amount, c.at.value,
        SourceOf(now, n.messageAt), now)
  }

  /** The transaction, past its gate, revision and receiver checks, on a row it inserted. */
  function FileTelegram(db: Db, n: Notification, v: Verdict, now: int): (Db, Result)
    requires v.Accept? ==> n.credit.Some? && n.credit.value.at.Some?
  {
    match v
    case Finish(reason, txn, duplicate) =>
      (db.(telegram := db.telegram + [TelegramRowOf(n, reason, txn)]),
       Outcome(duplicate || reason == Duplicate, if reason == Duplicate then None else Some(reason), false))
    case Quarantine(reason) =>
      (db.(telegram := db.telegram + [TelegramRowOf(n, reason, None)], quarantine := db.quarantine + {CandidateOf(n, reason)}),
       Outcome(false, Some(reason), false))
    case Accept =>
      var c := n.credit.value;
      var txn := TelegramTxn(n, c, now);
      (db.(telegram := db.telegram + [TelegramRowOf(n, Accepted, Some(|db.txns|))],
           txns := db.txns + [txn],
           receipts := db.receipts[(n.store, c.reference) := Receipt(n.bank, n.account, txn.hash, |db.txns|, n.message)]),
       Outcome(false, None, true))
  }

  function ReviewOf(reason: Reason): Option<Reason> {
    if reason == Accepted || reason == Duplicate then None else Some(reason)
  }

  /** IngestSePayNotification. `open` is the deployment gate's answer. */
  function IngestNotification(db: Db, n: Notification, open: bool, now: int): (Db, Result) {
    if !CompleteNotification(n) || !open || n.revision != db.revision || !ReceiverAgrees(db, n.store, n.bank, n.account)
    then (db, Refused)
    else
      var connected := db.(connections := db.connections[n.store := Receiver(n.bank, n.account)]);
      var existing := FindUpdate(db.telegram, n.bot, n.update);
      if existing.Some? then
        var row := db.telegram[existing.value];
        if row.body != n.body || row.store != n.store then
          var reason := if n.review == Some(EditedMessage) then EditedMessage else ReferenceConflict;
          (connected.(quarantine := db.quarantine + {CandidateOf(n, reason)}), Outcome(false, Some(reason), false))
        else (connected, Outcome(true, ReviewOf(row.reason), false))
      else FileTelegram(connected, n, TelegramVerdict(db, n), now)
  }

  // ---------------------------------------------------------------- native webhooks

  datatype Webhook = Webhook(
    store: string, bank: string, account: string, mode: Mode, review: Option<Reason>, gateway: string,
    notifyAccount: string, subAccount: string, reference: string, transferType: string, provider: int, amount: int,
    revision: int, activation: Option<int>, at: Option<int>, verified: bool)

  predicate CompleteWebhook(w: Webhook) {
    w.store != "" && w.bank != "" && w.account != "" && w.provider > 0 && w.mode != Disabled && w.activation.Some?
    && (w.review.Some? ==> ValidReviewReason(w.review.value))
  }

  function HashOfWebhook(w: Webhook): Hash {
    NativeHash(w.store, w.provider, w.gateway, w.notifyAccount, w.subAccount, w.amount, w.transferType, w.reference, w.at)
  }

  function NativeVerdict(db: Db, w: Webhook): Verdict
    requires CompleteWebhook(w)
  {
    if w.review.Some? then Finish(w.review.value, None, false)
    else if w.amount <= 0 || w.amount > MAX_AMOUNT then Finish(InvalidAmount, None, false)
    else if w.at.None? then Finish(InvalidTransactionDate, None, false)
    else if HasReceipts(db, w.store) && w.reference == "" then Finish(MissingReference, None, false)
    else if w.mode == Active && HasReceipts(db, w.store) && !w.verified then Finish(ReferenceConflict, None, false)
    else if w.reference != "" && ReferenceSeenNatively(db, w.store, w.reference, w.provider) then Quarantine(ReferenceConflict)
    else if w.reference != "" && (w.store, w.reference) in db.receipts then
      var receipt := db.receipts[(w.store, w.reference)];
      if !w.verified then Quarantine(ReferenceConflict)
      else if receipt.txn < |db.txns| && db.txns[receipt.txn].amount == w.amount && db.txns[receipt.txn].at == w.at.value
      then Finish(Duplicate, Some(receipt.txn), true)
      else Quarantine(ReferenceConflict)
    else if w.at.value < w.activation.value then Finish(PreActivation, None, false)
    else if w.mode == Observe then Finish(Observation, None, false)
    else Accept
  }

  function NativeTxn(w: Webhook, now: int): Txn
    requires w.at.Some?
  {
    Txn(NativeKey(w.store, w.provider), HashOfWebhook(w), w.amount, w.at.value, SourceOf(now, w.at.value), now)
  }

  function FileNative(db: Db, w: Webhook, v: Verdict, now: int): (Db, Result)
    requires v.Accept? ==> w.at.Some?
  {
    var key := (w.store, w.provider);
    match v
    case Finish(reason, txn, duplicate) =>
      (db.(native := db.native[key := NativeRow(w.reference, HashOfWebhook(w), reason, txn)]),
       Outcome(reason == Duplicate, if reason == Duplicate then None else Some(reason), false))
    case Quarantine(reason) =>
      (db.(native := db.native[key := NativeRow(w.reference, HashOfWebhook(w), reason, None)],
           quarantine := db.quarantine + {NativeCandidate(w.store, w.provider, HashOfWebhook(w), reason)}),
       Outcome(false, Some(reason), false))
    case Accept =>
      (db.(native := db.native[key := NativeRow(w.reference, HashOfWebhook(w), Accepted, Some(|db.txns|))],
           txns := db.txns + [NativeTxn(w, now)]),
       Outcome(false, None, true))
  }

  /** IngestSePayWebhook. */
  function IngestWebhook(db: Db, w: Webhook, open: bool, now: int): (Db, Result) {
    if !CompleteWebhook(w) || !open || w.revision != db.revision || !ReceiverAgrees(db, w.store, w.bank, w.account)
    then (db, Refused)
    else
      var connected := db.(connections := db.connections[w.store := Receiver(w.bank, w.account)]);
      if (w.store, w.provider) in db.native then
        var row := db.native[(w.store, w.provider)];
        if row.hash != HashOfWebhook(w) then
          (connected.(quarantine := db.quarantine + {NativeCandidate(w.store, w.provider, HashOfWebhook(w), ReferenceConflict)}),
           Outcome(false, Some(ReferenceConflict), false))
        else (connected, Outcome(true, ReviewOf(row.reason), false))
      else FileNative(connected, w, NativeVerdict(db, w), now)
  }

  // ---------------------------------------------------------------- handlers

  /** The parsed text of a notification, or the review reason its parse error maps to. */
  datatype Parsed = ParseError(reason: Reason) | Text(bankName: string, account: string, credit: Credit)

  /** A Telegram update that passed the message-shape checks of trustedMessage. */
  datatype Update = Update(update: int, chat: int, message: int, sender: int, edited: bool, date: int, body: string, parsed: Parsed)

  predicate Enabled(cfg: Config) { cfg.mode == Observe || cfg.mode == Active }

  predicate TelegramEnabled(cfg: Config) {
    Enabled(cfg) && cfg.bot > 0 && cfg.chat < 0 && cfg.sender > 0
  }

  predicate NativeEnabled(cfg: Config) {
    Enabled(cfg) && cfg.nativeMode != Disabled && |cfg.nativeSecret| >= 32
  }

  predicate Trusted(cfg: Config, u: Update) {
    u.update >= 0 && u.message > 0 && u.date > 0 && u.sender == cfg.sender && u.chat == cfg.chat
  }

  /** HandleUpdate's input to the ingest transaction, from a snapshot of the configuration. */
  function NotificationOf(cfg: Config, revision: int, u: Update): Notification {
    var review := if u.edited then Some(EditedMessage)
                  else if u.parsed.ParseError? then Some(u.parsed.reason)
                  else if u.parsed.account != cfg.notifyAccount || u.parsed.bankName != cfg.bankName then Some(AccountMismatch)
                  else None;
    Notification(cfg.storeKey, cfg.bank, cfg.account, if cfg.transport == Native then Observe else cfg.mode,
                 review, cfg.bot, u.update, u.chat, u.message, revision, cfg.activation, u.date * SECOND, u.body,
                 if review.None? && u.parsed.Text? then Some(u.parsed.credit) else None)
  }

  function HandleUpdate(db: Db, cfg: Config, revision: int, u: Update, open: bool, now: int): (Db, Result) {
    if !TelegramEnabled(cfg) || !Trusted(cfg, u) then (db, Refused)
    else IngestNotification(db, NotificationOf(cfg, revision, u), open, now)
  }

  datatype Hook = Hook(provider: int, gateway: string, account: string, subAccount: string, reference: string,
                       transferType: string, amount: int, at: Option<int>)

  function NativeModeOf(cfg: Config): Mode {
    if cfg.mode == Observe || cfg.transport != Native then Observe else cfg.nativeMode
  }

  function WebhookOf(cfg: Config, revision: int, h: Hook): Webhook {
    var review := if h.transferType != "in" then Some(Outgoing)
                  else if h.gateway != cfg.bankName || h.account != cfg.notifyAccount || h.subAccount != cfg.subAccount
                  then Some(AccountMismatch)
                  else None;
    Webhook(cfg.storeKey, cfg.bank, cfg.account, NativeModeOf(cfg), review, h.gateway, h.account, h.subAccount,
            h.reference, h.transferType, h.provider, h.amount, revision, cfg.activation, h.at, cfg.referenceVerified)
  }

  function HandleNativeWebhook(db: Db, cfg: Config, revision: int, h: Hook, open: bool, now: int): (Db, Result) {
    if !NativeEnabled(cfg) || NativeModeOf(cfg) == Disabled then (db, Refused)
    else IngestWebhook(db, WebhookOf(cfg, revision, h), open, now)
  }

  // ---------------------------------------------------------------- saving the configuration

  /** The admin form. `patternsOk` stands for the field patterns that only ever refuse a draft. */
  datatype Draft = Draft(fields: Config, receiverVerified: bool, sourceSeparated: bool, patternsOk: bool)

  datatype SaveResult = Saved(revision: int) | InvalidField | RevisionConflict | SaveRefused | StoreKeyImmutable
                      | ReferenceUnverified | ReceiverMismatch

  /** An authority that stays active keeps its cutoff; a newly active one starts at the save. */
  function StampedActivation(current: Config, fields: Config, stamp: int): Option<int> {
    if ActiveAuthority(fields).Some? && ActiveAuthority(fields) == ActiveAuthority(current) then current.activation
    else if ActiveAuthority(fields).Some? || (fields.mode != Disabled && fields.activation.None?) then Some(stamp)
    else fields.activation
  }

  predicate TelegramIdsOk(f: Config) {
    var configured := f.bot != 0 || f.chat != 0 || f.sender != 0;
    if !configured && (f.mode == Disabled || f.transport == Native) then true
    else
      && (f.bot > 0 || (f.bot == 0 && f.mode == Disabled))
      && (f.chat < 0 || (f.chat == 0 && f.mode == Disabled))
      && (f.sender > 0 || (f.sender == 0 && f.mode == Disabled))
  }

  /** adminRuntime on the stamped fields and the stored or new secret. */
  predicate RuntimeOk(d: Draft, f: Config) {
    d.patternsOk && TelegramIdsOk(f)
    && (f.mode != Disabled ==>
          && f.storeKey != "" && f.bank != "" && f.bankName != "" && f.account != "" && f.activation.Some?
          && (f.mode == Active ==> d.receiverVerified && d.sourceSeparated)
          && (f.nativeMode == Active ==> f.transport == Native && f.mode == Active)
          && (f.nativeMode != Disabled ==> 32 <= |f.nativeSecret| <= 256))
  }

  predicate NeedsVerifiedReferences(db: Db, f: Config) {
    ActiveAuthority(f) == Some(Native) && !f.referenceVerified && HasReceipts(db, f.storeKey)
  }

  /** SaveSePayManagedConfig: serialized with every ingest by the revision. */
  function SaveManaged(db: Db, revision: int, f: Config, open: bool): (Db, SaveResult) {
    if !open then (db, SaveRefused)
    else if revision != db.revision then (db, RevisionConflict)
    else if AcceptedElsewhere(db, f.storeKey) then (db, StoreKeyImmutable)
    else if NeedsVerifiedReferences(db, f) then (db, ReferenceUnverified)
    else if f.storeKey != "" && !ReceiverAgrees(db, f.storeKey, f.bank, f.account) then (db, ReceiverMismatch)
    else (db.(revision := revision + 1, cfg := f, configAt := db.configAt[revision + 1 := f]), Saved(revision + 1))
  }

  /** The fields a save writes: the draft with its stamped cutoff and its kept secret. */
  function FieldsToSave(current: Config, d: Draft, stamp: int): Config {
    d.fields.(activation := StampedActivation(current, d.fields, stamp),
              nativeSecret := if d.fields.nativeSecret == "" then current.nativeSecret else d.fields.nativeSecret)
  }

  /** SaveAdminConfig: `stamp` is the time it read before its transaction. */
  function SaveAdmin(db: Db, revision: int, d: Draft, stamp: int, open: bool): (Db, SaveResult) {
    if revision < 0 || revision >= MAX_REVISION then (db, InvalidField)
    else if revision != db.revision then (db, RevisionConflict)
    else
      var f := FieldsToSave(db.cfg, d, stamp);
      if (f.nativeSecret != "" && !(32 <= |f.nativeSecret| <= 256)) || !RuntimeOk(d, f) then (db, InvalidField)
      else SaveManaged(db, revision, f, open)
  }
}
