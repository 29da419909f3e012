/**
 The SePay methods of the Store, statement by statement. Each ingest inserts its inbox row
 first, to reserve the writer, and takes it back with everything else when a later check
 fails.
 */
module SePayStore {
  import opened Options
  import opened SePayTables
  import opened SePayIngest
  import PaymentTables

  class Store {
    var telegram: seq<TelegramRow>
    var native: map<(string, int), NativeRow>
    var receipts: map<(string, string), Receipt>
    var txns: seq<Txn>
    var quarantine: set<Candidate>
    var connections: map<string, Receiver>
    var revision: int
    var cfg: Config
    var configAt: map<int, Config>

    function View(): Db
      reads this
    {
      Db(telegram, native, receipts, txns, quarantine, connections, revision, cfg, configAt)
    }

    constructor (cfg: Config)
      ensures View() == Bootstrap(cfg)
    {
      telegram, native, receipts, txns, quarantine, connections := [], map[], map[], [], {}, map[];
      revision, this.cfg, configAt := 0, cfg, map[0 := cfg];
    }

    method Rollback(before: Db)
      modifies this
      ensures View() == before
    {
      telegram, native, receipts, txns := before.telegram, before.native, before.receipts, before.txns;
      quarantine, connections := before.quarantine, before.connections;
      revision, cfg, configAt := before.revision, before.cfg, before.configAt;
    }

    /** ensureSePayConnectionTx: the first observation pins the receiver. */
    method EnsureSePayConnection(store: string, bank: string, account: string) returns (ok: bool)
      modifies this`connections
      ensures ok <==> ReceiverAgrees(old(View()), store, bank, account)
      ensures connections == if ok then old(connections)[store := Receiver(bank, account)] else old(connections)
    {
      if store in connections {
        if connections[store].bank != bank { return false; }
        if connections[store].account != account { return false; }
        assert connections[store := Receiver(bank, account)] == connections;
        return true;
      }
      connections := connections[store := Receiver(bank, account)];
      return true;
    }

    /** Writes the outcome on the row inserted last. */
    method FinishTelegram(n: Notification, reason: Reason, txn: Option<nat>, repeated: bool) returns (r: Result)
      requires |telegram| > 0
      modifies this`telegram
      ensures telegram == old(telegram)[..|old(telegram)| - 1] + [TelegramRowOf(n, reason, txn)]
      ensures r == Outcome(repeated || reason == Duplicate, ReviewOf(reason), false)
    {
      telegram := telegram[|telegram| - 1 := TelegramRowOf(n, reason, txn)];
      var review := None;
      if reason != Accepted && reason != Duplicate { review := Some(reason); }
      return Outcome(repeated || reason == Duplicate, review, false);
    }

    method QuarantineTelegram(n: Notification, reason: Reason, inserted: bool) returns (r: Result)
      requires |telegram| > 0 && reason != Accepted && reason != Duplicate
      modifies this`telegram, this`quarantine
      ensures quarantine == old(quarantine) + {CandidateOf(n, reason)}
      ensures telegram == if inserted then old(telegram)[..|old(telegram)| - 1] + [TelegramRowOf(n, reason, None)] else old(telegram)
      ensures r == Outcome(false, Some(reason), false)
    {
      quarantine := quarantine + {CandidateOf(n, reason)};
      if inserted { r := FinishTelegram(n, reason, None, false); } else { r := Outcome(false, Some(reason), false); }
    }

    /** insertSePayCreditTx: the credit, whose id is its position. */
    method InsertSePayCredit(t: Txn) returns (id: nat)
      modifies this`txns
      ensures id == |old(txns)| && txns == old(txns) + [t]
    {
      id := |txns|;
      txns := txns + [t];
    }

    /** The decision for a row just inserted; the row itself is the last one. */
    method DecideTelegram(n: Notification) returns (v: Verdict)
      requires CompleteNotification(n) && |telegram| > 0
      ensures v == TelegramVerdict(View().(telegram := telegram[..|telegram| - 1]), n)
    {
      var earlier := telegram[..|telegram| - 1];
      var previous := FindMessage(earlier, n.bot, n.chat, n.message);
      if previous.Some? {
        var p := earlier[previous.value];
        if n.review == Some(EditedMessage) { return Quarantine(EditedMessage); }
        if p.body != n.body || p.store != n.store { return Quarantine(ReferenceConflict); }
        if p.reason == Accepted || p.reason == Duplicate || p.reason == Observation { return Finish(Duplicate, p.txn, true); }
        return Finish(p.reason, None, true);
      }
      if n.review.Some? { return Finish(n.review.value, None, false); }
      if n.credit.None? { return Finish(InvalidTemplate, None, false); }
      var c := n.credit.value;
      if c.amount <= 0 || c.amount > MAX_AMOUNT { return Finish(InvalidAmount, None, false); }
      if c.at.None? { return Finish(InvalidTransactionDate, None, false); }
      if PaymentTables.Blank(c.reference) || |c.reference| > 200 { return Finish(MissingReference, None, false); }
      if (n.store, c.reference) in receipts {
        var receipt := receipts[(n.store, c.reference)];
        if receipt.hash != HashOfCredit(n, c.reference, c.amount, c.at.value) { return Quarantine(ReferenceConflict); }
        return Finish(Duplicate, Some(receipt.txn), true);
      }
      if c.at.value < n.activation.value { return Finish(PreActivation, None, false); }
      if n.mode == Observe { return Finish(Observation, None, false); }
      return Accept;
    }

    /** The rest of the transaction for a row just inserted. */
    method FileNotification(n: Notification, now: int) returns (r: Result)
      requires CompleteNotification(n) && |telegram| > 0
      modifies this
      ensures var db := old(View()).(telegram := old(telegram)[..|old(telegram)| - 1]);
        (View(), r) == FileTelegram(db, n, TelegramVerdict(db, n), now)
    {
      var v := DecideTelegram(n);
      r := CarryOutTelegram(n, v, now);
    }

    method CarryOutTelegram(n: Notification, v: Verdict, now: int) returns (r: Result)
      requires |telegram| > 0 && (v.Accept? ==> n.credit.Some? && n.credit.value.at.Some?)
      requires v.Finish? ==> v.reason != Accepted
      requires v.Quarantine? ==> v.reason != Accepted && v.reason != Duplicate
      modifies this
      ensures (View(), r) == FileTelegram(old(View()).(telegram := old(telegram)[..|old(telegram)| - 1]), n, v, now)
    {
      match v
      case Finish(reason, txn, repeated) =>
        r := FinishTelegram(n, reason, txn, repeated);
      case Quarantine(reason) =>
        r := QuarantineTelegram(n, reason, true);
      case Accept =>
        var t := TelegramTxn(n, n.credit.value, now);
        var id := InsertSePayCredit(t);
        receipts := receipts[(n.store, n.credit.value.reference) := Receipt(n.bank, n.account, t.hash, id, n.message)];
        r := FinishTelegram(n, Accepted, Some(id), false);
        r := r.(event := true);
    }

    method IngestSePayNotification(n: Notification, open: bool, now: int) returns (r: Result)
      modifies this
      ensures (View(), r) == IngestNotification(old(View()), n, open, now)
    {
      if !CompleteNotification(n) { return Refused; }
      var before := View();
      var existing := FindUpdate(telegram, n.bot, n.update);
      if existing.None? { telegram := telegram + [TelegramRowOf(n, InvalidTemplate, None)]; }
      var sameReceiver := false;
      if open && n.revision == revision { sameReceiver := EnsureSePayConnection(n.store, n.bank, n.account); }
      if !sameReceiver {
        Rollback(before);
        return Refused;
      }
      if existing.Some? {
        var row := telegram[existing.value];
        if row.body != n.body || row.store != n.store {
          r := QuarantineTelegram(n, if n.review == Some(EditedMessage) then EditedMessage else ReferenceConflict, false);
          return r;
        }
        return Outcome(true, ReviewOf(row.reason), false);
      }
      assert telegram[..|telegram| - 1] == before.telegram;
      r := FileNotification(n, now);
    }

    method FinishNative(w: Webhook, reason: Reason, txn: Option<nat>) returns (r: Result)
      modifies this`native
      ensures native == old(native)[(w.store, w.provider) := NativeRow(w.reference, HashOfWebhook(w), reason, txn)]
      ensures r == Outcome(reason == Duplicate, ReviewOf(reason), false)
    {
      native := native[(w.store, w.provider) := NativeRow(w.reference, HashOfWebhook(w), reason, txn)];
      return Outcome(reason == Duplicate, ReviewOf(reason), false);
    }

    method IngestSePayWebhook(w: Webhook, open: bool, now: int) returns (r: Result)
      modifies this
      ensures (View(), r) == IngestWebhook(old(View()), w, open, now)
    {
      if !CompleteWebhook(w) { return Refused; }
      var before := View();
      var key := (w.store, w.provider);
      var inserted := key !in native;
      if inserted { native := native[key := NativeRow(w.reference, HashOfWebhook(w), InvalidTemplate, None)]; }
      var sameReceiver := false;
      if open && w.revision == revision { sameReceiver := EnsureSePayConnection(w.store, w.bank, w.account); }
      if !sameReceiver {
        Rollback(before);
        return Refused;
      }
      if !inserted {
        var row := native[key];
        if row.hash != HashOfWebhook(w) {
          quarantine := quarantine + {NativeCandidate(w.store, w.provider, HashOfWebhook(w), ReferenceConflict)};
          return Outcome(false, Some(ReferenceConflict), false);
        }
        return Outcome(true, ReviewOf(row.reason), false);
      }
      r := FileWebhook(w, now, before);
    }

    method CarryOutNative(w: Webhook, v: Verdict, now: int) returns (r: Result)
      requires v.Accept? ==> w.at.Some?
      requires v.Finish? ==> v.reason != Accepted
      requires v.Quarantine? ==> v.reason != Accepted && v.reason != Duplicate
      modifies this
      ensures (View(), r) == FileNative(old(View()), w, v, now)
    {
      match v
      case Finish(reason, txn, _) =>
        r := FinishNative(w, reason, txn);
      case Quarantine(reason) =>
        quarantine := quarantine + {NativeCandidate(w.store, w.provider, HashOfWebhook(w), reason)};
        r := FinishNative(w, reason, None);
      case Accept =>
        var id := InsertSePayCredit(NativeTxn(w, now));
        r := FinishNative(w, Accepted, Some(id));
        r := r.(event := true);
    }

    /** The decision for a row just inserted, which its queries do not see. */
    method DecideWebhook(w: Webhook) returns (v: Verdict)
      requires CompleteWebhook(w)
      ensures v == NativeVerdict(View(), w)
    {
      if w.review.Some? { return Finish(w.review.value, None, false); }
      if w.amount <= 0 || w.amount > MAX_AMOUNT { return Finish(InvalidAmount, None, false); }
      if w.at.None? { return Finish(InvalidTransactionDate, None, false); }
      var telegramReceipts := exists k :: k in receipts && k.0 == w.store;
      if telegramReceipts && w.reference == "" { return Finish(MissingReference, None, false); }
      if w.mode == Active && telegramReceipts && !w.verified { return Finish(ReferenceConflict, None, false); }
      if w.reference != "" {
        var seen := exists k :: k in native && k.0 == w.store && k.1 != w.provider && native[k].reference == w.reference;
        if seen { return Quarantine(ReferenceConflict); }
        if (w.store, w.reference) in receipts {
          if !w.verified { return Quarantine(ReferenceConflict); }
          var txn := receipts[(w.store, w.reference)].txn;
          if txn < |txns| {
            if txns[txn].amount == w.amount && txns[txn].at == w.at.value { return Finish(Duplicate, Some(txn), true); }
          }
          return Quarantine(ReferenceConflict);
        }
      }
      if w.at.value < w.activation.value { return Finish(PreActivation, None, false); }
      if w.mode == Observe { return Finish(Observation, None, false); }
      return Accept;
    }

    /** The rest of the transaction for a row just inserted. */
    method FileWebhook(w: Webhook, now: int, ghost before: Db) returns (r: Result)
      requires CompleteWebhook(w) && (w.store, w.provider) !in before.native
      requires View() == before.(connections := connections,
                 native := before.native[(w.store, w.provider) := NativeRow(w.reference, HashOfWebhook(w), InvalidTemplate, None)])
      modifies this
      ensures (View(), r) == FileNative(before.(connections := old(connections)), w, NativeVerdict(before, w), now)
    {
      hide NativeVerdict, HashOfWebhook, HasReceipts, ReferenceSeenNatively;
      ghost var start := View();
      SameQueries(before, start, w, NativeRow(w.reference, HashOfWebhook(w), InvalidTemplate, None));
      NativeVerdictIsReview(start, w);
      var v := DecideWebhook(w);
      r := CarryOutNative(w, v, now);
      var key := (w.store, w.provider);
      assert start.native[key := native[key]] == before.native[key := native[key]];
    }

    /** SaveSePayManagedConfig, and before it the decisions of SaveAdminConfig. */
    method SaveAdminConfig(expected: int, d: Draft, stamp: int, open: bool) returns (r: SaveResult)
      modifies this
      ensures (View(), r) == SaveAdmin(old(View()), expected, d, stamp, open)
    {
      if expected < 0 || expected >= MAX_REVISION { return InvalidField; }
      if expected != revision { return RevisionConflict; }
      var fields := d.fields;
      if fields.nativeSecret == "" { fields := fields.(nativeSecret := cfg.nativeSecret); }
      if fields.nativeSecret != "" && !(32 <= |fields.nativeSecret| <= 256) { return InvalidField; }
      var authority := ActiveAuthority(fields);
      if authority.Some? && authority == ActiveAuthority(cfg) {
        fields := fields.(activation := cfg.activation);
      } else if authority.Some? || (fields.mode != Disabled && fields.activation.None?) {
        fields := fields.(activation := Some(stamp));
      }
      assert fields == FieldsToSave(cfg, d, stamp);
      if !RuntimeOk(d, fields) { return InvalidField; }
      if !open { return SaveRefused; }
      if AcceptedElsewhere(View(), fields.storeKey) { return StoreKeyImmutable; }
      if NeedsVerifiedReferences(View(), fields) { return ReferenceUnverified; }
      if fields.storeKey != "" && !ReceiverAgrees(View(), fields.storeKey, fields.bank, fields.account) { return ReceiverMismatch; }
      revision := expected + 1;
      cfg, configAt := fields, configAt[revision := fields];
      return Saved(revision);
    }
  }

  lemma NativeVerdictIsReview(db: Db, w: Webhook)
    requires CompleteWebhook(w)
    ensures var v := NativeVerdict(db, w);
      && (v.Accept? ==> w.at.Some?)
      && (!v.Accept? ==> v.reason != Accepted)
      && (v.Quarantine? ==> v.reason != Duplicate)
  {
  }

  /** The queries of a webhook do not see the row it has just inserted itself. */
  lemma SameQueries(before: Db, db: Db, w: Webhook, row: NativeRow)
    requires CompleteWebhook(w) && (w.store, w.provider) !in before.native && db.receipts == before.receipts && db.txns == before.txns
    requires db.native == before.native[(w.store, w.provider) := row]
    ensures NativeVerdict(db, w) == NativeVerdict(before, w)
  {
    if ReferenceSeenNatively(before, w.store, w.reference, w.provider) {
      var k :| k in before.native && k.0 == w.store && k.1 != w.provider && before.native[k].reference == w.reference;
      assert k in db.native && db.native[k] == before.native[k];
    }
    if ReferenceSeenNatively(db, w.store, w.reference, w.provider) {
      var k :| k in db.native && k.0 == w.store && k.1 != w.provider && db.native[k].reference == w.reference;
      assert k in before.native && db.native[k] == before.native[k];
    }
    assert HasReceipts(db, w.store) == HasReceipts(before, w.store);
  }
}
