/**
 The SePay tables (internal/storage/sepay.go, sepay_config.go): two inboxes, Telegram
 receipts, credit transactions, quarantined candidates, pinned receivers and the managed
 configuration with its revision.

 A transaction's id is its position. A sha256 hash is the tuple it hashes; the payload
 hashes reduce to the message body, since bot and update id are columns of the same row.
 `configAt` is a history column: what a reader of each revision saw.
 */
module SePayTables {
  import opened Options

  const SECOND: int := 1_000_000_000
  const MAX_AMOUNT: int := 9007199254740991
  const MAX_REVISION: int := 9007199254740991

  datatype Mode = Disabled | Observe | Active
  datatype Transport = Telegram | Native

  datatype Reason =
    | Accepted | Duplicate | Observation | PreActivation | InvalidTemplate | Outgoing | AccountMismatch
    | InvalidAmount | InvalidTransactionDate | MissingReference | ReferenceConflict | EditedMessage

  predicate ValidReviewReason(r: Reason) {
    r.InvalidTemplate? || r.Outgoing? || r.AccountMismatch? || r.InvalidAmount? || r.InvalidTransactionDate?
    || r.MissingReference? || r.ReferenceConflict? || r.EditedMessage?
  }

  datatype Config = Config(
    mode: Mode, transport: Transport, nativeMode: Mode, storeKey: string, bank: string, bankName: string,
    account: string, notifyAccount: string, subAccount: string, bot: int, chat: int, sender: int,
    activation: Option<int>, referenceVerified: bool, nativeSecret: string)

  datatype Hash =
    | TelegramHash(store: string, bank: string, account: string, reference: string, amount: int, at: int)
    | NativeHash(store: string, provider: int, gateway: string, notifyAccount: string, subAccount: string,
                 amount: int, transferType: string, reference: string, time: Option<int>)

  datatype SemanticKey = TelegramKey(store: string, reference: string) | NativeKey(store: string, provider: int)

  datatype Source = Realtime | CatchUp

  datatype Txn = Txn(key: SemanticKey, hash: Hash, amount: int, at: int, source: Source, receivedAt: int)

  datatype TelegramRow = TelegramRow(bot: int, update: int, chat: int, message: int, body: string, store: string,
                                     reason: Reason, txn: Option<nat>)
  datatype NativeRow = NativeRow(reference: string, hash: Hash, reason: Reason, txn: Option<nat>)
  datatype Receipt = Receipt(bank: string, account: string, hash: Hash, txn: nat, message: int)
  datatype Receiver = Receiver(bank: string, account: string)

  datatype Candidate =
    | TelegramCandidate(store: string, bot: int, update: int, body: string, reason: Reason)
    | NativeCandidate(store: string, provider: int, hash: Hash, reason: Reason)

  datatype Db = Db(
    telegram: seq<TelegramRow>, native: map<(string, int), NativeRow>, receipts: map<(string, string), Receipt>,
    txns: seq<Txn>, quarantine: set<Candidate>, connections: map<string, Receiver>,
    revision: int, cfg: Config, configAt: map<int, Config>)

  /** Revision 0 is the configuration the process was started with. */
  function Bootstrap(cfg: Config): Db {
    Db([], map[], map[], [], {}, map[], 0, cfg, map[0 := cfg])
  }

  // ---------------------------------------------------------------- lookups

  function FindUpdate(rows: seq<TelegramRow>, bot: int, update: int, from: nat := 0): (r: Option<nat>)
    requires from <= |rows|
    ensures r.Some? ==> from <= r.value < |rows| && rows[r.value].bot == bot && rows[r.value].update == update
    ensures r.None? ==> forall j :: from <= j < |rows| ==> rows[j].bot != bot || rows[j].update != update
    decreases |rows| - from
  {
    if from == |rows| then None
    else if rows[from].bot == bot && rows[from].update == update then Some(from)
    else FindUpdate(rows, bot, update, from + 1)
  }

  /** The first row of a message, whatever its update id. */
  function FindMessage(rows: seq<TelegramRow>, bot: int, chat: int, message: int, from: nat := 0): (r: Option<nat>)
    requires from <= |rows|
    ensures r.Some? ==> from <= r.value < |rows| && rows[r.value].bot == bot && rows[r.value].chat == chat && rows[r.value].message == message
    ensures r.None? ==> forall j :: from <= j < |rows| ==> rows[j].bot != bot || rows[j].chat != chat || rows[j].message != message
    decreases |rows| - from
  {
    if from == |rows| then None
    else if rows[from].bot == bot && rows[from].chat == chat && rows[from].message == message then Some(from)
    else FindMessage(rows, bot, chat, message, from + 1)
  }

  predicate HasReceipts(db: Db, store: string) {
    exists k :: k in db.receipts && k.0 == store
  }

  predicate ReferenceSeenNatively(db: Db, store: string, reference: string, provider: int) {
    exists k :: k in db.native && k.0 == store && k.1 != provider && db.native[k].reference == reference
  }

  predicate AcceptedElsewhere(db: Db, store: string) {
    exists k :: k in db.native && k.0 != store && db.native[k].reason == Accepted
  }
}
