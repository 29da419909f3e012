/**
 The payOS tables (internal/storage): orders, receipts, credit transactions, their
 events, journal rows and deliveries, and the webhook inbox.

 A table with random primary keys is a sequence in insertion order, so a row's position
 is its id; a table with a natural key is a map or a set. A sha256 hash is the tuple it
 hashes, an instant is a number of nanoseconds, and "" is the SQL NULL that the row
 scanner turns into an empty string.
 */
module PaymentTables {
  import opened Options

  const SECOND: int := 1_000_000_000
  const MINUTE: int := 60 * SECOND
  const HOUR: int := 60 * MINUTE
  const OPERATION_LEASE: int := 30 * SECOND
  const ORDER_LIFETIME: int := 30 * MINUTE

  datatype Status = Creating | Pending | Processing | Underpaid | Paid | Cancelled | Expired | Failed

  predicate Terminal(s: Status) {
    s.Cancelled? || s.Expired? || s.Failed?
  }

  datatype ErrorCode =
    | NoError
    | CreateOutcomeUnknown
    | InvalidCreateResponse
    | CreateRejected(http: int)
    | CancelOutcomeUnknown
    | QrRecoveryCancelPending
    | QrRecoveryCancelled
    | ProviderUnavailable
    | PaymentMismatchError
    | PaymentDetailsPendingError

  /** operation_token and operation_lease_until, which are set and cleared together. */
  datatype Lease = Lease(token: nat, until: int)

  datatype Origin = StaticUrl | OperatorDynamic

  datatype Order = Order(
    code: int, channel: string, key: string, requestHash: string, amount: int, origin: Origin,
    status: Status, link: string, qr: string, account: string, txn: Option<nat>,
    lastError: ErrorCode, next: Option<int>, attempts: int, lease: Option<Lease>,
    qrAttempted: bool, expiresAt: int, paidAt: Option<int>)

  datatype Source = Realtime | CatchUp | OtherSource

  /** settlementCanonicalHash: the hashed tuple, without source and detection time. */
  datatype Canonical = Canonical(channel: string, link: string, reference: string, amount: int, at: int)

  /** "PAYOS:" + namespace + ":" + reference; the namespace is a hash of the channel. */
  datatype SemanticKey = SemanticKey(channel: string, reference: string)

  datatype Txn = Txn(key: SemanticKey, hash: Canonical, credit: int, at: int, source: Source)
  datatype Receipt = Receipt(channel: string, reference: string, order: nat, link: string,
                             amount: int, at: int, hash: Canonical, txn: nat)
  datatype Event = Event(key: SemanticKey, txn: nat)
  datatype Delivery = Delivery(event: SemanticKey, endpoint: nat)

  datatype Reason =
    | InvalidTransactionDate | PaymentMismatch | UnknownOrder | ReferenceConflict
    | PaymentDetailsPending | AwaitingOrderBind | ExtraPaymentReview | NonSuccess

  /** The reasons that leave a callback open to later evidence. */
  predicate Bindable(r: Reason) {
    r.AwaitingOrderBind? || r.PaymentDetailsPending? || r.UnknownOrder?
  }

  /** The signed data of a callback, as stored in payload_json; `at` is None when no date parses. */
  datatype Payload = Payload(code: int, link: string, reference: string, amount: int, currency: string,
                             resultCode: string, account: string, virtual: string, at: Option<int>)

  datatype InboxRow = InboxRow(reason: Reason, processed: bool)

  /** The inbox is keyed by the hash of the payload, that is, by the payload, whose order code, link
      and reference the row's other columns repeat. `audience` is a
      history column of the model: the endpoints that were ACTIVE when the event was written. */
  datatype Db = Db(
    orders: seq<Order>, receipts: seq<Receipt>, transactions: seq<Txn>, events: seq<Event>,
    journal: seq<nat>, deliveries: set<Delivery>, inbox: map<Payload, InboxRow>,
    activeEndpoints: set<nat>, audience: map<SemanticKey, set<nat>>, nextToken: nat)

  const EmptyDb := Db([], [], [], [], [], {}, map[], {}, map[], 0)

  function EffectiveAccount(account: string, virtual: string): string {
    if virtual != "" then virtual else account
  }

  predicate IsSpace(c: char) {
    c in " \t\n\r\U{000B}\U{000C}\U{0085}\U{00A0}\U{1680}\U{2028}\U{2029}\U{202F}\U{205F}\U{3000}"
    || '\U{2000}' <= c <= '\U{200A}'
  }

  /** strings.TrimSpace(s) == "" */
  predicate Blank(s: string) {
    forall i :: 0 <= i < |s| ==> IsSpace(s[i])
  }

  function IndexOfCode(orders: seq<Order>, code: int, from: nat := 0): (r: Option<nat>)
    requires from <= |orders|
    ensures r.Some? ==> from <= r.value < |orders| && orders[r.value].code == code
    ensures r.None? ==> forall j :: from <= j < |orders| ==> orders[j].code != code
    ensures r.Some? ==> forall j :: from <= j < r.value ==> orders[j].code != code
    decreases |orders| - from
  {
    if from == |orders| then None
    else if orders[from].code == code then Some(from)
    else IndexOfCode(orders, code, from + 1)
  }

  function IndexOfKey(orders: seq<Order>, channel: string, key: string, from: nat := 0): (r: Option<nat>)
    requires from <= |orders|
    ensures r.Some? ==> from <= r.value < |orders| && orders[r.value].channel == channel && orders[r.value].key == key
    ensures r.None? ==> forall j :: from <= j < |orders| ==> orders[j].channel != channel || orders[j].key != key
    decreases |orders| - from
  {
    if from == |orders| then None
    else if orders[from].channel == channel && orders[from].key == key then Some(from)
    else IndexOfKey(orders, channel, key, from + 1)
  }

  function IndexOfReceipt(receipts: seq<Receipt>, channel: string, reference: string, from: nat := 0): (r: Option<nat>)
    requires from <= |receipts|
    ensures r.Some? ==> from <= r.value < |receipts| && receipts[r.value].channel == channel && receipts[r.value].reference == reference
    ensures r.None? ==> forall j :: from <= j < |receipts| ==> receipts[j].channel != channel || receipts[j].reference != reference
    decreases |receipts| - from
  {
    if from == |receipts| then None
    else if receipts[from].channel == channel && receipts[from].reference == reference then Some(from)
    else IndexOfReceipt(receipts, channel, reference, from + 1)
  }

  function Max(a: int, b: int): int { if a < b then b else a }
}
