/**
 Who may commit (internal/storage/payment_provider_config.go, deployment_control.go):
 provider operations hold time-bounded admission leases that pin the credentials they
 started with, and a deployment gate can lock every mutation out.

 `credsAt`, `pinned`, `confirmedFor` and `commits` are history columns of the model.
 Lease and gate columns hold RFC 3339 text; the model compares the instants.
 */
module Admission {
  import opened Options
  import opened PaymentTables

  const ADMISSION_LEASE: int := 5 * MINUTE
  const DEFAULT_GATE_LEASE: int := 2 * MINUTE

  datatype Credentials = Credentials(client: string, apiKey: string, checksumKey: string)

  datatype Config = Config(creds: Credentials, revision: int, enabled: bool, confirmed: bool)

  datatype Operation = Operation(revision: int, until: int)

  datatype Gate = Gate(locked: bool, owner: string, token: Option<nat>, expiresAt: Option<int>, fence: int)

  /** A financial transaction that committed under an admission token, or without one. */
  datatype Commit = Commit(token: Option<nat>, used: Option<Credentials>, current: Credentials, at: int)

  datatype State = State(
    cfg: Config, operations: map<nat, Operation>, quiesced: bool, nextRequestAt: int, gate: Gate,
    channels: seq<string>, nextToken: nat, clock: int,
    credsAt: map<int, Credentials>, pinned: map<nat, Credentials>, confirmedFor: Option<Credentials>, commits: seq<Commit>)

  const NoCredentials := Credentials("", "", "")
  const OpenGate := Gate(false, "", None, None, 0)

  /** A database whose orders, if any, were issued before the provider was managed. */
  function Fresh(channels: seq<string>, clock: int): State {
    State(Config(NoCredentials, 0, false, false), map[], false, 0, OpenGate, channels, 0, clock,
          map[0 := NoCredentials], map[], None, [])
  }

  // ---------------------------------------------------------------- the mutation check

  predicate LiveOperation(s: State, token: nat) {
    token in s.operations && s.clock < s.operations[token].until
  }

  predicate AnyLive(s: State) {
    exists t :: t in s.operations && LiveOperation(s, t)
  }

  predicate GateClosed(s: State) {
    s.gate.locked && s.gate.expiresAt.Some? && s.clock < s.gate.expiresAt.value
  }

  /** checkMutationAllowedTx under an admission token, if the context carries one. */
  predicate MutationAllowed(s: State, token: Option<nat>) {
    (token.Some? ==> LiveOperation(s, token.value)) && !GateClosed(s)
  }

  // ---------------------------------------------------------------- provider configuration

  datatype SaveResult = Saved | SaveInvalid | SaveRefused | ChannelLocked | ConfigBusy

  predicate CleanText(s: string) {
    forall i :: 0 <= i < |s| ==> s[i] !in "\r\n\0"
  }

  predicate ValidKeys(k: Credentials) {
    k.client != "" && |k.client| <= 512 && |k.apiKey| <= 4096 && |k.checksumKey| <= 4096
    && CleanText(k.client) && CleanText(k.apiKey) && CleanText(k.checksumKey)
  }

  /** Empty keys of the same client keep their stored value. */
  function MergedKeys(stored: Credentials, k: Credentials): Credentials {
    if k.client != stored.client then k
    else Credentials(k.client, if k.apiKey == "" then stored.apiKey else k.apiKey,
                     if k.checksumKey == "" then stored.checksumKey else k.checksumKey)
  }

  /** Some order belongs to another client, or to the client about to be replaced. */
  predicate HasForeignOrder(channels: seq<string>, client: string, stored: string) {
    exists i :: 0 <= i < |channels| && (channels[i] != client || stored != "")
  }

  /** SavePaymentProviderConfig on trimmed keys. */
  function Save(s: State, k: Credentials, enabled: bool, token: Option<nat>): (State, SaveResult) {
    if !ValidKeys(k) then (s, SaveInvalid) else
    if !MutationAllowed(s, token) then (s, SaveRefused) else
    if k.client != s.cfg.creds.client && HasForeignOrder(s.channels, k.client, s.cfg.creds.client) then (s, ChannelLocked) else
    var keys := MergedKeys(s.cfg.creds, k);
    if keys.apiKey == "" || keys.checksumKey == "" then (s, SaveInvalid) else
    var changed := keys != s.cfg.creds;
    if changed && AnyLive(s) then (s, ConfigBusy) else
    var revision := s.cfg.revision + 1;
    (s.(cfg := Config(keys, revision, enabled, s.cfg.confirmed && !changed),
        credsAt := s.credsAt[revision := keys]), Saved)
  }

  /** ConfirmPaymentProviderWebhook: the webhook was confirmed with the credentials of `revision`. */
  function Confirm(s: State, revision: int, token: Option<nat>): (State, bool) {
    if !MutationAllowed(s, token) || s.cfg.revision != revision || s.cfg.creds.client == "" || revision !in s.credsAt then (s, false)
    else (s.(cfg := s.cfg.(confirmed := true), confirmedFor := Some(s.credsAt[revision])), true)
  }

  // ---------------------------------------------------------------- admission leases

  function Unexpired(operations: map<nat, Operation>, clock: int): map<nat, Operation> {
    map t | t in operations && clock < operations[t].until :: operations[t]
  }

  function BeginOperation(s: State): (State, Option<nat>) {
    if !MutationAllowed(s, None) || s.quiesced || s.cfg.creds.client == "" then (s, None) else
    var kept := Unexpired(s.operations, s.clock);
    (s.(operations := kept[s.nextToken := Operation(s.cfg.revision, s.clock + ADMISSION_LEASE)],
        nextToken := s.nextToken + 1, pinned := s.pinned[s.nextToken := s.cfg.creds]),
     Some(s.nextToken))
  }

  function RenewOperation(s: State, token: nat): (State, bool) {
    if !LiveOperation(s, token) then (s, false)
    else (s.(operations := s.operations[token := s.operations[token].(until := s.clock + ADMISSION_LEASE)]), true)
  }

  function EndOperation(s: State, token: nat): State {
    s.(operations := s.operations - {token})
  }

  function RequestSlot(s: State, token: Option<nat>): (State, Option<int>) {
    if !MutationAllowed(s, token) || s.quiesced then (s, None) else
    var at := Max(s.nextRequestAt, s.clock);
    (s.(nextRequestAt := at + SECOND), Some(at))
  }

  /** A money transaction: its own mutation check, then its rows. */
  function CommitMoney(s: State, token: Option<nat>): State {
    if !MutationAllowed(s, token) then s
    else
      var used := if token.Some? && token.value in s.pinned then Some(s.pinned[token.value]) else None;
      s.(commits := s.commits + [Commit(token, used, s.cfg.creds, s.clock)])
  }

  /** ReservePaymentOrder by a managed service: the order belongs to the pinned client. */
  function IssueOrder(s: State, token: nat): State {
    if !MutationAllowed(s, Some(token)) || token !in s.pinned then s
    else CommitMoney(s.(channels := s.channels + [s.pinned[token].client]), Some(token))
  }

  // ---------------------------------------------------------------- the deployment gate

  /** Gate times are stored with whole seconds. */
  function Truncated(t: int): int { t - t % SECOND }

  function GateExpiry(clock: int, duration: int): int {
    Truncated(clock + (if duration <= 0 then DEFAULT_GATE_LEASE else duration))
  }

  function AcquireGate(s: State, owner: string, duration: int): (State, Option<int>) {
    if GateClosed(s) && s.gate.owner != owner then (s, None) else
    var fence := s.gate.fence + 1;
    (s.(gate := Gate(true, owner, Some(s.nextToken), Some(GateExpiry(s.clock, duration)), fence), nextToken := s.nextToken + 1),
     Some(fence))
  }

  predicate MayRelease(s: State, owner: string, token: Option<nat>) {
    || (s.gate.owner == owner && (token.None? || token == s.gate.token))
    || (s.gate.expiresAt.Some? && s.gate.expiresAt.value < s.clock)
    || owner == "force-unlock"
  }

  function ReleaseGate(s: State, owner: string, token: Option<nat>): (State, bool) {
    if !s.gate.locked then (s, true)
    else if !MayRelease(s, owner, token) then (s, false)
    else (s.(gate := Gate(false, "", None, None, s.gate.fence + 1)), true)
  }

  function RenewGate(s: State, owner: string, token: nat, duration: int): (State, bool) {
    if !s.gate.locked || s.gate.owner != owner || s.gate.token != Some(token) then (s, false)
    else (s.(gate := s.gate.(expiresAt := Some(GateExpiry(s.clock, duration)))), true)
  }

  // ---------------------------------------------------------------- runs

  datatype Step =
    | SaveStep(keys: Credentials, enabled: bool, token: Option<nat>)
    | ConfirmStep(revision: int, token: Option<nat>)
    | BeginStep
    | RenewStep(op: nat)
    | EndStep(op: nat)
    | QuiesceStep(paused: bool)
    | SlotStep(token: Option<nat>)
    | CommitStep(token: Option<nat>)
    | IssueStep(op: nat)
    | AcquireStep(owner: string, duration: int)
    | ReleaseStep(owner: string, lease: Option<nat>)
    | RenewGateStep(owner: string, leaseToken: nat, duration: int)
    | TickStep(elapsed: nat)

  function Next(s: State, step: Step): State {
    match step
    case SaveStep(keys, enabled, token) => Save(s, keys, enabled, token).0
    case ConfirmStep(revision, token) => Confirm(s, revision, token).0
    case BeginStep => BeginOperation(s).0
    case RenewStep(op) => RenewOperation(s, op).0
    case EndStep(op) => EndOperation(s, op)
    case QuiesceStep(paused) => s.(quiesced := paused)
    case SlotStep(token) => RequestSlot(s, token).0
    case CommitStep(token) => CommitMoney(s, token)
    case IssueStep(op) => IssueOrder(s, op)
    case AcquireStep(owner, duration) => AcquireGate(s, owner, duration).0
    case ReleaseStep(owner, lease) => ReleaseGate(s, owner, lease).0
    case RenewGateStep(owner, leaseToken, duration) => RenewGate(s, owner, leaseToken, duration).0
    case TickStep(elapsed) => s.(clock := s.clock + elapsed)
  }

  function Run(s: State, steps: seq<Step>): State
    decreases |steps|
  {
    if steps == [] then s else Run(Next(s, steps[0]), steps[1..])
  }

  // ---------------------------------------------------------------- the invariant

  /** A live operation runs under the current credentials. */
  ghost predicate LiveArePinned(s: State) {
    forall t :: t in s.operations && LiveOperation(s, t) ==> t in s.pinned && s.pinned[t] == s.cfg.creds
  }

  ghost predicate OrdersBelong(s: State) {
    s.cfg.creds.client != "" ==> forall i :: 0 <= i < |s.channels| ==> s.channels[i] == s.cfg.creds.client
  }

  ghost predicate CommitOk(c: Commit) {
    c.token.Some? ==> c.used == Some(c.current)
  }

  ghost predicate Inv(s: State) {
    && LiveArePinned(s) && OrdersBelong(s)
    && (forall t :: t in s.operations ==> t < s.nextToken)
    && (s.cfg.revision in s.credsAt && s.credsAt[s.cfg.revision] == s.cfg.creds)
    && (s.cfg.confirmed ==> s.confirmedFor == Some(s.cfg.creds))
    && (forall i :: 0 <= i < |s.commits| ==> CommitOk(s.commits[i]))
  }

  lemma NextKeepsPins(s: State, step: Step)
    requires Inv(s)
    ensures LiveArePinned(Next(s, step))
  {
    var s' := Next(s, step);
    forall t | t in s'.operations && LiveOperation(s', t) ensures t in s'.pinned && s'.pinned[t] == s'.cfg.creds {
      if t in s.operations && LiveOperation(s, t) { assert AnyLive(s); }
    }
  }

  lemma NextKeepsOrders(s: State, step: Step)
    requires Inv(s)
    ensures OrdersBelong(Next(s, step))
  {
    if step.IssueStep? && MutationAllowed(s, Some(step.op)) { assert LiveOperation(s, step.op); }
  }

  lemma NextKeepsCommits(s: State, step: Step)
    requires Inv(s)
    ensures forall i :: 0 <= i < |Next(s, step).commits| ==> CommitOk(Next(s, step).commits[i])
  {
  }

  lemma NextKeepsInv(s: State, step: Step)
    requires Inv(s)
    ensures Inv(Next(s, step))
  {
    NextKeepsPins(s, step);
    NextKeepsOrders(s, step);
    NextKeepsCommits(s, step);
  }

  lemma {:induction false} RunKeepsInv(s: State, steps: seq<Step>)
    requires Inv(s)
    ensures Inv(Run(s, steps))
    decreases |steps|
  {
    if steps != [] {
      NextKeepsInv(s, steps[0]);
      RunKeepsInv(Next(s, steps[0]), steps[1..]);
    }
  }

  lemma FreshInv(channels: seq<string>, clock: int)
    ensures Inv(Fresh(channels, clock))
  {
  }

  /**
   Over every run: a live operation never coexists with other credentials than those it
   pinned; every transaction that committed under a token used the credentials then current;
   every order belongs to the configured client; a confirmed webhook was confirmed with the
   current keys.
   */
  lemma CommitsUseCurrentCredentials(channels: seq<string>, clock: int, steps: seq<Step>)
    ensures var s := Run(Fresh(channels, clock), steps);
      && (forall t :: t in s.operations && LiveOperation(s, t) ==> t in s.pinned && s.pinned[t] == s.cfg.creds)
      && (forall i :: 0 <= i < |s.commits| && s.commits[i].token.Some? ==> s.commits[i].used == Some(s.commits[i].current))
      && (s.cfg.creds.client != "" ==> forall i :: 0 <= i < |s.channels| ==> s.channels[i] == s.cfg.creds.client)
      && (s.cfg.confirmed ==> s.confirmedFor == Some(s.cfg.creds))
  {
    FreshInv(channels, clock);
    RunKeepsInv(Fresh(channels, clock), steps);
    var s := Run(Fresh(channels, clock), steps);
    forall i | 0 <= i < |s.commits| && s.commits[i].token.Some? ensures s.commits[i].used == Some(s.commits[i].current) {
      assert CommitOk(s.commits[i]);
    }
  }

  /** What is pinned is the credentials, not the revision: a flags-only save may pass a live operation. */
  lemma RevisionMayMoveUnderLiveOperation()
    ensures exists steps, t :: var s := Run(Fresh([], 0), steps);
      t in s.operations && LiveOperation(s, t) && s.operations[t].revision < s.cfg.revision
      && t in s.pinned && s.pinned[t] == s.cfg.creds
  {
    var keys := Credentials("c", "k", "s");
    var steps := [SaveStep(keys, true, None), BeginStep, SaveStep(keys, false, None)];
    var s0 := Fresh([], 0);
    var s1 := Next(s0, steps[0]);
    var s2 := Next(s1, steps[1]);
    var s3 := Next(s2, steps[2]);
    assert s1.cfg.creds == keys && s1.cfg.revision == 1;
    assert s2.operations[0] == Operation(1, ADMISSION_LEASE) && LiveOperation(s2, 0);
    assert s3.cfg.revision == 2;
    calc {
      Run(s0, steps);
      { assert steps[1..] == [steps[1], steps[2]]; }
      Run(s1, [steps[1], steps[2]]);
      { assert [steps[1], steps[2]][1..] == [steps[2]]; }
      Run(s2, [steps[2]]);
      { assert [steps[2]][1..] == []; }
      s3;
    }
    assert 0 in s3.operations && LiveOperation(s3, 0);
  }

  /** A client id, once configured with an order issued, never changes. */
  lemma {:induction false} ClientIsForever(s: State, steps: seq<Step>)
    requires Inv(s) && s.cfg.creds.client != "" && s.channels != []
    ensures Run(s, steps).cfg.creds.client == s.cfg.creds.client && Run(s, steps).channels != []
    decreases |steps|
  {
    if steps != [] {
      var s' := Next(s, steps[0]);
      NextKeepsInv(s, steps[0]);
      if steps[0].SaveStep? && steps[0].keys.client != s.cfg.creds.client { assert s.channels[0] != steps[0].keys.client || s.cfg.creds.client != ""; }
      ClientIsForever(s', steps[1..]);
    }
  }

  // ---------------------------------------------------------------- request slots

  lemma NextSlot(s: State, step: Step)
    ensures s.nextRequestAt <= Next(s, step).nextRequestAt
  {
  }

  lemma {:induction false} SlotsNeverGoBack(s: State, steps: seq<Step>)
    ensures s.nextRequestAt <= Run(s, steps).nextRequestAt
    decreases |steps|
  {
    if steps != [] {
      NextSlot(s, steps[0]);
      SlotsNeverGoBack(Next(s, steps[0]), steps[1..]);
    }
  }

  /** Whatever happens in between, two provider requests get slots at least a second apart, never in the past. */
  lemma SlotsAreSpaced(s: State, first: Option<nat>, steps: seq<Step>, second: Option<nat>)
    requires RequestSlot(s, first).1.Some? && RequestSlot(Run(RequestSlot(s, first).0, steps), second).1.Some?
    ensures var later := Run(RequestSlot(s, first).0, steps);
      && RequestSlot(s, first).1.value >= s.clock
      && RequestSlot(later, second).1.value >= later.clock
      && RequestSlot(later, second).1.value >= RequestSlot(s, first).1.value + SECOND
  {
    SlotsNeverGoBack(RequestSlot(s, first).0, steps);
  }

  // ---------------------------------------------------------------- barriers

  /** Quiesce returned: the flag is set and no operation was live. */
  ghost predicate Drained(s: State) {
    s.quiesced && !AnyLive(s)
  }

  lemma NextKeepsDrained(s: State, step: Step)
    requires Drained(s) && step != QuiesceStep(false)
    ensures Drained(Next(s, step))
    ensures forall i :: 0 <= i < |Next(s, step).commits| && Next(s, step).commits[i].token.Some? ==>
              i < |s.commits| && s.commits[i] == Next(s, step).commits[i]
  {
    var s' := Next(s, step);
    assert forall t :: t in s.operations ==> !LiveOperation(s, t);
    forall t | t in s'.operations ensures !LiveOperation(s', t) {
      assert t in s.operations;
    }
  }

  /** Between the return of Quiesce and Resume nothing commits under an admission token. */
  lemma {:induction false} QuiesceIsABarrier(s: State, steps: seq<Step>)
    requires Drained(s) && QuiesceStep(false) !in steps
    ensures Drained(Run(s, steps))
    ensures forall i :: 0 <= i < |Run(s, steps).commits| && Run(s, steps).commits[i].token.Some? ==>
              i < |s.commits| && s.commits[i] == Run(s, steps).commits[i]
    decreases |steps|
  {
    if steps != [] {
      NextKeepsDrained(s, steps[0]);
      QuiesceIsABarrier(Next(s, steps[0]), steps[1..]);
    }
  }

  /** The lock is held by `owner` until `expiry`. */
  ghost predicate HeldUntil(s: State, owner: string, expiry: int) {
    s.gate.locked && s.gate.owner == owner && s.gate.expiresAt == Some(expiry)
  }

  /** Steps that are not the owner's own gate calls nor a forced release. */
  ghost predicate ByOthers(step: Step, owner: string) {
    && (step.AcquireStep? ==> step.owner != owner)
    && (step.ReleaseStep? ==> step.owner != owner && step.owner != "force-unlock")
    && (step.RenewGateStep? ==> step.owner != owner)
  }

  lemma NextClock(s: State, step: Step)
    ensures s.clock <= Next(s, step).clock
  {
  }

  lemma {:induction false} ClockNeverGoesBack(s: State, steps: seq<Step>)
    ensures s.clock <= Run(s, steps).clock
    decreases |steps|
  {
    if steps != [] {
      NextClock(s, steps[0]);
      ClockNeverGoesBack(Next(s, steps[0]), steps[1..]);
    }
  }

  lemma NextKeepsLock(s: State, step: Step, owner: string, expiry: int)
    requires HeldUntil(s, owner, expiry) && s.clock < expiry && ByOthers(step, owner)
    ensures Next(s, step).gate == s.gate && Next(s, step).commits == s.commits
    ensures Next(s, step).channels == s.channels && Next(s, step).cfg == s.cfg
  {
    assert GateClosed(s);
    assert forall token :: !MutationAllowed(s, token);
  }

  /** While an unexpired lock is held nobody else can commit, configure, issue or take the gate. */
  lemma {:induction false} LockIsABarrier(s: State, steps: seq<Step>, owner: string, expiry: int)
    requires HeldUntil(s, owner, expiry) && Run(s, steps).clock < expiry
    requires forall i :: 0 <= i < |steps| ==> ByOthers(steps[i], owner)
    ensures HeldUntil(Run(s, steps), owner, expiry)
    ensures Run(s, steps).commits == s.commits && Run(s, steps).channels == s.channels && Run(s, steps).cfg == s.cfg
    ensures Run(s, steps).gate == s.gate
    decreases |steps|
  {
    if steps != [] {
      ClockNeverGoesBack(Next(s, steps[0]), steps[1..]);
      assert ByOthers(steps[0], owner);
      NextKeepsLock(s, steps[0], owner, expiry);
      LockIsABarrier(Next(s, steps[0]), steps[1..], owner, expiry);
    }
  }

  lemma NextFence(s: State, step: Step)
    ensures s.gate.fence <= Next(s, step).gate.fence
  {
  }

  lemma {:induction false} FenceNeverFalls(s: State, steps: seq<Step>)
    ensures s.gate.fence <= Run(s, steps).gate.fence
    decreases |steps|
  {
    if steps != [] {
      NextFence(s, steps[0]);
      var s' := Next(s, steps[0]);
      FenceNeverFalls(s', steps[1..]);
    }
  }

  /** The fence generation never decreases, and every later acquisition raises it. */
  lemma FenceRises(s: State, steps: seq<Step>, owner: string, duration: int)
    requires AcquireGate(Run(s, steps), owner, duration).1.Some?
    ensures AcquireGate(Run(s, steps), owner, duration).1.value > s.gate.fence
    ensures AcquireGate(Run(s, steps), owner, duration).0.gate.fence > s.gate.fence
  {
    FenceNeverFalls(s, steps);
  }
}
