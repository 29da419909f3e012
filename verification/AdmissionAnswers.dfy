/**
 What the provider and gate transactions answer and leave behind
 (internal/storage/payment_provider_config.go, deployment_control.go).
 */
module AdmissionAnswers {
  import opened Options
  import opened PaymentTables
  import opened Admission

  // ---------------------------------------------------------------- saving the provider

  /** The key a save leaves: the given one, or the stored one of the same client for a blank. */
  function KeptKey(same: bool, given: string, stored: string): string {
    if given == "" && same then stored else given
  }

  /** Orders bind the provider to their client: a client may be named first only if every order is its own, and
      replaced only while there is none. */
  ghost predicate ChannelFree(s: State, client: string) {
    if s.cfg.creds.client == "" then forall c :: c in s.channels ==> c == client
    else client == s.cfg.creds.client || s.channels == []
  }

  predicate OneLine(t: string) { forall c :: c in t ==> c !in {'\r', '\n', '\0'} }

  /**
   A save completes if and only if its keys are well-formed and complete with the stored ones, the
   gate and its token admit it, the client may be named, and no key changes under a live
   operation. Then the three keys, the flag and the next revision are stored, and the webhook
   stays confirmed only if no key changed.
   */
  lemma SaveIff(s: State, k: Credentials, enabled: bool, token: Option<nat>)
    ensures var (s', r) := Save(s, k, enabled, token);
      var same := k.client == s.cfg.creds.client;
      var api, checksum := KeptKey(same, k.apiKey, s.cfg.creds.apiKey), KeptKey(same, k.checksumKey, s.cfg.creds.checksumKey);
      var changed := !same || api != s.cfg.creds.apiKey || checksum != s.cfg.creds.checksumKey;
      && (r.Saved? <==>
            && 0 < |k.client| <= 512 && |k.apiKey| <= 4096 && |k.checksumKey| <= 4096
            && OneLine(k.client) && OneLine(k.apiKey) && OneLine(k.checksumKey)
            && MutationAllowed(s, token) && ChannelFree(s, k.client) && api != "" && checksum != ""
            && (changed ==> !AnyLive(s)))
      && (!r.Saved? ==> s' == s)
      && (r.Saved? ==>
            && s'.cfg == Config(Credentials(k.client, api, checksum), s.cfg.revision + 1, enabled, s.cfg.confirmed && !changed)
            && s' == s.(cfg := s'.cfg, credsAt := s.credsAt[s.cfg.revision + 1 := s'.cfg.creds]))
  {
    if k.client != "" { ForeignOrderIff(s, k.client); }
    CleanTextIff(k.client);
    CleanTextIff(k.apiKey);
    CleanTextIff(k.checksumKey);
  }

  lemma CleanTextIff(t: string)
    ensures CleanText(t) <==> OneLine(t)
  {
    var unclean := "\r\n\0";
    assert unclean[0] == '\r' && unclean[1] == '\n' && unclean[2] == '\0';
    assert forall c :: c in unclean <==> c in {'\r', '\n', '\0'};
    assert forall i :: 0 <= i < |t| ==> t[i] in t;
  }

  lemma ForeignOrderIff(s: State, client: string)
    requires client != ""
    ensures (client != s.cfg.creds.client && HasForeignOrder(s.channels, client, s.cfg.creds.client)) <==> !ChannelFree(s, client)
  {
    var stored := s.cfg.creds.client;
    if HasForeignOrder(s.channels, client, stored) {
      var i :| 0 <= i < |s.channels| && (s.channels[i] != client || stored != "");
      assert s.channels[i] in s.channels;
    }
    if c :| c in s.channels && stored == "" && c != client {
      var i :| 0 <= i < |s.channels| && s.channels[i] == c;
    }
    if s.channels != [] && stored != "" { assert s.channels[0] != client || stored != ""; }
  }

  /** Why a save is refused: each answer has exactly one condition. */
  lemma SaveRefusalIff(s: State, k: Credentials, enabled: bool, token: Option<nat>)
    ensures var r := Save(s, k, enabled, token).1;
      var same := k.client == s.cfg.creds.client;
      var api, checksum := KeptKey(same, k.apiKey, s.cfg.creds.apiKey), KeptKey(same, k.checksumKey, s.cfg.creds.checksumKey);
      var changed := !same || api != s.cfg.creds.apiKey || checksum != s.cfg.creds.checksumKey;
      var considered := ValidKeys(k) && MutationAllowed(s, token);
      && (r == SaveRefused <==> ValidKeys(k) && !MutationAllowed(s, token))
      && (r == ChannelLocked <==> considered && !ChannelFree(s, k.client))
      && (r == SaveInvalid <==> !ValidKeys(k) || (considered && ChannelFree(s, k.client) && (api == "" || checksum == "")))
      && (r == ConfigBusy <==>
            considered && ChannelFree(s, k.client) && api != "" && checksum != "" && changed && AnyLive(s))
  {
    if k.client != "" { ForeignOrderIff(s, k.client); }
  }

  // ---------------------------------------------------------------- provider operations

  /** An operation is admitted iff the gate is open, the provider is not quiesced and is configured; then it is live
      for its lease under the current credentials, and of the others exactly the live ones are left, untouched. */
  lemma OperationIsAdmittedIff(s: State)
    requires Inv(s)
    ensures var (s', r) := BeginOperation(s);
      && (r.Some? <==> !GateClosed(s) && !s.quiesced && s.cfg.creds.client != "")
      && (r.None? ==> s' == s)
      && (r.Some? ==>
            var t := r.value;
            && t !in s.operations && LiveOperation(s', t) && s'.operations[t].until == s.clock + 5 * 60 * SECOND
            && t in s'.pinned && s'.pinned[t] == s.cfg.creds && s'.operations[t].revision == s.cfg.revision
            && (forall u :: u in s'.operations && u != t <==> u in s.operations && LiveOperation(s, u))
            && (forall u :: u in s.operations && LiveOperation(s, u) ==> u in s'.operations && s'.operations[u] == s.operations[u])
            && s'.cfg == s.cfg && s'.gate == s.gate && s'.commits == s.commits)
  {
  }

  /** A renewal succeeds iff the operation is still live, and extends it from now; an ended one is live no more. */
  lemma OperationIsRenewedIff(s: State, t: nat)
    ensures var (s', ok) := RenewOperation(s, t);
      && (ok <==> LiveOperation(s, t)) && (!ok ==> s' == s)
      && (ok ==> LiveOperation(s', t) && s'.operations[t] == s.operations[t].(until := s.clock + 5 * 60 * SECOND)
                 && s' == s.(operations := s.operations[t := s'.operations[t]]))
    ensures !LiveOperation(EndOperation(s, t), t)
    ensures forall u :: u != t ==> (LiveOperation(EndOperation(s, t), u) <==> LiveOperation(s, u))
  {
  }

  /** A slot is granted iff the request is admitted and the provider not quiesced: now, or when the last one's second is over. */
  lemma SlotIsGrantedIff(s: State, token: Option<nat>)
    ensures var (s', r) := RequestSlot(s, token);
      && (r.Some? <==> MutationAllowed(s, token) && !s.quiesced) && (r.None? ==> s' == s)
      && (r.Some? ==>
            && s' == s.(nextRequestAt := r.value + SECOND) && r.value >= s.clock && r.value >= s.nextRequestAt
            && (r.value == s.clock || r.value == s.nextRequestAt))
  {
  }

  /** A webhook is confirmed iff it was checked under the current revision of a configured provider; only the mark changes. */
  lemma WebhookIsConfirmedIff(s: State, revision: int, token: Option<nat>)
    requires Inv(s)
    ensures var (s', ok) := Confirm(s, revision, token);
      && (ok <==> MutationAllowed(s, token) && revision == s.cfg.revision && s.cfg.creds.client != "")
      && (!ok ==> s' == s)
      && (ok ==> s'.cfg == s.cfg.(confirmed := true) && s'.confirmedFor == Some(s.cfg.creds)
                 && s' == s.(cfg := s'.cfg, confirmedFor := s'.confirmedFor))
  {
  }

  /** Money is booked iff the gate is open and the token, if there is one, is a live operation's; its record is the one row added. */
  lemma MoneyIsCommittedIff(s: State, token: Option<nat>)
    requires Inv(s)
    ensures var s' := CommitMoney(s, token);
      && (s' != s <==> !GateClosed(s) && (token.Some? ==> LiveOperation(s, token.value)))
      && (s' != s ==>
            && |s'.commits| == |s.commits| + 1 && s'.commits[..|s.commits|] == s.commits && s' == s.(commits := s'.commits)
            && var c := s'.commits[|s.commits|];
               c.token == token && c.current == s.cfg.creds && c.at == s.clock && (token.Some? ==> c.used == Some(s.cfg.creds)))
  {
    if MutationAllowed(s, token) { assert |CommitMoney(s, token).commits| == |s.commits| + 1; }
  }

  /** An order is issued iff its operation is live and the gate open, to the configured client. */
  lemma OrderIsIssuedIff(s: State, op: nat)
    requires Inv(s)
    ensures var s' := IssueOrder(s, op);
      && (s'.channels != s.channels <==> !GateClosed(s) && LiveOperation(s, op))
      && (s'.channels == s.channels ==> s' == s)
      && (s'.channels != s.channels ==>
            && s'.channels == s.channels + [s.cfg.creds.client] && |s'.commits| == |s.commits| + 1
            && s' == s.(channels := s'.channels, commits := s'.commits))
  {
    if MutationAllowed(s, Some(op)) { assert |IssueOrder(s, op).channels| == |s.channels| + 1; }
  }

  // ---------------------------------------------------------------- the gate

  /** How long a lock was asked for; two minutes if it was not said. */
  function Asked(duration: int): int {
    if duration <= 0 then 2 * 60 * SECOND else duration
  }

  /** The gate is granted iff no other owner holds it unexpired; then nothing is admitted before it expires, which is
      within the second before the time asked for. */
  lemma GateIsGrantedIff(s: State, owner: string, duration: int)
    ensures var (s', r) := AcquireGate(s, owner, duration);
      && (r.Some? <==> !GateClosed(s) || s.gate.owner == owner)
      && (r.None? ==> s' == s)
      && (r.Some? ==>
            && r.value == s.gate.fence + 1 == s'.gate.fence && s'.gate.locked && s'.gate.owner == owner && s'.gate.token == Some(s.nextToken)
            && s'.gate.expiresAt.Some?
            && s.clock + Asked(duration) - SECOND < s'.gate.expiresAt.value <= s.clock + Asked(duration)
            && s'.gate.expiresAt.value % SECOND == 0
            && (Asked(duration) >= SECOND ==> GateClosed(s') && forall token :: !MutationAllowed(s', token))
            && s' == s.(gate := s'.gate, nextToken := s.nextToken + 1))
  {
  }

  /** A locked gate is released iff its owner asks, with its token if it gives one, or it has expired, or by force;
      then everything live is admitted again. */
  lemma GateIsReleasedIff(s: State, owner: string, token: Option<nat>)
    ensures var (s', ok) := ReleaseGate(s, owner, token);
      && (ok <==>
            || !s.gate.locked || (s.gate.owner == owner && (token.None? || token == s.gate.token))
            || (s.gate.expiresAt.Some? && s.gate.expiresAt.value < s.clock) || owner == "force-unlock")
      && (!ok ==> s' == s)
      && (ok ==> !s'.gate.locked && !GateClosed(s') && s' == s.(gate := s'.gate)
                 && forall t: Option<nat> :: MutationAllowed(s', t) <==> (t.Some? ==> LiveOperation(s, t.value)))
      && (ok && s.gate.locked ==> s'.gate.fence == s.gate.fence + 1)
  {
  }

  /** A renewal needs owner and token, and moves the expiry only. */
  lemma GateIsRenewedIff(s: State, owner: string, token: nat, duration: int)
    ensures var (s', ok) := RenewGate(s, owner, token, duration);
      && (ok <==> s.gate.locked && s.gate.owner == owner && s.gate.token == Some(token))
      && (!ok ==> s' == s)
      && (ok ==> s'.gate.expiresAt.Some? && s' == s.(gate := s.gate.(expiresAt := s'.gate.expiresAt))
                 && s.clock + Asked(duration) - SECOND < s'.gate.expiresAt.value <= s.clock + Asked(duration))
  {
  }

  /** Taking the gate and giving it back leaves what is admitted as it was, and the fence two higher. */
  lemma GateRoundTrip(s: State, owner: string, duration: int)
    requires !s.gate.locked && s.gate == Gate(false, "", None, None, s.gate.fence)
    ensures var taken := AcquireGate(s, owner, duration).0;
      && ReleaseGate(taken, owner, taken.gate.token)
         == (s.(gate := s.gate.(fence := s.gate.fence + 2), nextToken := s.nextToken + 1), true)
  {
  }
}
