/** The provider and gate methods of the Store, on the rows they change in place. */
module AdmissionStore {
  import opened Options
  import opened PaymentTables
  import opened Admission

  class Store {
    var cfg: Config
    var operations: map<nat, Operation>
    var quiesced: bool
    var nextRequestAt: int
    var gate: Gate
    var channels: seq<string>
    var nextToken: nat
    var clock: int
    ghost var credsAt: map<int, Credentials>
    ghost var pinned: map<nat, Credentials>
    ghost var confirmedFor: Option<Credentials>
    ghost var commits: seq<Commit>

    ghost function View(): State
      reads this
    {
      State(cfg, operations, quiesced, nextRequestAt, gate, channels, nextToken, clock,
            credsAt, pinned, confirmedFor, commits)
    }

    constructor (channels: seq<string>, clock: int)
      ensures View() == Fresh(channels, clock)
    {
      cfg, operations, quiesced, nextRequestAt := Config(NoCredentials, 0, false, false), map[], false, 0;
      gate, this.channels, nextToken, this.clock := OpenGate, channels, 0, clock;
      credsAt, pinned, confirmedFor, commits := map[0 := NoCredentials], map[], None, [];
    }

    /** checkPaymentProviderOperation, then the gate. */
    method CheckMutationAllowed(token: Option<nat>) returns (ok: bool)
      ensures ok <==> MutationAllowed(View(), token)
    {
      if token.Some? {
        if token.value !in operations || operations[token.value].until <= clock { return false; }
      }
      if gate.locked && gate.expiresAt.Some? {
        if clock < gate.expiresAt.value { return false; }
      }
      return true;
    }

    /** SELECT count(*) of unexpired operations. */
    method ActiveRequests() returns (n: nat)
      ensures n == |set t | t in operations && clock < operations[t].until|
      ensures n == 0 <==> !AnyLive(View())
    {
      n := 0;
      var rest := operations.Keys;
      ghost var seen := {};
      while rest != {}
        invariant rest <= operations.Keys && seen == operations.Keys - rest
        invariant n == |set t | t in seen && clock < operations[t].until|
        decreases rest
      {
        var t :| t in rest;
        ghost var before := set u | u in seen && clock < operations[u].until;
        rest, seen := rest - {t}, seen + {t};
        ghost var after := set u | u in seen && clock < operations[u].until;
        if clock < operations[t].until {
          assert after == before + {t};
          n := n + 1;
        } else {
          assert after == before;
        }
      }
      assert seen == operations.Keys;
      ghost var live := set t | t in operations && clock < operations[t].until;
      assert live == set u | u in seen && clock < operations[u].until;
      if n == 0 {
        forall t | t in operations ensures !LiveOperation(View(), t) { assert t !in live; }
      } else {
        ghost var t :| t in live;
        assert LiveOperation(View(), t);
      }
    }

    method ForeignChannel(client: string) returns (found: bool)
      ensures found <==> HasForeignOrder(channels, client, cfg.creds.client)
    {
      var rows, stored := channels, cfg.creds.client;
      var i := 0;
      while i < |rows|
        invariant i <= |rows|
        invariant !HasForeignOrder(rows[..i], client, stored)
      {
        assert rows[..i + 1] == rows[..i] + [rows[i]];
        if rows[i] != client || stored != "" { return true; }
        i := i + 1;
      }
      assert rows[..i] == rows;
      return false;
    }

    method SavePaymentProviderConfig(k: Credentials, enabled: bool, token: Option<nat>) returns (r: SaveResult)
      modifies this`cfg, this`credsAt
      ensures (View(), r) == Save(old(View()), k, enabled, token)
    {
      if !ValidKeys(k) { return SaveInvalid; }
      var ok := CheckMutationAllowed(token);
      if !ok { return SaveRefused; }
      var keys := k;
      if k.client != cfg.creds.client {
        var locked := ForeignChannel(k.client);
        if locked { return ChannelLocked; }
      } else {
        if keys.apiKey == "" { keys := keys.(apiKey := cfg.creds.apiKey); }
        if keys.checksumKey == "" { keys := keys.(checksumKey := cfg.creds.checksumKey); }
      }
      if keys.apiKey == "" || keys.checksumKey == "" { return SaveInvalid; }
      var changed := keys != cfg.creds;
      if changed {
        var active := ActiveRequests();
        if active != 0 { return ConfigBusy; }
      }
      cfg := Config(keys, cfg.revision + 1, enabled, cfg.confirmed && !changed);
      credsAt := credsAt[cfg.revision := keys];
      return Saved;
    }

    method BeginPaymentProviderOperation() returns (token: Option<nat>)
      modifies this`operations, this`nextToken, this`pinned
      ensures (View(), token) == BeginOperation(old(View()))
    {
      var ok := CheckMutationAllowed(None);
      if !ok || quiesced || cfg.creds.client == "" { return None; }
      operations := Unexpired(operations, clock);
      operations := operations[nextToken := Operation(cfg.revision, clock + ADMISSION_LEASE)];
      pinned := pinned[nextToken := cfg.creds];
      nextToken := nextToken + 1;
      return Some(nextToken - 1);
    }

    method RenewPaymentProviderOperation(token: nat) returns (ok: bool)
      modifies this`operations
      ensures (View(), ok) == RenewOperation(old(View()), token)
    {
      if token !in operations || operations[token].until <= clock { return false; }
      operations := operations[token := operations[token].(until := clock + ADMISSION_LEASE)];
      return true;
    }

    method EndPaymentProviderOperation(token: nat)
      modifies this`operations
      ensures View() == EndOperation(old(View()), token)
    {
      operations := operations - {token};
    }

    method PaymentProviderRequestSlot(token: Option<nat>) returns (at: Option<int>)
      modifies this`nextRequestAt
      ensures (View(), at) == RequestSlot(old(View()), token)
    {
      var ok := CheckMutationAllowed(token);
      if !ok || quiesced { return None; }
      var t := nextRequestAt;
      if t < clock { t := clock; }
      nextRequestAt := t + SECOND;
      return Some(t);
    }

    method AcquireMutationGate(owner: string, duration: int) returns (fence: Option<int>)
      modifies this`gate, this`nextToken
      ensures (View(), fence) == AcquireGate(old(View()), owner, duration)
    {
      if gate.locked && gate.expiresAt.Some? {
        if clock < gate.expiresAt.value && gate.owner != owner { return None; }
      }
      var lease := duration;
      if lease <= 0 { lease := DEFAULT_GATE_LEASE; }
      gate := Gate(true, owner, Some(nextToken), Some(Truncated(clock + lease)), gate.fence + 1);
      nextToken := nextToken + 1;
      return Some(gate.fence);
    }

    method ReleaseMutationGate(owner: string, token: Option<nat>) returns (ok: bool)
      modifies this`gate
      ensures (View(), ok) == ReleaseGate(old(View()), owner, token)
    {
      if !gate.locked { return true; }
      var ownerMatch := gate.owner == owner && (token.None? || gate.token == token);
      var expired := false;
      if gate.expiresAt.Some? { expired := gate.expiresAt.value < clock; }
      if !ownerMatch && !expired && owner != "force-unlock" { return false; }
      gate := Gate(false, "", None, None, gate.fence + 1);
      return true;
    }

    method RenewMutationGate(owner: string, token: nat, duration: int) returns (ok: bool)
      modifies this`gate
      ensures (View(), ok) == RenewGate(old(View()), owner, token, duration)
    {
      if !gate.locked || gate.owner != owner || gate.token != Some(token) { return false; }
      var lease := duration;
      if lease <= 0 { lease := DEFAULT_GATE_LEASE; }
      gate := gate.(expiresAt := Some(Truncated(clock + lease)));
      return true;
    }
  }
}
