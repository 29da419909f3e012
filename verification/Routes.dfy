/**
 The static-hosting routes of one host (deploy/cloudflare-routes.py): backend exceptions
 without a script, and one catch-all that serves the static assets. The remote table, the
 snapshot a run keeps on disk, and what makes both safe.

 A route's id is given by the remote service and never reused. Patterns 0 to count - 1 are
 the exceptions, pattern `count` is the catch-all.
 */
module Routes {
  import opened Options

  datatype Host = Bank | Viewer

  /** The viewer host has one exception more, for its admin pages. */
  function Exceptions(h: Host): nat { if h.Bank? then 4 else 5 }

  datatype Pattern = Ours(index: nat) | Foreign(name: nat, overlaps: bool)

  datatype Script = NoScript | Assets | Other

  datatype Route = Route(id: nat, pattern: Pattern, script: Script)

  datatype Change = Change(after: Route, restored: bool)

  datatype Pending = Pending(index: nat, existing: set<nat>)

  datatype Status = Applying | Applied | CatchallRestored | Restored

  datatype Snapshot = Snapshot(changes: seq<Change>, pending: Option<Pending>, status: Status)

  function ExpectedScript(index: nat, count: nat): Script {
    if index == count then Assets else NoScript
  }

  predicate Overlaps(p: Pattern) { p.Ours? || p.overlaps }

  /** The ownership inspection: every overlapping route is one of ours with its own script, once. */
  predicate InspectOk(routes: set<Route>, count: nat) {
    && (forall r :: r in routes && Overlaps(r.pattern) ==>
          r.pattern.Ours? && r.pattern.index <= count && r.script == ExpectedScript(r.pattern.index, count))
    && (forall a, b :: a in routes && b in routes && Overlaps(a.pattern) && a.pattern == b.pattern ==> a == b)
  }

  predicate Live(routes: set<Route>, index: nat) {
    exists r :: r in routes && r.pattern == Ours(index)
  }

  /** The static catch-all never stands without all its exceptions. */
  ghost predicate Safe(routes: set<Route>, count: nat) {
    Live(routes, count) ==> forall i: nat :: i < count ==> Live(routes, i)
  }

  ghost predicate Recorded(s: Snapshot, r: Route) {
    exists k :: 0 <= k < |s.changes| && s.changes[k] == Change(r, false)
  }

  ghost predicate Intended(s: Snapshot, r: Route) {
    s.pending.Some? && r.pattern == Ours(s.pending.value.index) && r.id !in s.pending.value.existing
  }

  /** A route a run created can be found from its snapshot alone. */
  ghost predicate Recoverable(disk: Option<Snapshot>, r: Route) {
    disk.Some? && (Recorded(disk.value, r) || Intended(disk.value, r))
  }

  ghost predicate Accounted(routes: set<Route>, original: set<Route>, disk: Option<Snapshot>) {
    forall r :: r in routes && r !in original ==> Recoverable(disk, r)
  }

  // ---------------------------------------------------------------- one run's invariant

  /** Nothing of the original table is lost, and what was added is ours and was missing before. */
  ghost predicate TableOk(routes: set<Route>, original: set<Route>, nextId: nat, base: nat, count: nat) {
    && original <= routes && base <= nextId
    && (forall r :: r in routes ==> r.id < nextId) && (forall r :: r in original ==> r.id < base)
    && (forall a, b :: a in routes && b in routes && a.id == b.id ==> a == b)
    && (forall r :: r in routes && r !in original ==>
          && r.id >= base && r.pattern.Ours? && r.pattern.index <= count
          && r.script == ExpectedScript(r.pattern.index, count) && !Live(original, r.pattern.index))
    && (forall a, b :: a in routes && b in routes && a !in original && b !in original && a.pattern == b.pattern ==> a == b)
    && Safe(original, count)
  }

  ghost predicate SnapshotOk(routes: set<Route>, original: set<Route>, s: Snapshot, base: nat, count: nat) {
    && (forall k :: 0 <= k < |s.changes| ==>
          var c := s.changes[k];
          c.after.id >= base && c.after.pattern.Ours? && c.after.pattern.index <= count && (c.restored ==> c.after !in routes))
    && (forall j, k :: 0 <= j < |s.changes| && 0 <= k < |s.changes| && s.changes[j].after.pattern == s.changes[k].after.pattern ==> j == k)
    && (s.pending.Some? ==>
          && s.pending.value.index <= count && !Live(original, s.pending.value.index)
          && forall k :: 0 <= k < |s.changes| ==> s.changes[k].after.pattern != Ours(s.pending.value.index))
  }

  ghost predicate Good(routes: set<Route>, original: set<Route>, s: Snapshot, base: nat, count: nat) {
    SnapshotOk(routes, original, s, base, count) && Accounted(routes, original, Some(s))
  }

  // ---------------------------------------------------------------- the order of a restore

  /** The routes a restore deletes: the catch-all first. */
  function CatchAllOf(changes: seq<Change>, count: nat): seq<Route> {
    if changes == [] then [] else
    (if !changes[0].restored && changes[0].after.pattern == Ours(count) then [changes[0].after] else []) + CatchAllOf(changes[1..], count)
  }

  function ExceptionsOf(changes: seq<Change>, count: nat): seq<Route> {
    if changes == [] then [] else
    (if !changes[0].restored && changes[0].after.pattern != Ours(count) then [changes[0].after] else []) + ExceptionsOf(changes[1..], count)
  }

  function Without(routes: set<Route>, deleted: seq<Route>): set<Route> {
    set r | r in routes && r !in deleted
  }

  /** Every prefix of the deletions leaves a safe table. */
  ghost predicate SafeThroughout(routes: set<Route>, deletions: seq<Route>, count: nat) {
    forall k :: 0 <= k <= |deletions| ==> Safe(Without(routes, deletions[..k]), count)
  }

  /**
   A snapshot's deletions are safe at every step if and only if the live catch-all, if there is
   one, is among them, or there is no exception among them. A catch-all recorded in another
   snapshot is the failing case: nothing stops that restore from removing its exceptions.
   */
  lemma RestoreOrderIsSafe(routes: set<Route>, catchAll: seq<Route>, exceptions: seq<Route>, count: nat)
    requires InspectOk(routes, count) && Safe(routes, count)
    requires forall r :: r in catchAll ==> r in routes && r.pattern == Ours(count)
    requires forall r :: r in exceptions ==> r in routes && r.pattern.Ours? && r.pattern.index < count
    requires |catchAll| <= 1
    ensures SafeThroughout(routes, catchAll + exceptions, count) <==>
            (Live(routes, count) ==> catchAll != [] || exceptions == [])
  {
    var deletions := catchAll + exceptions;
    if Live(routes, count) && catchAll == [] && exceptions != [] {
      ExceptionGoneFirst(routes, exceptions, count);
      assert deletions == exceptions;
    } else {
      forall k | 0 <= k <= |deletions| ensures Safe(Without(routes, deletions[..k]), count) {
        SafePrefix(routes, catchAll, exceptions, count, k);
      }
    }
  }

  lemma ExceptionGoneFirst(routes: set<Route>, exceptions: seq<Route>, count: nat)
    requires InspectOk(routes, count) && Live(routes, count) && exceptions != []
    requires forall r :: r in exceptions ==> r in routes && r.pattern.Ours? && r.pattern.index < count
    ensures !SafeThroughout(routes, exceptions, count)
  {
    var gone := exceptions[0];
    assert gone in exceptions;
    var left := Without(routes, exceptions[..1]);
    var top :| top in routes && top.pattern == Ours(count);
    assert exceptions[..1] == [gone] && top != gone;
    assert top in left && Live(left, count);
    assert !Live(left, gone.pattern.index);
    assert !Safe(left, count);
  }

  lemma SafePrefix(routes: set<Route>, catchAll: seq<Route>, exceptions: seq<Route>, count: nat, k: nat)
    requires InspectOk(routes, count) && Safe(routes, count) && |catchAll| <= 1 && k <= |catchAll + exceptions|
    requires forall r :: r in catchAll ==> r in routes && r.pattern == Ours(count)
    requires forall r :: r in exceptions ==> r in routes && r.pattern.Ours? && r.pattern.index < count
    requires Live(routes, count) ==> catchAll != [] || exceptions == []
    ensures Safe(Without(routes, (catchAll + exceptions)[..k]), count)
  {
    var left := Without(routes, (catchAll + exceptions)[..k]);
    if k == 0 || !Live(routes, count) {
      assert k == 0 ==> left == routes;
    } else if catchAll != [] {
      assert (catchAll + exceptions)[..k][0] == catchAll[0];
      assert catchAll[0] in catchAll && catchAll[0] !in left;
      assert !Live(left, count);
    }
  }

  lemma {:induction false} CatchAllListed(changes: seq<Change>, count: nat, r: Route)
    ensures r in CatchAllOf(changes, count) <==> Change(r, false) in changes && r.pattern == Ours(count)
    decreases |changes|
  {
    if changes != [] { CatchAllListed(changes[1..], count, r); }
  }

  lemma {:induction false} ExceptionsListed(changes: seq<Change>, count: nat, r: Route)
    ensures r in ExceptionsOf(changes, count) <==> Change(r, false) in changes && r.pattern != Ours(count)
    decreases |changes|
  {
    if changes != [] { ExceptionsListed(changes[1..], count, r); }
  }

  lemma {:induction false} OneCatchAll(changes: seq<Change>, count: nat)
    requires forall j, k :: 0 <= j < |changes| && 0 <= k < |changes| && changes[j].after.pattern == changes[k].after.pattern ==> j == k
    ensures |CatchAllOf(changes, count)| <= 1
    decreases |changes|
  {
    if changes != [] {
      var rest := changes[1..];
      assert forall j :: 0 <= j < |rest| ==> rest[j] == changes[j + 1];
      OneCatchAll(rest, count);
      if changes[0].after.pattern == Ours(count) && CatchAllOf(rest, count) != [] {
        var r := CatchAllOf(rest, count)[0];
        CatchAllListed(rest, count, r);
        assert false;
      }
    }
  }

  /** The same for a snapshot whose unrestored changes are all live, as the drift check demands. */
  lemma SnapshotRestoreIsSafe(routes: set<Route>, changes: seq<Change>, count: nat)
    requires InspectOk(routes, count) && Safe(routes, count)
    requires forall j, k :: 0 <= j < |changes| && 0 <= k < |changes| && changes[j].after.pattern == changes[k].after.pattern ==> j == k
    requires forall c :: c in changes && !c.restored ==> c.after in routes && c.after.pattern.Ours?
    ensures SafeThroughout(routes, CatchAllOf(changes, count) + ExceptionsOf(changes, count), count) <==>
            (Live(routes, count) ==> CatchAllOf(changes, count) != [] || ExceptionsOf(changes, count) == [])
  {
    OneCatchAll(changes, count);
    forall r | r in CatchAllOf(changes, count) ensures r in routes && r.pattern == Ours(count) { CatchAllListed(changes, count, r); }
    forall r | r in ExceptionsOf(changes, count) ensures r in routes && r.pattern.Ours? && r.pattern.index < count { ExceptionsListed(changes, count, r); }
    RestoreOrderIsSafe(routes, CatchAllOf(changes, count), ExceptionsOf(changes, count), count);
  }
}
