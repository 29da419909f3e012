/**
 The route tool's apply and restore, call by call. Every remote call and every save may
 succeed, be refused, take effect and still report an error, or be the process's last act
 on either side of its effect; the model lets nobody else write the host's routes meanwhile.
 */
module RouteTool {
  import opened Options
  import opened Routes

  datatype Fault = Works | Refuses | Loses | DiesBefore | DiesAfter

  datatype Reply = Done | Failed | Died

  function ReplyOf(f: Fault): Reply {
    match f case Works => Done case Refuses => Failed case Loses => Failed case DiesBefore => Died case DiesAfter => Died
  }

  predicate TakesEffect(f: Fault) { f.Works? || f.Loses? || f.DiesAfter? }

  /** Every call to come works; at most one of them does not. */
  predicate Quiet(fs: seq<Fault>) { forall i :: 0 <= i < |fs| ==> fs[i].Works? }

  predicate OneFault(fs: seq<Fault>) { forall i, j :: 0 <= i < j < |fs| ==> fs[i].Works? || fs[j].Works? }

  /** A stretch of calls that failed spent the one fault. */
  predicate Spent(before: seq<Fault>, after: seq<Fault>, done: bool) {
    (Quiet(before) ==> Quiet(after)) && (OneFault(before) ==> if done then OneFault(after) else Quiet(after))
  }

  lemma NextIsSpent(fs: seq<Fault>)
    requires fs != []
    ensures Spent(fs, fs[1..], fs[0].Works?)
  {
    var rest := fs[1..];
    assert forall i :: 0 <= i < |rest| ==> rest[i] == fs[i + 1];
  }

  datatype Moment = Moment(routes: set<Route>, disk: Option<Snapshot>)

  // ---------------------------------------------------------------- single effects

  lemma CreateKeepsTable(routes: set<Route>, original: set<Route>, s: Snapshot, nextId: nat, base: nat, count: nat, i: nat)
    requires TableOk(routes, original, nextId, base, count) && Good(routes, original, s, base, count) && Safe(routes, count)
    requires s.pending.Some? && s.pending.value.index == i <= count && !Live(routes, i)
    requires forall id :: id in s.pending.value.existing ==> id < nextId
    requires i == count ==> forall j: nat :: j < count ==> Live(routes, j)
    ensures var r := Route(nextId, Ours(i), ExpectedScript(i, count));
      && TableOk(routes + {r}, original, nextId + 1, base, count) && Good(routes + {r}, original, s, base, count)
      && Safe(routes + {r}, count)
  {
    var r := Route(nextId, Ours(i), ExpectedScript(i, count));
    var after := routes + {r};
    assert Live(original, i) ==> Live(routes, i);
    forall b | b in routes && b.pattern.Ours? ensures Live(routes, b.pattern.index) { InMeansLive(routes, b); }
    assert Intended(s, r);
    assert i < count ==> !Live(routes, count) && !Live(after, count);
    forall j: nat | j < count && Live(routes, j) ensures Live(after, j) { LiveGrows(routes, after, j); }
    forall x | x in after && x !in original ensures Recoverable(Some(s), x) {
      if x in routes { assert Recoverable(Some(s), x); }
    }
  }

  lemma DeleteKeepsTable(routes: set<Route>, original: set<Route>, s: Snapshot, nextId: nat, base: nat, count: nat, r: Route)
    requires TableOk(routes, original, nextId, base, count) && Good(routes, original, s, base, count) && Safe(routes, count)
    requires r in routes && r !in original && (r.pattern == Ours(count) || !Live(routes, count))
    ensures TableOk(routes - {r}, original, nextId, base, count) && Good(routes - {r}, original, s, base, count)
    ensures Safe(routes - {r}, count)
  {
    var after := routes - {r};
    LiveShrinks(after, routes, count);
    forall top | top in routes && top.pattern == Ours(count) && r.pattern == Ours(count) ensures top == r {
      TopIsUnique(routes, original, nextId, base, count, r, top);
    }
    assert !Live(after, count);
    forall x | x in after && x !in original ensures Recoverable(Some(s), x) { assert Recoverable(Some(s), x); }
  }

  lemma InMeansLive(routes: set<Route>, r: Route)
    requires r.pattern.Ours?
    ensures r in routes ==> Live(routes, r.pattern.index)
  {
  }

  lemma TopIsUnique(routes: set<Route>, original: set<Route>, nextId: nat, base: nat, count: nat, r: Route, top: Route)
    requires TableOk(routes, original, nextId, base, count) && r in routes && r !in original && top in routes
    requires r.pattern == top.pattern == Ours(count)
    ensures r == top
  {
    InMeansLive(original, top);
  }

  lemma ClearKeepsGood(routes: set<Route>, original: set<Route>, s: Snapshot, base: nat, count: nat)
    requires Good(routes, original, s, base, count) && s.pending.Some? && !Live(routes, s.pending.value.index)
    ensures Good(routes, original, s.(pending := None), base, count)
  {
    var s' := s.(pending := None);
    forall x | x in routes && x !in original ensures Recoverable(Some(s'), x) {
      assert Recoverable(Some(s), x);
      if x.pattern.Ours? { InMeansLive(routes, x); }
      assert Recorded(s', x);
    }
  }

  /** A written route moves from the intent to the changes. */
  lemma RecordKeepsGood(routes: set<Route>, original: set<Route>, s: Snapshot, nextId: nat, base: nat, count: nat, r: Route)
    requires TableOk(routes, original, nextId, base, count) && Good(routes, original, s, base, count)
    requires s.pending.Some? && r in routes && r.pattern == Ours(s.pending.value.index)
    ensures Good(routes, original, s.(changes := s.changes + [Change(r, false)], pending := None), base, count)
  {
    var s' := s.(changes := s.changes + [Change(r, false)], pending := None);
    InMeansLive(original, r);
    assert r !in original;
    assert s'.changes[|s.changes|] == Change(r, false);
    forall x | x in routes && x !in original ensures Recoverable(Some(s'), x) {
      assert Recoverable(Some(s), x);
      if Recorded(s, x) {
        var k :| 0 <= k < |s.changes| && s.changes[k] == Change(x, false);
        assert s'.changes[k] == Change(x, false);
      } else {
        assert x == r;
        assert Recorded(s', x);
      }
    }
  }

  lemma LiveGrows(before: set<Route>, after: set<Route>, index: nat)
    requires before <= after
    ensures Live(before, index) ==> Live(after, index)
  {
  }

  lemma IntendKeepsGood(routes: set<Route>, original: set<Route>, s: Snapshot, base: nat, count: nat, p: Pending)
    requires Good(routes, original, s, base, count) && s.pending.None? && p.index <= count
    requires !Live(original, p.index)
    requires forall k :: 0 <= k < |s.changes| ==> s.changes[k].after.pattern != Ours(p.index)
    ensures Good(routes, original, s.(pending := Some(p)), base, count)
  {
    var s' := s.(pending := Some(p));
    forall x | x in routes && x !in original ensures Recoverable(Some(s'), x) {
      assert Recoverable(Some(s), x);
      assert Recorded(s', x);
    }
  }

  lemma MarkKeepsGood(routes: set<Route>, original: set<Route>, s: Snapshot, base: nat, count: nat, k: nat)
    requires Good(routes, original, s, base, count) && k < |s.changes| && s.changes[k].after !in routes
    ensures Good(routes, original, s.(changes := s.changes[k := s.changes[k].(restored := true)]), base, count)
  {
    var s' := s.(changes := s.changes[k := s.changes[k].(restored := true)]);
    forall x | x in routes && x !in original ensures Recoverable(Some(s'), x) {
      assert Recoverable(Some(s), x);
      if Recorded(s, x) {
        var j :| 0 <= j < |s.changes| && s.changes[j] == Change(x, false);
        assert s'.changes[j] == Change(x, false);
        assert Recorded(s', x);
      } else {
        assert Intended(s', x);
      }
    }
  }

  /** Every recorded change is still to be undone, and can be. */
  predicate Intact(s: Snapshot, routes: set<Route>) {
    forall c :: c in s.changes ==> !c.restored && c.after in routes
  }

  /** The snapshot and the table after pattern i was created. */
  ghost predicate Added(before: Snapshot, after: Snapshot, routes: set<Route>, next: set<Route>, i: nat) {
    after.pending.None? && exists r: Route ::
      r.pattern == Ours(i) && r !in routes && next == routes + {r} && after.changes == before.changes + [Change(r, false)]
  }

  lemma AddedStaysLive(before: Snapshot, after: Snapshot, routes: set<Route>, next: set<Route>, i: nat)
    requires Added(before, after, routes, next, i)
    requires forall c :: c in before.changes ==> !c.restored && c.after in routes
    ensures forall c :: c in after.changes ==> !c.restored && c.after in next
  {
  }

  lemma CreateKeepsInspection(routes: set<Route>, r: Route, i: nat, count: nat)
    requires InspectOk(routes, count) && i <= count && !Live(routes, i)
    requires r.pattern == Ours(i) && r.script == ExpectedScript(i, count)
    ensures InspectOk(routes + {r}, count)
  {
  }

  /** What apply's loop finds at pattern i when nothing interferes. */
  ghost predicate ReadyFor(i: nat, routes: set<Route>, found: set<Route>, count: nat) {
    && InspectOk(routes, count) && (forall j: nat :: j < i ==> Live(routes, j))
    && (forall r :: r in routes && r.pattern.Ours? && r.pattern.index >= i ==> r in found)
  }

  lemma StaysReady(i: nat, routes: set<Route>, next: set<Route>, found: set<Route>, count: nat)
    requires ReadyFor(i, routes, found, count) && InspectOk(next, count)
    requires (Live(routes, i) && next == routes) || exists r: Route :: r.pattern == Ours(i) && next == routes + {r}
    ensures ReadyFor(i + 1, next, found, count)
  {
    forall j: nat | j < i + 1 ensures Live(next, j) {
      if j < i { LiveGrows(routes, next, j); }
    }
  }

  /** The process could have died here with its first exception created and recorded. */
  predicate FirstExceptionOnly(m: Moment, original: set<Route>, count: nat) {
    && m.disk.Some? && m.disk.value.pending.None? && |m.disk.value.changes| == 1
    && var c := m.disk.value.changes[0];
    !c.restored && c.after.pattern == Ours(0) && c.after.script == ExpectedScript(0, count) && c.after !in original && m.routes == original + {c.after}
  }

  // ---------------------------------------------------------------- the tool

  class Tool {
    const count: nat
    ghost const original: set<Route>
    ghost const base: nat
    var routes: set<Route>
    var nextId: nat
    var disk: Option<Snapshot>
    var faults: seq<Fault>
    var trail: seq<Moment>

    /** At this moment and at every earlier one the table was safe and each created route
        recoverable from the disk. */
    ghost predicate Valid()
      reads this
    {
      && TableOk(routes, original, nextId, base, count) && Safe(routes, count)
      && (disk.Some? ==> Good(routes, original, disk.value, base, count))
      && (disk.None? ==> routes == original)
      && (forall m :: m in trail ==> Safe(m.routes, count) && Accounted(m.routes, original, m.disk))
    }

    /** A run begins on a table whose catch-all, if any, has its exceptions. */
    constructor (host: Host, routes: set<Route>, nextId: nat, faults: seq<Fault>)
      requires Safe(routes, Exceptions(host))
      requires forall r :: r in routes ==> r.id < nextId
      requires forall a, b :: a in routes && b in routes && a.id == b.id ==> a == b
      ensures Valid() && this.routes == original == routes && this.faults == faults && disk.None? && count == Exceptions(host)
    {
      count, original, base := Exceptions(host), routes, nextId;
      this.routes, this.nextId, disk, this.faults, trail := routes, nextId, None, faults, [];
    }

    method NextFault() returns (f: Fault)
      modifies this`faults
      ensures f == (if old(faults) == [] then Works else old(faults)[0])
      ensures faults == if old(faults) == [] then [] else old(faults)[1..]
      ensures Spent(old(faults), faults, f.Works?)
    {
      if faults == [] { return Works; }
      NextIsSpent(faults);
      f, faults := faults[0], faults[1..];
    }

    method Get() returns (reply: Reply, list: set<Route>)
      modifies this`faults
      ensures reply.Done? ==> list == routes
      ensures Spent(old(faults), faults, reply.Done?)
      ensures Quiet(old(faults)) ==> reply.Done? && Quiet(faults)
      ensures old(faults) != [] && old(faults)[0].Works? ==> reply.Done? && faults == old(faults)[1..]
    {
      var f := NextFault();
      return ReplyOf(f), routes;
    }

    method Save(s: Snapshot) returns (reply: Reply)
      requires Valid() && Good(routes, original, s, base, count)
      modifies this`faults, this`disk, this`trail
      ensures Valid() && (disk == Some(s) || (disk == old(disk) && !reply.Done?))
      ensures trail == old(trail) + [Moment(routes, disk)]
      ensures Spent(old(faults), faults, reply.Done?)
      ensures Quiet(old(faults)) ==> reply.Done? && Quiet(faults)
    {
      var f := NextFault();
      if TakesEffect(f) { disk := Some(s); }
      trail := trail + [Moment(routes, disk)];
      return ReplyOf(f);
    }

    /** POST of a route that the disk already intends. */
    method Post(i: nat) returns (reply: Reply, created: Route)
      requires Valid() && disk.Some? && disk.value.pending.Some? && disk.value.pending.value.index == i <= count
      requires !Live(routes, i) && (forall id :: id in disk.value.pending.value.existing ==> id < nextId)
      requires i == count ==> forall j: nat :: j < count ==> Live(routes, j)
      modifies this`faults, this`routes, this`nextId, this`trail
      ensures Valid() && created.pattern == Ours(i) && created.script == ExpectedScript(i, count) && created !in old(routes)
      ensures old(trail) <= trail
      ensures Spent(old(faults), faults, reply.Done?)
      ensures Quiet(old(faults)) ==> reply.Done? && Quiet(faults)
      ensures routes == old(routes) || (routes == old(routes) + {created} && created.id == old(nextId) == nextId - 1)
      ensures reply.Done? ==> routes == old(routes) + {created}
    {
      var f := NextFault();
      created := Route(nextId, Ours(i), ExpectedScript(i, count));
      if TakesEffect(f) {
        CreateKeepsTable(routes, original, disk.value, nextId, base, count, i);
        routes, nextId := routes + {created}, nextId + 1;
      }
      trail := trail + [Moment(routes, disk)];
      return ReplyOf(f), created;
    }

    method Delete(r: Route) returns (reply: Reply)
      requires Valid() && disk.Some? && r in routes && r !in original
      requires r.pattern == Ours(count) || !Live(routes, count)
      modifies this`faults, this`routes, this`trail
      ensures Valid() && (routes == old(routes) || routes == old(routes) - {r})
      ensures reply.Done? ==> routes == old(routes) - {r}
      ensures Quiet(old(faults)) ==> reply.Done? && Quiet(faults)
      ensures old(faults) == [Loses] ==> reply.Failed? && Quiet(faults) && routes == old(routes) - {r}
    {
      var f := NextFault();
      if TakesEffect(f) {
        DeleteKeepsTable(routes, original, disk.value, nextId, base, count, r);
        routes := routes - {r};
      }
      trail := trail + [Moment(routes, disk)];
      return ReplyOf(f);
    }

    /** The write of this intent took effect. */
    ghost predicate Written(p: Pending)
      reads this
    {
      Live(routes, p.index)
    }

    /** Turns the pending intent into a recorded change if its write took effect, and drops it otherwise. */
    method ResolvePending(snapshot: Snapshot) returns (reply: Reply, s: Snapshot)
      requires Valid() && Good(routes, original, snapshot, base, count)
      modifies this`faults, this`disk, this`trail
      ensures Valid() && Good(routes, original, s, base, count)
      ensures reply.Done? ==> s.pending.None? && (snapshot.pending.None? ==> s == snapshot && disk == old(disk))
      ensures reply.Done? && snapshot.pending.Some? ==> disk == Some(s)
      ensures disk == old(disk) || disk == Some(s)
      ensures snapshot.pending.None? ==> reply.Done? && faults == old(faults)
      ensures reply.Done? && snapshot.pending.Some? && Written(snapshot.pending.value) ==>
                exists r :: r in routes && r.pattern == Ours(snapshot.pending.value.index) && s.changes == snapshot.changes + [Change(r, false)]
      ensures reply.Done? && snapshot.pending.Some? && !Written(snapshot.pending.value) ==> s.changes == snapshot.changes
      ensures s.changes == snapshot.changes || exists c: Change :: s.changes == snapshot.changes + [c]
      ensures Quiet(old(faults)) ==> Quiet(faults) && (reply.Done? <==> snapshot.pending.None? || InspectOk(routes, count))
    {
      s := snapshot;
      if s.pending.None? { return Done, s; }
      var list;
      reply, list := Get();
      if !reply.Done? { return reply, s; }
      if !InspectOk(list, count) { return Failed, s; }
      var index := s.pending.value.index;
      if Live(list, index) {
        var r :| r in list && r.pattern == Ours(index);
        IntentIsNew(s, r);
        if r.id in s.pending.value.existing { return Failed, s; }
        RecordKeepsGood(routes, original, s, nextId, base, count, r);
        s := s.(changes := s.changes + [Change(r, false)], pending := None);
      } else {
        ClearKeepsGood(routes, original, s, base, count);
        s := s.(pending := None);
      }
      reply := Save(s);
    }

    /** A live route of the intended pattern was written by this run. */
    lemma IntentIsNew(s: Snapshot, r: Route)
      requires Valid() && Good(routes, original, s, base, count) && s.pending.Some?
      requires r in routes && r.pattern == Ours(s.pending.value.index)
      ensures r.id !in s.pending.value.existing
    {
      InMeansLive(original, r);
      assert Recoverable(Some(s), r);
    }

    /** A recorded route is gone and its change is not marked. */
    ghost predicate Stuck()
      reads this
    {
      disk.Some? && StuckOn(disk.value.changes, routes)
    }

    /** Deletes one recorded route and marks its change. */
    method Undo(snapshot: Snapshot, k: nat) returns (reply: Reply, s: Snapshot)
      requires Valid() && disk == Some(snapshot) && k < |snapshot.changes| && !snapshot.changes[k].restored
      requires snapshot.changes[k].after.pattern == Ours(count) || !Live(routes, count)
      modifies this`faults, this`routes, this`disk, this`trail
      ensures Valid() && |s.changes| == |snapshot.changes| && s.pending == snapshot.pending && routes <= old(routes)
      ensures routes == old(routes) || routes == old(routes) - {snapshot.changes[k].after}
      ensures reply.Done? ==> disk == Some(s) && s.changes == snapshot.changes[k := snapshot.changes[k].(restored := true)]
      ensures reply.Done? ==> routes == old(routes) - {snapshot.changes[k].after} && snapshot.changes[k].after in old(routes)
      ensures Quiet(old(faults)) && snapshot.changes[k].after in old(routes) ==> reply.Done? && Quiet(faults)
      ensures old(faults) == [Works, Loses] && snapshot.changes[k].after in old(routes) ==> reply.Failed? && Stuck()
    {
      s := snapshot;
      var list;
      reply, list := Get();
      if !reply.Done? { return reply, s; }
      var after := s.changes[k].after;
      if after !in list { return Failed, s; }
      assert after !in original;
      reply := Delete(after);
      if !reply.Done? { return reply, s; }
      MarkKeepsGood(routes, original, s, base, count, k);
      s := s.(changes := s.changes[k := s.changes[k].(restored := true)]);
      reply := Save(s);
    }

    /** No route but the catch-all was deleted. */
    predicate OnlyTopGone(before: set<Route>, after: set<Route>) {
      forall r :: r in before && r.pattern != Ours(count) ==> r in after
    }

    /** The drift check before any restoring write. */
    predicate NoDrift(s: Snapshot, list: set<Route>) {
      forall k :: 0 <= k < |s.changes| ==>
        if s.changes[k].restored then (forall r :: r in list ==> r.id != s.changes[k].after.id) else s.changes[k].after in list
    }

    /** No intent is left and nothing has drifted. */
    predicate Whole(s: Snapshot, list: set<Route>) { s.pending.None? && NoDrift(s, list) }

    /** The k-th change of a pass: deleted and marked if the pass is about it and it is not marked yet. */
    method UndoNext(snapshot: Snapshot, k: nat, exceptions: bool) returns (reply: Reply, s: Snapshot)
      requires Valid() && disk == Some(snapshot) && snapshot.pending.None? && k < |snapshot.changes|
      requires exceptions && Live(routes, count) ==> snapshot.changes[k].restored
      modifies this`faults, this`routes, this`disk, this`trail
      ensures Valid() && routes <= old(routes)
      ensures !exceptions ==> OnlyTopGone(old(routes), routes)
      ensures var c := snapshot.changes[k];
        if c.restored || !Selected(c, exceptions, count)
        then reply.Done? && s == snapshot && routes == old(routes) && faults == old(faults) && disk == old(disk)
        else
          && (reply.Done? ==> disk == Some(s) && s.pending.None? && s.changes == snapshot.changes[k := c.(restored := true)])
          && (Quiet(old(faults)) && OutstandingLive(snapshot.changes, old(routes)) ==> reply.Done? && Quiet(faults) && OutstandingLive(s.changes, routes))
          && (old(faults) == [Works, Loses] && OutstandingLive(snapshot.changes, old(routes)) ==> reply.Failed? && Stuck())
    {
      hide TableOk, Accounted, Safe, Live;
      if snapshot.changes[k].restored || !Selected(snapshot.changes[k], exceptions, count) { return Done, snapshot; }
      assert Good(routes, original, snapshot, base, count);
      ghost var before := routes;
      reply, s := Undo(snapshot, k);
      if Quiet(old(faults)) && OutstandingLive(snapshot.changes, before) {
        OthersStayLive(snapshot.changes, s.changes, before, routes, k);
      }
    }

    /** One pass of the restore over its ordered changes: first the catch-all, then the exceptions. */
    method UndoAll(snapshot: Snapshot, exceptions: bool) returns (reply: Reply, s: Snapshot)
      requires Valid() && disk == Some(snapshot) && snapshot.pending.None?
      requires exceptions && Live(routes, count) ==> forall k :: 0 <= k < |snapshot.changes| ==> snapshot.changes[k].restored
      modifies this`faults, this`routes, this`disk, this`trail
      ensures Valid() && routes <= old(routes)
      ensures !exceptions ==> OnlyTopGone(old(routes), routes)
      ensures reply.Done? ==> disk == Some(s) && s.pending.None? && Undone(snapshot.changes, s.changes, |s.changes|, exceptions, count)
      ensures Quiet(old(faults)) && OutstandingLive(snapshot.changes, old(routes)) ==>
                reply.Done? && Quiet(faults) && OutstandingLive(s.changes, routes)
      ensures old(faults) == [Works, Loses] && OutstandingLive(snapshot.changes, old(routes)) && Outstanding(snapshot.changes, exceptions, count) ==>
                reply.Failed? && Stuck()
    {
      hide TableOk, SnapshotOk, Accounted, Safe, Live, Recoverable;
      s, reply := snapshot, Done;
      ghost var losing := faults == [Works, Loses] && OutstandingLive(snapshot.changes, routes);
      ghost var quiet := Quiet(faults) && OutstandingLive(snapshot.changes, routes);
      var k := 0;
      while k < |s.changes|
        invariant quiet ==> Quiet(faults) && OutstandingLive(s.changes, routes)
        invariant losing ==> faults == [Works, Loses] && s == snapshot && routes == old(routes)
        invariant reply.Done?
        invariant Valid() && disk == Some(s) && s.pending.None? && routes <= old(routes)
        invariant !exceptions ==> OnlyTopGone(old(routes), routes)
        invariant Undone(snapshot.changes, s.changes, k, exceptions, count)
        invariant losing ==> forall j :: 0 <= j < k ==> s.changes[j].restored || !Selected(s.changes[j], exceptions, count)
        decreases |s.changes| - k
      {
        LiveShrinks(routes, old(routes), count);
        ghost var before := s.changes;
        reply, s := UndoNext(s, k, exceptions);
        if !reply.Done? { return; }
        if !before[k].restored && Selected(before[k], exceptions, count) {
          UndoneStep(snapshot.changes, before, s.changes, k, exceptions, count);
        } else {
          UndoneSkip(snapshot.changes, before, k, exceptions, count);
        }
        k := k + 1;
      }
    }

    /**
     restore: resolve the intent, check for drift, delete the catch-all, then the exceptions. Left
     alone it completes exactly when nothing drifted and, with an intent pending, the table passes
     the inspection. A delete that took effect without being recorded is drift, and no restore of
     that snapshot completes any more, whatever its faults.
     */
    method Restore(catchallOnly: bool) returns (reply: Reply)
      requires Valid()
      modifies this`faults, this`routes, this`disk, this`trail
      ensures Valid() && (catchallOnly ==> OnlyTopGone(old(routes), routes))
      ensures reply.Done? ==> disk.Some? && disk.value.status == if catchallOnly then CatchallRestored else Restored
      ensures reply.Done? && !catchallOnly ==> routes == original
      ensures reply.Done? ==> (Live(routes, count) ==> Live(original, count))
      ensures Quiet(old(faults)) && old(disk).Some? ==>
                (reply.Done? <==> NoDrift(old(disk).value, old(routes)) && (old(disk).value.pending.Some? ==> InspectOk(old(routes), count)))
      ensures old(Stuck()) ==> !reply.Done? && Stuck() && routes == old(routes)
      ensures old(faults) == [Works, Works, Loses] && old(disk).Some? && Whole(old(disk).value, old(routes)) && Outstanding(old(disk).value.changes, false, count) ==>
                reply.Failed? && Stuck()
    {
      hide TableOk, SnapshotOk, Accounted, Safe, InspectOk, OneFault, Quiet;
      if disk.None? { return Failed; }
      var before := disk.value;
      var s;
      reply, s := ResolvePending(before);
      ResolvedDrift(before, s);
      if !reply.Done? { return; }
      assert disk == Some(s);
      var list;
      reply, list := Get();
      if !reply.Done? { return; }
      if !NoDrift(s, list) { return Failed; }
      assert NoDrift(before, list) && !StuckOn(before.changes, list);
      reply := Finish(s, catchallOnly);
    }

    lemma ResolvedIntact(before: Snapshot, s: Snapshot)
      requires Intact(before, routes)
      ensures s.changes == before.changes ==> Intact(s, routes)
      ensures (exists r :: r in routes && s.changes == before.changes + [Change(r, false)]) ==> Intact(s, routes)
      ensures Intact(s, routes) ==> NoDrift(s, routes)
    {
      if Intact(s, routes) {
        forall k | 0 <= k < |s.changes| ensures !s.changes[k].restored && s.changes[k].after in routes { assert s.changes[k] in s.changes; }
      }
    }

    /** The deletions and the last save. */
    method Finish(snapshot: Snapshot, catchallOnly: bool) returns (reply: Reply)
      requires Valid() && disk == Some(snapshot) && snapshot.pending.None? && NoDrift(snapshot, routes)
      modifies this`faults, this`routes, this`disk, this`trail
      ensures Valid() && (catchallOnly ==> OnlyTopGone(old(routes), routes))
      ensures reply.Done? ==> disk.Some? && disk.value.status == if catchallOnly then CatchallRestored else Restored
      ensures Quiet(old(faults)) ==> reply.Done?
      ensures reply.Done? && !catchallOnly ==> routes == original
      ensures reply.Done? ==> (Live(routes, count) ==> Live(original, count))
      ensures old(faults) == [Works, Loses] && Outstanding(snapshot.changes, false, count) ==> reply.Failed? && Stuck()
    {
      var s;
      reply, s := TakeDown(snapshot, catchallOnly);
      if !reply.Done? { return; }
      s := s.(status := if catchallOnly then CatchallRestored else Restored);
      StatusKeepsGood(routes, original, disk.value, base, count, s.status);
      reply := Save(s);
    }

    /** Recording a live route is no drift, and cures none. */
    lemma ResolvedDrift(before: Snapshot, s: Snapshot)
      ensures s.changes == before.changes ==> (NoDrift(s, routes) <==> NoDrift(before, routes))
      ensures (exists r :: r in routes && s.changes == before.changes + [Change(r, false)]) ==> (NoDrift(s, routes) <==> NoDrift(before, routes))
      ensures (exists c: Change :: s.changes == before.changes + [c]) && StuckOn(before.changes, routes) ==> StuckOn(s.changes, routes)
      ensures StuckOn(s.changes, routes) ==> !NoDrift(s, routes)
    {
      if r :| r in routes && s.changes == before.changes + [Change(r, false)] {
        assert forall k :: 0 <= k < |before.changes| ==> s.changes[k] == before.changes[k];
      }
      if c: Change :| s.changes == before.changes + [c] {
        assert forall k :: 0 <= k < |before.changes| ==> s.changes[k] == before.changes[k];
      }
    }

    /** The ordered deletions. */
    method TakeDown(snapshot: Snapshot, catchallOnly: bool) returns (reply: Reply, s: Snapshot)
      requires Valid() && disk == Some(snapshot) && snapshot.pending.None? && NoDrift(snapshot, routes)
      modifies this`faults, this`routes, this`disk, this`trail
      ensures Valid() && (reply.Done? ==> disk == Some(s)) && (catchallOnly ==> OnlyTopGone(old(routes), routes))
      ensures Quiet(old(faults)) ==> reply.Done? && Quiet(faults)
      ensures reply.Done? && !catchallOnly ==> routes == original
      ensures reply.Done? ==> (Live(routes, count) ==> Live(original, count))
      ensures old(faults) == [Works, Loses] && Outstanding(snapshot.changes, false, count) ==> reply.Failed? && Stuck()
    {
      reply, s := UndoCatchAll(snapshot);
      if !reply.Done? || catchallOnly { return; }
      reply, s := UndoAll(s, true);
      if reply.Done? { NothingLeft(s); }
    }

    method UndoCatchAll(snapshot: Snapshot) returns (reply: Reply, s: Snapshot)
      requires Valid() && disk == Some(snapshot) && snapshot.pending.None? && NoDrift(snapshot, routes)
      modifies this`faults, this`routes, this`disk, this`trail
      ensures Valid() && (reply.Done? ==> disk == Some(s) && s.pending.None?) && OnlyTopGone(old(routes), routes)
      ensures Quiet(old(faults)) ==> reply.Done? && Quiet(faults) && OutstandingLive(s.changes, routes)
      ensures reply.Done? ==> (forall k :: 0 <= k < |s.changes| && s.changes[k].after.pattern == Ours(count) ==> s.changes[k].restored)
      ensures reply.Done? && Live(routes, count) ==> Live(original, count) && forall k :: 0 <= k < |s.changes| ==> s.changes[k].restored
      ensures old(faults) == [Works, Loses] && Outstanding(snapshot.changes, false, count) ==> reply.Failed? && Stuck()
    {
      reply, s := UndoAll(snapshot, false);
    }

    /** With every change restored and no intent left, nothing created remains. */
    lemma NothingLeft(s: Snapshot)
      requires Valid() && disk == Some(s) && s.pending.None?
      requires forall k :: 0 <= k < |s.changes| ==> s.changes[k].restored
      ensures routes == original
    {
      forall r | r in routes ensures r in original {
        assert r !in original ==> Recoverable(disk, r);
      }
    }

    /** With at most one fault in the whole run: if the run goes on it still has that fault before it, and if it failed, nothing
        stands in the way of taking the catch-all back. */
    ghost predicate Underway(reply: Reply, s: Snapshot, attempted: bool, liveBefore: bool)
      reads this
    {
      && (if reply.Done? then OneFault(faults) else Quiet(faults))
      && InspectOk(routes, count) && Intact(s, routes) && disk.Some? && Intact(disk.value, routes)
      && (Live(routes, count) ==> attempted || liveBefore)
    }

    /** Saves the intent to create pattern i; `list` holds the ids there are before the write. */
    method Intend(i: nat, snapshot: Snapshot, list: set<Route>) returns (reply: Reply, s: Snapshot)
      requires Valid() && i <= count && disk == Some(snapshot) && snapshot.pending.None? && list == routes && !Live(routes, i)
      requires forall k :: 0 <= k < |snapshot.changes| ==> snapshot.changes[k].after.pattern != Ours(i)
      modifies this`faults, this`disk, this`trail
      ensures Valid() && disk.Some? && Good(routes, original, s, base, count) && old(trail) <= trail
      ensures Quiet(old(faults)) ==> reply.Done? && Quiet(faults)
      ensures Spent(old(faults), faults, reply.Done?) && (disk == old(disk) || disk == Some(s))
      ensures s.changes == snapshot.changes && s.pending.Some? && s.pending.value.index == i
      ensures forall id :: id in s.pending.value.existing ==> id < nextId
      ensures reply.Done? ==> disk == Some(s)
    {
      LiveGrows(original, routes, i);
      var intent := Pending(i, set r | r in list :: r.id);
      IntendKeepsGood(routes, original, snapshot, base, count, intent);
      s := snapshot.(pending := Some(intent));
      reply := Save(s);
    }

    /** Records the created route and confirms it. */
    method Record(i: nat, snapshot: Snapshot, created: Route) returns (reply: Reply, s: Snapshot)
      requires Valid() && disk == Some(snapshot) && snapshot.pending.Some? && snapshot.pending.value.index == i <= count
      requires created in routes && created.pattern == Ours(i)
      modifies this`faults, this`disk, this`trail
      ensures Valid() && disk.Some? && Good(routes, original, s, base, count) && old(trail) <= trail
      ensures s.pending.None? && s.changes == snapshot.changes + [Change(created, false)]
      ensures reply.Done? ==> disk == Some(s) && Moment(routes, disk) in trail
      ensures Quiet(old(faults)) && InspectOk(routes, count) ==> reply.Done? && Quiet(faults)
      ensures InspectOk(routes, count) ==> Spent(old(faults), faults, reply.Done?)
      ensures disk == old(disk) || disk == Some(s)
    {
      RecordKeepsGood(routes, original, snapshot, nextId, base, count, created);
      s := snapshot.(changes := snapshot.changes + [Change(created, false)], pending := None);
      reply := Save(s);
      if !reply.Done? { return; }
      assert trail[|trail| - 1] == Moment(routes, disk);
      var list;
      reply, list := Get();
      if !reply.Done? { return; }
      if !InspectOk(list, count) || created !in list { return Failed, s; }
    }

    /** Creates the intended route, records it and confirms it. */
    method Create(i: nat, snapshot: Snapshot) returns (reply: Reply, s: Snapshot)
      requires Valid() && disk == Some(snapshot) && snapshot.pending.Some? && snapshot.pending.value.index == i <= count
      requires !Live(routes, i) && (forall id :: id in snapshot.pending.value.existing ==> id < nextId)
      requires i == count ==> forall j: nat :: j < count ==> Live(routes, j)
      modifies this`faults, this`routes, this`nextId, this`disk, this`trail
      ensures Valid() && disk.Some? && Good(routes, original, s, base, count) && old(trail) <= trail
      ensures reply.Done? ==> disk == Some(s) && Moment(routes, disk) in trail && Added(snapshot, s, old(routes), routes, i)
      ensures Quiet(old(faults)) && InspectOk(old(routes), count) ==> reply.Done? && Quiet(faults) && InspectOk(routes, count)
      ensures InspectOk(old(routes), count) && Intact(snapshot, old(routes)) ==>
                Spent(old(faults), faults, reply.Done?) && InspectOk(routes, count) && Intact(s, routes) && Intact(disk.value, routes)
      ensures i < count ==> (Live(routes, count) ==> Live(old(routes), count))
    {
      hide TableOk, SnapshotOk, Accounted, Safe;
      var created;
      reply, created := Post(i);
      if InspectOk(old(routes), count) { CreateKeepsInspection(old(routes), created, i, count); }
      if !reply.Done? { return reply, snapshot; }
      reply, s := Record(i, snapshot, created);
    }

    /** Writes one missing pattern; `attempted` tells whether a static switch was tried. */
    method AddMissing(i: nat, snapshot: Snapshot) returns (reply: Reply, s: Snapshot, attempted: bool)
      requires Valid() && i <= count && disk == Some(snapshot) && snapshot.pending.None? && !Live(routes, i)
      requires i == count ==> forall j: nat :: j < count ==> Live(routes, j)
      requires forall k :: 0 <= k < |snapshot.changes| ==> snapshot.changes[k].after.pattern.Ours? && snapshot.changes[k].after.pattern.index < i
      modifies this`faults, this`routes, this`nextId, this`disk, this`trail
      ensures Valid() && disk.Some? && Good(routes, original, s, base, count) && old(trail) <= trail
      ensures reply.Done? ==> disk == Some(s) && Moment(routes, disk) in trail && Added(snapshot, s, old(routes), routes, i)
      ensures Quiet(old(faults)) && InspectOk(old(routes), count) ==> reply.Done? && Quiet(faults) && InspectOk(routes, count)
      ensures InspectOk(old(routes), count) && Intact(snapshot, old(routes)) && OneFault(old(faults)) ==>
                Underway(reply, s, attempted, Live(old(routes), count))
    {
      hide TableOk, SnapshotOk, Accounted, Safe, InspectOk, OneFault, Quiet;
      s, attempted := snapshot, false;
      var list;
      reply, list := Get();
      if !reply.Done? { return; }
      reply, s := Intend(i, s, list);
      if !reply.Done? { return; }
      attempted := i == count;
      reply, s := Create(i, s);
    }

    /** One pattern of apply's loop. `found` is the table at the start; the snapshot in memory stays
        good whatever happens. */
    method ApplyOne(i: nat, snapshot: Snapshot, found: set<Route>) returns (reply: Reply, s: Snapshot, attempted: bool)
      requires Valid() && i <= count && disk == Some(snapshot) && snapshot.pending.None?
      requires forall k :: 0 <= k < |snapshot.changes| ==> snapshot.changes[k].after.pattern.Ours? && snapshot.changes[k].after.pattern.index < i
      modifies this`faults, this`routes, this`nextId, this`disk, this`trail
      ensures Valid() && disk.Some? && Good(routes, original, s, base, count) && old(trail) <= trail
      ensures reply.Done? && Live(old(routes), i) ==> s == snapshot && disk == old(disk) && routes == old(routes)
      ensures reply.Done? && !Live(old(routes), i) ==>
                disk == Some(s) && Moment(routes, disk) in trail && Added(snapshot, s, old(routes), routes, i)
      ensures Quiet(old(faults)) && ReadyFor(i, old(routes), found, count) ==> reply.Done? && Quiet(faults) && InspectOk(routes, count)
      ensures ReadyFor(i, old(routes), found, count) && Intact(snapshot, old(routes)) && OneFault(old(faults)) ==>
                Underway(reply, s, attempted, Live(old(routes), count))
    {
      s, attempted := snapshot, false;
      var list;
      reply, list := Get();
      if !reply.Done? { return; }
      if !InspectOk(list, count) { return Failed, s, false; }
      if i == count && exists j: nat :: j < count && !Live(list, j) { return Failed, s, false; }
      if Live(list, i) {
        var r :| r in list && r.pattern == Ours(i);
        if r !in found { return Failed, s, false; }
        return Done, s, false;
      }
      reply, s, attempted := AddMissing(i, s);
    }

    /** The last inspection of apply. */
    method Confirm(s: Snapshot) returns (reply: Reply)
      requires Valid() && disk == Some(s)
      modifies this`faults, this`disk, this`trail
      ensures Valid() && disk.Some?
      ensures reply.Done? ==> InspectOk(routes, count) && forall j: nat :: j <= count ==> Live(routes, j)
      ensures disk == Some(s) || disk == Some(s.(status := Applied))
      ensures old(trail) <= trail
      ensures Quiet(old(faults)) && InspectOk(routes, count) && (forall j: nat :: j <= count ==> Live(routes, j)) ==> reply.Done?
      ensures InspectOk(routes, count) && (forall j: nat :: j <= count ==> Live(routes, j)) ==> Spent(old(faults), faults, reply.Done?)
      ensures reply.Done? ==> disk.value.status.Applied?
    {
      var list;
      reply, list := Get();
      if !reply.Done? { return; }
      if !InspectOk(list, count) || exists j: nat :: j <= count && !Live(list, j) { return Failed; }
      StatusKeepsGood(routes, original, s, base, count, Applied);
      reply := Save(s.(status := Applied));
    }

    /** One pattern, and what it leaves the next one. */
    method ApplyNext(i: nat, snapshot: Snapshot, found: set<Route>) returns (reply: Reply, s: Snapshot, attempted: bool)
      requires Valid() && i <= count && disk == Some(snapshot) && snapshot.pending.None?
      requires forall k :: 0 <= k < |snapshot.changes| ==> snapshot.changes[k].after.pattern.Ours? && snapshot.changes[k].after.pattern.index < i
      requires forall c :: c in snapshot.changes ==> !c.restored && c.after in routes
      modifies this`faults, this`routes, this`nextId, this`disk, this`trail
      ensures Valid() && disk.Some? && Good(routes, original, s, base, count) && old(trail) <= trail
      ensures reply.Done? ==> disk == Some(s) && s.pending.None?
      ensures reply.Done? ==> forall k :: 0 <= k < |s.changes| ==> s.changes[k].after.pattern.Ours? && s.changes[k].after.pattern.index < i + 1
      ensures reply.Done? ==> forall c :: c in s.changes ==> !c.restored && c.after in routes
      ensures reply.Done? && !Live(old(routes), i) ==> Moment(routes, disk) in trail && Added(snapshot, s, old(routes), routes, i)
      ensures Quiet(old(faults)) && ReadyFor(i, old(routes), found, count) ==>
                reply.Done? && Quiet(faults) && ReadyFor(i + 1, routes, found, count)
      ensures ReadyFor(i, old(routes), found, count) && OneFault(old(faults)) ==>
                Underway(reply, s, attempted, Live(old(routes), count)) && (reply.Done? ==> ReadyFor(i + 1, routes, found, count))
    {
      ghost var before := routes;
      reply, s, attempted := ApplyOne(i, snapshot, found);
      if !reply.Done? { return; }
      if !Live(before, i) { AddedStaysLive(snapshot, s, before, routes, i); }
      if (Quiet(old(faults)) || OneFault(old(faults))) && ReadyFor(i, before, found, count) { StaysReady(i, before, routes, found, count); }
    }

    /** apply's loop over the patterns. */
    method ApplyAll(found: set<Route>, first: Snapshot) returns (reply: Reply, s: Snapshot, attempted: bool)
      requires Valid() && disk == Some(first) && first.pending.None? && first.changes == []
      modifies this`faults, this`routes, this`nextId, this`disk, this`trail
      ensures Valid() && disk.Some? && Good(routes, original, s, base, count) && old(trail) <= trail
      ensures reply.Done? ==> disk == Some(s) && s.pending.None? && forall c :: c in s.changes ==> !c.restored && c.after in routes
      ensures Quiet(old(faults)) && found == old(routes) && InspectOk(found, count) ==>
                reply.Done? && Quiet(faults) && InspectOk(routes, count) && (forall j: nat :: j <= count ==> Live(routes, j))
      ensures reply.Done? && !Live(old(routes), 0) ==> exists m :: m in trail && FirstExceptionOnly(m, old(routes), count)
      ensures OneFault(old(faults)) && found == old(routes) && InspectOk(found, count) ==> Underway(reply, s, attempted, Live(old(routes), count))
      ensures OneFault(old(faults)) && found == old(routes) && InspectOk(found, count) && reply.Done? ==> forall j: nat :: j <= count ==> Live(routes, j)
    {
      s, attempted, reply := first, false, Done;
      ghost var single := OneFault(faults) && found == routes && InspectOk(found, count);
      ghost var quiet := Quiet(faults) && found == routes && InspectOk(found, count);
      var i := 0;
      while i <= count
        invariant i <= count + 1 && Valid() && disk == Some(s) && s.pending.None? && reply.Done? && old(trail) <= trail
        invariant forall k :: 0 <= k < |s.changes| ==> s.changes[k].after.pattern.Ours? && s.changes[k].after.pattern.index < i
        invariant forall c :: c in s.changes ==> !c.restored && c.after in routes
        invariant i == 0 ==> routes == old(routes) && s.changes == []
        invariant i > 0 && !Live(old(routes), 0) ==> exists m :: m in trail && FirstExceptionOnly(m, old(routes), count)
        invariant quiet ==> Quiet(faults) && ReadyFor(i, routes, found, count)
        invariant single ==> Underway(Done, s, attempted, Live(old(routes), count)) && ReadyFor(i, routes, found, count)
        invariant single && i <= count && Live(routes, count) ==> Live(old(routes), count)
      {
        reply, s, attempted := ApplyNext(i, s, found);
        if !reply.Done? { return; }
        assert i == 0 && !Live(old(routes), 0) ==> FirstExceptionOnly(Moment(routes, disk), old(routes), count);
        i := i + 1;
      }
    }

    /** The loop and the last inspection. */
    method Attempt(found: set<Route>, first: Snapshot) returns (reply: Reply, s: Snapshot, attempted: bool)
      requires Valid() && disk == Some(first) && first.pending.None? && first.changes == []
      modifies this`faults, this`routes, this`nextId, this`disk, this`trail
      ensures Valid() && disk.Some? && Good(routes, original, s, base, count) && old(trail) <= trail
      ensures reply.Done? ==> InspectOk(routes, count) && forall j: nat :: j <= count ==> Live(routes, j)
      ensures reply.Done? ==> Whole(disk.value, routes) && forall c :: c in disk.value.changes ==> !c.restored
      ensures reply.Done? && !Live(old(routes), 0) ==> exists m :: m in trail && FirstExceptionOnly(m, old(routes), count)
      ensures Quiet(old(faults)) && found == old(routes) && InspectOk(found, count) ==> reply.Done?
      ensures OneFault(old(faults)) && found == old(routes) && InspectOk(found, count) ==> Underway(reply, s, attempted, Live(old(routes), count))
      ensures reply.Done? ==> disk.value.status.Applied?
    {
      reply, s, attempted := ApplyAll(found, first);
      if reply.Done? { reply := Confirm(s); }
    }

    /** apply: exceptions first, each behind a saved intent; on an error the intent is resolved and
        an attempted static switch is taken back. Left alone it completes exactly when the table
        passes the inspection; and if one call anywhere in it fails, effective or not, it ends
        without a catch-all of its own. */
    method Apply() returns (reply: Reply)
      requires Valid() && disk.None?
      modifies this`faults, this`routes, this`nextId, this`disk, this`trail
      ensures Valid()
      ensures reply.Done? ==> InspectOk(routes, count) && forall j: nat :: j <= count ==> Live(routes, j)
      ensures reply.Done? ==> disk.Some? && Whole(disk.value, routes) && forall c :: c in disk.value.changes ==> !c.restored
      ensures reply.Done? && !Live(old(routes), 0) ==> exists m :: m in trail && FirstExceptionOnly(m, old(routes), count)
      ensures Quiet(old(faults)) ==> (reply.Done? <==> InspectOk(old(routes), count))
      ensures reply.Done? ==> disk.value.status.Applied?
      ensures OneFault(old(faults)) && reply.Failed? && Live(routes, count) ==> Live(old(routes), count)
    {
      var found;
      reply, found := Get();
      if !reply.Done? { return; }
      if !InspectOk(found, count) { return Failed; }
      var first := Snapshot([], None, Applying);
      reply := Save(first);
      if !reply.Done? { return; }
      var s, attempted;
      reply, s, attempted := Attempt(found, first);
      if reply.Failed? { TakeBack(s, attempted); }
    }

    /** The exception handler of apply. Whether it gets through or dies, the table stays safe; without another fault it takes
        an attempted switch back. */
    method TakeBack(s: Snapshot, attempted: bool)
      requires Valid() && disk.Some? && Good(routes, original, s, base, count)
      modifies this`faults, this`routes, this`disk, this`trail
      ensures Valid() && OnlyTopGone(old(routes), routes)
      ensures old(Underway(Failed, s, attempted, Live(original, count))) && Live(routes, count) ==> Live(original, count)
    {
      hide TableOk, SnapshotOk, Accounted, Safe, Live, Stuck, Outstanding;
      var reply, resolved := ResolvePending(s);
      if Intact(s, routes) { ResolvedIntact(s, resolved); }
      if reply.Done? && attempted { var _ := Restore(true); }
    }

    /** What the following calls will meet. */
    method Suffer(faults: seq<Fault>)
      modifies this`faults
      ensures this.faults == faults
    {
      this.faults := faults;
    }

    /** Once stuck, always stuck: no restore completes, whatever its faults and however often it is tried. */
    method RestoreAgain(schedules: seq<seq<Fault>>, catchallOnly: bool) returns (completed: bool)
      requires Valid() && Stuck()
      modifies this`faults, this`routes, this`disk, this`trail
      ensures Valid() && Stuck() && routes == old(routes) && !completed
    {
      completed := false;
      var i := 0;
      while i < |schedules|
        invariant i <= |schedules| && Valid() && Stuck() && routes == old(routes) && !completed
      {
        Suffer(schedules[i]);
        var reply := Restore(catchallOnly);
        completed := completed || reply.Done?;
        i := i + 1;
      }
    }

    /** A catch-all this run created is outstanding until it is undone. */
    lemma CatchAllIsOutstanding()
      requires Valid() && disk.Some? && disk.value.pending.None? && Live(routes, count) && !Live(original, count)
      ensures Outstanding(disk.value.changes, false, count)
    {
      var r :| r in routes && r.pattern == Ours(count);
      InMeansLive(original, r);
      assert Recoverable(disk, r);
    }

    /** A completed restore after any apply and any restores, however they ended, gives the original table. */
    method ApplyThenRestore(attempts: nat) returns (reply: Reply)
      requires Valid() && disk.None?
      modifies this
      ensures Valid() && (reply.Done? ==> routes == original)
    {
      var applied := Apply();
      reply := Failed;
      var i := 0;
      while i < attempts
        invariant Valid() && (reply.Done? ==> routes == original)
      {
        reply := Restore(false);
        i := i + 1;
      }
    }
  }

  /** Which changes a pass is about. */
  predicate Selected(c: Change, exceptions: bool, count: nat) { (c.after.pattern != Ours(count)) <==> exceptions }

  /** The selected changes among the first k are now restored; nothing else moved. */
  ghost predicate Undone(before: seq<Change>, after: seq<Change>, k: nat, exceptions: bool, count: nat) {
    |before| == |after| && k <= |after|
    && (forall j :: 0 <= j < |after| ==> after[j].after == before[j].after)
    && (forall j :: 0 <= j < |after| ==> (after[j].restored <==> before[j].restored || (j < k && Selected(before[j], exceptions, count))))
  }

  /** A selected change is still to be undone. */
  ghost predicate Outstanding(changes: seq<Change>, exceptions: bool, count: nat) {
    exists k :: 0 <= k < |changes| && !changes[k].restored && Selected(changes[k], exceptions, count)
  }

  /** A recorded route is gone and its change is not marked. */
  ghost predicate StuckOn(changes: seq<Change>, routes: set<Route>) {
    exists k :: 0 <= k < |changes| && !changes[k].restored && changes[k].after !in routes
  }

  /** The drift check's positive half: what is still to be deleted is there. */
  ghost predicate OutstandingLive(changes: seq<Change>, routes: set<Route>) {
    forall k :: 0 <= k < |changes| && !changes[k].restored ==> changes[k].after in routes
  }

  lemma OthersStayLive(before: seq<Change>, after: seq<Change>, routes: set<Route>, left: set<Route>, k: nat)
    requires OutstandingLive(before, routes) && k < |before| && after == before[k := before[k].(restored := true)]
    requires left == routes - {before[k].after}
    requires forall i, j :: 0 <= i < |before| && 0 <= j < |before| && before[i].after.pattern == before[j].after.pattern ==> i == j
    ensures OutstandingLive(after, left)
  {
  }

  lemma UndoneStep(before: seq<Change>, mid: seq<Change>, after: seq<Change>, k: nat, exceptions: bool, count: nat)
    requires Undone(before, mid, k, exceptions, count) && k < |mid| && Selected(mid[k], exceptions, count)
    requires after == mid[k := mid[k].(restored := true)]
    ensures Undone(before, after, k + 1, exceptions, count)
  {
  }

  lemma UndoneSkip(before: seq<Change>, mid: seq<Change>, k: nat, exceptions: bool, count: nat)
    requires Undone(before, mid, k, exceptions, count) && k < |mid|
    requires mid[k].restored || !Selected(mid[k], exceptions, count)
    ensures Undone(before, mid, k + 1, exceptions, count)
  {
  }

  lemma StatusKeepsGood(routes: set<Route>, original: set<Route>, s: Snapshot, base: nat, count: nat, status: Status)
    requires Good(routes, original, s, base, count)
    ensures Good(routes, original, s.(status := status), base, count)
  {
    forall x | x in routes && x !in original ensures Recoverable(Some(s.(status := status)), x) {
      assert Recoverable(Some(s), x);
      if Recorded(s, x) { assert Recorded(s.(status := status), x); } else { assert Intended(s.(status := status), x); }
    }
  }

  lemma LiveShrinks(after: set<Route>, before: set<Route>, index: nat)
    requires after <= before
    ensures Live(after, index) ==> Live(before, index)
  {
  }

  // ---------------------------------------------------------------- runs that fail

  /** A delete of the catch-all takes effect and reports an error: the snapshot is stuck. */
  method LostDeleteSticks(host: Host) returns (t: Tool)
    ensures fresh(t) && t.Valid() && t.Stuck()
  {
    t := new Tool(host, {}, 0, []);
    var reply := t.Apply();
    t.CatchAllIsOutstanding();
    t.Suffer([Works, Works, Loses]);
    reply := t.Restore(false);
  }

  /**
   A run dies with its first exception created and recorded, and a second run, with a snapshot of
   its own, completes. The first snapshot has not drifted, so a restore of it goes ahead, and it
   ends with the catch-all live and that exception gone.
   */
  method SecondSnapshotStrandsCatchAll(host: Host) returns (left: Moment, table: set<Route>)
    ensures var count := Exceptions(host);
      && left.disk.Some? && left.disk.value.pending.None? && InspectOk(table, count) && Safe(table, count)
      && (forall c :: c in left.disk.value.changes ==> !c.restored && c.after in table)
      && var deletions := CatchAllOf(left.disk.value.changes, count) + ExceptionsOf(left.disk.value.changes, count);
         !SafeThroughout(table, deletions, count) && !Safe(Without(table, deletions), count)
  {
    left := FirstRun(host);
    table := SecondRun(host, left);
    FirstSnapshotStrands(left, table, Exceptions(host));
  }

  /** What the first run leaves when it dies there. */
  method FirstRun(host: Host) returns (left: Moment)
    ensures FirstExceptionOnly(left, {}, Exceptions(host))
  {
    var first := new Tool(host, {}, 0, []);
    var reply := first.Apply();
    left :| left in first.trail && FirstExceptionOnly(left, {}, first.count);
  }

  method SecondRun(host: Host, left: Moment) returns (table: set<Route>)
    requires FirstExceptionOnly(left, {}, Exceptions(host))
    ensures var count := Exceptions(host); left.routes <= table && InspectOk(table, count) && Safe(table, count) && Live(table, count)
  {
    var created := left.disk.value.changes[0].after;
    assert left.routes == {created} && !Live(left.routes, Exceptions(host));
    var second := new Tool(host, left.routes, created.id + 1, []);
    var reply := second.Apply();
    table := second.routes;
  }

  lemma FirstSnapshotStrands(left: Moment, table: set<Route>, count: nat)
    requires FirstExceptionOnly(left, {}, count) && left.routes <= table && InspectOk(table, count) && Live(table, count) && count > 0
    ensures var deletions := CatchAllOf(left.disk.value.changes, count) + ExceptionsOf(left.disk.value.changes, count);
      !SafeThroughout(table, deletions, count) && !Safe(Without(table, deletions), count)
  {
    var changes := left.disk.value.changes;
    var gone := changes[0].after;
    assert changes == [changes[0]] && changes[1..] == [];
    assert CatchAllOf(changes, count) == CatchAllOf([], count) && ExceptionsOf(changes, count) == [gone] + ExceptionsOf([], count);
    var deletions := CatchAllOf(changes, count) + ExceptionsOf(changes, count);
    assert deletions == [gone];
    var rest := Without(table, deletions);
    var top :| top in table && top.pattern == Ours(count);
    assert top in rest && !Live(rest, 0);
    assert deletions[..1] == deletions;
  }
}
