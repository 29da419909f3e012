/**
 The cutover driver (deploy/migrate-payos-runtime.py): a journal of phases on disk around
 commands that stop and start writers, back up, migrate and restore the database, and
 dispatch the central frontend workflow. Every command and every journal write may fail,
 take effect and still fail, or be the process's last act; between any two of them the
 running releases go on writing. One driver runs at a time and nothing else starts writers.

 The database is its main file's identity, the identity its write-ahead log belongs to, and
 how many rows it holds. `ordersEver`, `rowsEver`, `legacyRows`, `restarted`, `restores` and the
 workflow counts are history fields.
 */
module Cutover {
  import opened Options

  datatype Phase = Staged | LegacyAdmitted | LegacyDrained | SchemaReady | BackendReady | FrontendReady | RolledBack

  function Index(p: Phase): nat {
    match p
    case Staged => 0
    case LegacyAdmitted => 1
    case LegacyDrained => 2
    case SchemaReady => 3
    case BackendReady => 4
    case FrontendReady => 5
    case RolledBack => 6
  }

  datatype Intent = Intent(dispatched: bool)

  datatype Backup = Backup(orders: nat, rows: nat)

  datatype Plan = Plan(
    phase: Phase, backup: Option<Backup>, retired: bool, rollbackRequested: bool, restoreIntent: bool, legacyStarting: bool,
    publish: Option<Intent>, rollback: Option<Intent>)

  const FirstPlan := Plan(Staged, None, false, false, false, false, None, None)

  /** `orders` counts payment orders and receipts, `rows` everything else the runtimes record. */
  datatype Database = Database(main: nat, legacySchema: bool, wal: Option<nat>, orders: nat, rows: nat)

  /** The state a database replacement found. */
  datatype Replacement = Replacement(
    legacyUp: bool, candidateUp: bool, orders: nat, restarted: bool, wal: Option<nat>, rows: nat, legacyRows: nat)

  /** How many rows the replacements dropped: those found beyond the legacy release's own. */
  function Dropped(restores: seq<Replacement>): int {
    if restores == [] then 0 else
    var r := restores[|restores| - 1];
    Dropped(restores[..|restores| - 1]) + r.rows - r.legacyRows
  }

  datatype World = World(
    legacyUp: bool, candidateUp: bool, db: Database, nextMain: nat, disk: Option<Plan>,
    ordersEver: nat, rowsEver: nat, legacyRows: nat, restarted: bool, restores: seq<Replacement>, publishRuns: nat, rollbackRuns: nat)

  datatype Fault = Works | Refuses | Loses | DiesBefore | DiesAfter

  datatype Reply = Done | Failed | Died

  function ReplyOf(f: Fault): Reply {
    match f case Works => Done case Refuses => Failed case Loses => Failed case DiesBefore => Died case DiesAfter => Died
  }

  predicate TakesEffect(f: Fault) { f.Works? || f.Loses? || f.DiesAfter? }

  /** What happens at one command: the running releases record rows, and the command has its fate. */
  datatype Turn = Turn(orders: nat, rows: nat, fault: Fault)

  function Elapse(w: World, t: Turn): World {
    var orders := if w.candidateUp then t.orders else 0;
    var rows := if w.candidateUp || w.legacyUp then t.rows else 0;
    w.(db := w.db.(orders := w.db.orders + orders, rows := w.db.rows + rows,
                   wal := if orders + rows > 0 then Some(w.db.main) else w.db.wal),
       ordersEver := w.ordersEver + orders,
       rowsEver := w.rowsEver + rows,
       legacyRows := w.legacyRows + if w.legacyUp then rows else 0)
  }

  function WithIntent(p: Plan, rollback: bool, intent: Intent): Plan {
    if rollback then p.(rollback := Some(intent)) else p.(publish := Some(intent))
  }

  // ---------------------------------------------------------------- what every moment keeps

  /** Safe replacements: no writer, no payment, no restarted legacy release, no log left. */
  ghost predicate ReplacementOk(r: Replacement) {
    !r.legacyUp && !r.candidateUp && r.orders == 0 && !r.restarted && r.wal.None? && r.legacyRows <= r.rows
  }

  ghost predicate PlanOk(w: World, p: Plan) {
    && (p.backup.Some? ==> p.backup.value.orders <= w.ordersEver)
    && (p.backup.Some? && !w.restarted ==> !w.legacyUp && p.backup.value.rows == w.legacyRows)
    && (p.backup.None? ==> !w.candidateUp && w.db.rows == w.legacyRows)
    && (Index(p.phase) >= 2 && !p.phase.RolledBack? ==> p.backup.Some?)
    && (w.restarted ==> p.legacyStarting) && (p.legacyStarting ==> p.rollbackRequested)
    && (p.publish.None? ==> w.publishRuns == 0)
    && (p.rollback.None? ==> w.rollbackRuns == 0)
  }

  ghost predicate WorldOk(w: World) {
    && (w.db.wal.Some? ==> w.db.wal.value == w.db.main) && w.db.main < w.nextMain
    && w.db.orders == w.ordersEver && w.legacyRows <= w.db.rows
    && w.rowsEver == w.db.rows + Dropped(w.restores)
    && w.publishRuns <= 1 && w.rollbackRuns <= 1
    && (forall r :: r in w.restores ==> ReplacementOk(r))
    && (w.disk.Some? ==> PlanOk(w, w.disk.value))
    && (w.disk.None? ==> !w.candidateUp && !w.restarted && w.db.rows == w.legacyRows && w.publishRuns == 0 && w.rollbackRuns == 0)
  }

  lemma ElapseKeepsWorld(w: World, t: Turn)
    requires WorldOk(w)
    ensures WorldOk(Elapse(w, t))
  {
  }

  lemma ElapseKeepsPlan(w: World, t: Turn, p: Plan)
    requires PlanOk(w, p)
    ensures PlanOk(Elapse(w, t), p)
  {
  }

  lemma DroppedAppend(restores: seq<Replacement>, r: Replacement)
    ensures Dropped(restores + [r]) == Dropped(restores) + r.rows - r.legacyRows
  {
    assert (restores + [r])[..|restores|] == restores;
  }

  /** Nothing was dropped exactly when each replacement found the legacy rows and no more. */
  lemma {:induction false} NothingDroppedIff(restores: seq<Replacement>)
    requires forall r :: r in restores ==> ReplacementOk(r)
    ensures Dropped(restores) >= 0
    ensures Dropped(restores) == 0 <==> forall r :: r in restores ==> r.rows == r.legacyRows
    decreases |restores|
  {
    if restores != [] {
      var front, last := restores[..|restores| - 1], restores[|restores| - 1];
      assert restores == front + [last];
      NothingDroppedIff(front);
      assert last in restores;
    }
  }

  function Replaced(w: World, backup: Backup): World {
    var found := Replacement(w.legacyUp, w.candidateUp, w.db.orders, w.restarted, w.db.wal, w.db.rows, w.legacyRows);
    w.(restores := w.restores + [found], nextMain := w.nextMain + 1,
       db := Database(w.nextMain, true, w.db.wal, backup.orders, backup.rows))
  }

  /** Replacing the database with every writer down, before any order and without a log. */
  lemma ReplacedKeepsWorld(w: World, p: Plan)
    requires WorldOk(w) && w.disk == Some(p) && p.backup.Some? && !w.restarted
    requires !w.legacyUp && !w.candidateUp && w.db.orders == 0 && w.db.wal.None?
    ensures WorldOk(Replaced(w, p.backup.value))
  {
    var next := Replaced(w, p.backup.value);
    var found := next.restores[|w.restores|];
    DroppedAppend(w.restores, found);
    assert ReplacementOk(found);
    assert forall r :: r in next.restores ==> r in w.restores || r == found;
    assert PlanOk(next, p);
  }

  /** No boundary was crossed between two worlds. */
  ghost predicate Steady(a: World, b: World) {
    b.restarted == a.restarted && b.publishRuns == a.publishRuns && b.rollbackRuns == a.rollbackRuns && b.restores == a.restores
  }

  /** Nothing was recorded between two worlds, and no legacy release started again. */
  ghost predicate SameBooks(a: World, b: World) {
    && b.db.orders == a.db.orders && b.db.rows == a.db.rows && b.rowsEver == a.rowsEver && b.legacyRows == a.legacyRows
    && b.restores == a.restores && b.restarted == a.restarted
  }

  ghost predicate SameReleases(a: World, b: World) {
    b.legacyUp == a.legacyUp && b.candidateUp == a.candidateUp && b.db.legacySchema == a.db.legacySchema
  }

  ghost predicate SameRuns(a: World, b: World) {
    b.publishRuns == a.publishRuns && b.rollbackRuns == a.rollbackRuns
  }

  /** One more run of the mode, and none of the other. */
  ghost predicate OneRun(a: World, b: World, rollback: bool) {
    if rollback then b.rollbackRuns == a.rollbackRuns + 1 && b.publishRuns == a.publishRuns
    else b.publishRuns == a.publishRuns + 1 && b.rollbackRuns == a.rollbackRuns
  }

  /** A rollback of this plan has a database to restore. */
  predicate Restores(p: Plan) { p.backup.Some? && !p.phase.RolledBack? && !p.legacyStarting }

  /** Apply goes no further on this plan. */
  predicate Ended(p: Plan) { p.phase.RolledBack? || p.rollbackRequested }

  /** Two plans at the same phase of the same operation. */
  predicate SameMode(p: Plan, q: Plan) {
    p.phase == q.phase && p.backup == q.backup && p.rollbackRequested == q.rollbackRequested && p.legacyStarting == q.legacyStarting
  }

  datatype Invocation = ApplyCutover | RollBack | Idle(turn: Turn)

  // ---------------------------------------------------------------- the driver

  class Driver {
    var world: World
    var turns: seq<Turn>

    ghost predicate Valid()
      reads this
    {
      WorldOk(world)
    }

    lemma PlanOfDisk(p: Plan)
      requires Valid() && world.disk == Some(p)
      ensures PlanOk(world, p)
    {
    }

    /** The legacy release runs on its own database and no cutover was staged. */
    constructor (rows: nat, turns: seq<Turn>)
      ensures Valid() && this.turns == turns && world.disk.None? && world.restores == []
      ensures world.db.orders == 0 && world.db.rows == world.rowsEver == world.legacyRows == rows && !world.restarted
    {
      world := World(true, false, Database(0, true, None, 0, rows), 1, None, 0, rows, rows, false, [], 0, 0);
      this.turns := turns;
    }

    /** The running releases act, then a command meets its fate. */
    method Begin() returns (f: Fault)
      requires Valid()
      modifies this
      ensures Valid() && world.disk == old(world.disk)
      ensures !old(world.legacyUp) && !old(world.candidateUp) ==> world == old(world)
      ensures forall p :: PlanOk(old(world), p) ==> PlanOk(world, p)
      ensures world.legacyUp == old(world.legacyUp) && world.candidateUp == old(world.candidateUp)
      ensures Steady(old(world), world)
      ensures old(turns) == [] ==> f.Works? && world == old(world) && turns == []
    {
      if turns == [] { return Works; }
      var t := turns[0];
      turns := turns[1..];
      ElapseKeepsWorld(world, t);
      forall p | PlanOk(world, p) ensures PlanOk(Elapse(world, t), p) { ElapseKeepsPlan(world, t, p); }
      world := Elapse(world, t);
      f := t.fault;
    }

    /** A command that changes nothing the model tracks: checks, files, routes, drains, health. */
    method Check(p: Plan) returns (reply: Reply)
      requires Valid() && PlanOk(world, p)
      modifies this
      ensures Steady(old(world), world)
      ensures Valid() && PlanOk(world, p) && world.disk == old(world.disk)
      ensures !old(world.legacyUp) && !old(world.candidateUp) ==> world == old(world)
      ensures old(turns) == [] ==> turns == [] && reply.Done? && world == old(world)
    {
      var f := Begin();
      return ReplyOf(f);
    }

    /** A database tool that writes: gate calls, the payOS retirement, the migration. */
    method WriteDatabase(p: Plan, migrate: bool) returns (reply: Reply)
      requires Valid() && PlanOk(world, p)
      modifies this
      ensures Steady(old(world), world)
      ensures Valid() && PlanOk(world, p) && world.disk == old(world.disk)
      ensures world.legacyUp == old(world.legacyUp) && world.candidateUp == old(world.candidateUp)
      ensures !world.legacyUp && !world.candidateUp ==> SameBooks(old(world), world)
      ensures old(turns) == [] ==> turns == [] && reply.Done? && SameBooks(old(world), world)
      ensures old(turns) == [] ==> world.db.legacySchema == (old(world.db.legacySchema) && !migrate)
    {
      var f := Begin();
      if TakesEffect(f) {
        world := world.(db := world.db.(wal := Some(world.db.main), legacySchema := world.db.legacySchema && !migrate));
      }
      return ReplyOf(f);
    }

    method Save(p: Plan) returns (reply: Reply)
      requires Valid() && PlanOk(world, p)
      modifies this
      ensures Steady(old(world), world)
      ensures Valid() && PlanOk(world, p)
      ensures world.disk == Some(p) || (world.disk == old(world.disk) && !reply.Done?)
      ensures world.legacyUp == old(world.legacyUp) && world.candidateUp == old(world.candidateUp)
      ensures !world.legacyUp && !world.candidateUp ==> world.(disk := old(world.disk)) == old(world)
      ensures old(turns) == [] ==> turns == [] && reply.Done? && world == old(world).(disk := Some(p))
    {
      var f := Begin();
      if TakesEffect(f) { world := world.(disk := Some(p)); }
      return ReplyOf(f);
    }

    /** stop: every named container, of either release. */
    method StopAll(p: Plan) returns (reply: Reply)
      requires Valid() && PlanOk(world, p)
      modifies this
      ensures Steady(old(world), world)
      ensures Valid() && PlanOk(world, p) && world.disk == old(world.disk)
      ensures reply.Done? ==> !world.legacyUp && !world.candidateUp
      ensures old(turns) == [] ==> turns == [] && reply.Done? && world == old(world).(legacyUp := false, candidateUp := false)
    {
      var f := Begin();
      if TakesEffect(f) { world := world.(legacyUp := false, candidateUp := false); }
      return ReplyOf(f);
    }

    /** no_payments: reads the counts, and refuses unless they are zero. */
    method NoPayments(p: Plan) returns (reply: Reply)
      requires Valid() && PlanOk(world, p)
      modifies this
      ensures Steady(old(world), world)
      ensures Valid() && PlanOk(world, p) && world.disk == old(world.disk)
      ensures world.legacyUp == old(world.legacyUp) && world.candidateUp == old(world.candidateUp)
      ensures !old(world.legacyUp) && !old(world.candidateUp) ==> world == old(world)
      ensures reply.Done? ==> world.db.orders == 0
      ensures old(turns) == [] ==> turns == [] && (reply.Done? <==> world.db.orders == 0) && world == old(world)
    {
      var f := Begin();
      reply := ReplyOf(f);
      if reply.Done? && world.db.orders != 0 { reply := Failed; }
    }
  
    // ---------------------------------------------------------------- effects with a boundary

    /** Any release may be running; the candidate's needs a recorded backup behind it. */
    method StartCandidate(p: Plan) returns (reply: Reply)
      requires Valid() && world.disk == Some(p) && p.backup.Some?
      modifies this
      ensures Valid() && world.disk == Some(p)
      ensures old(turns) == [] ==> turns == [] && reply.Done? && world == old(world).(candidateUp := true)
    {
      var f := Begin();
      if TakesEffect(f) { world := world.(candidateUp := true); }
      return ReplyOf(f);
    }

    method StartLegacy(p: Plan) returns (reply: Reply)
      requires Valid() && world.disk == Some(p) && p.legacyStarting
      modifies this
      ensures Valid() && world.disk == Some(p)
      ensures old(turns) == [] ==> turns == [] && reply.Done? && world == old(world).(legacyUp := true, restarted := true)
    {
      var f := Begin();
      if TakesEffect(f) { world := world.(legacyUp := true, restarted := true); }
      return ReplyOf(f);
    }

    /** The dispatch of a central workflow whose intent is already on disk. */
    method Dispatch(p: Plan, rollback: bool) returns (reply: Reply)
      requires Valid() && world.disk == Some(p)
      requires if rollback then p.rollback.Some? && world.rollbackRuns == 0 else p.publish.Some? && world.publishRuns == 0
      modifies this
      ensures Valid() && world.disk == Some(p)
      ensures world.restarted == old(world.restarted)
      ensures old(turns) == [] ==> turns == [] && reply.Done? && SameBooks(old(world), world) && SameReleases(old(world), world) && OneRun(old(world), world, rollback)
    {
      var f := Begin();
      if TakesEffect(f) {
        world := if rollback then world.(rollbackRuns := world.rollbackRuns + 1) else world.(publishRuns := world.publishRuns + 1);
      }
      return ReplyOf(f);
    }

    /** PRAGMA wal_checkpoint(TRUNCATE). */
    method Checkpoint(p: Plan) returns (reply: Reply)
      requires Valid() && world.disk == Some(p) && !world.legacyUp && !world.candidateUp
      modifies this
      ensures Valid() && world.disk == Some(p)
      ensures world.(db := old(world.db)) == old(world) && world.db.(wal := old(world.db.wal)) == old(world.db)
      ensures reply.Done? ==> world.db.wal.None?
      ensures old(turns) == [] ==> turns == [] && reply.Done?
    {
      var f := Begin();
      if TakesEffect(f) { world := world.(db := world.db.(wal := None)); }
      return ReplyOf(f);
    }

    /** atomic_copy of the backup over the main file. */
    method CopyBackup(p: Plan) returns (reply: Reply)
      requires Valid() && world.disk == Some(p) && p.backup.Some? && !world.restarted
      requires !world.legacyUp && !world.candidateUp && world.db.orders == 0 && world.db.wal.None?
      modifies this
      ensures Valid() && world.disk == Some(p) && !world.legacyUp && !world.candidateUp && world.restarted == old(world.restarted)
      ensures world.rowsEver == old(world.rowsEver) && world.legacyRows == old(world.legacyRows) && world.db.orders == 0
      ensures reply.Done? ==> world.db.rows == p.backup.value.rows == world.legacyRows && world.db.main == old(world.nextMain)
      ensures reply.Done? ==> |world.restores| == |old(world.restores)| + 1
      ensures old(turns) == [] ==> turns == [] && reply.Done? && world == Replaced(old(world), p.backup.value)
    {
      var f := Begin();
      if TakesEffect(f) {
        ReplacedKeepsWorld(world, p);
        world := Replaced(world, p.backup.value);
      }
      return ReplyOf(f);
    }

    // ---------------------------------------------------------------- apply

    /** The backup, with every writer down. */
    method TakeBackup(p: Plan) returns (reply: Reply, q: Plan)
      requires Valid() && world.disk == Some(p) && p.phase.LegacyAdmitted? && !p.rollbackRequested && p.backup.None?
      requires !world.legacyUp && !world.candidateUp
      modifies this
      ensures Valid() && (reply.Done? ==> world.disk == Some(q) && q == p.(backup := q.backup) && q.backup.Some?)
      ensures old(turns) == [] ==>
        && turns == [] && reply.Done? && SameBooks(old(world), world) && SameReleases(old(world), world)
        && SameRuns(old(world), world) && q.backup == Some(Backup(old(world.db.orders), old(world.db.rows)))
    {
      q := p;
      reply := Save(q);
      if !reply.Done? { return; }
      reply := Check(q);
      if !reply.Done? { return; }
      q := q.(backup := Some(Backup(world.db.orders, world.db.rows)));
      reply := Save(q);
    }

    /** drain_legacy: the backup is taken after all writers, and a durable one is never replaced. */
    method DrainLegacy(p: Plan) returns (reply: Reply, q: Plan)
      requires Valid() && world.disk == Some(p) && p.phase.LegacyAdmitted? && !p.rollbackRequested
      modifies this
      ensures Valid() && (reply.Done? ==> world.disk == Some(q) && q == p.(phase := LegacyDrained, backup := q.backup))
      ensures old(turns) == [] ==>
        && turns == [] && reply.Done? && SameBooks(old(world), world) && SameRuns(old(world), world) && !world.legacyUp && !world.candidateUp
        && (p.backup.None? ==> q.backup == Some(Backup(old(world.db.orders), old(world.db.rows))))
    {
      PlanOfDisk(p);
      hide WorldOk;
      q := p;
      reply := Check(q);
      if !reply.Done? { return; }
      reply := Save(q);
      if !reply.Done? { return; }
      reply := StopAll(q);
      if !reply.Done? { return; }
      if q.backup.None? {
        reply, q := TakeBackup(q);
        if !reply.Done? { return; }
        PlanOfDisk(q);
      }
      q := q.(phase := LegacyDrained);
      reply := Save(q);
    }

    /** The legacy payment retirement, once. */
    method RetirePayments(p: Plan) returns (reply: Reply, q: Plan)
      requires Valid() && world.disk == Some(p) && p.phase.LegacyDrained?
      modifies this
      ensures Valid() && (reply.Done? ==> world.disk == Some(q) && q == p.(retired := true))
      ensures old(turns) == [] ==> turns == [] && reply.Done? && SameBooks(old(world), world) && SameReleases(old(world), world) && SameRuns(old(world), world)
    {
      PlanOfDisk(p);
      hide WorldOk;
      q := p;
      reply := Check(q);
      if !reply.Done? || q.retired { return; }
      reply := WriteDatabase(q, false);
      if !reply.Done? { return; }
      q := q.(retired := true);
      reply := Save(q);
    }

    method PrepareSchema(p: Plan) returns (reply: Reply, q: Plan)
      requires Valid() && world.disk == Some(p) && p.phase.LegacyDrained?
      modifies this
      ensures Valid() && (reply.Done? ==> world.disk == Some(q) && q == p.(phase := SchemaReady, retired := true))
      ensures old(turns) == [] ==>
        && turns == [] && reply.Done? && SameBooks(old(world), world) && SameRuns(old(world), world) && !world.db.legacySchema
        && world.legacyUp == old(world.legacyUp) && world.candidateUp == old(world.candidateUp)
    {
      reply, q := RetirePayments(p);
      if !reply.Done? { return; }
      reply := WriteDatabase(q, true);
      if !reply.Done? { return; }
      reply := Check(q);
      if !reply.Done? { return; }
      q := q.(phase := SchemaReady);
      reply := Save(q);
    }

    /** The candidate's containers and their health. */
    method RunCandidate(p: Plan) returns (reply: Reply)
      requires Valid() && world.disk == Some(p) && p.phase.SchemaReady?
      modifies this
      ensures Valid() && world.disk == Some(p)
      ensures old(turns) == [] ==>
        && turns == [] && reply.Done? && SameBooks(old(world), world) && SameRuns(old(world), world)
        && SameReleases(old(world).(candidateUp := true), world)
    {
      reply := Save(p);
      if !reply.Done? { return; }
      reply := StartCandidate(p);
      if !reply.Done? { return; }
      reply := Check(p);
    }

    /** The candidate's gate and probes, and no order behind them. */
    method ProveCandidate(p: Plan) returns (reply: Reply)
      requires Valid() && world.disk == Some(p) && p.phase.SchemaReady?
      modifies this
      ensures Valid() && world.disk == Some(p)
      ensures old(turns) == [] ==>
        && turns == [] && (reply.Done? <==> old(world.db.orders) == 0) && SameBooks(old(world), world) && SameRuns(old(world), world)
        && SameReleases(old(world), world)
    {
      reply := WriteDatabase(p, false);
      if !reply.Done? { return; }
      reply := Check(p);
      if !reply.Done? { return; }
      reply := NoPayments(p);
    }

    method BackendUp(p: Plan) returns (reply: Reply, q: Plan)
      requires Valid() && world.disk == Some(p) && p.phase.SchemaReady?
      modifies this
      ensures Valid() && (reply.Done? ==> world.disk == Some(q) && q == p.(phase := BackendReady))
      ensures old(turns) == [] ==>
        && turns == [] && (reply.Done? <==> old(world.db.orders) == 0) && SameBooks(old(world), world) && SameRuns(old(world), world)
        && SameReleases(old(world).(candidateUp := true), world)
    {
      q := p;
      reply := RunCandidate(q);
      if !reply.Done? { return; }
      reply := ProveCandidate(q);
      if !reply.Done? { return; }
      q := q.(phase := BackendReady);
      reply := Save(q);
    }

    /** The dispatch itself, between two journal writes. */
    method DispatchOnce(p: Plan, rollback: bool, intended: Plan, noted: Plan) returns (reply: Reply)
      requires Valid() && world.disk == Some(p)
      requires if rollback then p.rollback.None? else p.publish.None?
      requires intended == WithIntent(p, rollback, Intent(false)) && noted == WithIntent(p, rollback, Intent(true))
      modifies this
      ensures Valid() && world.restarted == old(world.restarted) && (reply.Done? ==> world.disk == Some(noted))
      ensures old(turns) == [] ==>
        && turns == [] && reply.Done? && SameBooks(old(world), world) && SameReleases(old(world), world)
        && OneRun(old(world), world, rollback)
    {
      reply := Save(intended);
      if !reply.Done? { return; }
      reply := Dispatch(intended, rollback);
      if !reply.Done? { return; }
      reply := Save(noted);
    }

    /** central_operation: the intent is durable before the dispatch, and is never dispatched again. */
    method CentralOperation(p: Plan, rollback: bool) returns (reply: Reply, q: Plan)
      requires Valid() && world.disk == Some(p)
      modifies this
      ensures Valid() && world.restarted == old(world.restarted)
      ensures reply.Done? ==> world.disk == Some(q) && (q == p || q == WithIntent(p, rollback, Intent(true)))
      ensures old(turns) == [] ==>
        && turns == [] && reply.Done? && SameBooks(old(world), world) && SameReleases(old(world), world)
        && if (if rollback then p.rollback.Some? else p.publish.Some?) then q == p && SameRuns(old(world), world)
           else q == WithIntent(p, rollback, Intent(true)) && OneRun(old(world), world, rollback)
    {
      q := p;
      if (if rollback then q.rollback.Some? else q.publish.Some?) { return Done, q; }
      reply := Check(q);
      if !reply.Done? { return; }
      q := WithIntent(p, rollback, Intent(true));
      reply := DispatchOnce(p, rollback, WithIntent(p, rollback, Intent(false)), q);
    }

    /** The phases under the legacy gate. */
    method RetireLegacy(p: Plan) returns (reply: Reply, q: Plan)
      requires Valid() && world.disk == Some(p) && Index(p.phase) < 3 && !p.rollbackRequested
      modifies this
      ensures Valid()
      ensures reply.Done? ==> world.disk == Some(q) && q == p.(phase := SchemaReady, backup := q.backup, retired := true)
      ensures old(turns) == [] ==>
        && turns == [] && reply.Done? && SameBooks(old(world), world) && SameRuns(old(world), world) && !world.db.legacySchema
        && (Index(p.phase) < 2 ==> !world.legacyUp && !world.candidateUp)
        && (Index(p.phase) < 2 && p.backup.None? ==> q.backup == Some(Backup(old(world.db.orders), old(world.db.rows))))
    {
      q := p;
      reply := WriteDatabase(q, false);
      if !reply.Done? { return; }
      if q.phase.Staged? {
        q := q.(phase := LegacyAdmitted);
        reply := Save(q);
        if !reply.Done? { return; }
      }
      if q.phase.LegacyAdmitted? {
        reply, q := DrainLegacy(q);
        if !reply.Done? { return; }
      }
      reply, q := PrepareSchema(q);
    }

    method CompleteApply(p: Plan) returns (reply: Reply)
      requires Valid() && world.disk == Some(p) && p.phase.BackendReady?
      modifies this
      ensures Valid()
      ensures old(turns) == [] ==>
        turns == [] && reply.Done? && world == old(world).(disk := Some(p.(phase := FrontendReady)))
    {
      reply := Save(p.(phase := FrontendReady));
    }

    method PublishFrontend(p: Plan) returns (reply: Reply)
      requires Valid() && world.disk == Some(p) && p.phase.BackendReady?
      modifies this
      ensures Valid()
      ensures old(turns) == [] ==>
        && turns == [] && reply.Done? && SameBooks(old(world), world) && SameReleases(old(world), world)
        && (if p.publish.None? then OneRun(old(world), world, false) else SameRuns(old(world), world))
        && world.disk.Some? && SameMode(world.disk.value, p.(phase := FrontendReady)) && world.disk.value.publish.Some?
    {
      hide WorldOk;
      var q;
      reply, q := CentralOperation(p, false);
      if !reply.Done? { return; }
      PlanOfDisk(q);
      reply := Check(q);
      if !reply.Done? { return; }
      reply := CompleteApply(q);
    }

    /** What an undisturbed apply leaves, from the world and plan it picked up. */
    ghost predicate Applied(before: World, p: Plan)
      reads this
    {
      && turns == [] && SameBooks(before, world)
      && (Index(p.phase) < 4 ==> world.candidateUp)
      && (Index(p.phase) < 3 ==> !world.db.legacySchema)
      && (Index(p.phase) < 2 ==> !world.legacyUp)
      && (if Index(p.phase) < 5 && p.publish.None? then OneRun(before, world, false) else SameRuns(before, world))
      && world.disk.Some?
      && var q := world.disk.value;
      && q.phase.FrontendReady? && q.rollbackRequested == p.rollbackRequested && q.legacyStarting == p.legacyStarting
      && (Index(p.phase) < 2 && p.backup.None? ==> q.backup == Some(Backup(0, before.db.rows)))
      && (Index(p.phase) < 5 ==> q.publish.Some?)
    }

    /** The phases that are left, from the journal's. */
    method ApplyFrom(first: Plan) returns (reply: Reply)
      requires Valid() && world.disk == Some(first) && !Ended(first)
      modifies this
      ensures Valid()
      ensures old(turns) == [] && old(world.db.orders) == 0 ==> reply.Done? && Applied(old(world), first)
      ensures old(turns) == [] && Index(first.phase) < 4 && old(world.db.orders) > 0 ==> !reply.Done? && SameRuns(old(world), world)
    {
      PlanOfDisk(first);
      hide WorldOk, PlanOk;
      var p := first;
      reply := Check(p);
      if !reply.Done? { return; }
      if Index(p.phase) < 3 {
        reply, p := RetireLegacy(p);
        if !reply.Done? { return; }
        PlanOfDisk(p);
      }
      if p.phase.SchemaReady? {
        reply := WriteDatabase(p, false);
        if !reply.Done? { return; }
        reply, p := BackendUp(p);
        if !reply.Done? { return; }
      }
      if p.phase.BackendReady? { reply := PublishFrontend(p); }
    }

    /** One invocation of apply: it picks up at the journal's phase, and refuses once a rollback was
        requested. Left alone before any order it completes from every phase, with the journal at its
        last one, the candidate up and the frontend published if they were not yet; from the start the
        candidate alone runs on the new schema, with the drained database backed up. */
    method Apply() returns (reply: Reply)
      requires Valid()
      modifies this
      ensures Valid()
      ensures old(turns) == [] && old(world.disk).None? && old(world.db.orders) == 0 ==>
        && reply.Done? && Applied(old(world), FirstPlan) && world.candidateUp && world.disk.value.backup == Some(Backup(0, old(world.db.rows)))
      ensures old(world.disk).Some? && Ended(old(world.disk.value)) ==> reply.Failed? && world == old(world)
      ensures old(turns) == [] && old(world.disk).Some? && !Ended(old(world.disk.value)) && old(world.db.orders) == 0 ==>
        reply.Done? && Applied(old(world), old(world.disk.value))
      ensures old(turns) == [] && old(world.disk).Some? && Index(old(world.disk.value.phase)) < 4 && old(world.db.orders) > 0 ==>
        !reply.Done? && SameRuns(old(world), world)
    {
      if world.disk.None? {
        reply := Save(FirstPlan);
        if !reply.Done? { return; }
      }
      var p := world.disk.value;
      if Ended(p) { return Failed; }
      reply := ApplyFrom(p);
    }

    // ---------------------------------------------------------------- rollback

    /** The log is emptied first, then comes one atomic copy. */
    method ReplaceFile(p: Plan) returns (reply: Reply)
      requires Valid() && world.disk == Some(p) && p.backup.Some? && !world.restarted
      requires !world.legacyUp && !world.candidateUp && world.db.orders == 0
      modifies this
      ensures Valid() && world.disk == Some(p) && !world.legacyUp && !world.candidateUp
      ensures world.rowsEver == old(world.rowsEver) && world.legacyRows == old(world.legacyRows)
      ensures reply.Done? ==> world.db.rows == p.backup.value.rows == world.legacyRows
      ensures old(turns) == [] ==> turns == [] && reply.Done? && world.db.legacySchema && SameRuns(old(world), world)
    {
      reply := Checkpoint(p);
      if !reply.Done? { return; }
      reply := Check(p);
      if !reply.Done? { return; }
      reply := CopyBackup(p);
      if !reply.Done? { return; }
      reply := Check(p);
      if !reply.Done? { return; }
      reply := WriteDatabase(p, false);
    }

    /**
     The restore: counted again with every writer down, log emptied first, then one atomic copy.
     Completed, it leaves the backup's rows; so it drops none exactly when it found none beyond
     the backup's.
     */
    method RestoreDatabase(p: Plan) returns (reply: Reply, q: Plan)
      requires Valid() && world.disk == Some(p) && p.backup.Some? && !p.legacyStarting
      requires !world.legacyUp && !world.candidateUp
      modifies this
      ensures Valid() && (reply.Done? ==> world.disk == Some(q) && q == p.(restoreIntent := true))
      ensures world.rowsEver == old(world.rowsEver) && world.legacyRows == old(world.legacyRows) && !world.legacyUp && !world.candidateUp
      ensures reply.Done? ==> world.db.rows == p.backup.value.rows == old(world.legacyRows)
      ensures reply.Done? ==> (world.db.rows == old(world.db.rows) <==> old(world.db.rows) == p.backup.value.rows)
      ensures old(turns) == [] ==> turns == [] && (reply.Done? <==> old(world.db.orders) == 0)
      ensures old(turns) == [] && reply.Done? ==> world.db.legacySchema && SameRuns(old(world), world)
      ensures old(turns) == [] && !reply.Done? ==> SameBooks(old(world), world) && SameRuns(old(world), world)
    {
      q := p;
      reply := NoPayments(q);
      if !reply.Done? { return; }
      reply := Check(q);
      if !reply.Done? { return; }
      q := q.(restoreIntent := true);
      reply := Save(q);
      if !reply.Done? { return; }
      reply := ReplaceFile(q);
    }

    method RunLegacy(p: Plan) returns (reply: Reply)
      requires Valid() && world.disk == Some(p) && p.legacyStarting
      modifies this
      ensures Valid() && world.disk == Some(p)
      ensures old(turns) == [] ==>
        && turns == [] && reply.Done? && world.db.rows == old(world.db.rows) && world.rowsEver == old(world.rowsEver)
        && SameReleases(old(world).(legacyUp := true), world) && SameRuns(old(world), world) && world.restores == old(world.restores)
    {
      reply := StartLegacy(p);
      if !reply.Done? { return; }
      reply := Check(p);
      if !reply.Done? { return; }
      reply := WriteDatabase(p, false);
    }

    /** rollback_finish: only now may the legacy release run again. */
    method FinishRollback(p: Plan) returns (reply: Reply)
      requires Valid() && world.disk == Some(p) && p.legacyStarting
      modifies this
      ensures Valid()
      ensures old(turns) == [] ==>
        && turns == [] && reply.Done? && world.disk == Some(p.(phase := RolledBack))
        && SameReleases(old(world).(legacyUp := true), world) && SameRuns(old(world), world)
        && world.db.rows == old(world.db.rows) && world.rowsEver == old(world.rowsEver) && world.restores == old(world.restores)
    {
      reply := RunLegacy(p);
      if !reply.Done? { return; }
      reply := Save(p);
      if !reply.Done? { return; }
      reply := Save(p.(phase := RolledBack));
    }

    /** The second count, behind the fence; an order opens it again. */
    method CountFenced(p: Plan) returns (reply: Reply)
      requires Valid() && world.disk == Some(p)
      modifies this
      ensures Valid() && world.disk == Some(p)
      ensures reply.Done? ==> world.db.orders == 0
      ensures old(turns) == [] ==>
        && turns == [] && (reply.Done? <==> old(world.db.orders) == 0)
        && SameBooks(old(world), world) && SameReleases(old(world), world) && SameRuns(old(world), world)
    {
      reply := NoPayments(p);
      if reply.Failed? {
        reply := WriteDatabase(p, false);
        if reply.Done? { reply := Save(p); }
        if !reply.Died? { reply := Failed; }
      }
    }

    /** The boundary checks, then the fence. */
    method AdmitRollback(p: Plan) returns (reply: Reply)
      requires Valid() && world.disk == Some(p)
      modifies this
      ensures Valid() && world.disk == Some(p)
      ensures reply.Done? && Index(p.phase) >= 3 ==> world.db.orders == 0
      ensures old(turns) == [] ==>
        && turns == [] && (reply.Done? <==> Index(p.phase) < 3 || old(world.db.orders) == 0)
        && SameBooks(old(world), world) && SameReleases(old(world), world) && SameRuns(old(world), world)
    {
      if Index(p.phase) >= 3 {
        reply := NoPayments(p);
        if !reply.Done? { return; }
      }
      reply := Check(p);
      if !reply.Done? { return; }
      reply := WriteDatabase(p, false);
      if !reply.Done? { return; }
      if Index(p.phase) >= 3 { reply := CountFenced(p); }
    }

    method StopForRollback(q: Plan) returns (reply: Reply)
      requires Valid() && PlanOk(world, q) && q.rollbackRequested
      modifies this
      ensures Valid() && (reply.Done? ==> world.disk == Some(q) && !world.legacyUp && !world.candidateUp)
      ensures old(turns) == [] ==> turns == [] && reply.Done? && world == old(world).(disk := Some(q), legacyUp := false, candidateUp := false)
    {
      reply := Save(q);
      if !reply.Done? { return; }
      reply := Check(q);
      if !reply.Done? { return; }
      reply := StopAll(q);
    }

    /** The request is durable before any writer is stopped. */
    method RequestRollback(p: Plan) returns (reply: Reply, q: Plan)
      requires Valid() && world.disk == Some(p)
      modifies this
      ensures Valid() && (reply.Done? ==> world.disk == Some(q) && q == p.(rollbackRequested := true) && !world.legacyUp && !world.candidateUp)
      ensures old(turns) == [] ==>
        && turns == [] && (reply.Done? <==> Index(p.phase) < 3 || old(world.db.orders) == 0)
        && SameBooks(old(world), world) && SameRuns(old(world), world)
        && (reply.Done? ==> world.db.legacySchema == old(world.db.legacySchema)) && (!reply.Done? ==> SameReleases(old(world), world))
    {
      q := p;
      reply := AdmitRollback(q);
      if !reply.Done? { return; }
      q := q.(rollbackRequested := true);
      reply := StopForRollback(q);
    }

    /** The previous frontend, if a new one was published. */
    method RevertFrontend(p: Plan) returns (reply: Reply, q: Plan)
      requires Valid() && world.disk == Some(p) && p.rollbackRequested
      modifies this
      ensures Valid() && (reply.Done? ==> world.disk == Some(q) && SameMode(q, p) && q.rollbackRequested)
      ensures old(turns) == [] ==>
        && turns == [] && reply.Done? && SameBooks(old(world), world) && SameReleases(old(world), world)
        && if p.publish.Some? && p.rollback.None? then OneRun(old(world), world, true) else SameRuns(old(world), world)
    {
      q := p;
      if p.publish.None? { return Done, q; }
      reply, q := CentralOperation(q, true);
      if !reply.Done? { return; }
      reply := Check(q);
    }

    /** The journal says that the legacy release may run, and then it runs. */
    method ReturnToLegacy(p: Plan) returns (reply: Reply)
      requires Valid() && world.disk == Some(p) && p.rollbackRequested
      modifies this
      ensures Valid()
      ensures old(turns) == [] ==>
        && turns == [] && reply.Done? && world.disk.Some? && world.disk.value.phase.RolledBack?
        && SameReleases(old(world).(legacyUp := true), world)
        && (if p.publish.Some? && p.rollback.None? then OneRun(old(world), world, true) else SameRuns(old(world), world))
        && world.db.rows == old(world.db.rows) && world.rowsEver == old(world.rowsEver) && world.restores == old(world.restores)
    {
      var q;
      reply, q := RevertFrontend(p);
      if !reply.Done? { return; }
      q := q.(legacyStarting := true);
      reply := Save(q);
      if !reply.Done? { return; }
      reply := FinishRollback(q);
    }

    /** An earlier invocation may have started the legacy release: never restore again. */
    method ResumeRollback(p: Plan) returns (reply: Reply)
      requires Valid() && world.disk == Some(p) && p.legacyStarting
      modifies this
      ensures Valid()
      ensures old(turns) == [] ==>
        && turns == [] && reply.Done? && world.disk == Some(p.(phase := RolledBack)) && world.restores == old(world.restores)
        && SameReleases(old(world).(legacyUp := true), world) && SameRuns(old(world), world)
        && world.db.rows == old(world.db.rows) && world.rowsEver == old(world.rowsEver)
    {
      reply := Check(p);
      if !reply.Done? { return; }
      reply := WriteDatabase(p, false);
      if !reply.Done? { return; }
      reply := FinishRollback(p);
    }

    /** One invocation of rollback, from whatever an earlier one left behind. Left alone behind a
        backup and before any order it completes: the backup's rows and schema, the legacy release
        alone running, and a published frontend reverted once. Without a backup it only stops and
        restarts; once the legacy release may have run it never replaces the database again; behind
        an order it is refused with every row kept. Nothing is done twice or before a cutover. */
    method Rollback() returns (reply: Reply)
      requires Valid()
      modifies this
      ensures Valid()
      ensures old(turns) == [] && old(world.disk).Some? && Restores(old(world.disk.value)) && old(world.db.orders) == 0 ==>
        && turns == [] && reply.Done? && world.disk.Some? && world.disk.value.phase.RolledBack?
        && world.rowsEver == old(world.rowsEver) && world.db.rows == old(world.disk.value.backup.value.rows)
        && world.legacyUp && !world.candidateUp && world.db.legacySchema
        && if old(world.disk.value.publish).Some? && old(world.disk.value.rollback).None? then OneRun(old(world), world, true)
           else SameRuns(old(world), world)
      ensures old(world.disk).None? ==> reply.Failed? && world == old(world)
      ensures old(world.disk).Some? && old(world.disk.value.phase).RolledBack? ==> reply.Done? && world == old(world)
      ensures old(turns) == [] && old(world.disk).Some? && !old(world.disk.value.phase).RolledBack? && old(world.disk.value).legacyStarting ==>
        && reply.Done? && world.disk.Some? && world.disk.value.phase.RolledBack? && world.restores == old(world.restores)
        && world.legacyUp && world.candidateUp == old(world.candidateUp) && SameRuns(old(world), world) && world.db.rows == old(world.db.rows)
      ensures old(turns) == [] && old(world.disk).Some? && !old(world.disk.value.phase).RolledBack? && !old(world.disk.value).legacyStarting && old(world.disk.value).backup.None? ==>
        && reply.Done? && world.disk.Some? && world.disk.value.phase.RolledBack? && world.restores == old(world.restores)
        && world.legacyUp && !world.candidateUp && world.db.rows == old(world.db.rows)
      ensures old(turns) == [] && old(world.disk).Some? && Restores(old(world.disk.value)) && old(world.db.orders) > 0 ==>
        !reply.Done? && SameBooks(old(world), world) && SameRuns(old(world), world)
    {
      if world.disk.None? { return Failed; }
      var p := world.disk.value;
      if p.phase.RolledBack? { return Done; }
      if p.legacyStarting {
        reply := ResumeRollback(p);
        return;
      }
      reply, p := RequestRollback(p);
      if !reply.Done? { return; }
      if p.backup.Some? {
        reply, p := RestoreDatabase(p);
        if !reply.Done? { return; }
      }
      reply := ReturnToLegacy(p);
    }

    // ---------------------------------------------------------------- every schedule

    /** Time between two invocations. */
    method Wait(t: Turn)
      requires Valid()
      modifies this
      ensures Valid() && turns == old(turns) && world == Elapse(old(world), t)
    {
      ElapseKeepsWorld(world, t);
      world := Elapse(world, t);
    }

    /**
     Any sequence of invocations, with any failures and crashes inside them and any writes by the
     running releases between commands: each database replacement found every writer down, no
     order or receipt, no restarted legacy release and no log; the log always belongs to the main
     file; no order or receipt and no legacy row is ever lost; each central mode was dispatched at
     most once. A row of the candidate's is lost if and only if some replacement found one.
     */
    method Operate(invocations: seq<Invocation>)
      requires Valid()
      modifies this
      ensures Valid()
      ensures forall r :: r in world.restores ==> ReplacementOk(r)
      ensures world.db.wal.Some? ==> world.db.wal.value == world.db.main
      ensures world.db.orders == world.ordersEver && world.db.rows >= world.legacyRows
      ensures world.publishRuns <= 1 && world.rollbackRuns <= 1
      ensures world.db.rows <= world.rowsEver
      ensures world.db.rows == world.rowsEver <==> forall r :: r in world.restores ==> r.rows == r.legacyRows
    {
      var i := 0;
      while i < |invocations|
        invariant i <= |invocations| && Valid()
      {
        match invocations[i] {
          case ApplyCutover => var _ := Apply();
          case RollBack => var _ := Rollback();
          case Idle(t) => Wait(t);
        }
        i := i + 1;
      }
      NothingDroppedIff(world.restores);
    }
  }

  /** A cutover, rows recorded by the running candidate, and a rollback: the candidate's rows are gone. */
  method RollbackDropsCandidateRows(rows: nat, more: nat) returns (d: Driver)
    ensures fresh(d) && d.Valid() && d.world.disk.Some? && d.world.disk.value.phase.RolledBack?
    ensures d.world.rowsEver == rows + more && d.world.db.rows == rows
  {
    d := new Driver(rows, []);
    var _ := d.Apply();
    d.Wait(Turn(0, more, Works));
    var _ := d.Rollback();
  }
}
