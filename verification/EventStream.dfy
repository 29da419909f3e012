/**
 One browser's event stream over any number of connections: the server side replays the
 journal after the client's last id, then follows live hints, repairing gaps from the
 journal (internal/httpapi/sse.go); the client keeps the id of the last event it received
 and adopts an initial watermark only when it is positive (web/src/realtime/realtime.client.ts).
 */
module EventStream {
  import opened Options
  import opened Journal
  import opened JournalCursor

  const BATCH: nat := 250

  datatype Opening = Initial(watermark: int) | Resumed | ResetState | StorageError

  /** What reaches a following connection. A hint names a committed row. */
  datatype Signal = HintOf(row: nat, foreign: bool) | Others(changes: seq<Change>)

  /** How many rows were committed along with the first n signals. */
  function Committed(signals: seq<Signal>, n: nat): nat
    requires n <= |signals|
  {
    if n == 0 then 0 else Committed(signals, n - 1) + if signals[n - 1].Others? then Appends(signals[n - 1].changes) else 0
  }

  /** Signal i is a current hint of a row that was committed by then; `rows` were at first. */
  predicate Hints(signals: seq<Signal>, i: nat, rows: nat)
    requires i < |signals|
  {
    signals[i].HintOf? && !signals[i].foreign && signals[i].row < rows + Committed(signals, i)
  }

  lemma MoreRows(a: Table, b: Table)
    requires Evolves(a, b)
    ensures |a.all| <= |b.all|
  {
  }

  /** Some hint names a row that is gone. */
  ghost predicate HintGone(t: Table, signals: seq<Signal>) {
    exists s :: s in signals && s.HintOf? && s.row < |t.all| && t.all[s.row] !in t.rows
  }

  lemma GoneStaysGone(a: Table, b: Table, few: seq<Signal>, signals: seq<Signal>)
    requires Ok(a) && Evolves(a, b) && HintGone(a, few) && forall s :: s in few ==> s in signals
    ensures HintGone(b, signals)
  {
    var s :| s in few && s.HintOf? && s.row < |a.all| && a.all[s.row] !in a.rows;
    assert a.all[s.row] in a.all && b.all[s.row] == a.all[s.row];
  }

  lemma GoneHere(t: Table, signals: seq<Signal>, i: nat)
    requires Ok(t) && i < |signals| && HintGone(t, [signals[i]])
    ensures HintGone(t, signals)
  {
    GoneStaysGone(t, t, [signals[i]], signals);
  }

  /** The server side of one connection. `writes` is how many more event writes succeed;
      `base` is what the client already holds from `origin` on. */
  class Connection {
    const db: Store
    const public: bool
    var watermark: int
    var out: seq<Row>
    var writes: nat
    ghost var origin: int
    ghost var base: seq<Row>

    ghost predicate Valid()
      reads this, db
    {
      db.Valid() && CursorOk(db.View(), public, origin, watermark, base + out)
    }

    lemma Survive(before: Table)
      requires CursorOk(before, public, origin, watermark, base + out) && Evolves(before, db.View()) && db.Valid()
      ensures Valid()
    {
      CursorSurvives(before, db.View(), public, origin, watermark, base + out);
    }

    /** A connection before its cursor is known. */
    constructor (db: Store, public: bool, writes: nat)
      requires db.Valid()
      ensures this.db == db && this.public == public && this.writes == writes && out == []
    {
      this.db, this.public, this.writes, watermark, out, origin, base := db, public, writes, 0, [], 0, [];
    }

    /** A first connection starts at the high-water mark. */
    method OpenFresh() returns (opening: Opening)
      requires db.Valid() && out == []
      modifies this`watermark, this`origin, this`base, db
      ensures db.Valid() && Evolves(old(db.View()), db.View()) && (opening.Initial? || opening.StorageError?)
      ensures opening.Initial? ==> Valid() && origin == watermark == opening.watermark == MaxOf(db.rows) && base == []
      ensures old(db.schedule) == [] ==> opening.Initial? && db.schedule == [] && db.View() == old(db.View())
    {
      var max := db.GetMaxJournalSeq();
      MaxIsNewest(db.View());
      if max.None? { return StorageError; }
      watermark, origin, base := max.value, max.value, [];
      assert base + out == [];
      return Initial(watermark);
    }

    /** A resumed one starts after its last id, unless the journal no longer reaches back that far
        or has never reached it. */
    method OpenResumed(after: int, ghost heldFrom: int, ghost held: seq<Row>) returns (opening: Opening)
      requires db.Valid() && out == [] && CursorOk(db.View(), public, heldFrom, after, held)
      modifies this`watermark, this`origin, this`base, db
      ensures db.Valid() && Evolves(old(db.View()), db.View()) && CursorOk(db.View(), public, heldFrom, after, held)
      ensures !opening.Initial?
      ensures opening.Resumed? ==> Valid() && origin == heldFrom && watermark == after && base == held
      ensures old(db.schedule) == [] ==>
                db.View() == old(db.View()) && db.schedule == []
                && opening == if after > MaxOf(db.rows) || (MinOf(db.rows) > 0 && after < MinOf(db.rows) - 1) then ResetState else Resumed
    {
      hide CursorOk, Evolves, MaxOf, MinOf;
      ghost var t0 := db.View();
      var min := db.GetMinJournalSeq();
      CursorSurvives(t0, db.View(), public, heldFrom, after, held);
      if min.None? { return StorageError; }
      ghost var t1 := db.View();
      var max := db.GetMaxJournalSeq();
      CursorSurvives(t1, db.View(), public, heldFrom, after, held);
      EvolvesTransitively(t0, t1, db.View());
      if max.None? { return StorageError; }
      if after > max.value { return ResetState; }
      if min.value > 0 && after < min.value - 1 { return ResetState; }
      watermark, origin, base := after, heldFrom, held;
      assert base + out == held;
      return Resumed;
    }

    /** Writes the next row, or passes over one the stream does not show. */
    method WriteJournalEntry(row: Row) returns (ok: bool)
      requires Valid() && row in db.all && watermark < row.num
      requires forall r :: r in db.rows && watermark < r.num ==> row.num <= r.num
      modifies this`watermark, this`out, this`writes
      ensures Valid() && old(out) <= out && watermark == if ok then row.num else old(watermark)
      ensures ok <==> !Shown(public, row.kind) || old(writes) > 0
      ensures writes + |out| == old(writes) + |old(out)|
      ensures out == if Shown(public, row.kind) && ok then old(out) + [row] else old(out)
    {
      if !Shown(public, row.kind) {
        SkipKeepsCursor(db.View(), public, origin, watermark, base + out, row);
        watermark := row.num;
        return true;
      }
      if writes == 0 { return false; }
      PublishKeepsCursor(db.View(), public, origin, watermark, base + out, row);
      assert base + out + [row] == base + (out + [row]);
      writes, out, watermark := writes - 1, out + [row], row.num;
      return true;
    }

    /** Row i of the batch that was read behind `after`. */
    method WriteNext(batch: seq<Row>, ghost after: int, i: nat) returns (ok: bool)
      requires Valid() && NextRows(batch, db.rows, after) && i < |batch|
      requires watermark == if i == 0 then after else batch[i - 1].num
      modifies this`watermark, this`out, this`writes
      ensures Valid() && old(out) <= out && watermark >= old(watermark) && (if ok then watermark == batch[i].num else writes == 0)
      ensures writes + |out| == old(writes) + |old(out)|
    {
      BatchRowIsNext(db.rows, batch, after, i);
      assert batch[i] in batch;
      assert batch[i] in db.rows;
      ok := WriteJournalEntry(batch[i]);
    }

    method WriteBatch(batch: seq<Row>) returns (ok: bool)
      requires Valid() && NextRows(batch, db.rows, watermark)
      modifies this`watermark, this`out, this`writes
      ensures Valid() && old(out) <= out && watermark >= old(watermark)
      ensures if ok then watermark == (if batch == [] then old(watermark) else batch[|batch| - 1].num) else writes == 0
      ensures writes + |out| == old(writes) + |old(out)|
    {
      ghost var after := watermark;
      var i := 0;
      while i < |batch|
        invariant i <= |batch| && Valid() && old(out) <= out && watermark >= after && writes + |out| == old(writes) + |old(out)|
        invariant watermark == if i == 0 then after else batch[i - 1].num
      {
        var written := WriteNext(batch, after, i);
        if !written { return false; }
        i := i + 1;
      }
      return true;
    }

    method ReadBatch() returns (read: Option<seq<Row>>)
      requires Valid()
      modifies db
      ensures Valid() && Evolves(old(db.View()), db.View())
      ensures read.Some? ==> NextRows(read.value, db.rows, watermark)
      ensures read.Some? && |read.value| < BATCH ==> forall r :: r in db.rows && r.num > watermark ==> r in read.value
      ensures |db.schedule| < |old(db.schedule)| || (db.schedule == old(db.schedule) == [] && db.View() == old(db.View()))
      ensures old(db.schedule) == [] ==> read.Some?
    {
      ghost var before := db.View();
      read := db.ReadJournalEvents(watermark, BATCH);
      Survive(before);
      BatchIsComplete(db.rows, watermark, BATCH);
    }

    /** The replay loop and drainJournal: batches until a short one. It ends once the others pause, and it fails only
        if a write or a query did. */
    method DrainJournal() returns (ok: bool)
      requires Valid()
      modifies this`watermark, this`out, this`writes, db
      ensures Valid() && old(out) <= out && watermark >= old(watermark) && Evolves(old(db.View()), db.View())
      ensures ok ==> forall r :: r in db.rows ==> r.num <= watermark
      ensures !ok ==> writes == 0 || old(db.schedule) != []
      ensures old(db.schedule) == [] ==> db.schedule == [] && db.View() == old(db.View())
      ensures writes + |out| == old(writes) + |old(out)|
    {
      ghost var t0 := db.View();
      while true
        invariant Valid() && old(out) <= out && Evolves(t0, db.View()) && writes + |out| == old(writes) + |old(out)|
        invariant watermark >= old(watermark)
        invariant old(db.schedule) == [] ==> db.schedule == [] && db.View() == t0
        decreases |db.schedule|, db.next - watermark
      {
        ghost var before := db.View();
        ghost var after := watermark;
        var read := ReadBatch();
        EvolvesTransitively(t0, before, db.View());
        if read.None? { return false; }
        var batch := read.value;
        if batch != [] { assert batch[|batch| - 1] in batch; }
        var written := WriteBatch(batch);
        if !written { return false; }
        if |batch| < BATCH {
          forall r | r in db.rows ensures r.num <= watermark {
            if r.num > after { LastOf(batch, r); }
          }
          return true;
        }
      }
    }

    /** One live hint. False ends the connection, and only if a write or a query failed or the hinted row is gone and does not
        come next; otherwise the stream has reached the hint. */
    method Follow(hint: Row, foreign: bool) returns (alive: bool)
      requires Valid() && hint in db.all
      modifies this`watermark, this`out, this`writes, db
      ensures Valid() && old(out) <= out && Evolves(old(db.View()), db.View())
      ensures alive && !foreign ==> watermark >= hint.num
      ensures watermark >= old(watermark) && (old(db.schedule) == [] ==> db.schedule == [] && db.View() == old(db.View()))
      ensures !alive ==> writes == 0 || old(db.schedule) != [] || (hint !in db.rows && hint.num > watermark + 1)
      ensures writes + |out| == old(writes) + |old(out)|
    {
      ghost var t0 := db.View();
      if foreign || hint.num <= watermark { return true; }
      if hint.num > watermark + 1 {
        var drained := DrainJournal();
        if !drained { return false; }
        if hint.num <= watermark { return true; }
        if hint.num != watermark + 1 { return false; }
      }
      alive := WriteJournalEntry(hint);
    }

    /** The stream is past every row hinted at by the first n signals. */
    ghost predicate Passed(signals: seq<Signal>, n: nat, rows: nat)
      requires n <= |signals|
      reads this, db
    {
      forall i :: 0 <= i < n && Hints(signals, i, rows) ==> signals[i].row < |db.all| && watermark >= db.all[signals[i].row].num
    }

    /** One more signal was heeded. */
    lemma PassedGrows(before: Table, old_: int, signals: seq<Signal>, i: nat, rows: nat)
      requires Evolves(before, db.View()) && watermark >= old_ && i < |signals| && |before.all| >= rows + Committed(signals, i)
      requires forall k :: 0 <= k < i && Hints(signals, k, rows) ==> signals[k].row < |before.all| && old_ >= before.all[signals[k].row].num
      requires signals[i].HintOf? && !signals[i].foreign && signals[i].row < |before.all| ==> watermark >= before.all[signals[i].row].num
      ensures Passed(signals, i + 1, rows)
    {
      assert before.all <= db.all;
    }

    /** One turn of the live loop. */
    method Heed(signal: Signal) returns (alive: bool)
      requires Valid()
      modifies this`watermark, this`out, this`writes, db
      ensures Valid() && old(out) <= out && Evolves(old(db.View()), db.View()) && watermark >= old(watermark)
      ensures writes + |out| == old(writes) + |old(out)|
      ensures |db.all| >= |old(db.all)| + if signal.Others? then Appends(signal.changes) else 0
      ensures alive && signal.HintOf? && !signal.foreign && signal.row < |old(db.all)| ==> watermark >= old(db.all)[signal.row].num
      ensures !alive ==> writes == 0 || old(db.schedule) != [] || HintGone(db.View(), [signal])
      ensures old(db.schedule) == [] ==> db.schedule == []
    {
      ghost var before := db.View();
      alive := true;
      match signal {
        case HintOf(row, foreign) =>
          if row < |db.all| {
            alive := Follow(db.all[row], foreign);
            if !alive && before.all[row] !in before.rows { assert HintGone(before, [signal]); GoneStaysGone(before, db.View(), [signal], [signal]); }
          }
        case Others(changes) =>
          db.Perform(changes);
          Survive(before);
      }
    }

    /** Replay, then the live loop until the signals end or the connection does. A stream that is still alive has
        reached every hint; it ends early only if a write or a query failed or a hinted row is gone. */
    method Serve(signals: seq<Signal>) returns (alive: bool)
      requires Valid()
      modifies this`watermark, this`out, this`writes, db
      ensures Valid() && old(out) <= out && Evolves(old(db.View()), db.View())
      ensures writes + |out| == old(writes) + |old(out)|
      ensures old(db.schedule) == [] && signals == [] ==>
                db.View() == old(db.View()) && (writes > 0 ==> forall r :: r in db.rows ==> r.num <= watermark)
      ensures alive ==> Passed(signals, |signals|, |old(db.all)|)
      ensures !alive ==> writes == 0 || old(db.schedule) != [] || HintGone(db.View(), signals)
    {
      hide CursorOk, Evolves, Hints, HintGone, Ok;
      ghost var t0 := db.View();
      alive := DrainJournal();
      MoreRows(t0, db.View());
      var i := 0;
      while alive && i < |signals|
        invariant i <= |signals| && Valid() && old(out) <= out && Evolves(t0, db.View()) && writes + |out| == old(writes) + |old(out)|
        invariant old(db.schedule) == [] && i == 0 ==> db.View() == t0 && (if alive then forall r :: r in db.rows ==> r.num <= watermark else writes == 0)
        invariant old(db.schedule) == [] ==> db.schedule == []
        invariant |db.all| >= |t0.all| + Committed(signals, i)
        invariant alive ==> Passed(signals, i, |t0.all|)
        invariant !alive ==> writes == 0 || old(db.schedule) != [] || HintGone(db.View(), signals)
      {
        ghost var before, reached := db.View(), watermark;
        alive := Heed(signals[i]);
        if alive { PassedGrows(before, reached, signals, i, |t0.all|); }
        else if writes > 0 && old(db.schedule) == [] { GoneHere(db.View(), signals, i); }
        EvolvesTransitively(t0, before, db.View());
        i := i + 1;
      }
    }
  }

  /** How one connection goes: what the server meets, whether the client got the first event,
      and how many journal events it got before the connection broke. */
  datatype Attempt = Attempt(signals: seq<Signal>, writes: nat, greeted: bool, delivered: nat, between: seq<Change>)

  /** Nothing else happens, and the connection outlasts as many events as there are rows. */
  predicate Undisturbed(a: Attempt, rows: nat) {
    a.signals == [] && a.between == [] && a.delivered >= a.writes > rows
  }

  /** The journal reaches back to this id. */
  ghost predicate Resumable(t: Table, after: int) {
    after <= MaxOf(t.rows) && (MinOf(t.rows) > 0 ==> after >= MinOf(t.rows) - 1)
  }

  lemma {:induction false} SubsequenceFits(a: seq<Row>, b: seq<Row>)
    requires Ascending(a) && Ascending(b) && forall r :: r in a ==> r in b
    ensures |a| <= |b|
    decreases |a|
  {
    if a != [] {
      var last := a[|a| - 1];
      assert last in a;
      var i :| 0 <= i < |b| && b[i] == last;
      forall r | r in a[..|a| - 1] ensures r in b[..i] {
        assert r in a;
        var j :| 0 <= j < |b| && b[j] == r;
        LastOf(a, r);
        assert j < i;
        assert b[..i][j] == r;
      }
      SubsequenceFits(a[..|a| - 1], b[..i]);
    }
  }

  /** The browser. `origin` is the watermark its stream counts from, `first` the first watermark it
      was told, and `retold` whether it was told another, all since the last reset. */
  class Client {
    const db: Store
    const public: bool
    var lastEventId: Option<int>
    var received: seq<Row>
    var resets: nat
    ghost var origin: int
    ghost var first: Option<int>
    ghost var retold: bool

    /** The stream so far is the slice after `origin` up to the last id. */
    ghost predicate Valid()
      reads this, db
    {
      && db.Valid()
      && (lastEventId.Some? ==> CursorOk(db.View(), public, origin, lastEventId.value, received))
      && (lastEventId.None? ==> received == [] && (first.Some? ==> first.value == 0))
      && (first.Some? && (first.value > 0 || received != []) ==> lastEventId.Some?)
      && (retold ==> first == Some(0))
      && (first.Some? && !retold ==> origin == first.value)
    }

    constructor (db: Store, public: bool)
      requires db.Valid()
      ensures Valid() && this.db == db && this.public == public && received == [] && lastEventId.None? && resets == 0 && first.None? && !retold
    {
      this.db, this.public, lastEventId, received, resets, origin, first, retold := db, public, None, [], 0, 0, None, false;
    }

    lemma Survive(before: Table)
      requires lastEventId.Some? ==> CursorOk(before, public, origin, lastEventId.value, received)
      requires Evolves(before, db.View()) && db.Valid()
      ensures lastEventId.Some? ==> CursorOk(db.View(), public, origin, lastEventId.value, received)
    {
      if lastEventId.Some? { CursorSurvives(before, db.View(), public, origin, lastEventId.value, received); }
    }

    method OnInitialState(watermark: int)
      requires db.Valid() && lastEventId.None? && received == [] && (first.Some? ==> first.value == 0)
      requires CursorOk(db.View(), public, watermark, watermark, [])
      modifies this`lastEventId, this`origin, this`first, this`retold
      ensures Valid() && origin == watermark && first == (if old(first).Some? then old(first) else Some(watermark))
      ensures retold == old(first).Some?
      ensures lastEventId == if watermark > 0 then Some(watermark) else None
    {
      if first.None? { first, retold := Some(watermark), false; } else { retold := true; }
      if watermark > 0 { lastEventId := Some(watermark); }
      origin := watermark;
    }

    method OnResetState()
      requires db.Valid()
      modifies this`lastEventId, this`received, this`resets, this`first, this`retold
      ensures Valid() && resets == old(resets) + 1 && received == [] && lastEventId.None? && first.None?
    {
      lastEventId, received, resets, first, retold := None, [], resets + 1, None, false;
    }
  
    /** The events of a connection that arrived before it broke. */
    method Receive(rows: seq<Row>, ghost written: seq<Row>, ghost from: int, ghost reached: int)
      requires db.Valid() && rows <= written && CursorOk(db.View(), public, from, reached, received + written)
      requires Valid() && (rows != [] ==> origin == from)
      modifies this`lastEventId, this`received
      ensures Valid() && received == old(received) + rows
      ensures lastEventId == if rows == [] then old(lastEventId) else Some(rows[|rows| - 1].num)
    {
      if rows == [] {
        assert received + rows == received;
        return;
      }
      ghost var held := received + written;
      ghost var k := |received| + |rows| - 1;
      CursorAtRow(db.View(), public, from, reached, held, k);
      assert held[..k + 1] == received + rows && held[k] == rows[|rows| - 1];
      lastEventId, received := Some(rows[|rows| - 1].num), received + rows;
    }

    /** The client holds every row it should see that is past the watermark and still there. */
    ghost predicate HoldsAll(from: int)
      reads this, db
    {
      forall r :: r in db.rows && r.num > from && Shown(public, r.kind) ==> r in received
    }

    /** No connection writes more events than there were rows. */
    lemma WrittenFits(c: Connection)
      requires c.Valid() && c.db == db
      ensures |c.out| <= |db.all|
    {
      assert forall i :: 0 <= i < |c.out| ==> c.out[i] == (c.base + c.out)[|c.base| + i];
      assert forall r :: r in c.out ==> r in c.base + c.out;
      SubsequenceFits(c.out, db.all);
    }

    /** A server that reached the end has written, or the client already held, every row to be shown. */
    lemma NothingLeftOver(c: Connection)
      requires c.Valid() && c.db == db && c.public == public && c.base == received
      requires forall r :: r in db.rows ==> r.num <= c.watermark
      ensures forall r :: r in db.rows && r.num > c.origin && Shown(public, r.kind) ==> r in received + c.out
    {
    }

    /** The client holds every row that was hinted at, that it should see and that is still there. */
    ghost predicate HoldsHints(signals: seq<Signal>, rows: nat)
      reads this, db
    {
      forall i :: 0 <= i < |signals| && Hints(signals, i, rows) ==>
        signals[i].row < |db.all| &&
        var r := db.all[signals[i].row]; r in db.rows && r.num > origin && Shown(public, r.kind) ==> r in received
    }

    lemma FewerHints(signals: seq<Signal>, few: nat, rows: nat)
      requires few <= rows && HoldsHints(signals, rows)
      ensures HoldsHints(signals, few)
    {
    }

    /** A server that is past every hint has written, or the client already held, every row hinted at. */
    lemma HintsAreOut(c: Connection, signals: seq<Signal>, rows: nat)
      requires c.Valid() && c.db == db && c.public == public && c.base == received && c.Passed(signals, |signals|, rows)
      ensures forall i :: 0 <= i < |signals| && Hints(signals, i, rows) ==>
                signals[i].row < |db.all| &&
                var r := db.all[signals[i].row]; r in db.rows && r.num > c.origin && Shown(public, r.kind) ==> r in received + c.out
    {
    }

    /** Nothing but this connection happens, it reaches the client, and it outlasts as many events as there are rows. */
    ghost predicate Lasting(a: Attempt)
      reads db
    {
      a.greeted && a.writes > |db.all| && !HintGone(db.View(), a.signals)
    }

    /** The first events that the server wrote arrive. */
    method Collect(c: Connection, delivered: nat)
      requires Valid() && c.Valid() && c.db == db && c.public == public && c.base == received && c.origin == origin
      modifies this`lastEventId, this`received
      ensures Valid() && old(received) <= received && (old(lastEventId).Some? ==> lastEventId.Some?)
      ensures delivered >= |c.out| ==> received == old(received) + c.out
    {
      hide CursorOk;
      var count := if delivered < |c.out| then delivered else |c.out|;
      assert delivered >= |c.out| ==> c.out[..count] == c.out;
      Receive(c.out[..count], c.out, c.origin, c.watermark);
    }

    /** The server serves; the client gets the first events of what was written. */
    method Attend(c: Connection, a: Attempt) returns (alive: bool)
      requires Valid() && c.Valid() && c.db == db && c.public == public && c.out == []
      requires c.base == received && c.origin == origin
      modifies this`lastEventId, this`received, c, db
      ensures Valid() && Evolves(old(db.View()), db.View()) && old(received) <= received
      ensures old(lastEventId).Some? ==> lastEventId.Some?
      ensures old(db.schedule) == [] && a.signals == [] && a.delivered >= old(c.writes) > |old(db.all)| ==>
                db.View() == old(db.View()) && HoldsAll(origin)
      ensures alive && a.delivered >= old(c.writes) ==> HoldsHints(a.signals, |old(db.all)|)
      ensures old(db.schedule) == [] && old(c.writes) > |db.all| && !HintGone(db.View(), a.signals) ==> alive
    {
      hide CursorOk, Evolves, Shown, Hints, HintGone;
      ghost var t := db.View();
      ghost var quiet := db.schedule == [] && a.signals == [] && a.delivered >= c.writes > |db.all|;
      alive := c.Serve(a.signals);
      WrittenFits(c);
      Survive(t);
      if quiet { NothingLeftOver(c); }
      if alive { HintsAreOut(c, a.signals, |t.all|); }
      Collect(c, a.delivered);
    }

    method ConnectFresh(a: Attempt) returns (alive: bool)
      requires Valid() && lastEventId.None?
      modifies this, db
      ensures Valid() && Evolves(old(db.View()), db.View()) && resets == old(resets)
      ensures old(first).Some? ==> first == old(first)
      ensures old(db.schedule) == [] && a.greeted && old(first).None? ==> first == Some(MaxOf(old(db.rows)))
      ensures alive && a.delivered >= a.writes ==> HoldsHints(a.signals, |old(db.all)|)
      ensures old(db.schedule) == [] && Lasting(a) ==> alive
    {
      hide Shown, Hints, HintGone, Evolves, HoldsHints;
      ghost var t0 := db.View();
      var c := new Connection(db, public, a.writes);
      var opening := c.OpenFresh();
      if !opening.Initial? { return false; }
      ghost var t1 := db.View();
      MoreRows(t0, t1);
      assert c.base + c.out == [];
      if a.greeted {
        OnInitialState(opening.watermark);
        alive := Attend(c, a);
        if alive && a.delivered >= a.writes { FewerHints(a.signals, |t0.all|, |t1.all|); }
      } else {
        var _ := c.Serve(a.signals);
        alive := false;
      }
      EvolvesTransitively(t0, t1, db.View());
    }

    method ConnectAgain(a: Attempt) returns (alive: bool)
      requires Valid() && lastEventId.Some?
      modifies this, db
      ensures Valid() && Evolves(old(db.View()), db.View())
      ensures resets == old(resets) ==> old(received) <= received && first == old(first) && origin == old(origin) && retold == old(retold) && lastEventId.Some?
      ensures old(db.schedule) == [] && Undisturbed(a, |old(db.all)|) && Resumable(old(db.View()), old(lastEventId.value)) ==>
                resets == old(resets) && db.View() == old(db.View()) && HoldsAll(origin)
      ensures alive && a.delivered >= a.writes ==> HoldsHints(a.signals, |old(db.all)|)
      ensures old(db.schedule) == [] && Lasting(a) && Resumable(old(db.View()), old(lastEventId.value)) ==> alive
    {
      hide CursorOk, Evolves, Shown;
      ghost var t0 := db.View();
      var c := new Connection(db, public, a.writes);
      var opening := c.OpenResumed(lastEventId.value, origin, received);
      assert old(db.schedule) == [] && Resumable(t0, lastEventId.value) ==> opening.Resumed?;
      if opening.ResetState? && a.greeted {
        OnResetState();
        return false;
      }
      if !opening.Resumed? { return false; }
      ghost var t1 := db.View();
      MoreRows(t0, t1);
      alive := Attend(c, a);
      EvolvesTransitively(t0, t1, db.View());
    }

    /** One connection, after whatever happened since the last one. Undisturbed, and with an id the
        journal still reaches back to, the client then holds every row it should have seen; and
        while a connection lasts, every row that its live hints name, whatever else is committed. */
    method Connect(a: Attempt) returns (alive: bool)
      requires Valid()
      modifies this, db
      ensures Valid() && Evolves(old(db.View()), db.View())
      ensures resets == old(resets) && old(lastEventId).Some? ==> old(received) <= received && origin == old(origin) && retold == old(retold) && lastEventId.Some?
      ensures old(db.schedule) == [] && Undisturbed(a, |old(db.all)|) && old(lastEventId).Some? && Resumable(old(db.View()), old(lastEventId.value)) ==>
                resets == old(resets) && db.View() == old(db.View()) && HoldsAll(origin)
      ensures alive && a.delivered >= a.writes ==> HoldsHints(a.signals, |old(db.all)| + Appends(a.between))
      ensures old(db.schedule) == [] && Lasting(a) && (old(lastEventId).None? || (a.between == [] && Resumable(old(db.View()), old(lastEventId.value)))) ==> alive
    {
      hide CursorOk, Evolves, Shown, Hints, HintGone;
      ghost var t0 := db.View();
      db.Perform(a.between);
      Survive(t0);
      ghost var t1 := db.View();
      if lastEventId.None? { alive := ConnectFresh(a); } else { alive := ConnectAgain(a); }
      EvolvesTransitively(t0, t1, db.View());
    }

    /** Any number of connections. Unless the server sent a reset, what the client holds is, in
        order and without repeats, every row it should have seen between the watermark and its last
        id that retention has left, and nothing else; that watermark is the first one it was told
        unless it was told a second one, which happens only after a first watermark of 0. */
    method Run(attempts: seq<Attempt>)
      requires Valid() && received == [] && lastEventId.None? && resets == 0
      modifies this, db
      ensures Valid()
      ensures lastEventId.Some? ==>
                && (forall r :: r in Slice(db.rows, public, origin, lastEventId.value) ==> r in received)
                && (forall r :: r in received ==> r in Slice(db.all, public, origin, lastEventId.value))
                && (db.rows == db.all ==> received == Slice(db.all, public, origin, lastEventId.value))
      ensures lastEventId.None? ==> received == []
      ensures first.Some? && !retold ==> origin == first.value
      ensures retold ==> first == Some(0)
    {
      var i := 0;
      while i < |attempts|
        invariant i <= |attempts| && Valid()
      {
        var _ := Connect(attempts[i]);
        i := i + 1;
      }
      if lastEventId.Some? {
        OutputIsSlice(db.View(), public, origin, lastEventId.value, received);
      }
    }
  }

  /** The condition on the first watermark is needed: a client told watermark 0 keeps no id, so a
      credit committed between its first two connections never reaches it. */
  method EmptyJournalLosesCredit() returns (client: Client, credit: Row)
    ensures client.Valid() && client.first == Some(0) && client.resets == 0
    ensures credit in client.db.rows && Shown(client.public, credit.kind) && client.first.value < credit.num
    ensures client.lastEventId == Some(credit.num) && credit !in client.received
  {
    var db := new Store([]);
    client := new Client(db, true);
    GreetClient(client);
    assert client.first == Some(0) && client.lastEventId.None?;
    ApplyOk(db.View(), Append("bank.transaction.credit", "", 0));
    db.Commit(Append("bank.transaction.credit", "", 0));
    credit := Row(1, "bank.transaction.credit", "");
    assert db.rows == [credit] && db.Valid();
    hide Ascending, CursorOk, Ok, Shown;
    GreetClient(client);
  }

  /** A connection that breaks right after its initial state. */
  method GreetClient(client: Client)
    requires client.db.Valid() && client.db.schedule == [] && client.lastEventId.None? && client.received == []
    requires client.first.Some? ==> client.first.value == 0
    modifies client`lastEventId, client`origin, client`first, client`retold, client.db
    ensures client.Valid() && client.db.View() == old(client.db.View()) && client.db.schedule == []
    ensures client.first == if old(client.first).Some? then old(client.first) else Some(MaxOf(client.db.rows))
    ensures client.lastEventId == if MaxOf(client.db.rows) > 0 then Some(MaxOf(client.db.rows)) else None
  {
    var c := new Connection(client.db, client.public, 0);
    var told := c.OpenFresh();
    assert c.base + c.out == [];
    client.OnInitialState(told.watermark);
  }
}
