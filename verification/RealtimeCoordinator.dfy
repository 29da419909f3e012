/**
 The gateway's coordinator (internal/httpapi/realtime_coordinator.go) and the worker's
 journal publisher (internal/realtimestream/journal_publisher.go). Both turn the journal
 into an ordered stream through one cursor; the coordinator also takes live hints, which
 may be lost, repeated, late or out of order.
 */
module RealtimeCoordinator {
  import opened Options
  import opened Journal
  import opened JournalCursor

  const BATCH: nat := 250
  const QUEUE: nat := 256

  /** What happens to a coordinator, in any order. A hint names a committed row by its place in
      the journal's history; `foreign` marks another epoch. */
  datatype Input = Submitted(row: nat, foreign: bool) | TakeHint | TakeRequest | Tick | Others(changes: seq<Change>)

  datatype Hint = Hint(row: Row, foreign: bool)

  class Coordinator {
    const db: Store
    var input: seq<Hint>
    var reconcileNow: bool
    var lastSeq: int
    var published: seq<Row>
    ghost var start: int

    ghost predicate Valid()
      reads this, db
    {
      && db.Valid() && CursorOk(db.View(), false, start, lastSeq, published)
      && |input| <= QUEUE && (forall h :: h in input ==> h.row in db.all)
    }

    /** Run's initialisation, once the high-water mark could be read. */
    constructor (db: Store, watermark: int)
      requires db.Valid() && watermark == MaxOf(db.rows)
      ensures Valid() && this.db == db && lastSeq == start == watermark && published == []
    {
      MaxIsNewest(db.View());
      this.db := db;
      input, reconcileNow, lastSeq, published, start := [], false, watermark, [], watermark;
    }

    method Submit(hint: Hint)
      requires Valid() && hint.row in db.all
      modifies this`input, this`reconcileNow
      ensures Valid()
      ensures input == if |old(input)| < QUEUE then old(input) + [hint] else old(input)
      ensures reconcileNow == (old(reconcileNow) || |old(input)| == QUEUE)
    {
      if |input| < QUEUE { input := input + [hint]; } else { reconcileNow := true; }
    }

    method Publish(row: Row)
      requires Valid() && row in db.all && lastSeq < row.num
      requires forall r :: r in db.rows && lastSeq < r.num ==> row.num <= r.num
      modifies this`published, this`lastSeq
      ensures Valid() && published == old(published) + [row] && lastSeq == row.num
    {
      PublishKeepsCursor(db.View(), false, start, lastSeq, published, row);
      published := published + [row];
      lastSeq := row.num;
    }

    method PublishEntry(batch: seq<Row>, ghost after: int, i: nat)
      requires Valid() && NextRows(batch, db.rows, after) && i < |batch|
      requires lastSeq == if i == 0 then after else batch[i - 1].num
      modifies this`published, this`lastSeq
      ensures Valid() && published == old(published) + [batch[i]] && lastSeq == batch[i].num
    {
      BatchRowIsNext(db.rows, batch, after, i);
      assert batch[i] in batch;
      assert batch[i] in db.rows;
      Publish(batch[i]);
    }

    /** A live hint: late or foreign ones are passed over, the next row is published at once, and
        for a gap the journal is read. Left alone, every surviving row up to the hint is published. */
    method Handle(hint: Hint)
      requires Valid() && hint.row in db.all
      modifies this`published, this`lastSeq, db
      ensures Valid() && old(published) <= published && lastSeq >= old(lastSeq) && input == old(input)
      ensures Evolves(old(db.View()), db.View())
      ensures hint.foreign || hint.row.num <= old(lastSeq) ==> published == old(published) && lastSeq == old(lastSeq)
      ensures !hint.foreign && hint.row.num == old(lastSeq) + 1 ==> published == old(published) + [hint.row] && lastSeq == hint.row.num
      ensures old(db.schedule) == [] ==> db.schedule == []
      ensures old(db.schedule) == [] && !hint.foreign ==> Reached(hint.row.num)
      ensures old(db.schedule) == [] && !hint.foreign && hint.row in old(db.rows) ==> lastSeq >= hint.row.num
    {
      if hint.foreign || hint.row.num <= lastSeq { return; }
      if hint.row.num == lastSeq + 1 {
        Publish(hint.row);
        return;
      }
      Reconcile(hint.row.num);
    }

    lemma Survive(before: Table)
      requires CursorOk(before, false, start, lastSeq, published) && Evolves(before, db.View()) && db.Valid()
      requires |input| <= QUEUE && forall h :: h in input ==> h.row in before.all
      ensures Valid()
    {
      CursorSurvives(before, db.View(), false, start, lastSeq, published);
    }

    /** The high-water mark, while others go on. */
    method MaxSeq() returns (max: Option<int>)
      requires Valid()
      modifies db
      ensures Valid() && Evolves(old(db.View()), db.View())
      ensures max.Some? ==> max.value == MaxOf(db.rows) < db.next
      ensures old(db.schedule) == [] ==> max.Some? && db.View() == old(db.View()) && db.schedule == []
    {
      ghost var before := db.View();
      max := db.GetMaxJournalSeq();
      Survive(before);
      MaxIsNewest(db.View());
    }

    /** A cursor older than retention moves to just before the oldest row. */
    method JumpToRetained() returns (ok: bool)
      requires Valid()
      modifies this`lastSeq, db
      ensures Valid() && Evolves(old(db.View()), db.View()) && lastSeq >= old(lastSeq)
      ensures ok ==> lastSeq >= MinOf(db.rows) - 1 && (lastSeq > old(lastSeq) ==> lastSeq == MinOf(db.rows) - 1)
      ensures old(db.schedule) == [] ==> ok && db.View() == old(db.View()) && db.schedule == []
    {
      ghost var before := db.View();
      var min := db.GetMinJournalSeq();
      Survive(before);
      MaxIsNewest(db.View());
      if min.None? { return false; }
      if min.value > 0 && lastSeq < min.value - 1 {
        JumpKeepsCursor(db.View(), false, start, lastSeq, published, min.value - 1);
        lastSeq := min.value - 1;
      }
      return true;
    }

    /** No row up to the target is still to be published. */
    ghost predicate Reached(target: int)
      reads this, db
    {
      forall r :: r in db.rows && r.num <= target ==> r.num <= lastSeq
    }

    /** An empty read: the target's rows were deleted if the journal has reached it. */
    method FinishEmpty(target: int)
      requires Valid() && target < db.next && lastSeq <= target
      requires forall r :: r in db.rows ==> r.num <= lastSeq
      modifies this`lastSeq, db
      ensures Valid() && lastSeq >= old(lastSeq) && Evolves(old(db.View()), db.View())
      ensures old(db.schedule) == [] ==> db.View() == old(db.View()) && db.schedule == [] && Reached(target)
    {
      ghost var empty := db.View();
      var max := MaxSeq();
      if max.Some? && max.value >= target {
        assert forall r :: r in db.rows && r.num < empty.next ==> r in empty.rows;
        JumpKeepsCursor(db.View(), false, start, lastSeq, published, target);
        lastSeq := target;
      }
    }

    method ReadBatch() returns (read: Option<seq<Row>>)
      requires Valid()
      modifies db
      ensures Valid() && Evolves(old(db.View()), db.View())
      ensures read.Some? ==> NextRows(read.value, db.rows, lastSeq) && read.value == ReadAfter(db.rows, lastSeq, BATCH)
      ensures read == Some([]) ==> forall r :: r in db.rows ==> r.num <= lastSeq
      ensures old(db.schedule) == [] ==> read.Some? && db.View() == old(db.View()) && db.schedule == []
    {
      ghost var before := db.View();
      read := db.ReadJournalEvents(lastSeq, BATCH);
      Survive(before);
      BatchIsComplete(db.rows, lastSeq, BATCH);
    }

    /** A nonempty read: published as far as the target; unless another read is due, that reaches it. */
    method PublishRead(batch: seq<Row>, target: int) returns (more: bool)
      requires Valid() && batch != [] && batch == ReadAfter(db.rows, lastSeq, BATCH) && lastSeq < target
      modifies this`published, this`lastSeq
      ensures Valid() && old(published) <= published && lastSeq >= old(lastSeq)
      ensures more ==> lastSeq > old(lastSeq)
      ensures !more ==> Reached(target)
    {
      hide ReadAfter;
      BatchIsComplete(db.rows, lastSeq, BATCH);
      assert batch[|batch| - 1] in batch;
      ghost var after := lastSeq;
      var all := PublishBatch(batch, target);
      if all && |batch| < BATCH {
        forall r | r in db.rows ensures r.num <= lastSeq {
          if r.num > after { LastOf(batch, r); }
        }
      }
      return all && |batch| >= BATCH;
    }

    /** One read of the recovery loop; it goes on only after a full batch within the target. */
    method RecoverBatch(target: int) returns (more: bool)
      requires Valid() && lastSeq < target < db.next
      modifies this`published, this`lastSeq, db
      ensures Valid() && old(published) <= published && lastSeq >= old(lastSeq) && Evolves(old(db.View()), db.View())
      ensures more ==> lastSeq > old(lastSeq)
      ensures old(db.schedule) == [] ==> db.View() == old(db.View()) && db.schedule == [] && (!more ==> Reached(target))
    {
      ghost var before := db.View();
      var read := ReadBatch();
      if read.None? { return false; }
      if read.value != [] {
        more := PublishRead(read.value, target);
        return more;
      }
      ghost var empty := db.View();
      FinishEmpty(target);
      EvolvesTransitively(before, empty, db.View());
      return false;
    }

    /** Publishes durable rows up to the target, or up to the current high-water mark. Every query
        may fail and others may commit or delete rows before it; the loop ends because the distance
        to the target shrinks. Left alone, it publishes everything up to the target. */
    method Reconcile(wanted: int)
      requires Valid() && wanted < db.next
      modifies this`published, this`lastSeq, db
      ensures Valid() && old(published) <= published && lastSeq >= old(lastSeq) && Evolves(old(db.View()), db.View())
      ensures old(db.schedule) == [] ==> db.schedule == [] && db.View() == old(db.View()) && Reached(if wanted > 0 then wanted else MaxOf(db.rows))
    {
      ghost var quiet := db.schedule == [];
      ghost var t0 := db.View();
      var target := wanted;
      if target <= 0 {
        var max := MaxSeq();
        if max.None? { return; }
        target := max.value;
      }
      ghost var t1 := db.View();
      var ok := JumpToRetained();
      EvolvesTransitively(t0, t1, db.View());
      if !ok { return; }
      while lastSeq < target
        invariant Valid() && old(published) <= published && lastSeq >= old(lastSeq) && target < db.next && Evolves(t0, db.View())
        invariant quiet ==> db.View() == t0 && db.schedule == [] && target == if wanted > 0 then wanted else MaxOf(db.rows)
        decreases target - lastSeq
      {
        ghost var before := db.View();
        var more := RecoverBatch(target);
        EvolvesTransitively(t0, before, db.View());
        if !more { return; }
      }
    }

    /** False when a row past the target ended the work. */
    method PublishBatch(batch: seq<Row>, target: int) returns (all: bool)
      requires Valid() && batch != [] && NextRows(batch, db.rows, lastSeq)
      modifies this`published, this`lastSeq
      ensures Valid() && old(published) <= published && lastSeq >= old(lastSeq)
      ensures if all then lastSeq == batch[|batch| - 1].num else Reached(target)
    {
      ghost var after := lastSeq;
      var i := 0;
      while i < |batch|
        invariant i <= |batch| && Valid() && old(published) <= published && lastSeq >= after
        invariant lastSeq == if i == 0 then after else batch[i - 1].num
      {
        if batch[i].num > target {
          BatchRowIsNext(db.rows, batch, after, i);
          return false;
        }
        PublishEntry(batch, after, i);
        i := i + 1;
      }
      return true;
    }

    /** A hint that was taken in is queued, or recovered by a reconciliation to come, or reached. */
    ghost predicate Promised(h: Hint)
      reads this, db
    {
      h in input || reconcileNow || Reached(h.row.num)
    }

    /** Nothing that arrives later lies behind a committed row. */
    lemma StaysReached(before: Table, rows: seq<Row>, last: int, num: int)
      requires Evolves(before, db.View()) && num < before.next && lastSeq >= last
      requires forall r :: r in before.rows && r.num <= num ==> r.num <= last
      ensures Reached(num)
    {
    }

    lemma RowsStay(a: Table, b: Table)
      requires Evolves(a, b)
      ensures a.all <= b.all
      ensures forall r :: r in a.all ==> r in b.all
    {
    }

    method TakeHint()
      requires Valid() && input != []
      modifies this`input, this`published, this`lastSeq, db
      ensures Valid() && old(published) <= published && lastSeq >= old(lastSeq) && Evolves(old(db.View()), db.View())
      ensures input == old(input)[1..]
      ensures !old(input)[0].foreign && old(input)[0].row.num == old(lastSeq) + 1 ==> published == old(published) + [old(input)[0].row]
      ensures old(db.schedule) == [] ==> db.schedule == [] && (!old(input)[0].foreign ==> Reached(old(input)[0].row.num))
    {
      var hint := input[0];
      input := input[1..];
      Handle(hint);
    }

    /** One round of the select loop. */
    method Take(next: Input)
      requires Valid()
      modifies this, db
      ensures Valid() && start == old(start) && old(published) <= published && lastSeq >= old(lastSeq) && Evolves(old(db.View()), db.View())
      ensures old(db.schedule) == [] ==> db.schedule == []
      ensures old(db.schedule) == [] && (next.Tick? || (next.TakeRequest? && old(reconcileNow))) ==> forall r :: r in db.rows ==> r.num <= lastSeq
      ensures old(db.schedule) == [] && next.TakeHint? && old(input) != [] && !old(input)[0].foreign ==> Reached(old(input)[0].row.num)
      ensures input == if next.TakeHint? && old(input) != [] then old(input)[1..]
                       else if next.Submitted? && next.row < |old(db.all)| && |old(input)| < QUEUE then old(input) + [Hint(old(db.all)[next.row], next.foreign)]
                       else old(input)
      ensures reconcileNow == if next.TakeRequest? then false
                              else old(reconcileNow) || (next.Submitted? && next.row < |old(db.all)| && |old(input)| == QUEUE)
    {
      match next {
        case Submitted(row, foreign) =>
          if row < |db.all| { Submit(Hint(db.all[row], foreign)); }
        case TakeHint =>
          if input != [] { TakeHint(); }
        case TakeRequest =>
          if reconcileNow {
            reconcileNow := false;
            Reconcile(0);
            MaxIsNewest(db.View());
          }
        case Tick =>
          Reconcile(0);
          MaxIsNewest(db.View());
        case Others(changes) =>
          ghost var before := db.View();
          db.Perform(changes);
          Survive(before);
      }
    }

    /** Every current hint that was queued at first or submitted since, about a row committed at first, is promised. */
    ghost predicate Kept(queue: seq<Hint>, inputs: seq<Input>, all: seq<Row>)
      reads this, db
    {
      && (forall h :: h in queue && !h.foreign ==> Promised(h))
      && (forall x :: x in inputs && x.Submitted? && !x.foreign && x.row < |all| ==> Promised(Hint(all[x.row], false)))
    }

    /** While no query fails, no promise is broken. */
    method TakePromised(next: Input, ghost quiet: bool, ghost queue: seq<Hint>, ghost inputs: seq<Input>, ghost all: seq<Row>)
      requires Valid() && all <= db.all && forall h :: h in queue ==> h.row in db.all
      requires quiet ==> db.schedule == [] && Kept(queue, inputs, all)
      modifies this, db
      ensures Valid() && start == old(start) && old(published) <= published && Evolves(old(db.View()), db.View())
      ensures quiet ==> db.schedule == [] && Kept(queue, inputs + [next], all)
      ensures quiet && next.Tick? ==> forall r :: r in db.rows ==> r.num <= lastSeq
      ensures next.TakeHint? ==> |input| == if old(input) == [] then 0 else |old(input)| - 1
      ensures next.TakeRequest? ==> !reconcileNow
    {
      ghost var before, queued, last, request := db.View(), input, lastSeq, reconcileNow;
      Take(next);
      if next.Submitted? && next.row < |before.all| && |queued| < QUEUE {
        assert input[|queued|] == Hint(before.all[next.row], next.foreign);
      }
      if quiet {
        forall h: Hint | h.row in before.all && !h.foreign && old(Promised(h)) ensures Promised(h) {
          if h in queued && h !in input {
            assert next.TakeHint? && h == queued[0];
          } else if h !in queued && !request {
            StaysReached(before, before.rows, last, h.row.num);
          }
        }
      }
    }

    /**
     The select loop, over any inputs. While no query fails and the journal moves only between inputs,
     a tick leaves nothing unpublished, whatever hints were lost before it, and a hint that was taken
     in is queued, about to be recovered, or behind the cursor, however full the queue was. Rounds
     that only take hints empty the queue, and a round that serves the request clears it.
     */
    method Run(inputs: seq<Input>)
      requires Valid()
      modifies this, db
      ensures Valid() && start == old(start) && old(published) <= published
      ensures Evolves(old(db.View()), db.View())
      ensures old(db.schedule) == [] && inputs != [] && inputs[|inputs| - 1].Tick? ==> forall r :: r in db.rows ==> r.num <= lastSeq
      ensures old(db.schedule) == [] ==> Kept(old(input), inputs, old(db.all))
      ensures (forall x :: x in inputs ==> x.TakeHint?) ==> |input| == if |inputs| >= |old(input)| then 0 else |old(input)| - |inputs|
      ensures inputs != [] && inputs[|inputs| - 1].TakeRequest? ==> !reconcileNow
    {
      ghost var t0, queue, quiet := db.View(), input, db.schedule == [];
      assert Kept(queue, [], t0.all);
      assert Evolves(t0, db.View());
      hide CursorOk, Evolves, Reached, Ok;
      var i := 0;
      while i < |inputs|
        invariant i <= |inputs| && Valid() && start == old(start) && old(published) <= published && Evolves(t0, db.View())
        invariant quiet ==> db.schedule == [] && Kept(queue, inputs[..i], t0.all)
        invariant quiet && i > 0 && inputs[i - 1].Tick? ==> forall r :: r in db.rows ==> r.num <= lastSeq
        invariant (forall x :: x in inputs ==> x.TakeHint?) ==> |input| == if i >= |queue| then 0 else |queue| - i
        invariant i > 0 && inputs[i - 1].TakeRequest? ==> !reconcileNow
      {
        ghost var before := db.View();
        RowsStay(t0, before);
        TakePromised(inputs[i], quiet, queue, inputs[..i], t0.all);
        assert inputs[..i] + [inputs[i]] == inputs[..i + 1];
        EvolvesTransitively(t0, before, db.View());
        i := i + 1;
      }
      assert inputs[..|inputs|] == inputs;
    }
  }

  /** The worker's publisher: the same cursor, without hints. */
  class Publisher {
    const db: Store
    var cursor: int
    var published: seq<Row>
    ghost var start: int

    ghost predicate Valid()
      reads this, db
    {
      db.Valid() && CursorOk(db.View(), false, start, cursor, published)
    }

    /** Init, before the worker reports readiness. */
    constructor (db: Store, watermark: int)
      requires db.Valid() && watermark == MaxOf(db.rows)
      ensures Valid() && this.db == db && cursor == start == watermark && published == []
    {
      MaxIsNewest(db.View());
      this.db := db;
      cursor, published, start := watermark, [], watermark;
    }

    method JumpToRetained()
      requires Valid()
      modifies this`cursor, db
      ensures Valid() && Evolves(old(db.View()), db.View()) && cursor >= old(cursor)
      ensures old(db.schedule) == [] ==> db.View() == old(db.View()) && db.schedule == []
    {
      ghost var before := db.View();
      var min := db.GetMinJournalSeq();
      CursorSurvives(before, db.View(), false, start, cursor, published);
      MaxIsNewest(db.View());
      if min.Some? && min.value > 0 && cursor < min.value - 1 {
        JumpKeepsCursor(db.View(), false, start, cursor, published, min.value - 1);
        cursor := min.value - 1;
      }
    }

    method PublishEntry(batch: seq<Row>, ghost after: int, i: nat)
      requires Valid() && NextRows(batch, db.rows, after) && i < |batch|
      requires cursor == if i == 0 then after else batch[i - 1].num
      modifies this`published, this`cursor
      ensures Valid() && published == old(published) + [batch[i]] && cursor == batch[i].num
    {
      BatchRowIsNext(db.rows, batch, after, i);
      assert batch[i] in batch;
      assert batch[i] in db.rows;
      PublishKeepsCursor(db.View(), false, start, cursor, published, batch[i]);
      published := published + [batch[i]];
      if batch[i].num > cursor { cursor := batch[i].num; }
    }

    method PublishBatch(batch: seq<Row>)
      requires Valid() && NextRows(batch, db.rows, cursor)
      modifies this`published, this`cursor
      ensures Valid() && old(published) <= published
      ensures batch != [] ==> cursor == batch[|batch| - 1].num
      ensures batch == [] ==> cursor == old(cursor)
    {
      ghost var after := cursor;
      var i := 0;
      while i < |batch|
        invariant i <= |batch| && Valid() && old(published) <= published
        invariant cursor == if i == 0 then after else batch[i - 1].num
      {
        PublishEntry(batch, after, i);
        i := i + 1;
      }
    }

    method ReadBatch() returns (read: Option<seq<Row>>)
      requires Valid()
      modifies db
      ensures Valid() && Evolves(old(db.View()), db.View())
      ensures read.Some? ==> NextRows(read.value, db.rows, cursor)
      ensures read.Some? && |read.value| < BATCH ==> forall r :: r in db.rows && r.num > cursor ==> r in read.value
      ensures old(db.schedule) == [] ==> read.Some?
    {
      ghost var before := db.View();
      read := db.ReadJournalEvents(cursor, BATCH);
      CursorSurvives(before, db.View(), false, start, cursor, published);
      BatchIsComplete(db.rows, cursor, BATCH);
    }

    /** One batch; true, and only after progress, when another should follow at once. */
    method Process() returns (wake: bool)
      requires Valid()
      modifies this`cursor, this`published, db
      ensures Valid() && old(published) <= published && Evolves(old(db.View()), db.View())
      ensures old(db.schedule) == [] && !wake ==> forall r :: r in db.rows ==> r.num <= cursor
      ensures wake ==> cursor > old(cursor)
    {
      ghost var t0 := db.View();
      JumpToRetained();
      ghost var t1 := db.View();
      var read := ReadBatch();
      EvolvesTransitively(t0, t1, db.View());
      if read.None? { return false; }
      var batch := read.value;
      ghost var after := cursor;
      if batch != [] { assert batch[|batch| - 1] in batch; }
      PublishBatch(batch);
      if |batch| < BATCH {
        forall r | r in db.rows ensures r.num <= cursor {
          if r.num > after { LastOf(batch, r); }
        }
      }
      return |batch| >= BATCH;
    }
  }
}
