/**
 The event journal (internal/storage/journal.go): rows numbered by AUTOINCREMENT, appended
 by transactions and removed by retention. Rows of other epochs take numbers of the same
 sequence, so the numbers of one epoch may have holes from the start.

 A reader works through separate queries. `schedule` lists what the rest of the system does
 before each query and whether the query then fails; `all` is the history of the table.
 */
module Journal {
  import opened Options

  datatype Row = Row(num: int, kind: string, payload: string)

  datatype Table = Table(rows: seq<Row>, all: seq<Row>, next: int)

  ghost predicate Ascending(rows: seq<Row>) {
    forall i, j :: 0 <= i < j < |rows| ==> rows[i].num < rows[j].num
  }

  ghost predicate Ok(t: Table) {
    && Ascending(t.rows) && Ascending(t.all) && 0 < t.next
    && (forall r :: r in t.rows ==> r in t.all)
    && (forall r :: r in t.all ==> 0 < r.num < t.next)
  }

  /** Later states: numbers already given out are never given out again. */
  ghost predicate Evolves(a: Table, b: Table) {
    && a.next <= b.next && a.all <= b.all
    && (forall r :: r in b.rows && r.num < a.next ==> r in a.rows)
  }

  datatype Change = Append(kind: string, payload: string, skip: nat) | Delete(gone: set<int>)

  datatype Round = Round(changes: seq<Change>, fails: bool)

  function Without(rows: seq<Row>, gone: set<int>): (kept: seq<Row>)
    ensures forall r :: r in kept <==> r in rows && r.num !in gone
  {
    if rows == [] then [] else
    var kept := Without(rows[..|rows| - 1], gone);
    if rows[|rows| - 1].num in gone then kept else kept + [rows[|rows| - 1]]
  }

  lemma AppendAscends(rows: seq<Row>, r: Row)
    requires Ascending(rows) && forall i :: 0 <= i < |rows| ==> rows[i].num < r.num
    ensures Ascending(rows + [r])
  {
  }

  lemma PrecedesLast(rows: seq<Row>, r: Row)
    requires Ascending(rows) && rows != [] && r in rows[..|rows| - 1]
    ensures r.num < rows[|rows| - 1].num
  {
  }

  lemma {:induction false} WithoutAscends(rows: seq<Row>, gone: set<int>)
    requires Ascending(rows)
    ensures Ascending(Without(rows, gone))
    decreases |rows|
  {
    if rows != [] {
      var front, last := rows[..|rows| - 1], rows[|rows| - 1];
      var kept := Without(front, gone);
      WithoutAscends(front, gone);
      forall i | 0 <= i < |kept| ensures kept[i].num < last.num { PrecedesLast(rows, kept[i]); }
      AppendAscends(kept, last);
    }
  }

  /** How many rows the changes add. */
  function Appends(changes: seq<Change>): nat {
    if changes == [] then 0 else Appends(changes[..|changes| - 1]) + if changes[|changes| - 1].Append? then 1 else 0
  }

  function Apply(t: Table, c: Change): Table {
    match c
    case Append(kind, payload, skip) =>
      var row := Row(t.next + skip, kind, payload);
      Table(t.rows + [row], t.all + [row], t.next + skip + 1)
    case Delete(gone) => t.(rows := Without(t.rows, gone))
  }

  lemma ApplyOk(t: Table, c: Change)
    requires Ok(t)
    ensures Ok(Apply(t, c)) && Evolves(t, Apply(t, c))
  {
    if c.Delete? { WithoutAscends(t.rows, c.gone); }
    var s := Apply(t, c);
    forall i, j | 0 <= i < j < |s.rows| ensures s.rows[i].num < s.rows[j].num {
      if c.Append? && j == |t.rows| { assert s.rows[i] in t.all; }
    }
    forall i, j | 0 <= i < j < |s.all| ensures s.all[i].num < s.all[j].num {
      if c.Append? && j == |t.all| { assert s.all[i] in t.all; }
    }
  }

  /** How many rows of the table precede the first one past the cursor. */
  function Skipped(rows: seq<Row>, after: int, from: nat := 0): (k: nat)
    requires from <= |rows|
    ensures from <= k <= |rows|
    ensures forall i :: from <= i < k ==> rows[i].num <= after
    ensures k < |rows| ==> rows[k].num > after
    decreases |rows| - from
  {
    if from == |rows| || rows[from].num > after then from else Skipped(rows, after, from + 1)
  }

  /** SELECT … WHERE seq > after ORDER BY seq LIMIT limit. */
  function ReadAfter(rows: seq<Row>, after: int, limit: nat): seq<Row> {
    var k := Skipped(rows, after);
    if |rows| - k <= limit then rows[k..] else rows[k..k + limit]
  }

  function MaxOf(rows: seq<Row>): int {
    if rows == [] then 0 else rows[|rows| - 1].num
  }

  function MinOf(rows: seq<Row>): int {
    if rows == [] then 0 else rows[0].num
  }

  ghost predicate NextRows(batch: seq<Row>, rows: seq<Row>, after: int) {
    && Ascending(batch) && (forall r :: r in batch ==> r in rows && r.num > after)
    && (forall r :: r in rows && r.num > after && batch != [] && r.num <= batch[|batch| - 1].num ==> r in batch)
  }

  /** Row i of the table is row i - k of the batch, as far as the batch goes. */
  lemma RowInBatch(rows: seq<Row>, after: int, limit: nat, i: nat)
    requires Ascending(rows) && i < |rows| && rows[i].num > after
    requires |ReadAfter(rows, after, limit)| < limit || i < Skipped(rows, after) + limit
    ensures rows[i] in ReadAfter(rows, after, limit)
  {
    var k := Skipped(rows, after);
    assert i >= k;
    assert ReadAfter(rows, after, limit)[i - k] == rows[i];
  }

  lemma BatchIsSlice(rows: seq<Row>, after: int, limit: nat, j: nat)
    requires Ascending(rows) && j < |ReadAfter(rows, after, limit)|
    ensures var k := Skipped(rows, after);
      k + j < |rows| && ReadAfter(rows, after, limit)[j] == rows[k + j] && rows[k + j].num > after
  {
    var k := Skipped(rows, after);
    if j > 0 { assert rows[k].num < rows[k + j].num; }
  }

  lemma BatchAscends(rows: seq<Row>, after: int, limit: nat)
    requires Ascending(rows)
    ensures var batch := ReadAfter(rows, after, limit);
      Ascending(batch) && forall r :: r in batch ==> r in rows && r.num > after
  {
    hide ReadAfter;
    var k, batch := Skipped(rows, after), ReadAfter(rows, after, limit);
    forall j | 0 <= j < |batch| ensures k + j < |rows| && batch[j] == rows[k + j] && batch[j].num > after {
      BatchIsSlice(rows, after, limit, j);
    }
  }

  /** A row past the cursor is in a batch that is short or reaches beyond it. */
  lemma RowIsInBatch(rows: seq<Row>, after: int, limit: nat, r: Row)
    requires Ascending(rows) && r in rows && r.num > after
    requires var batch := ReadAfter(rows, after, limit); |batch| < limit || (batch != [] && r.num <= batch[|batch| - 1].num)
    ensures r in ReadAfter(rows, after, limit)
  {
    var i :| 0 <= i < |rows| && rows[i] == r;
    var k, batch := Skipped(rows, after), ReadAfter(rows, after, limit);
    if |batch| >= limit {
      BatchIsSlice(rows, after, limit, |batch| - 1);
      assert i <= k + |batch| - 1;
    }
    RowInBatch(rows, after, limit, i);
  }

  /** A batch is the journal's next rows: nothing between the cursor and its last row is missing. */
  lemma BatchIsComplete(rows: seq<Row>, after: int, limit: nat)
    requires Ascending(rows)
    ensures var batch := ReadAfter(rows, after, limit);
      && NextRows(batch, rows, after)
      && (|batch| < limit ==> forall r :: r in rows && r.num > after ==> r in batch)
  {
    hide ReadAfter;
    var batch := ReadAfter(rows, after, limit);
    BatchAscends(rows, after, limit);
    forall r | r in rows && r.num > after && (|batch| < limit || (batch != [] && r.num <= batch[|batch| - 1].num)) ensures r in batch {
      RowIsInBatch(rows, after, limit, r);
    }
  }

  /** The newest row of a nonempty journal. */
  lemma MaxIsNewest(t: Table)
    requires Ok(t)
    ensures 0 <= MaxOf(t.rows) < t.next
    ensures forall r :: r in t.rows ==> r.num <= MaxOf(t.rows)
    ensures t.rows != [] ==> exists r :: r in t.rows && r.num == MaxOf(t.rows)
    ensures forall r :: r in t.rows ==> MinOf(t.rows) <= r.num
    ensures 0 <= MinOf(t.rows) < t.next
  {
    if t.rows != [] {
      assert t.rows[|t.rows| - 1] in t.all && t.rows[0] in t.all;
    }
  }

  class Store {
    var rows: seq<Row>
    var next: int
    var schedule: seq<Round>
    var all: seq<Row>

    ghost function View(): Table
      reads this
    {
      Table(rows, all, next)
    }

    ghost predicate Valid()
      reads this
    {
      Ok(View())
    }

    constructor (schedule: seq<Round>)
      ensures Valid() && View() == Table([], [], 1) && this.schedule == schedule
    {
      rows, next, this.schedule, all := [], 1, schedule, [];
    }

    method Commit(c: Change)
      requires Valid()
      modifies this`rows, this`all, this`next
      ensures View() == Apply(old(View()), c)
    {
      match c
      case Append(kind, payload, skip) =>
        var row := Row(next + skip, kind, payload);
        rows, all, next := rows + [row], all + [row], next + skip + 1;
      case Delete(gone) =>
        rows := Without(rows, gone);
    }

    method Perform(changes: seq<Change>)
      requires Valid()
      modifies this`rows, this`all, this`next
      ensures Valid() && Evolves(old(View()), View()) && |all| == |old(all)| + Appends(changes)
      ensures changes == [] ==> View() == old(View())
    {
      ghost var start := View();
      var i := 0;
      while i < |changes|
        invariant i <= |changes| && Valid() && Evolves(start, View()) && |all| == |start.all| + Appends(changes[..i])
        invariant changes == [] ==> View() == start
      {
        ghost var before := View();
        assert changes[..i + 1][..i] == changes[..i];
        ApplyOk(before, changes[i]);
        Commit(changes[i]);
        EvolvesTransitively(start, before, View());
        i := i + 1;
      }
      assert changes[..|changes|] == changes;
    }

    /** The others' turn before a query; then the query runs or fails. */
    method Turn() returns (ok: bool)
      requires Valid()
      modifies this
      ensures Valid() && Evolves(old(View()), View())
      ensures schedule == if old(schedule) == [] then [] else old(schedule)[1..]
      ensures old(schedule) == [] ==> ok && View() == old(View())
    {
      if schedule == [] { return true; }
      var round := schedule[0];
      schedule := schedule[1..];
      Perform(round.changes);
      return !round.fails;
    }

    method GetMaxJournalSeq() returns (max: Option<int>)
      requires Valid()
      modifies this
      ensures Valid() && Evolves(old(View()), View())
      ensures max.Some? ==> max.value == MaxOf(rows)
      ensures schedule == if old(schedule) == [] then [] else old(schedule)[1..]
      ensures old(schedule) == [] ==> max.Some? && View() == old(View())
    {
      var ok := Turn();
      return if ok then Some(MaxOf(rows)) else None;
    }

    method GetMinJournalSeq() returns (min: Option<int>)
      requires Valid()
      modifies this
      ensures Valid() && Evolves(old(View()), View())
      ensures min.Some? ==> min.value == MinOf(rows)
      ensures schedule == if old(schedule) == [] then [] else old(schedule)[1..]
      ensures old(schedule) == [] ==> min.Some? && View() == old(View())
    {
      var ok := Turn();
      return if ok then Some(MinOf(rows)) else None;
    }

    method ReadJournalEvents(after: int, limit: nat) returns (batch: Option<seq<Row>>)
      requires Valid()
      modifies this
      ensures Valid() && Evolves(old(View()), View())
      ensures batch.Some? ==> batch.value == ReadAfter(rows, after, limit)
      ensures schedule == if old(schedule) == [] then [] else old(schedule)[1..]
      ensures old(schedule) == [] ==> batch.Some? && View() == old(View())
    {
      var ok := Turn();
      return if ok then Some(ReadAfter(rows, after, limit)) else None;
    }
  }

  lemma EvolvesTransitively(a: Table, b: Table, c: Table)
    requires Evolves(a, b) && Evolves(b, c)
    ensures Evolves(a, c)
  {
    forall r | r in c.rows && r.num < a.next ensures r in a.rows {
      assert r.num < b.next;
      assert r in b.rows;
    }
  }
}
