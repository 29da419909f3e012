/**
 What one reader's cursor over the journal promises, and the steps that keep the promise:
 `out` is everything handed on since the cursor stood at `start`.
 */
module JournalCursor {
  import opened Journal

  /** The public stream shows only credits and voice settings. */
  predicate Shown(public: bool, kind: string) {
    public ==> kind == "bank.transaction.credit" || kind == "voice.settings.changed"
  }

  /** In order, from the journal, and without passing over any shown row that is still there. */
  ghost predicate CursorOk(t: Table, public: bool, start: int, last: int, out: seq<Row>) {
    && Ascending(out) && 0 <= start <= last < t.next
    && (forall r :: r in out ==> r in t.all && start < r.num <= last && Shown(public, r.kind))
    && (forall r :: r in t.rows && start < r.num <= last && Shown(public, r.kind) ==> r in out)
  }

  /** Nothing others commit or delete breaks the promise. */
  lemma CursorSurvives(a: Table, b: Table, public: bool, start: int, last: int, out: seq<Row>)
    requires CursorOk(a, public, start, last, out) && Evolves(a, b)
    ensures CursorOk(b, public, start, last, out)
  {
  }

  /** Moving over numbers that no row carries any more. */
  lemma JumpKeepsCursor(t: Table, public: bool, start: int, last: int, out: seq<Row>, to: int)
    requires CursorOk(t, public, start, last, out) && last <= to < t.next
    requires forall r :: r in t.rows && last < r.num ==> to < r.num
    ensures CursorOk(t, public, start, to, out)
  {
  }

  lemma SameNumberSameRow(t: Table, a: Row, b: Row)
    requires Ok(t) && a in t.all && b in t.all && a.num == b.num
    ensures a == b
  {
    var i :| 0 <= i < |t.all| && t.all[i] == a;
    var j :| 0 <= j < |t.all| && t.all[j] == b;
    assert i == j;
  }

  /** Handing on the next row, found in the journal or named by a hint. */
  lemma PublishKeepsCursor(t: Table, public: bool, start: int, last: int, out: seq<Row>, row: Row)
    requires Ok(t) && CursorOk(t, public, start, last, out) && row in t.all && last < row.num && Shown(public, row.kind)
    requires forall r :: r in t.rows && last < r.num ==> row.num <= r.num
    ensures CursorOk(t, public, start, row.num, out + [row])
  {
    var next := out + [row];
    forall i, j | 0 <= i < j < |next| ensures next[i].num < next[j].num {
      if j == |out| { assert out[i] in out; }
    }
    forall r | r in t.rows && start < r.num <= row.num && Shown(public, r.kind) ensures r in next {
      if r.num > last { SameNumberSameRow(t, r, row); }
    }
  }

  /** Passing over the next row because the stream does not show it. */
  lemma SkipKeepsCursor(t: Table, public: bool, start: int, last: int, out: seq<Row>, row: Row)
    requires Ok(t) && CursorOk(t, public, start, last, out) && row in t.all && last < row.num && !Shown(public, row.kind)
    requires forall r :: r in t.rows && last < r.num ==> row.num <= r.num
    ensures CursorOk(t, public, start, row.num, out)
  {
    forall r | r in t.rows && start < r.num <= row.num && Shown(public, r.kind) ensures r in out {
      if r.num > last { SameNumberSameRow(t, r, row); }
    }
  }

  /** The i-th row of a batch is next once those before it are out. */
  lemma BatchRowIsNext(rows: seq<Row>, batch: seq<Row>, after: int, i: nat)
    requires NextRows(batch, rows, after) && i < |batch|
    ensures var last := if i == 0 then after else batch[i - 1].num;
      last < batch[i].num && forall r :: r in rows && last < r.num ==> batch[i].num <= r.num
  {
    var last := if i == 0 then after else batch[i - 1].num;
    assert batch[i] in batch;
    if i > 0 { assert batch[i - 1] in batch; }
    forall r | r in rows && last < r.num ensures batch[i].num <= r.num {
      if r.num <= batch[|batch| - 1].num {
        var j :| 0 <= j < |batch| && batch[j] == r;
      }
    }
  }

  /** Everything handed on up to some row is what was handed on when that row was. */
  lemma CursorAtRow(t: Table, public: bool, start: int, last: int, out: seq<Row>, k: nat)
    requires CursorOk(t, public, start, last, out) && k < |out|
    ensures CursorOk(t, public, start, out[k].num, out[..k + 1])
  {
    var part := out[..k + 1];
    assert out[k] in out;
    forall r | r in part ensures r in t.all && start < r.num <= out[k].num && Shown(public, r.kind) {
      var i :| 0 <= i < |part| && part[i] == r;
      assert out[i] in out;
    }
    forall r | r in t.rows && start < r.num <= out[k].num && Shown(public, r.kind) ensures r in part {
      var i :| 0 <= i < |out| && out[i] == r;
      assert part[i] == r;
    }
  }

  // ---------------------------------------------------------------- what the promise amounts to

  /** The slice of a table after `start`, up to `last`, that a stream shows. */
  function Slice(rows: seq<Row>, public: bool, start: int, last: int): (r: seq<Row>)
    ensures forall x :: x in r <==> x in rows && start < x.num <= last && Shown(public, x.kind)
  {
    if rows == [] then [] else
    var front := Slice(rows[..|rows| - 1], public, start, last);
    var x := rows[|rows| - 1];
    if start < x.num <= last && Shown(public, x.kind) then front + [x] else front
  }

  lemma {:induction false} SliceAscends(rows: seq<Row>, public: bool, start: int, last: int)
    requires Ascending(rows)
    ensures Ascending(Slice(rows, public, start, last))
    decreases |rows|
  {
    if rows != [] {
      var front := rows[..|rows| - 1];
      SliceAscends(front, public, start, last);
      var head := Slice(front, public, start, last);
      forall i | 0 <= i < |head| ensures head[i].num < rows[|rows| - 1].num {
        assert head[i] in front;
        var j :| 0 <= j < |front| && front[j] == head[i];
        assert rows[j].num < rows[|rows| - 1].num;
      }
    }
  }

  lemma LastOf(a: seq<Row>, x: Row)
    requires Ascending(a) && x in a
    ensures x.num <= a[|a| - 1].num
    ensures x.num == a[|a| - 1].num ==> x == a[|a| - 1]
    ensures x in a[..|a| - 1] <==> x != a[|a| - 1]
  {
    var i :| 0 <= i < |a| && a[i] == x;
    if i < |a| - 1 {
      assert a[i].num < a[|a| - 1].num;
      assert a[..|a| - 1][i] == x;
    }
  }

  lemma HasRow(s: seq<Row>)
    ensures s != [] ==> s[0] in s
  {
  }

  lemma {:induction false} SameRowsSameOrder(a: seq<Row>, b: seq<Row>)
    requires Ascending(a) && Ascending(b) && forall x :: x in a <==> x in b
    ensures a == b
    decreases |a|
  {
    if a == [] {
      HasRow(b);
    } else {
      var x := a[|a| - 1];
      assert x in a && x in b;
      var y := b[|b| - 1];
      assert y in b && y in a;
      LastOf(a, y);
      LastOf(b, x);
      var fa, fb := a[..|a| - 1], b[..|b| - 1];
      forall z ensures z in fa <==> z in fb {
        if z in a { LastOf(a, z); LastOf(b, z); }
      }
      SameRowsSameOrder(fa, fb);
    }
  }

  /** The output lies between the slice that is left and the slice that ever was; where
      retention deleted nothing it is exactly the slice. */
  lemma OutputIsSlice(t: Table, public: bool, start: int, last: int, out: seq<Row>)
    requires Ok(t) && CursorOk(t, public, start, last, out)
    ensures forall r :: r in Slice(t.rows, public, start, last) ==> r in out
    ensures forall r :: r in out ==> r in Slice(t.all, public, start, last)
    ensures t.rows == t.all ==> out == Slice(t.all, public, start, last)
  {
    if t.rows == t.all {
      SliceAscends(t.all, public, start, last);
      SameRowsSameOrder(out, Slice(t.all, public, start, last));
    }
  }
}
