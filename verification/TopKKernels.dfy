/** The selection kernels over arrays: two passes of (row, tile) programs that run in any order within a launch. */
module TopKKernels {
  import opened TopK

  const BLOCK := 1024

  /** A call: rows of n scores each, k places per row. */
  datatype Problem = Problem(rows: seq<Row>, n: nat, k: nat, inf: int)

  ghost predicate Posed(p: Problem) {
    p.k > 0 && forall r :: 0 <= r < |p.rows| ==>
      Sound(p.rows[r]) && |p.rows[r].scores| == p.n && Bounded(p.rows[r], p.inf)
  }

  function Tiles(n: nat): nat {
    (n + BLOCK - 1) / BLOCK
  }

  /** The tiles hold all columns, the last one at least one. */
  lemma TilesHold(n: nat)
    ensures n <= 1024 * Tiles(n) && (n > 0 ==> 1024 * (Tiles(n) - 1) < n) && (n == 0 ==> Tiles(n) == 0)
  {
  }

  ghost predicate Sized(p: Problem, output: array2<int>, counts: array3<int>, thresholds: array<int>) {
    && output.Length0 == |p.rows| && output.Length1 == p.k
    && counts.Length0 == |p.rows| && counts.Length1 == Tiles(p.n) && counts.Length2 == 2
    && thresholds.Length == |p.rows|
  }

  /** The ids a row of the output holds. */
  ghost function Ids(output: array2<int>, r: nat): seq<int>
    requires r < output.Length0
    reads output
  {
    seq(output.Length1, (j: nat) requires j < output.Length1 reads output => output[r, j])
  }

  ghost function Rows(output: array2<int>): (rows: seq<seq<int>>)
    reads output
    ensures |rows| == output.Length0 && forall r :: 0 <= r < |rows| ==> rows[r] == Ids(output, r)
  {
    seq(output.Length0, (r: nat) requires r < output.Length0 reads output => Ids(output, r))
  }

  /** The selections the output holds before the call are exact. */
  ghost predicate Selected(p: Problem, picks: seq<seq<int>>) {
    |picks| == |p.rows| && forall r :: 0 <= r < |p.rows| ==> Exact(p.rows[r], picks[r], p.k)
  }

  ghost function RowThreshold(p: Problem, picks: seq<seq<int>>, r: nat): int
    requires Posed(p) && |picks| == |p.rows| && r < |p.rows|
  {
    Threshold(p.rows[r], picks[r], p.inf)
  }

  ghost function RowKeep(p: Problem, picks: seq<seq<int>>, r: nat): int -> bool
    requires Posed(p) && |picks| == |p.rows| && r < |p.rows|
  {
    var t := RowThreshold(p, picks, r);
    Keep(p.rows[r], t, TieSlots(p.rows[r], t, p.k))
  }

  /** A launch runs every program of its grid, in some order. */
  ghost predicate Covers(order: seq<(nat, nat)>, rows: nat, tiles: nat) {
    && (forall i :: 0 <= i < |order| ==> order[i].0 < rows && order[i].1 < tiles)
    && (forall r: nat, t: nat :: r < rows && t < tiles ==> (r, t) in order)
  }

  // ---- first pass ----

  /** The minimum over the selector's picks. */
  method LeastPicked(p: Problem, output: array2<int>, r: nat) returns (threshold: int)
    requires Posed(p) && r < |p.rows| && output.Length0 == |p.rows|
    ensures threshold == Threshold(p.rows[r], Ids(output, r), p.inf)
  {
    var row := p.rows[r];
    ghost var ids := Ids(output, r);
    threshold := p.inf;
    var i := 0;
    while i < output.Length1
      invariant 0 <= i <= output.Length1
      invariant threshold == Threshold(row, ids[..i], p.inf)
    {
      var id := output[r, i];
      assert id == ids[i];
      if id >= 0 && row.start + id < row.end {
        threshold := Min(threshold, row.scores[row.start + id]);
      }
      assert ids[..i + 1][..i] == ids[..i];
      i := i + 1;
    }
    assert ids[..i] == ids;
  }

  /** The two counts of one tile are right for a threshold. */
  ghost predicate Counted(p: Problem, counts: array3<int>, r: nat, tile: nat, threshold: int)
    requires r < |p.rows| && r < counts.Length0 && tile < counts.Length1 && counts.Length2 == 2
    reads counts
  {
    && counts[r, tile, 0] == Count(Greater(p.rows[r], threshold), tile * BLOCK, (tile + 1) * BLOCK)
    && counts[r, tile, 1] == Count(Equal(p.rows[r], threshold), tile * BLOCK, (tile + 1) * BLOCK)
  }

  method CountTile(p: Problem, counts: array3<int>, r: nat, tile: nat, threshold: int)
    requires Posed(p) && r < |p.rows|
    requires counts.Length0 == |p.rows| && counts.Length1 == Tiles(p.n) && counts.Length2 == 2 && tile < Tiles(p.n)
    modifies counts
    ensures Counted(p, counts, r, tile, threshold)
    ensures forall r', t', i :: 0 <= r' < |p.rows| && 0 <= t' < Tiles(p.n) && 0 <= i < 2 && (r', t') != (r, tile) ==>
      counts[r', t', i] == old(counts[r', t', i])
  {
    var row := p.rows[r];
    var greater, equal := 0, 0;
    var c := tile * BLOCK;
    while c < (tile + 1) * BLOCK
      invariant tile * BLOCK <= c <= (tile + 1) * BLOCK
      invariant greater == Count(Greater(row, threshold), tile * BLOCK, c)
      invariant equal == Count(Equal(row, threshold), tile * BLOCK, c)
    {
      if c < p.n && row.start <= c < row.end {
        if row.scores[c] > threshold { greater := greater + 1; }
        if row.scores[c] == threshold { equal := equal + 1; }
      }
      c := c + 1;
    }
    counts[r, tile, 0] := greater;
    counts[r, tile, 1] := equal;
  }

  /** Fused first pass: threshold and counts of one tile. */
  method Counts(p: Problem, output: array2<int>, counts: array3<int>, thresholds: array<int>, r: nat, tile: nat)
    requires Posed(p) && Sized(p, output, counts, thresholds) && r < |p.rows| && tile < Tiles(p.n)
    modifies counts, thresholds
    ensures var t := Threshold(p.rows[r], Ids(output, r), p.inf);
      && Counted(p, counts, r, tile, t)
      && thresholds[..] == if tile == 0 then old(thresholds[..])[r := t] else old(thresholds[..])
    ensures forall r', t', i :: 0 <= r' < |p.rows| && 0 <= t' < Tiles(p.n) && 0 <= i < 2 && (r', t') != (r, tile) ==>
      counts[r', t', i] == old(counts[r', t', i])
  {
    var threshold := LeastPicked(p, output, r);
    if tile == 0 {
      thresholds[r] := threshold;
    }
    CountTile(p, counts, r, tile, threshold);
  }

  /** First pass over rows whose threshold is known; tiles past the row's end return at once. */
  method CountsThr(p: Problem, counts: array3<int>, thresholds: array<int>, r: nat, tile: nat)
    requires Posed(p) && r < |p.rows| && tile < Tiles(p.n) && thresholds.Length == |p.rows|
    requires counts.Length0 == |p.rows| && counts.Length1 == Tiles(p.n) && counts.Length2 == 2
    modifies counts
    ensures Runs(p, r, tile, true) ==> Counted(p, counts, r, tile, thresholds[r])
    ensures forall r', t', i :: 0 <= r' < |p.rows| && 0 <= t' < Tiles(p.n) && 0 <= i < 2 && (r', t') != (r, tile) ==>
      counts[r', t', i] == old(counts[r', t', i])
  {
    if !(tile > 0 && tile * BLOCK >= p.rows[r].end) {
      CountTile(p, counts, r, tile, thresholds[r]);
    }
  }

  /** Whether a program does any work: without the skip always, with it unless its tile lies past the row's end. */
  predicate Runs(p: Problem, r: nat, tile: nat, skip: bool)
    requires r < |p.rows|
  {
    skip ==> tile == 0 || tile * BLOCK < p.rows[r].end
  }

  /** How many tiles' counts the second pass reads. */
  function LiveTiles(p: Problem, r: nat, skip: bool): nat
    requires r < |p.rows|
  {
    if skip then Max(Min((p.rows[r].end + BLOCK - 1) / BLOCK, Tiles(p.n)), 1) else Tiles(p.n)
  }

  /** Every program of the first pass that works has counted. */
  ghost predicate FirstPass(p: Problem, picks: seq<seq<int>>, counts: array3<int>, thresholds: array<int>, skip: bool)
    requires Posed(p) && |picks| == |p.rows|
    requires counts.Length0 == |p.rows| && counts.Length1 == Tiles(p.n) && counts.Length2 == 2
      && thresholds.Length == |p.rows|
    reads counts, thresholds
  {
    && (forall r :: 0 <= r < |p.rows| ==> thresholds[r] == RowThreshold(p, picks, r))
    && (forall r, t :: 0 <= r < |p.rows| && 0 <= t < Tiles(p.n) && Runs(p, r, t, skip) ==>
      Counted(p, counts, r, t, RowThreshold(p, picks, r)))
  }

  // ---- second pass ----

  /** Sums over the tiles whose counts are read: all of them, and those before this one. */
  method SumTiles(p: Problem, counts: array3<int>, r: nat, tile: nat, live: nat, ghost threshold: int, skip: bool)
    returns (total: nat, before: nat, equalBefore: nat)
    requires Posed(p) && r < |p.rows| && tile < Tiles(p.n) && live == LiveTiles(p, r, skip) && Runs(p, r, tile, skip)
    requires counts.Length0 == |p.rows| && counts.Length1 == Tiles(p.n) && counts.Length2 == 2
    requires forall t :: 0 <= t < Tiles(p.n) && Runs(p, r, t, skip) ==> Counted(p, counts, r, t, threshold)
    ensures total == Count(Greater(p.rows[r], threshold), 0, p.n)
    ensures before == Count(Greater(p.rows[r], threshold), 0, tile * BLOCK)
    ensures equalBefore == Count(Equal(p.rows[r], threshold), 0, tile * BLOCK)
  {
    var row := p.rows[r];
    total, before, equalBefore := 0, 0, 0;
    var t := 0;
    while t < live
      invariant 0 <= t <= live
      invariant total == Count(Greater(row, threshold), 0, t * BLOCK)
      invariant before == Count(Greater(row, threshold), 0, Min(t, tile) * BLOCK)
      invariant equalBefore == Count(Equal(row, threshold), 0, Min(t, tile) * BLOCK)
    {
      hide Count, Bounded;
      assert Counted(p, counts, r, t, threshold);
      CountJoins(Greater(row, threshold), 0, t * BLOCK, (t + 1) * BLOCK);
      CountJoins(Equal(row, threshold), 0, t * BLOCK, (t + 1) * BLOCK);
      total := total + counts[r, t, 0];
      if t < tile {
        before := before + counts[r, t, 0];
        equalBefore := equalBefore + counts[r, t, 1];
      }
      t := t + 1;
    }
    PastTheRow(row, Greater(row, threshold), live * BLOCK, p.n);
  }

  /** Tiles that are not read hold no column of the row. */
  lemma PastTheRow(row: Row, f: int -> bool, from: nat, n: nat)
    requires Sound(row) && |row.scores| == n && from >= row.end
    requires forall c :: f(c) ==> Valid(row, c)
    ensures Count(f, 0, from) == Count(f, 0, n)
  {
    if from <= n {
      CountJoins(f, 0, from, n);
      CountNone(f, from, n);
    } else {
      CountJoins(f, 0, n, from);
      CountNone(f, n, from);
    }
  }

  /** Places may have changed, but only to the value meant for them. */
  ghost predicate OnlySettled(before: seq<seq<int>>, after: seq<seq<int>>, goals: seq<seq<int>>) {
    && |before| == |after| == |goals|
    && (forall r :: 0 <= r < |goals| ==> RowOnlySettled(before[r], after[r], goals[r]))
  }

  ghost predicate RowOnlySettled(before: seq<int>, after: seq<int>, goal: seq<int>) {
    |before| == |after| == |goal| && forall j :: 0 <= j < |goal| ==> after[j] == before[j] || after[j] == goal[j]
  }

  ghost predicate Goals(p: Problem, picks: seq<seq<int>>, output: array2<int>, goals: seq<seq<int>>)
    requires Posed(p) && |picks| == |p.rows|
  {
    && output.Length0 == |p.rows| == |goals| && output.Length1 == p.k
    && (forall r :: 0 <= r < |p.rows| ==> |goals[r]| == p.k && Goal(p.rows[r], RowKeep(p, picks, r), goals[r]))
  }

  /** The kept columns from lo up to hi are in their places. */
  ghost predicate Placed(ids: seq<int>, row: Row, keep: int -> bool, lo: int, hi: int) {
    forall c :: lo <= c < hi && c < |row.scores| && keep(c) ==>
      0 <= Count(keep, 0, c) < |ids| && ids[Count(keep, 0, c)] == c - row.start
  }

  ghost predicate TailFilled(ids: seq<int>, row: Row) {
    forall j :: Max(0, Min(|ids|, Len(row))) <= j < |ids| ==> ids[j] == -1
  }

  /** The places a scatter program writes. */
  ghost predicate TileSettled(p: Problem, picks: seq<seq<int>>, ids: seq<int>, r: nat, tile: nat)
    requires Posed(p) && |picks| == |p.rows| && r < |p.rows|
  {
    && Placed(ids, p.rows[r], RowKeep(p, picks, r), tile * BLOCK, (tile + 1) * BLOCK)
    && (tile == 0 ==> TailFilled(ids, p.rows[r]))
  }

  ghost predicate Fitting(output: array2<int>, goals: seq<seq<int>>) {
    output.Length0 == |goals| && forall r :: 0 <= r < |goals| ==> |goals[r]| == output.Length1
  }

  /** Stores one place. */
  method Store(output: array2<int>, r: nat, j: nat, v: int)
    requires r < output.Length0 && j < output.Length1
    modifies output
    ensures Rows(output) == old(Rows(output))[r := old(Ids(output, r))[j := v]]
  {
    ghost var before := Rows(output);
    output[r, j] := v;
    assert Ids(output, r) == before[r][j := v];
    assert forall q :: 0 <= q < output.Length0 && q != r ==> Ids(output, q) == before[q];
  }

  lemma StoreSettled(before: seq<seq<int>>, mid: seq<seq<int>>, goals: seq<seq<int>>, r: nat, j: nat)
    requires OnlySettled(before, mid, goals) && r < |goals| && j < |goals[r]|
    ensures OnlySettled(before, mid[r := mid[r][j := goals[r][j]]], goals)
  {
    var after := mid[r := mid[r][j := goals[r][j]]];
    forall q | 0 <= q < |goals|
      ensures RowOnlySettled(before[q], after[q], goals[q])
    {
      assert RowOnlySettled(before[q], mid[q], goals[q]);
    }
  }

  /** A place that a kept column from lo up to hi goes to. */
  ghost predicate GoesTo(row: Row, keep: int -> bool, lo: int, hi: int, j: int) {
    exists c :: lo <= c < hi && 0 <= c < |row.scores| && keep(c) && Count(keep, 0, c) == j
  }

  /** Only places of one row have been written: those of its kept columns from lo up to hi, and those past the tail. */
  ghost predicate Writes(before: seq<seq<int>>, after: seq<seq<int>>, row: Row, keep: int -> bool, r: nat, lo: int,
                         hi: int, tail: int) {
    && r < |before| == |after| && |after[r]| == |before[r]|
    && (forall q :: 0 <= q < |before| && q != r ==> after[q] == before[q])
    && (forall j :: 0 <= j < |after[r]| ==> after[r][j] == before[r][j] || GoesTo(row, keep, lo, hi, j) || tail <= j)
  }

  lemma WritesNext(before: seq<seq<int>>, mid: seq<seq<int>>, row: Row, keep: int -> bool, r: nat, lo: int, c: int,
                   tail: int, v: int)
    requires Writes(before, mid, row, keep, r, lo, c, tail) && lo <= c && 0 <= c < |row.scores|
    requires keep(c) && Count(keep, 0, c) < |mid[r]|
    ensures Writes(before, mid[r := mid[r][Count(keep, 0, c) := v]], row, keep, r, lo, c + 1, tail)
  {
    hide Count;
    WritesSkip(before, mid, row, keep, r, lo, c, tail);
    assert GoesTo(row, keep, lo, c + 1, Count(keep, 0, c));
  }

  lemma WritesSkip(before: seq<seq<int>>, mid: seq<seq<int>>, row: Row, keep: int -> bool, r: nat, lo: int, c: int,
                   tail: int)
    requires Writes(before, mid, row, keep, r, lo, c, tail)
    ensures Writes(before, mid, row, keep, r, lo, c + 1, tail)
  {
    hide Count;
    forall j | 0 <= j < |mid[r]| && GoesTo(row, keep, lo, c, j)
      ensures GoesTo(row, keep, lo, c + 1, j)
    {
      var d :| lo <= d < c && 0 <= d < |row.scores| && keep(d) && Count(keep, 0, d) == j;
    }
  }

  /** Two programs of the second pass never write the same place: another row's program writes another row, and of one
      row's tiles only one has the column that goes to a place, while the tail, which tile 0 fills, is no column's. */
  lemma WritesAreDisjoint(row: Row, keep: int -> bool, goal: seq<int>, tile: nat, other: nat, j: int)
    requires Sound(row) && Goal(row, keep, goal) && tile != other
    requires forall c :: 0 <= c < |row.scores| && keep(c) ==> Valid(row, c)
    requires GoesTo(row, keep, tile * BLOCK, (tile + 1) * BLOCK, j)
    ensures !GoesTo(row, keep, other * BLOCK, (other + 1) * BLOCK, j)
    ensures 0 <= j < Min(|goal|, Len(row))
  {
    var c :| tile * BLOCK <= c < (tile + 1) * BLOCK && 0 <= c < |row.scores| && keep(c) && Count(keep, 0, c) == j;
    GoalAt(row, keep, goal, c);
    forall d | other * BLOCK <= d < (other + 1) * BLOCK && 0 <= d < |row.scores| && keep(d)
      ensures Count(keep, 0, d) != j
    {
      if c < d { KeptBelow(keep, c, d); } else { KeptBelow(keep, d, c); }
    }
  }

  /** A tile up to column c: what was written is meant for its place, the kept columns are in theirs, and nothing else
      has been written. */
  ghost predicate Scattered(start: seq<seq<int>>, now: seq<seq<int>>, goals: seq<seq<int>>, row: Row, keep: int -> bool,
                            r: nat, lo: int, c: int) {
    && OnlySettled(start, now, goals) && r < |now|
    && Placed(now[r], row, keep, lo, c) && Writes(start, now, row, keep, r, lo, c, |now[r]|)
  }

  lemma ScatteredNone(start: seq<seq<int>>, goals: seq<seq<int>>, row: Row, keep: int -> bool, r: nat, lo: nat)
    requires r < |start| == |goals| && forall i :: 0 <= i < |start| ==> |start[i]| == |goals[i]|
    ensures Scattered(start, start, goals, row, keep, r, lo, lo)
  {
  }

  lemma ScatteredIs(start: seq<seq<int>>, now: seq<seq<int>>, goals: seq<seq<int>>, row: Row, keep: int -> bool, r: nat,
                    lo: int, c: int)
    requires Scattered(start, now, goals, row, keep, r, lo, c)
    ensures r < |now| && OnlySettled(start, now, goals) && Placed(now[r], row, keep, lo, c)
    ensures Writes(start, now, row, keep, r, lo, c, |now[r]|)
  {
  }

  lemma ScatteredNext(start: seq<seq<int>>, mid: seq<seq<int>>, goals: seq<seq<int>>, row: Row, keep: int -> bool,
                      r: nat, lo: nat, c: nat)
    requires Scattered(start, mid, goals, row, keep, r, lo, c) && lo <= c < |row.scores| && r < |goals|
    requires keep(c) && Count(keep, 0, c) < |goals[r]| && goals[r][Count(keep, 0, c)] == c - row.start
    ensures Count(keep, 0, c) < |mid[r]|
    ensures Scattered(start, mid[r := mid[r][Count(keep, 0, c) := c - row.start]], goals, row, keep, r, lo, c + 1)
  {
    assert RowOnlySettled(start[r], mid[r], goals[r]);
    StoreSettled(start, mid, goals, r, Count(keep, 0, c));
    hide OnlySettled, Count, Placed, Writes;
    PlaceNext(mid[r], row, keep, lo, c);
    WritesNext(start, mid, row, keep, r, lo, c, |mid[r]|, c - row.start);
  }

  lemma ScatteredSkip(start: seq<seq<int>>, mid: seq<seq<int>>, goals: seq<seq<int>>, row: Row, keep: int -> bool,
                      r: nat, lo: nat, c: nat)
    requires Scattered(start, mid, goals, row, keep, r, lo, c) && lo <= c && (c >= |row.scores| || !keep(c))
    ensures Scattered(start, mid, goals, row, keep, r, lo, c + 1)
  {
    hide OnlySettled, Count, Placed, Writes;
    PlaceSkip(mid[r], row, keep, lo, c);
    WritesSkip(start, mid, row, keep, r, lo, c, |mid[r]|);
  }

  /** The columns of one tile, in order: ties are counted on, kept columns go to the next place. */
  method ScatterTile(row: Row, ghost goals: seq<seq<int>>, ghost keep: int -> bool, output: array2<int>, r: nat,
                     tile: nat,
                     threshold: int, ties: nat, equalBefore: nat, offset: nat)
    requires Sound(row) && r < output.Length0 && Fitting(output, goals)
    requires keep == Keep(row, threshold, ties) && Goal(row, keep, goals[r])
    requires equalBefore == Count(Equal(row, threshold), 0, tile * BLOCK) && offset == Count(keep, 0, tile * BLOCK)
    modifies output
    ensures OnlySettled(old(Rows(output)), Rows(output), goals)
    ensures Placed(Ids(output, r), row, keep, tile * BLOCK, (tile + 1) * BLOCK)
    ensures Writes(old(Rows(output)), Rows(output), row, keep, r, tile * BLOCK, (tile + 1) * BLOCK, output.Length1)
  {
    ghost var start := Rows(output);
    ScatteredNone(start, goals, row, keep, r, tile * BLOCK);
    hide Scattered, Goal, Count, Keep, Equal, Placed, Writes, OnlySettled;
    var rank, dest := equalBefore, offset;
    var c := tile * BLOCK;
    while c < (tile + 1) * BLOCK
      invariant tile * BLOCK <= c <= (tile + 1) * BLOCK
      invariant rank == Count(Equal(row, threshold), 0, c) && dest == Count(keep, 0, c)
      invariant Scattered(start, Rows(output), goals, row, keep, r, tile * BLOCK, c)
    {
      ghost var mid := Rows(output);
      CountNext(Equal(row, threshold), c);
      CountNext(keep, c);
      KeepIs(row, threshold, ties, c);
      if c < |row.scores| && row.start <= c < row.end {
        if row.scores[c] == threshold { rank := rank + 1; }
        if row.scores[c] > threshold || (row.scores[c] == threshold && rank <= ties) {
          assert keep(c);
          GoalAt(row, keep, goals[r], c);
          if dest < output.Length1 { Store(output, r, dest, c - row.start); }
          ScatteredNext(start, mid, goals, row, keep, r, tile * BLOCK, c);
          dest := dest + 1;
        } else {
          ScatteredSkip(start, mid, goals, row, keep, r, tile * BLOCK, c);
        }
      } else {
        ScatteredSkip(start, mid, goals, row, keep, r, tile * BLOCK, c);
      }
      c := c + 1;
    }
    ScatteredIs(start, Rows(output), goals, row, keep, r, tile * BLOCK, c);
  }

  lemma CountNext(f: int -> bool, c: nat)
    ensures Count(f, 0, c + 1) == Count(f, 0, c) + if f(c) then 1 else 0
  {
  }

  lemma KeepIs(row: Row, threshold: int, ties: nat, c: int)
    ensures Equal(row, threshold)(c) <==> Valid(row, c) && row.scores[c] == threshold
    ensures Keep(row, threshold, ties)(c) <==>
      Valid(row, c) && (row.scores[c] > threshold
        || (row.scores[c] == threshold && Count(Equal(row, threshold), 0, c + 1) <= ties))
  {
  }

  lemma GoalAt(row: Row, keep: int -> bool, goal: seq<int>, c: int)
    requires Goal(row, keep, goal) && 0 <= c < |row.scores| && keep(c)
    ensures Count(keep, 0, c) < |goal| && goal[Count(keep, 0, c)] == c - row.start
  {
  }

  lemma PlaceSkip(ids: seq<int>, row: Row, keep: int -> bool, lo: nat, c: nat)
    requires lo <= c && Placed(ids, row, keep, lo, c) && (c >= |row.scores| || !keep(c))
    ensures Placed(ids, row, keep, lo, c + 1)
  {
  }

  lemma PlaceNext(ids: seq<int>, row: Row, keep: int -> bool, lo: nat, c: nat)
    requires lo <= c && Placed(ids, row, keep, lo, c) && keep(c) && Count(keep, 0, c) < |ids|
    ensures Placed(ids[Count(keep, 0, c) := c - row.start], row, keep, lo, c + 1)
  {
    KeptBelow(keep, lo, c);
  }

  /** Earlier kept columns have earlier places. */
  lemma KeptBelow(keep: int -> bool, lo: int, c: int)
    requires 0 <= lo <= c
    ensures forall d :: lo <= d < c && keep(d) ==> Count(keep, 0, d) < Count(keep, 0, c)
  {
    forall d | lo <= d < c && keep(d)
      ensures Count(keep, 0, d) < Count(keep, 0, c)
    {
      CountJoins(keep, 0, d + 1, c);
    }
  }

  lemma NothingWritten(rows: seq<seq<int>>, row: Row, keep: int -> bool, r: nat, lo: int, hi: int, tail: int)
    requires r < |rows|
    ensures Writes(rows, rows, row, keep, r, lo, hi, tail)
  {
  }

  lemma TailWrites(start: seq<seq<int>>, mid: seq<seq<int>>, after: seq<seq<int>>, row: Row, keep: int -> bool, r: nat,
                   lo: int, hi: int,
                   k: int, tail: int)
    requires Writes(start, mid, row, keep, r, lo, hi, k) && |after| == |mid| && |after[r]| == |mid[r]| <= k
      && 0 <= tail <= |mid[r]|
    requires after[r][..tail] == mid[r][..tail] && forall q :: 0 <= q < |mid| && q != r ==> after[q] == mid[q]
    ensures Writes(start, after, row, keep, r, lo, hi, tail)
  {
    hide GoesTo;
    forall j | 0 <= j < tail
      ensures after[r][j] == mid[r][j]
    {
      assert after[r][..tail][j] == mid[r][..tail][j];
    }
  }

  /** One program of the second pass: whatever it writes is meant for its place, and it writes all that is its own. */
  method Scatter(p: Problem, ghost picks: seq<seq<int>>, ghost goals: seq<seq<int>>, output: array2<int>,
                 counts: array3<int>,
                 thresholds: array<int>, r: nat, tile: nat, skip: bool)
    requires Posed(p) && Sized(p, output, counts, thresholds) && r < |p.rows| && tile < Tiles(p.n)
    requires |picks| == |p.rows| && FirstPass(p, picks, counts, thresholds, skip) && Goals(p, picks, output, goals)
    modifies output
    ensures OnlySettled(old(Rows(output)), Rows(output), goals)
    ensures TileSettled(p, picks, Ids(output, r), r, tile)
    ensures Writes(old(Rows(output)), Rows(output), p.rows[r], RowKeep(p, picks, r), r, tile * BLOCK,
      (tile + 1) * BLOCK,
                   if tile == 0 then Min(p.k, Len(p.rows[r])) else p.k)
  {
    ghost var start := Rows(output);
    var row, threshold := p.rows[r], thresholds[r];
    ghost var keep := RowKeep(p, picks, r);
    var ran := !(skip && tile > 0 && tile * BLOCK >= row.end);
    if ran {
      var total, before, equalBefore := SumTiles(p, counts, r, tile, LiveTiles(p, r, skip), threshold, skip);
      var ties := Max(0, p.k - total);
      CountKept(row, threshold, ties, tile * BLOCK);
      hide Counted, Count, Bounded, Goal, Posed, FirstPass;
      ScatterTile(row, goals, keep, output, r, tile, threshold, ties, equalBefore, before + Min(equalBefore, ties));
    }
    hide Writes, OnlySettled, Placed, Posed, FirstPass, Goal;
    ghost var mid := Rows(output);
    if !ran { NothingWritten(mid, row, keep, r, tile * BLOCK, (tile + 1) * BLOCK, p.k); }
    if tile == 0 {
      FillTail(row, goals, keep, output, r, tile);
      TailWrites(start, mid, Rows(output), row, keep, r, tile * BLOCK, (tile + 1) * BLOCK, p.k, Min(p.k, Len(row)));
    }
  }

  /** The places past the selection become -1. */
  method FillTail(row: Row, ghost goals: seq<seq<int>>, ghost keep: int -> bool, output: array2<int>, r: nat,
                  ghost tile: nat)
    requires Sound(row) && r < output.Length0 && Fitting(output, goals)
    requires Goal(row, keep, goals[r]) && Placed(Ids(output, r), row, keep, tile * BLOCK, (tile + 1) * BLOCK)
    modifies output
    ensures OnlySettled(old(Rows(output)), Rows(output), goals)
    ensures Placed(Ids(output, r), row, keep, tile * BLOCK, (tile + 1) * BLOCK) && TailFilled(Ids(output, r), row)
    ensures Ids(output, r)[..Min(output.Length1, Len(row))] == old(Ids(output, r))[..Min(output.Length1, Len(row))]
    ensures forall q :: 0 <= q < output.Length0 && q != r ==> Ids(output, q) == old(Ids(output, q))
  {
    ghost var start := Rows(output);
    var from := Min(output.Length1, Len(row));
    var j := from;
    while j < output.Length1
      invariant from <= j <= output.Length1
      invariant OnlySettled(start, Rows(output), goals)
      invariant Placed(Rows(output)[r], row, keep, tile * BLOCK, (tile + 1) * BLOCK)
      invariant forall i :: from <= i < j ==> Rows(output)[r][i] == -1
      invariant Rows(output)[r][..from] == start[r][..from]
      invariant forall q :: 0 <= q < output.Length0 && q != r ==> Rows(output)[q] == start[q]
    {
      hide OnlySettled;
      ghost var mid := Rows(output);
      Store(output, r, j, -1);
      StoreSettled(start, mid, goals, r, j);
      j := j + 1;
    }
  }

  // ---- the whole call ----

  /** Fused first pass over the whole grid. */
  method CountAll(p: Problem, output: array2<int>, counts: array3<int>, thresholds: array<int>, order: seq<(nat, nat)>,
                  ghost picks: seq<seq<int>>)
    requires Posed(p) && Sized(p, output, counts, thresholds) && Covers(order, |p.rows|, Tiles(p.n)) && Tiles(p.n) > 0
    requires |picks| == |p.rows| && forall r :: 0 <= r < |p.rows| ==> Ids(output, r) == picks[r]
    modifies counts, thresholds
    ensures FirstPass(p, picks, counts, thresholds, false)
  {
    var i := 0;
    while i < |order|
      invariant 0 <= i <= |order|
      invariant forall r :: 0 <= r < |p.rows| ==> Ids(output, r) == picks[r]
      invariant forall q :: q in order[..i] && q.1 == 0 ==> thresholds[q.0] == RowThreshold(p, picks, q.0)
      invariant forall q :: q in order[..i] ==> Counted(p, counts, q.0, q.1, RowThreshold(p, picks, q.0))
    {
      hide Bounded, Threshold, Count;
      var (r, tile) := order[i];
      assert order[..i + 1] == order[..i] + [(r, tile)];
      Counts(p, output, counts, thresholds, r, tile);
      i := i + 1;
    }
    assert order[..i] == order;
    forall r | 0 <= r < |p.rows|
      ensures thresholds[r] == RowThreshold(p, picks, r)
    {
      assert (r, 0) in order;
    }
    forall r: nat, t: nat | r < |p.rows| && t < Tiles(p.n)
      ensures Counted(p, counts, r, t, RowThreshold(p, picks, r))
    {
      assert (r, t) in order;
    }
  }

  /** One threshold per row, then the counts of the tiles that hold columns of their row; the rest keep whatever the
      freshly allocated memory held. */
  method CountLive(p: Problem, output: array2<int>, counts: array3<int>, thresholds: array<int>, order: seq<(nat, nat)>,
                   ghost picks: seq<seq<int>>)
    requires Posed(p) && Sized(p, output, counts, thresholds) && Covers(order, |p.rows|, Tiles(p.n))
    requires |picks| == |p.rows| && forall r :: 0 <= r < |p.rows| ==> Ids(output, r) == picks[r]
    modifies counts, thresholds
    ensures FirstPass(p, picks, counts, thresholds, true)
  {
    var r := 0;
    while r < |p.rows|
      invariant 0 <= r <= |p.rows|
      invariant forall q :: 0 <= q < |p.rows| ==> Ids(output, q) == picks[q]
      invariant forall q :: 0 <= q < r ==> thresholds[q] == RowThreshold(p, picks, q)
    {
      thresholds[r] := LeastPicked(p, output, r);
      r := r + 1;
    }
    var i := 0;
    while i < |order|
      invariant 0 <= i <= |order|
      invariant forall q :: 0 <= q < |p.rows| ==> thresholds[q] == RowThreshold(p, picks, q)
      invariant forall q :: q in order[..i] && Runs(p, q.0, q.1, true) ==>
        Counted(p, counts, q.0, q.1, RowThreshold(p, picks, q.0))
    {
      var (row, tile) := order[i];
      CountsThr(p, counts, thresholds, row, tile);
      i := i + 1;
    }
    assert order[..i] == order;
    forall q: nat, t: nat | q < |p.rows| && t < Tiles(p.n) && Runs(p, q, t, true)
      ensures Counted(p, counts, q, t, RowThreshold(p, picks, q))
    {
      assert (q, t) in order;
    }
  }

  /** Second pass over the whole grid. */
  method ScatterAll(p: Problem, ghost picks: seq<seq<int>>, ghost goals: seq<seq<int>>, output: array2<int>,
                    counts: array3<int>,
                    thresholds: array<int>, order: seq<(nat, nat)>, skip: bool)
    requires Posed(p) && Sized(p, output, counts, thresholds) && Covers(order, |p.rows|, Tiles(p.n))
    requires |picks| == |p.rows| && FirstPass(p, picks, counts, thresholds, skip) && Goals(p, picks, output, goals)
    modifies output
    ensures AllSettled(p, picks, Rows(output), order)
  {
    var i := 0;
    while i < |order|
      invariant 0 <= i <= |order|
      invariant FirstPass(p, picks, counts, thresholds, skip)
      invariant AllSettled(p, picks, Rows(output), order[..i])
    {
      hide FirstPass, AllSettled;
      var (r, tile) := order[i];
      ScatterNext(p, picks, goals, output, counts, thresholds, r, tile, skip, order[..i]);
      assert order[..i + 1] == order[..i] + [(r, tile)];
      i := i + 1;
    }
    assert order[..i] == order;
  }

  /** One more program, after those in done. */
  method ScatterNext(p: Problem, ghost picks: seq<seq<int>>, ghost goals: seq<seq<int>>, output: array2<int>,
                     counts: array3<int>,
                     thresholds: array<int>, r: nat, tile: nat, skip: bool, ghost done: seq<(nat, nat)>)
    requires Posed(p) && Sized(p, output, counts, thresholds) && r < |p.rows| && tile < Tiles(p.n)
    requires |picks| == |p.rows| && FirstPass(p, picks, counts, thresholds, skip) && Goals(p, picks, output, goals)
    requires AllSettled(p, picks, Rows(output), done)
    modifies output
    ensures AllSettled(p, picks, Rows(output), done + [(r, tile)])
  {
    ghost var before := Rows(output);
    hide FirstPass, AllSettled, TileSettled;
    Scatter(p, picks, goals, output, counts, thresholds, r, tile, skip);
    StaySettled(p, picks, output, goals, before, Rows(output), done, r, tile);
  }

  ghost predicate AllSettled(p: Problem, picks: seq<seq<int>>, rows: seq<seq<int>>, done: seq<(nat, nat)>)
    requires Posed(p) && |picks| == |p.rows| == |rows|
  {
    forall q :: q in done ==> q.0 < |p.rows| && TileSettled(p, picks, rows[q.0], q.0, q.1)
  }

  /** A program's writes settle its tile and leave settled tiles settled. */
  lemma StaySettled(p: Problem, picks: seq<seq<int>>, output: array2<int>, goals: seq<seq<int>>, before: seq<seq<int>>,
                    after: seq<seq<int>>,
                    done: seq<(nat, nat)>, r: nat, tile: nat)
    requires Posed(p) && |picks| == |p.rows| == |before| && Goals(p, picks, output, goals)
      && OnlySettled(before, after, goals)
    requires AllSettled(p, picks, before, done) && r < |p.rows| && TileSettled(p, picks, after[r], r, tile)
    ensures AllSettled(p, picks, after, done + [(r, tile)])
  {
    forall q | q in done
      ensures q.0 < |p.rows| && TileSettled(p, picks, after[q.0], q.0, q.1)
    {
      assert RowOnlySettled(before[q.0], after[q.0], goals[q.0]);
      hide Posed, Bounded, RowKeep;
    }
  }

  /** In-place canonicalization. Whatever exact selections the output held, whichever path the row count takes, in
      whatever order the programs of each launch run and whatever the uninitialized counts hold, every row becomes its
      canonical selection. With no columns at all nothing is launched. */
  method CanonicalizeTopK(p: Problem, output: array2<int>, smallRows: nat, first: seq<(nat, nat)>,
                          second: seq<(nat, nat)>, ghost picks: seq<seq<int>>)
    requires Posed(p) && output.Length0 == |p.rows| && output.Length1 == p.k
    requires Selected(p, picks) && forall r :: 0 <= r < |p.rows| ==> Ids(output, r) == picks[r]
    requires Covers(first, |p.rows|, Tiles(p.n)) && Covers(second, |p.rows|, Tiles(p.n))
    modifies output
    ensures p.n > 0 ==> forall r :: 0 <= r < |p.rows| ==> Ids(output, r) == Canon(p.rows[r], p.k)
    ensures p.n == 0 ==> forall r :: 0 <= r < |p.rows| ==> Ids(output, r) == old(Ids(output, r))
  {
    if |p.rows| == 0 || p.n == 0 {
      return;
    }
    var counts, thresholds := new int[|p.rows|, Tiles(p.n), 2], new int[|p.rows|];
    var skip := |p.rows| > smallRows;
    if !skip {
      CountAll(p, output, counts, thresholds, first, picks);
    } else {
      CountLive(p, output, counts, thresholds, first, picks);
    }
    ghost var goals := Canons(p);
    CanonsAreGoals(p, picks, output);
    ScatterAll(p, picks, goals, output, counts, thresholds, second, skip);
    forall r | 0 <= r < |p.rows|
      ensures Ids(output, r) == Canon(p.rows[r], p.k)
    {
      RowSettled(p, picks, Rows(output), second, r);
    }
  }

  ghost function Canons(p: Problem): (all: seq<seq<int>>)
    ensures |all| == |p.rows| && forall r :: 0 <= r < |all| ==> all[r] == Canon(p.rows[r], p.k)
  {
    seq(|p.rows|, (r: nat) requires r < |p.rows| => Canon(p.rows[r], p.k))
  }

  lemma CanonIsGoal(p: Problem, picks: seq<seq<int>>, r: nat)
    requires Posed(p) && Selected(p, picks) && r < |p.rows|
    ensures Goal(p.rows[r], RowKeep(p, picks, r), Canon(p.rows[r], p.k))
  {
    CanonAt(p.rows[r], picks[r], p.k, p.inf);
  }

  lemma CanonsAreGoals(p: Problem, picks: seq<seq<int>>, output: array2<int>)
    requires Posed(p) && Selected(p, picks) && output.Length0 == |p.rows| && output.Length1 == p.k
    ensures Goals(p, picks, output, Canons(p))
  {
    hide Canon, Exact, Bounded, Goal;
    forall r | 0 <= r < |p.rows|
      ensures Goal(p.rows[r], RowKeep(p, picks, r), Canon(p.rows[r], p.k))
    {
      CanonIsGoal(p, picks, r);
    }
    assert forall r :: 0 <= r < |p.rows| ==> Canons(p)[r] == Canon(p.rows[r], p.k) && |Canons(p)[r]| == p.k;
  }

  /** Settled tiles fill the whole row: every place belongs to a kept column of some tile or to the tail. */
  lemma RowSettled(p: Problem, picks: seq<seq<int>>, rows: seq<seq<int>>, order: seq<(nat, nat)>, r: nat)
    requires Posed(p) && Selected(p, picks) && |rows| == |p.rows| && r < |p.rows| && |rows[r]| == p.k && p.n > 0
    requires Covers(order, |p.rows|, Tiles(p.n)) && AllSettled(p, picks, rows, order)
    ensures rows[r] == Canon(p.rows[r], p.k)
  {
    var row, keep, canon, ids := p.rows[r], RowKeep(p, picks, r), Canon(p.rows[r], p.k), rows[r];
    CanonAt(row, picks[r], p.k, p.inf);
    KeptFillsRow(row, picks[r], p.k, p.inf);
    hide Canon, Exact, Bounded, Threshold, TieSlots, Keep, Count;
    forall j | 0 <= j < p.k
      ensures ids[j] == canon[j]
    {
      if j < Min(p.k, Len(row)) {
        var c := NthKept(keep, p.n, j);
        assert (r, c / BLOCK) in order;
      } else {
        assert (r, 0) in order;
      }
    }
  }
}
