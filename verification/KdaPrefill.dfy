/** All windows of a prefill call, their rows in any order, and what the call leaves in the state slots. */
module KdaPrefill {
  import opened KdaWindows
  import opened KdaRecurrence
  import opened Arithmetic

  ghost predicate Permutation(order: seq<nat>, n: nat) {
    && (forall i :: 0 <= i < |order| ==> order[i] < n)
    && (forall i, j :: 0 <= i < j < |order| ==> order[i] != order[j])
    && (forall row: nat :: row < n ==> row in order)
  }

  /** The rows of one window, run in the given order. */
  ghost function RunRows<S, T>(c: Call<S, T>, mem: seq<S>, w: nat, order: seq<nat>): (after: seq<S>)
    requires Tables(c) && Slots(c, |mem|) && w < |c.windowTable|
    ensures |after| == |mem|
  {
    var n := |order|;
    if n == 0 then mem else RunRow(c, RunRows(c, mem, w, order[..n - 1]), w, order[n - 1])
  }

  /** The first |orders| windows of a call, window w with its rows in the order orders[w]. */
  ghost function RunWindows<S, T>(c: Call<S, T>, mem: seq<S>, orders: seq<seq<nat>>): (after: seq<S>)
    requires Tables(c) && Slots(c, |mem|) && |orders| <= |c.windowTable|
    ensures |after| == |mem|
  {
    var n := |orders|;
    if n == 0 then mem else RunRows(c, RunWindows(c, mem, orders[..n - 1]), n - 1, orders[n - 1])
  }

  ghost function BeginsAt<S, T>(c: Call<S, T>, w: nat): nat -> nat
    requires Tables(c)
  {
    (r: nat) => if r < |c.sequences| then Begin(c, w, r) else 0
  }

  /** The invariant between two windows. */
  ghost predicate Between<S, T>(c: Call<S, T>, start: seq<S>, mem: seq<S>, w: nat, copied: set<nat>)
    requires Tables(c) && Slots(c, |start|)
  {
    Kept(c, start, mem, BeginsAt(c, w), copied)
  }

  ghost predicate AllCopied<S, T>(c: Call<S, T>, w: nat, copied: set<nat>, done: set<nat>)
    requires Tables(c)
  {
    w == 0 ==> forall row :: row in done ==> Copied(c, Width(c, 0) + row) <= copied
  }

  ghost predicate Distinct(order: seq<nat>, n: nat) {
    && (forall i :: 0 <= i < |order| ==> order[i] < n)
    && (forall i, j :: 0 <= i < j < |order| ==> order[i] != order[j])
  }

  lemma DistinctButLast(order: seq<nat>, n: nat)
    requires Distinct(order, n) && |order| > 0
    ensures Distinct(order[..|order| - 1], n) && order[|order| - 1] < n && order[|order| - 1] !in order[..|order| - 1]
    ensures forall row :: row in order <==> row in order[..|order| - 1] || row == order[|order| - 1]
  {
    assert order == order[..|order| - 1] + [order[|order| - 1]];
  }

  lemma {:induction false} RowsKept<S, T>(c: Call<S, T>, start: seq<S>, mem: seq<S>, w: nat, order: seq<nat>,
                                          copied: set<nat>)
    returns (done: set<nat>, copied': set<nat>)
    requires Tables(c) && Slots(c, |start|) && w < |c.windowTable| && Between(c, start, mem, w, copied)
    requires Distinct(order, c.rows)
    ensures |mem| == |start| && During(c, start, RunRows(c, mem, w, order), w, done, copied')
    ensures forall row :: row in done <==> row in order
    ensures AllCopied(c, w, copied', done) && copied <= copied'
  {
    assert |mem| == |start|;
    hide Begin, Kept, RunRow, Slots, Copied, Tables, Distinct;
    if |order| == 0 {
      done, copied' := {}, copied;
      NoRowsKept(c, start, mem, w, copied);
    } else {
      var n := |order|;
      DistinctButLast(order, c.rows);
      var prior, row := order[..n - 1], order[n - 1];
      var before, seen := RowsKept(c, start, mem, w, prior, copied);
      hide During, AllCopied, Between;
      done, copied' := OneMoreRow(c, start, RunRows(c, mem, w, prior), w, before, seen, row);
    }
  }

  lemma NoRowsKept<S, T>(c: Call<S, T>, start: seq<S>, mem: seq<S>, w: nat, copied: set<nat>)
    requires Tables(c) && Slots(c, |start|) && w < |c.windowTable| && Between(c, start, mem, w, copied)
    ensures During(c, start, mem, w, {}, copied)
  {
    hide Kept, Slots, Begin;
    SameKept(c, start, mem, BeginsAt(c, w), TilesIn(c, w, {}), copied);
  }

  lemma OneMoreRow<S, T>(c: Call<S, T>, start: seq<S>, mem: seq<S>, w: nat, done: set<nat>, copied: set<nat>, row: nat)
    returns (done': set<nat>, copied': set<nat>)
    requires Tables(c) && Slots(c, |start|) && w < |c.windowTable| && row < c.rows && row !in done && |mem| == |start|
    requires During(c, start, mem, w, done, copied) && AllCopied(c, w, copied, done)
    ensures done' == done + {row} && copied <= copied'
    ensures During(c, start, RunRow(c, mem, w, row), w, done', copied') && AllCopied(c, w, copied', done')
  {
    hide During, RunRow, Copied, Slots;
    RowKept(c, start, mem, w, done, copied, row);
    done', copied' := done + {row}, if w == 0 then copied + Copied(c, Width(c, 0) + row) else copied;
  }

  /** One whole window, in any order of its rows. */
  lemma WindowKept<S, T>(c: Call<S, T>, start: seq<S>, mem: seq<S>, w: nat, order: seq<nat>, copied: set<nat>)
    returns (copied': set<nat>)
    requires Tables(c) && Slots(c, |start|) && w < |c.windowTable| && Between(c, start, mem, w, copied)
    requires Permutation(order, c.rows)
    ensures |mem| == |start| && Between(c, start, RunRows(c, mem, w, order), w + 1, copied') && copied <= copied'
    ensures w == 0 ==> forall x :: 0 <= x < |c.sequences| && Tau(c, x) == 0 ==> x in copied'
  {
    var done;
    done, copied' := RowsKept(c, start, mem, w, order, copied);
    AllRowsDone(c, w, done, order);
    hide Kept, RowFor, Slots, Begin, Permutation, RunRows, Tau;
    SameKept(c, start, RunRows(c, mem, w, order), TilesIn(c, w, done), BeginsAt(c, w + 1), copied');
    if w == 0 {
      forall x | 0 <= x < |c.sequences| && Tau(c, x) == 0
        ensures x in copied'
      {
        EmptyCopied(c, x, order, done, copied');
      }
    }
  }

  /** When all rows of a window have run, every rank stands where the next window begins. */
  lemma AllRowsDone<S, T>(c: Call<S, T>, w: nat, done: set<nat>, order: seq<nat>)
    requires Tables(c) && w < |c.windowTable| && Permutation(order, c.rows)
    requires forall row :: row in done <==> row in order
    ensures forall x: nat :: x < |c.sequences| ==> BeginsAt(c, w + 1)(x) == TilesIn(c, w, done)(x)
  {
    hide RowFor, Begin;
    forall x: nat | x < |c.sequences|
      ensures BeginsAt(c, w + 1)(x) == TilesIn(c, w, done)(x)
    {
      CutsGrow(c, w, x);
      if Begin(c, w, x) < Begin(c, w + 1, x) { PlanFindsRank(c, w, x); }
    }
  }

  lemma EmptyCopied<S, T>(c: Call<S, T>, x: nat, order: seq<nat>, done: set<nat>, copied: set<nat>)
    requires Tables(c) && Permutation(order, c.rows) && x < |c.sequences| && Tau(c, x) == 0
    requires forall row :: row in done <==> row in order
    requires AllCopied(c, 0, copied, done)
    ensures x in copied
  {
    hide Copied, WindowEntry;
    assert x >= Width(c, 0);
    var row: nat := (x - Width(c, 0)) % c.rows;
    DivModDefinition(x - Width(c, 0), c.rows);
    assert row in order && row in done;
    InCopied(c, Width(c, 0) + row, x, (x - Width(c, 0)) / c.rows);
  }

  lemma {:induction false} InCopied<S, T>(c: Call<S, T>, r: nat, x: nat, k: nat)
    requires c.rows > 0 && x == r + k * c.rows && x < |c.sequences|
    ensures x in Copied(c, r)
    decreases k
  {
    if k > 0 {
      assert k * c.rows == (k - 1) * c.rows + c.rows;
      assert 0 <= (k - 1) * c.rows;
      InCopied(c, r + c.rows, x, k - 1);
    }
  }

  lemma {:induction false} WindowsKept<S, T>(c: Call<S, T>, start: seq<S>, orders: seq<seq<nat>>)
    returns (copied: set<nat>)
    requires Tables(c) && Slots(c, |start|) && |orders| <= |c.windowTable|
    requires forall w :: 0 <= w < |orders| ==> Permutation(orders[w], c.rows)
    ensures Between(c, start, RunWindows(c, start, orders), |orders|, copied)
    ensures |orders| > 0 ==> forall x :: 0 <= x < |c.sequences| && Tau(c, x) == 0 ==> x in copied
  {
    hide Permutation, Begin;
    if |orders| == 0 {
      copied := {};
      hide Bands, WindowEntry;
      NothingYet(c, start);
    } else {
      hide Kept, Slots, RunRows;
      var n := |orders|;
      copied := WindowsKept(c, start, orders[..n - 1]);
      copied := WindowKept(c, start, RunWindows(c, start, orders[..n - 1]), n - 1, orders[n - 1], copied);
    }
  }

  lemma NothingYet<S, T>(c: Call<S, T>, start: seq<S>)
    requires Tables(c) && Slots(c, |start|)
    ensures Between(c, start, start, 0, {})
  {
    forall r: nat | r < |c.sequences|
      ensures SequenceKept(c, start, start, r, BeginsAt(c, 0)(r), BeginsAt(c, 0)(r) > 0 || r in {})
    {
      CutAmongSplits(c, r, 0, Tau(c, r));
      if Begin(c, 0, r) > 0 { BasesAscend(c, 0, Begin(c, 0, r) - 1); }
    }
  }

  /** After any number of windows, at least one, every final slot holds the fold of the tiles run so far, and every
      checkpoint slot that is due the running state up to its offset. */
  lemma WindowsFold<S, T>(c: Call<S, T>, start: seq<S>, orders: seq<seq<nat>>, r: nat)
    requires Tables(c) && Slots(c, |start|) && 0 < |orders| <= |c.windowTable| && r < |c.sequences|
    requires forall w :: 0 <= w < |orders| ==> Permutation(orders[w], c.rows)
    ensures var q, mem, n := At(c, r), RunWindows(c, start, orders), Begin(c, |orders|, r);
      && (!IsNull(c, q.final) && (n > 0 || Tau(c, r) == 0) ==> mem[q.final] == Fold(c, start, r, n))
      && ExportsHold(c, start, mem, r, n)
  {
    var copied := WindowsKept(c, start, orders);
    hide Begin, Fold, ExportsHold, Running, RunWindows;
    var n := BeginsAt(c, |orders|)(r);
    assert SequenceKept(c, start, RunWindows(c, start, orders), r, n, n > 0 || r in copied);
    if !IsNull(c, At(c, r).final) { UninterruptedFolds(c, start, r, n); }
  }

  /** The whole call: enough windows are launched to reach the total. Whatever the order of the rows within each window,
      the final slot holds the fold of all tiles of the sequence (the initial state, if it has none), every checkpoint
      slot the running state of its offset, and every slot no sequence writes is unchanged. */
  lemma PrefillFolds<S, T>(c: Call<S, T>, start: seq<S>, orders: seq<seq<nat>>, r: nat)
    requires Tables(c) && Slots(c, |start|) && 0 < |orders| <= |c.windowTable| && r < |c.sequences|
    requires forall w :: 0 <= w < |orders| ==> Permutation(orders[w], c.rows)
    requires Total(c) <= WindowBegin(c, |orders|)
    ensures var q, mem := At(c, r), RunWindows(c, start, orders);
      && (!IsNull(c, q.final) ==> mem[q.final] == Fold(c, start, r, Tau(c, r)))
      && ExportsHold(c, start, mem, r, Tau(c, r))
  {
    WindowsFold(c, start, orders, r);
    hide ExportsHold, Fold, RunWindows, Permutation;
    AllTilesCut(c, |orders|, r);
  }

  // ---- when the running state is the fold ----

  /** The first tile of the last stretch before tile n that no window start interrupts. */
  ghost function Resumed<S, T>(c: Call<S, T>, r: nat, n: nat): (l: nat)
    requires Shaped(c) && r < |c.sequences|
    ensures l == 0 || l < n
  {
    if n <= 1 then 0 else if CutAt(c, r, n - 1) then n - 1 else Resumed(c, r, n - 1)
  }

  /** Tiles l up to n, added to a given state. */
  ghost function FoldFrom<S, T>(c: Call<S, T>, state: S, r: nat, l: nat, n: nat): S
    requires Shaped(c) && r < |c.sequences|
  {
    if n <= l then state else c.step(FoldFrom(c, state, r, l, n - 1), c.tile(c.sortedSeq[r], n - 1))
  }

  /** Resumed names a start of a window, and the last one before n. */
  lemma {:induction false} ResumedIsLast<S, T>(c: Call<S, T>, r: nat, n: nat)
    requires Shaped(c) && r < |c.sequences|
    ensures Resumed(c, r, n) > 0 ==> CutAt(c, r, Resumed(c, r, n))
    ensures forall x: nat :: Resumed(c, r, n) < x < n ==> !CutAt(c, r, x)
    ensures Resumed(c, r, n) > 0 <==> exists w: nat :: 0 < Begin(c, w, r) < n
  {
    hide Begin;
    if n > 1 {
      ResumedIsLast(c, r, n - 1);
    }
    assert forall w: nat :: CutAt(c, r, Begin(c, w, r));
  }

  lemma {:induction false} UninterruptedFolds<S, T>(c: Call<S, T>, start: seq<S>, r: nat, n: nat)
    requires Shaped(c) && r < |c.sequences| && SlotsIn(c, |start|, At(c, r))
    requires !IsNull(c, At(c, r).final) || Resumed(c, r, n) == 0
    ensures Running(c, start, r, n) == Fold(c, start, r, n)
  {
    if n > 0 {
      UninterruptedFolds(c, start, r, n - 1);
    }
  }

  lemma {:induction false} InterruptedRestarts<S, T>(c: Call<S, T>, start: seq<S>, r: nat, n: nat)
    requires Shaped(c) && r < |c.sequences| && SlotsIn(c, |start|, At(c, r))
    requires IsNull(c, At(c, r).final) && Resumed(c, r, n) > 0
    ensures Running(c, start, r, n) == FoldFrom(c, start[At(c, r).final], r, Resumed(c, r, n), n)
  {
    if !CutAt(c, r, n - 1) {
      InterruptedRestarts(c, start, r, n - 1);
    } else {
      assert FoldFrom(c, start[At(c, r).final], r, n - 1, n - 1) == start[At(c, r).final];
    }
  }

  /** What a checkpoint slot holds after the call, exactly: the fold of the tiles before its offset if the sequence
      has a final slot or no window starts strictly inside those tiles. */
  lemma CheckpointHoldsFold<S, T>(c: Call<S, T>, start: seq<S>, orders: seq<seq<nat>>, r: nat, i: nat)
    requires Tables(c) && Slots(c, |start|) && 0 < |orders| <= |c.windowTable| && r < |c.sequences|
    requires forall w :: 0 <= w < |orders| ==> Permutation(orders[w], c.rows)
    requires Total(c) <= WindowBegin(c, |orders|)
    requires i < |At(c, r).exports| && !IsNull(c, At(c, r).exports[i].slot) && Due(At(c, r).exports[i], Tau(c, r))
    requires var n := At(c, r).exports[i].offset / CHUNK;
      !IsNull(c, At(c, r).final) || !exists w: nat :: 0 < Begin(c, w, r) < n
    ensures SlotsIn(c, |start|, At(c, r))
    ensures var e := At(c, r).exports[i]; RunWindows(c, start, orders)[e.slot] == Fold(c, start, r, e.offset / CHUNK)
  {
    var e := At(c, r).exports[i];
    PrefillFolds(c, start, orders, r);
    ResumedIsLast(c, r, e.offset / CHUNK);
    UninterruptedFolds(c, start, r, e.offset / CHUNK);
    hide Begin, Tables, Fold, Running, RunWindows, Permutation;
    assert ExportHolds(c, start, RunWindows(c, start, orders), r, i, Tau(c, r));
  }

  /** And otherwise: the null slot is never written, so a checkpoint beyond a window that starts in the middle of a
      sequence without a final slot holds only the tiles from the last such window on, added to what the null slot
      held. */
  lemma NullFinalLosesState<S, T>(c: Call<S, T>, start: seq<S>, orders: seq<seq<nat>>, r: nat, i: nat)
    requires Tables(c) && Slots(c, |start|) && 0 < |orders| <= |c.windowTable| && r < |c.sequences|
    requires forall w :: 0 <= w < |orders| ==> Permutation(orders[w], c.rows)
    requires Total(c) <= WindowBegin(c, |orders|)
    requires i < |At(c, r).exports| && !IsNull(c, At(c, r).exports[i].slot) && Due(At(c, r).exports[i], Tau(c, r))
    requires var n := At(c, r).exports[i].offset / CHUNK;
      IsNull(c, At(c, r).final) && exists w: nat :: 0 < Begin(c, w, r) < n
    ensures SlotsIn(c, |start|, At(c, r))
    ensures var e := At(c, r).exports[i]; var n := e.offset / CHUNK;
      0 < Resumed(c, r, n) < n
      && RunWindows(c, start, orders)[e.slot] == FoldFrom(c, start[At(c, r).final], r, Resumed(c, r, n), n)
  {
    var e := At(c, r).exports[i];
    PrefillFolds(c, start, orders, r);
    ResumedIsLast(c, r, e.offset / CHUNK);
    InterruptedRestarts(c, start, r, e.offset / CHUNK);
    hide Begin, Tables, FoldFrom, Running, RunWindows, Permutation;
    assert ExportHolds(c, start, RunWindows(c, start, orders), r, i, Tau(c, r));
  }

  lemma AllTilesCut<S, T>(c: Call<S, T>, w: nat, r: nat)
    requires Tables(c) && r < |c.sequences| && Total(c) <= WindowBegin(c, w)
    ensures Begin(c, w, r) == Tau(c, r)
  {
    var n := Tau(c, r);
    if n > 0 {
      assert r < Width(c, n - 1);
      BasesAscend(c, n, c.tilesCapacity + 1);
      assert c.bandBase[n - 1] + Width(c, n - 1) == c.bandBase[n];
    }
    CutAmongIs(c, r, WindowBegin(c, w), n, n);
  }

  lemma UnownedUnchanged<S, T>(c: Call<S, T>, start: seq<S>, orders: seq<seq<nat>>, k: nat)
    requires Tables(c) && Slots(c, |start|) && |orders| <= |c.windowTable| && k < |start|
    requires forall w :: 0 <= w < |orders| ==> Permutation(orders[w], c.rows)
    requires forall r :: 0 <= r < |c.sequences| ==> !Owns(c, At(c, r), k)
    ensures RunWindows(c, start, orders)[k] == start[k]
  {
    var copied := WindowsKept(c, start, orders);
    hide Begin, SequenceKept, Owns, RunWindows;
  }

  /** The order in which the rows of each window run makes no difference to any slot. */
  lemma OrderIrrelevant<S, T>(c: Call<S, T>, start: seq<S>, orders: seq<seq<nat>>, orders': seq<seq<nat>>)
    requires Tables(c) && Slots(c, |start|) && 0 < |orders| <= |c.windowTable| && |orders'| == |orders|
    requires forall w :: 0 <= w < |orders| ==> Permutation(orders[w], c.rows) && Permutation(orders'[w], c.rows)
    requires Total(c) <= WindowBegin(c, |orders|)
    ensures RunWindows(c, start, orders) == RunWindows(c, start, orders')
  {
    hide RunWindows, Permutation, Fold, Running, Tau;
    var mem, mem' := RunWindows(c, start, orders), RunWindows(c, start, orders');
    forall k | 0 <= k < |start|
      ensures mem[k] == mem'[k]
    {
      if r :| 0 <= r < |c.sequences| && Owns(c, At(c, r), k) {
        PrefillFolds(c, start, orders, r);
        PrefillFolds(c, start, orders', r);
        var q := At(c, r);
        if k != q.final {
          var i :| 0 <= i < |q.exports| && k == q.exports[i].slot;
          assert ExportHolds(c, start, mem, r, i, Tau(c, r)) && ExportHolds(c, start, mem', r, i, Tau(c, r));
        }
      } else {
        UnownedUnchanged(c, start, orders, k);
        UnownedUnchanged(c, start, orders', k);
      }
    }
  }

  // ---- a call that loses its state ----

  /** One sequence of two tiles, one tile per window, no final slot, and a checkpoint at its end. States and tiles are
      integers, each tile adds one. */
  function Losing(): Call<int, int> {
    Call([0, 32], [Sequence(0, 0, [Export(1, 32)])], 2, 1, 1, 0, [0, 1, 2, 2], [0], [(0, 0), (1, 0)], 0,
         (state: int, tile: int) => state + tile, (s: nat, l: nat) => 1)
  }

  /** With 7 in the null slot its checkpoint ends up as 8, where the fold is 2. */
  lemma StateIsLost()
    ensures Tables(Losing()) && Slots(Losing(), 2) && Total(Losing()) <= WindowBegin(Losing(), 2)
    ensures RunWindows(Losing(), [7, 0], [[0], [0]])[1] == 8
    ensures SlotsIn(Losing(), 2, At(Losing(), 0)) && Fold(Losing(), [7, 0], 0, 2) == 2
  {
    var c := Losing();
    LosingTables();
    assert Permutation([0], c.rows);
    assert Begin(c, 1, 0) == 1;
    assert CutAt(c, 0, 1);
    NullFinalLosesState(c, [7, 0], [[0], [0]], 0, 0);
    assert FoldFrom(c, 7, 0, 1, 2) == 8;
    assert Fold(c, [7, 0], 0, 1) == 1;
  }

  lemma LosingTables()
    ensures Tables(Losing()) && Slots(Losing(), 2) && Total(Losing()) <= WindowBegin(Losing(), 2)
  {
    LosingBands();
    var c := Losing();
    assert WindowEntry(c, 0) && WindowEntry(c, 1);
    hide Bands, Tau;
  }

  lemma LosingBands()
    ensures Shaped(Losing()) && Bands(Losing())
  {
    assert Tau(Losing(), 0) == 2;
  }
}
