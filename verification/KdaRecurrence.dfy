/** What the rows of the KDA recurrence do to the state slots, and what all windows together leave there. */
module KdaRecurrence {
  import opened KdaWindows

  predicate IsNull<S, T>(c: Call<S, T>, slot: int) {
    slot == c.nullSlot
  }

  predicate SlotsIn<S, T>(c: Call<S, T>, n: nat, q: Sequence) {
    && 0 <= q.initial < n && 0 <= q.final < n
    && (forall i :: 0 <= i < |q.exports| ==> 0 <= q.exports[i].slot < n)
  }

  /** The slots a sequence writes. */
  ghost predicate Owns<S, T>(c: Call<S, T>, q: Sequence, k: int) {
    && !IsNull(c, k)
    && (k == q.final || exists i :: 0 <= i < |q.exports| && k == q.exports[i].slot)
  }

  ghost predicate OwnSlots<S, T>(c: Call<S, T>, q: Sequence) {
    && (forall i, j :: 0 <= i < j < |q.exports| && !IsNull(c, q.exports[i].slot) ==>
      q.exports[i].slot != q.exports[j].slot)
    && (forall i :: 0 <= i < |q.exports| && !IsNull(c, q.exports[i].slot) ==> q.exports[i].slot != q.final)
  }

  ghost predicate Apart<S, T>(c: Call<S, T>, q: Sequence, q': Sequence) {
    forall k :: Owns(c, q, k) ==> !Owns(c, q', k) && k != q'.initial
  }

  /** The slot contract: slots exist, checkpoint slots differ from all final slots and from each other, and no sequence
      writes a slot another one starts from. */
  ghost predicate Slots<S, T>(c: Call<S, T>, n: nat)
    requires Shaped(c)
  {
    && (forall r :: 0 <= r < |c.sequences| ==> SlotsIn(c, n, At(c, r)) && OwnSlots(c, At(c, r)))
    && (forall r, r' :: 0 <= r < |c.sequences| && 0 <= r' < |c.sequences| && r != r' ==> Apart(c, At(c, r), At(c, r')))
  }

  /** The sequence at a rank. */
  function At<S, T>(c: Call<S, T>, r: nat): Sequence
    requires Shaped(c) && r < |c.sequences|
  {
    c.sequences[c.sortedSeq[r]]
  }

  // ---- one row ----

  /** The checkpoint stores after a tile. */
  ghost function StoreExports<S, T>(c: Call<S, T>, mem: seq<S>, q: Sequence, acc: S, local: nat,
                                    i: nat): (after: seq<S>)
    requires i <= |q.exports| && SlotsIn(c, |mem|, q)
    ensures |after| == |mem|
    decreases |q.exports| - i
  {
    if i == |q.exports| then mem
    else
      var e := q.exports[i];
      var next := if e.offset > 0 && (local + 1) * CHUNK == e.offset && !IsNull(c, e.slot) then mem[e.slot := acc]
        else mem;
      StoreExports(c, next, q, acc, local, i + 1)
  }

  /** Tiles l up to end of the sequence at a rank, with its checkpoint stores. */
  ghost function RunTiles<S, T>(c: Call<S, T>, mem: seq<S>, r: nat, acc: S, l: nat, end: nat): (after: (S, seq<S>))
    requires Shaped(c) && r < |c.sequences| && l <= end && SlotsIn(c, |mem|, At(c, r))
    ensures |after.1| == |mem|
    decreases end - l
  {
    if l == end then (acc, mem)
    else
      var next := c.step(acc, c.tile(c.sortedSeq[r], l));
      RunTiles(c, StoreExports(c, mem, At(c, r), next, l, 0), r, next, l + 1, end)
  }

  /** The state a sequence starts from. */
  ghost function InitialState<S, T>(c: Call<S, T>, mem: seq<S>, q: Sequence): S
    requires SlotsIn(c, |mem|, q)
  {
    if IsNull(c, q.initial) then c.zero else mem[q.initial]
  }

  /** A row's tiles, from the initial state or the running state in the final slot, and the running state it leaves. */
  ghost function RunRank<S, T>(c: Call<S, T>, mem: seq<S>, r: nat, begin: nat, end: nat): (after: seq<S>)
    requires Shaped(c) && r < |c.sequences| && begin <= end && SlotsIn(c, |mem|, At(c, r))
    ensures |after| == |mem|
  {
    if begin == end then mem
    else
      var q := At(c, r);
      var acc := if begin == 0 then InitialState(c, mem, q) else mem[q.final];
      var (last, done) := RunTiles(c, mem, r, acc, begin, end);
      if IsNull(c, q.final) then done else done[q.final := last]
  }

  /** A sequence without tiles: its initial state becomes its final one. */
  ghost function CopyOne<S, T>(c: Call<S, T>, mem: seq<S>, r: nat): (after: seq<S>)
    requires Shaped(c) && r < |c.sequences| && SlotsIn(c, |mem|, At(c, r))
    ensures |after| == |mem|
  {
    var q := At(c, r);
    if IsNull(c, q.final) then mem else mem[q.final := InitialState(c, mem, q)]
  }

  /** One in c.rows of the sequences without tiles, from rank r on. */
  ghost function CopyEmpty<S, T>(c: Call<S, T>, mem: seq<S>, r: nat): (after: seq<S>)
    requires Shaped(c) && Slots(c, |mem|) && c.rows > 0
    ensures |after| == |mem|
    decreases |c.sequences| - r
  {
    if r >= |c.sequences| then mem else CopyEmpty(c, CopyOne(c, mem, r), r + c.rows)
  }

  /** The tiles one row of one window runs. */
  ghost function RowTiles<S, T>(c: Call<S, T>, mem: seq<S>, w: nat, row: nat): (after: seq<S>)
    requires Tables(c) && Slots(c, |mem|) && w < |c.windowTable|
    ensures |after| == |mem|
  {
    var r := RowPlan(c, w, row).rank;
    PlanStartsAtCut(c, w, row);
    if r < 0 then mem else CutsGrow(c, w, r); RunRank(c, mem, r, Begin(c, w, r), Begin(c, w + 1, r))
  }

  /** Everything one row of one window does. */
  ghost function RunRow<S, T>(c: Call<S, T>, mem: seq<S>, w: nat, row: nat): (after: seq<S>)
    requires Tables(c) && Slots(c, |mem|) && w < |c.windowTable|
    ensures |after| == |mem|
  {
    var tiled := RowTiles(c, mem, w, row);
    if w == 0 then CopyEmpty(c, tiled, Width(c, 0) + row) else tiled
  }

  // ---- what a sequence's slots hold after its first n tiles ----

  /** The state after the first n tiles of the sequence at a rank: what the call is to compute. */
  ghost function Fold<S, T>(c: Call<S, T>, start: seq<S>, r: nat, n: nat): S
    requires Shaped(c) && r < |c.sequences| && SlotsIn(c, |start|, At(c, r))
  {
    if n == 0 then InitialState(c, start, At(c, r)) else c.step(Fold(c, start, r, n - 1), c.tile(c.sortedSeq[r], n - 1))
  }

  /** Some window starts at a tile of the sequence. */
  ghost predicate CutAt<S, T>(c: Call<S, T>, r: nat, l: nat)
    requires Shaped(c) && r < |c.sequences|
  {
    exists w: nat :: Begin(c, w, r) == l
  }

  /** What a row has accumulated after the first n tiles: a window that starts in the middle of the sequence continues
      from the final slot, which, if it is the null slot, still holds what it held at the start. */
  ghost function Running<S, T>(c: Call<S, T>, start: seq<S>, r: nat, n: nat): S
    requires Shaped(c) && r < |c.sequences| && SlotsIn(c, |start|, At(c, r))
    decreases n, 0
  {
    if n == 0 then InitialState(c, start, At(c, r))
      else c.step(Entering(c, start, r, n - 1), c.tile(c.sortedSeq[r], n - 1))
  }

  /** What tile l is added to. */
  ghost function Entering<S, T>(c: Call<S, T>, start: seq<S>, r: nat, l: nat): S
    requires Shaped(c) && r < |c.sequences| && SlotsIn(c, |start|, At(c, r))
    decreases l, 1
  {
    if 0 < l && CutAt(c, r, l) && IsNull(c, At(c, r).final) then start[At(c, r).final] else Running(c, start, r, l)
  }

  /** An export is due once n tiles are done. */
  predicate Due(e: Export, n: nat) {
    e.offset > 0 && e.offset % CHUNK == 0 && e.offset / CHUNK <= n
  }

  /** An export slot holds the running state of its offset once that is due, and until then what it held at the
      start. */
  ghost predicate ExportHolds<S, T>(c: Call<S, T>, start: seq<S>, mem: seq<S>, r: nat, i: nat, n: nat)
    requires Shaped(c) && r < |c.sequences| && |mem| == |start| && SlotsIn(c, |start|, At(c, r))
      && i < |At(c, r).exports|
  {
    var e := At(c, r).exports[i];
    IsNull(c, e.slot) || mem[e.slot] == if Due(e, n) then Running(c, start, r, e.offset / CHUNK) else start[e.slot]
  }

  ghost predicate ExportsHoldTo<S, T>(c: Call<S, T>, start: seq<S>, mem: seq<S>, r: nat, n: nat, to: nat)
    requires Shaped(c) && r < |c.sequences| && |mem| == |start| && SlotsIn(c, |start|, At(c, r))
      && to <= |At(c, r).exports|
  {
    forall i :: 0 <= i < to ==> ExportHolds(c, start, mem, r, i, n)
  }

  ghost predicate ExportsHold<S, T>(c: Call<S, T>, start: seq<S>, mem: seq<S>, r: nat, n: nat)
    requires Shaped(c) && r < |c.sequences| && |mem| == |start| && SlotsIn(c, |start|, At(c, r))
  {
    ExportsHoldTo(c, start, mem, r, n, |At(c, r).exports|)
  }

  /** Only slots the sequence owns differ. */
  ghost predicate OnlyOwned<S, T>(c: Call<S, T>, before: seq<S>, after: seq<S>, q: Sequence) {
    |before| == |after| && forall k :: 0 <= k < |before| && !Owns(c, q, k) ==> before[k] == after[k]
  }

  ghost predicate FinalKept<S, T>(c: Call<S, T>, before: seq<S>, after: seq<S>, q: Sequence) {
    |before| == |after| && (0 <= q.final < |before| ==> before[q.final] == after[q.final])
  }

  lemma DueStep(e: Export, local: nat)
    ensures Due(e, local + 1) <==> Due(e, local) || (e.offset > 0 && (local + 1) * CHUNK == e.offset)
  {
  }

  lemma {:induction false} StoreExportsHold<S, T>(c: Call<S, T>, start: seq<S>, mem: seq<S>, r: nat, acc: S, local: nat,
                                                  i: nat)
    requires Shaped(c) && r < |c.sequences| && |mem| == |start| && SlotsIn(c, |start|, At(c, r))
      && OwnSlots(c, At(c, r))
    requires i <= |At(c, r).exports| && acc == Running(c, start, r, local + 1)
    requires ExportsHoldTo(c, start, mem, r, local + 1, i)
    requires forall j :: i <= j < |At(c, r).exports| ==> ExportHolds(c, start, mem, r, j, local)
    ensures var after := StoreExports(c, mem, At(c, r), acc, local, i);
      ExportsHold(c, start, after, r, local + 1) && OnlyOwned(c, mem, after, At(c, r))
        && FinalKept(c, mem, after, At(c, r))
    decreases |At(c, r).exports| - i
  {
    var q := At(c, r);
    if i < |q.exports| {
      var e := q.exports[i];
      DueStep(e, local);
      var next := if e.offset > 0 && (local + 1) * CHUNK == e.offset && !IsNull(c, e.slot) then mem[e.slot := acc]
        else mem;
      assert ExportHolds(c, start, mem, r, i, local);
      var n := local + 1;
      forall j | 0 <= j < i + 1
        ensures ExportHolds(c, start, next, r, j, n)
      {
        if j < i { assert ExportHolds(c, start, mem, r, j, n); }
      }
      forall j | i < j < |q.exports|
        ensures ExportHolds(c, start, next, r, j, local)
      {
        assert ExportHolds(c, start, mem, r, j, local);
      }
      StoreExportsHold(c, start, next, r, acc, local, i + 1);
    }
  }

  /** A run of tiles within one window leaves the running state after them, with every checkpoint that became due. */
  lemma {:induction false} RunTilesFolds<S, T>(c: Call<S, T>, start: seq<S>, mem: seq<S>, r: nat, acc: S, l: nat,
                                               end: nat)
    requires Shaped(c) && r < |c.sequences| && |mem| == |start| && SlotsIn(c, |start|, At(c, r))
      && OwnSlots(c, At(c, r))
    requires l < end && acc == Entering(c, start, r, l) && ExportsHold(c, start, mem, r, l)
    requires forall x: nat :: l < x < end ==> !CutAt(c, r, x)
    ensures var (last, after) := RunTiles(c, mem, r, acc, l, end);
      last == Running(c, start, r, end) && ExportsHold(c, start, after, r, end) && OnlyOwned(c, mem, after, At(c, r))
    decreases end - l
  {
    var next := c.step(acc, c.tile(c.sortedSeq[r], l));
    assert next == Running(c, start, r, l + 1);
    StoreExportsHold(c, start, mem, r, next, l, 0);
    var stored := StoreExports(c, mem, At(c, r), next, l, 0);
    if l + 1 < end {
      assert next == Entering(c, start, r, l + 1);
      RunTilesFolds(c, start, stored, r, next, l + 1, end);
    } else {
      assert RunTiles(c, stored, r, next, l + 1, end) == (next, stored);
    }
  }

  lemma {:induction false} RunTilesOwns<S, T>(c: Call<S, T>, mem: seq<S>, r: nat, acc: S, l: nat, end: nat)
    requires Shaped(c) && r < |c.sequences| && SlotsIn(c, |mem|, At(c, r)) && l <= end
    ensures OnlyOwned(c, mem, RunTiles(c, mem, r, acc, l, end).1, At(c, r))
    decreases end - l
  {
    if l < end {
      var next := c.step(acc, c.tile(c.sortedSeq[r], l));
      StoreExportsOwns(c, mem, At(c, r), next, l, 0);
      RunTilesOwns(c, StoreExports(c, mem, At(c, r), next, l, 0), r, next, l + 1, end);
    }
  }

  lemma {:induction false} StoreExportsOwns<S, T>(c: Call<S, T>, mem: seq<S>, q: Sequence, acc: S, local: nat, i: nat)
    requires i <= |q.exports| && SlotsIn(c, |mem|, q)
    ensures OnlyOwned(c, mem, StoreExports(c, mem, q, acc, local, i), q)
    decreases |q.exports| - i
  {
    if i < |q.exports| {
      var e := q.exports[i];
      var next := if e.offset > 0 && (local + 1) * CHUNK == e.offset && !IsNull(c, e.slot) then mem[e.slot := acc]
        else mem;
      StoreExportsOwns(c, next, q, acc, local, i + 1);
    }
  }

  // ---- the invariant of the windows ----

  /** The slots of the sequence at a rank after its first n tiles; visited tells whether some row has dealt with it. */
  ghost predicate SequenceKept<S, T>(c: Call<S, T>, start: seq<S>, mem: seq<S>, r: nat, n: nat, visited: bool)
    requires Shaped(c) && r < |c.sequences| && |mem| == |start| && SlotsIn(c, |start|, At(c, r))
  {
    var q := At(c, r);
    && (n == 0 ==> InitialState(c, mem, q) == InitialState(c, start, q))
    && (!visited ==> n == 0)
    && mem[q.final] == (if visited && !IsNull(c, q.final) then Running(c, start, r, n) else start[q.final])
    && ExportsHold(c, start, mem, r, n)
  }

  /** Tiles of a rank done when the rows in done have run window w. */
  ghost function TilesDone<S, T>(c: Call<S, T>, w: nat, done: set<nat>, r: nat): nat
    requires Tables(c) && w < |c.windowTable| && r < |c.sequences|
  {
    if RowFor(c, w, r) in done then Begin(c, w + 1, r) else Begin(c, w, r)
  }

  /** Every sequence's slots are as its finished tiles demand, and nothing else has changed. */
  ghost predicate Kept<S, T>(c: Call<S, T>, start: seq<S>, mem: seq<S>, tiles: nat -> nat, copied: set<nat>)
    requires Tables(c) && Slots(c, |start|)
  {
    && |mem| == |start|
    && (forall r :: 0 <= r < |c.sequences| ==> SequenceKept(c, start, mem, r, tiles(r), tiles(r) > 0 || r in copied))
    && (forall k :: 0 <= k < |mem| && (forall r :: 0 <= r < |c.sequences| ==> !Owns(c, At(c, r), k)) ==>
      mem[k] == start[k])
  }

  /** Writing slots of one sequence does not disturb another. */
  lemma OthersKept<S, T>(c: Call<S, T>, start: seq<S>, mem: seq<S>, after: seq<S>, r: nat, r': nat, n: nat,
                         visited: bool)
    requires Shaped(c) && r < |c.sequences| && r' < |c.sequences| && r != r' && |mem| == |start| && Slots(c, |start|)
    requires OnlyOwned(c, mem, after, At(c, r)) && SequenceKept(c, start, mem, r', n, visited)
    ensures SequenceKept(c, start, after, r', n, visited)
  {
    var q, q' := At(c, r), At(c, r');
    assert SlotsIn(c, |start|, q') && Apart(c, q, q') && Apart(c, q', q);
    forall i | 0 <= i < |q'.exports|
      ensures ExportHolds(c, start, after, r', i, n)
    {
      assert ExportHolds(c, start, mem, r', i, n);
      assert IsNull(c, q'.exports[i].slot) || Owns(c, q', q'.exports[i].slot);
    }
    assert IsNull(c, q'.final) || Owns(c, q', q'.final);
  }

  lemma {:induction false} CutsAscend<S, T>(c: Call<S, T>, v: nat, w: nat, r: nat)
    requires Tables(c) && r < |c.sequences| && v <= w
    ensures Begin(c, v, r) <= Begin(c, w, r)
    decreases w - v
  {
    hide Begin;
    if v < w {
      CutsAscend(c, v, w - 1, r);
      CutsGrow(c, w - 1, r);
    }
  }

  /** No window starts between the tiles of one. */
  lemma Uncut<S, T>(c: Call<S, T>, w: nat, r: nat)
    requires Tables(c) && r < |c.sequences|
    ensures forall x: nat :: Begin(c, w, r) < x < Begin(c, w + 1, r) ==> !CutAt(c, r, x)
  {
    hide Begin;
    forall v: nat
      ensures Begin(c, v, r) <= Begin(c, w, r) || Begin(c, w + 1, r) <= Begin(c, v, r)
    {
      if v <= w { CutsAscend(c, v, w, r); } else { CutsAscend(c, w + 1, v, r); }
    }
  }

  /** A row that runs a rank's tiles of a window takes its slots from where they stand to where they end. */
  lemma RunRankKept<S, T>(c: Call<S, T>, start: seq<S>, mem: seq<S>, r: nat, w: nat, visited: bool)
    requires Tables(c) && r < |c.sequences| && |mem| == |start| && Slots(c, |start|)
      && Begin(c, w, r) < Begin(c, w + 1, r)
    requires SequenceKept(c, start, mem, r, Begin(c, w, r), visited)
    ensures OnlyOwned(c, mem, RunRank(c, mem, r, Begin(c, w, r), Begin(c, w + 1, r)), At(c, r))
    ensures SequenceKept(c, start, RunRank(c, mem, r, Begin(c, w, r), Begin(c, w + 1, r)), r, Begin(c, w + 1, r), true)
  {
    var q, begin, end := At(c, r), Begin(c, w, r), Begin(c, w + 1, r);
    assert SlotsIn(c, |start|, q) && OwnSlots(c, q);
    Uncut(c, w, r);
    assert CutAt(c, r, begin);
    hide Begin, Bands, WindowEntry, Slots;
    var acc := if begin == 0 then InitialState(c, mem, q) else mem[q.final];
    RunTilesFolds(c, start, mem, r, acc, begin, end);
    var after := RunTiles(c, mem, r, acc, begin, end).1;
    forall i | 0 <= i < |q.exports|
      ensures ExportHolds(c, start, RunRank(c, mem, r, begin, end), r, i, end)
    {
      assert ExportHolds(c, start, after, r, i, end);
    }
  }

  /** The ranks one row copies. */
  ghost function Copied<S, T>(c: Call<S, T>, r: nat): set<nat>
    requires c.rows > 0
    decreases |c.sequences| - r
  {
    if r >= |c.sequences| then {} else {r} + Copied(c, r + c.rows)
  }

  lemma {:induction false} CopyEmptyKept<S, T>(c: Call<S, T>, start: seq<S>, mem: seq<S>, tiles: nat -> nat,
                                               copied: set<nat>, r: nat)
    requires Tables(c) && Slots(c, |start|) && Kept(c, start, mem, tiles, copied) && r >= Width(c, 0)
    requires forall x :: 0 <= x < |c.sequences| ==> tiles(x) <= Tau(c, x)
    ensures Kept(c, start, CopyEmpty(c, mem, r), tiles, copied + Copied(c, r))
    decreases |c.sequences| - r
  {
    hide Kept, SequenceKept, Tau, Bands, WindowEntry, OwnSlots, Apart, CopyOne, SlotsIn, Slots;
    if r < |c.sequences| {
      RankAt(c, start, mem, tiles, copied, r);
      CopyStepKept(c, start, mem, tiles, copied, r);
      CopyEmptyKept(c, start, CopyOne(c, mem, r), tiles, copied + {r}, r + c.rows);
      assert copied + {r} + Copied(c, r + c.rows) == copied + Copied(c, r);
    } else {
      assert copied + Copied(c, r) == copied;
    }
  }

  lemma CopyStepKept<S, T>(c: Call<S, T>, start: seq<S>, mem: seq<S>, tiles: nat -> nat, copied: set<nat>, r: nat)
    requires Tables(c) && Slots(c, |start|) && Kept(c, start, mem, tiles, copied) && Width(c, 0) <= r < |c.sequences|
    requires forall x :: 0 <= x < |c.sequences| ==> tiles(x) <= Tau(c, x)
    ensures Kept(c, start, CopyOne(c, mem, r), tiles, copied + {r})
  {
    assert !(0 < Tau(c, r)) && tiles(r) == 0;
    assert SequenceKept(c, start, mem, r, 0, r in copied);
    CopyOneKept(c, start, mem, r, r in copied);
    MoveKept(c, start, mem, CopyOne(c, mem, r), tiles, tiles, copied, copied + {r}, r);
  }

  lemma CopyOneKept<S, T>(c: Call<S, T>, start: seq<S>, mem: seq<S>, r: nat, visited: bool)
    requires Shaped(c) && r < |c.sequences| && |mem| == |start| && Slots(c, |start|)
    requires SequenceKept(c, start, mem, r, 0, visited)
    ensures SequenceKept(c, start, CopyOne(c, mem, r), r, 0, true) && OnlyOwned(c, mem, CopyOne(c, mem, r), At(c, r))
  {
    var q, next := At(c, r), CopyOne(c, mem, r);
    assert SlotsIn(c, |start|, q) && OwnSlots(c, q);
    forall i | 0 <= i < |q.exports|
      ensures ExportHolds(c, start, next, r, i, 0)
    {
      assert ExportHolds(c, start, mem, r, i, 0);
    }
  }

  /** One sequence moves on, all others stand still. */
  lemma MoveKept<S, T>(c: Call<S, T>, start: seq<S>, mem: seq<S>, after: seq<S>,
                       tiles: nat -> nat, tiles': nat -> nat, copied: set<nat>, copied': set<nat>, r: nat)
    requires Tables(c) && Slots(c, |start|) && Kept(c, start, mem, tiles, copied) && r < |c.sequences|
    requires OnlyOwned(c, mem, after, At(c, r))
    requires SequenceKept(c, start, after, r, tiles'(r), tiles'(r) > 0 || r in copied')
    requires forall x :: 0 <= x < |c.sequences| && x != r ==> tiles'(x) == tiles(x) && (x in copied <==> x in copied')
    ensures Kept(c, start, after, tiles', copied')
  {
    forall x | 0 <= x < |c.sequences|
      ensures SequenceKept(c, start, after, x, tiles'(x), tiles'(x) > 0 || x in copied')
    {
      if x != r {
        OthersKept(c, start, mem, after, r, x, tiles(x), tiles(x) > 0 || x in copied);
      }
    }
  }

  /** The rows in done have run window w; in the first window they have also copied sequences without tiles. */
  ghost predicate During<S, T>(c: Call<S, T>, start: seq<S>, mem: seq<S>, w: nat, done: set<nat>, copied: set<nat>)
    requires Tables(c) && Slots(c, |start|) && w < |c.windowTable|
  {
    Kept(c, start, mem, TilesIn(c, w, done), copied)
  }

  ghost function TilesIn<S, T>(c: Call<S, T>, w: nat, done: set<nat>): nat -> nat
    requires Tables(c) && w < |c.windowTable|
  {
    (r: nat) => if r < |c.sequences| then TilesDone(c, w, done, r) else 0
  }

  /** One more row of a window keeps the invariant. */
  lemma RowKept<S, T>(c: Call<S, T>, start: seq<S>, mem: seq<S>, w: nat, done: set<nat>, copied: set<nat>, row: nat)
    requires Tables(c) && Slots(c, |start|) && w < |c.windowTable| && row < c.rows && row !in done
    requires During(c, start, mem, w, done, copied)
    ensures |mem| == |start|
    ensures During(c, start, RunRow(c, mem, w, row), w, done + {row},
      if w == 0 then copied + Copied(c, Width(c, 0) + row) else copied)
  {
    hide Kept, SequenceKept, Slots, Begin, WindowEntry, RowTiles, CopyEmpty, Tau;
    RowTilesKept(c, start, mem, w, done, copied, row);
    if w == 0 {
      forall x | 0 <= x < |c.sequences|
        ensures TilesIn(c, w, done + {row})(x) <= Tau(c, x)
      {
        CutsGrow(c, w, x);
      }
      CopyEmptyKept(c, start, RowTiles(c, mem, w, row), TilesIn(c, w, done + {row}), copied, Width(c, 0) + row);
    }
  }

  lemma RowTilesKept<S, T>(c: Call<S, T>, start: seq<S>, mem: seq<S>, w: nat, done: set<nat>, copied: set<nat>,
                           row: nat)
    requires Tables(c) && Slots(c, |start|) && w < |c.windowTable| && row < c.rows && row !in done
    requires During(c, start, mem, w, done, copied)
    ensures |mem| == |start| && During(c, start, RowTiles(c, mem, w, row), w, done + {row}, copied)
  {
    hide Kept, SequenceKept, RunRank, Slots, Begin;
    var r := RowPlan(c, w, row).rank;
    var before, after := TilesIn(c, w, done), TilesIn(c, w, done + {row});
    RowAdvances(c, w, done, row);
    if r >= 0 { RankAt(c, start, mem, before, copied, r); }
    if r >= 0 && before(r) < after(r) {
      RunRankKept(c, start, mem, r, w, before(r) > 0 || r in copied);
      MoveKept(c, start, mem, RunRank(c, mem, r, before(r), after(r)), before, after, copied, copied, r);
    } else {
      if r >= 0 { RunRankIdle(c, mem, r, before(r)); }
      SameKept(c, start, mem, before, after, copied);
    }
  }

  lemma RunRankIdle<S, T>(c: Call<S, T>, mem: seq<S>, r: nat, begin: nat)
    requires Shaped(c) && r < |c.sequences| && Slots(c, |mem|)
    ensures SlotsIn(c, |mem|, At(c, r)) && RunRank(c, mem, r, begin, begin) == mem
  {
  }

  lemma RankAt<S, T>(c: Call<S, T>, start: seq<S>, mem: seq<S>, tiles: nat -> nat, copied: set<nat>, r: nat)
    requires Tables(c) && Slots(c, |start|) && r < |c.sequences| && Kept(c, start, mem, tiles, copied)
    ensures |mem| == |start| && SlotsIn(c, |start|, At(c, r))
    ensures SequenceKept(c, start, mem, r, tiles(r), tiles(r) > 0 || r in copied)
  {
  }

  lemma SameKept<S, T>(c: Call<S, T>, start: seq<S>, mem: seq<S>, tiles: nat -> nat, tiles': nat -> nat,
                       copied: set<nat>)
    requires Tables(c) && Slots(c, |start|) && Kept(c, start, mem, tiles, copied)
    requires forall x :: 0 <= x < |c.sequences| ==> tiles'(x) == tiles(x)
    ensures Kept(c, start, mem, tiles', copied)
  {
  }

  /** The tiles a row runs are those its rank still has in the window, and no other rank waits for that row. */
  lemma RowAdvances<S, T>(c: Call<S, T>, w: nat, done: set<nat>, row: nat)
    requires Tables(c) && w < |c.windowTable| && row !in done
    ensures var r, before, after := RowPlan(c, w, row).rank, TilesIn(c, w, done), TilesIn(c, w, done + {row});
      && (r >= 0 ==> r < |c.sequences| && before(r) == Begin(c, w, r) <= after(r) == Begin(c, w + 1, r) <= Tau(c, r))
      && (forall x :: 0 <= x < |c.sequences| && x != r ==> after(x) == before(x))
  {
    var r, before, after := RowPlan(c, w, row).rank, TilesIn(c, w, done), TilesIn(c, w, done + {row});
    PlanStartsAtCut(c, w, row);
    if r >= 0 { CutsGrow(c, w, r); }
    hide RowPlan, RowFor, Begin;
    forall x | 0 <= x < |c.sequences| && x != r
      ensures after(x) == before(x)
    {
      CutsGrow(c, w, x);
      if Begin(c, w, x) < Begin(c, w + 1, x) { PlanFindsRank(c, w, x); }
    }
  }
}
