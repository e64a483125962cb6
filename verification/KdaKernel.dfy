/** The recurrence kernel as its thread blocks run it: state slots updated in place, the tile range found by a binary
    search over staged band bases. */
module KdaKernel {
  import opened KdaWindows
  import opened KdaRecurrence
  import opened KdaOutcome
  import opened KdaPrefill

  /** Stages the band positions of local tiles begin .. begin + windowTiles. */
  method StageBands<S, T>(c: Call<S, T>, begin: nat) returns (band: array<int>)
    requires Shaped(c)
    ensures fresh(band) && band.Length == c.windowTiles + 1
    ensures forall i :: 0 <= i < band.Length ==> band[i] == c.bandBase[Min(begin + i, c.tilesCapacity + 1)]
  {
    band := new int[c.windowTiles + 1];
    var entry := 0;
    while entry < c.windowTiles + 1
      invariant 0 <= entry <= band.Length
      invariant forall i :: 0 <= i < entry ==> band[i] == c.bandBase[Min(begin + i, c.tilesCapacity + 1)]
    {
      band[entry] := c.bandBase[Min(begin + entry, c.tilesCapacity + 1)];
      entry := entry + 1;
    }
  }

  /** The end of a rank's tiles in a window: the first staged band that reaches the window's end. */
  method FindEnd<S, T>(c: Call<S, T>, w: nat, r: nat, begin: nat) returns (end: nat)
    requires Tables(c) && r < |c.sequences| && begin == Begin(c, w, r)
    ensures end == Begin(c, w + 1, r)
  {
    var band := StageBands(c, begin);
    var span: nat := Min(Tau(c, r) - begin, c.windowTiles);
    var low, high: nat := 0, span;
    ghost var last := Begin(c, w + 1, r);
    CutsGrow(c, w, r);
    while low < high
      invariant low <= high <= span && begin + low <= last <= begin + high
      invariant forall i :: 0 <= i < band.Length ==> band[i] == c.bandBase[Min(begin + i, c.tilesCapacity + 1)]
    {
      var mid := (low + high) / 2;
      CutAbove(c, r, WindowBegin(c, w + 1), begin + mid);
      WindowEndsNext(c, w);
      assert (band[mid] + r < WindowBegin(c, w) + c.windowTiles) <==> begin + mid < last;
      if band[mid] + r >= WindowBegin(c, w) + c.windowTiles {
        high := mid;
      } else {
        low := mid + 1;
      }
    }
    end := begin + low;
  }

  /** The checkpoint stores after one tile. */
  method Export<S, T>(c: Call<S, T>, state: array<S>, q: Sequence, acc: S, local: nat)
    requires SlotsIn(c, state.Length, q)
    modifies state
    ensures state[..] == StoreExports(c, old(state[..]), q, acc, local, 0)
  {
    var i := 0;
    while i < |q.exports|
      invariant 0 <= i <= |q.exports|
      invariant StoreExports(c, state[..], q, acc, local, i) == StoreExports(c, old(state[..]), q, acc, local, 0)
    {
      var e := q.exports[i];
      if e.offset > 0 && (local + 1) * CHUNK == e.offset && !IsNull(c, e.slot) {
        ghost var before := state[..];
        state[e.slot] := acc;
        assert state[..] == before[e.slot := acc];
      }
      i := i + 1;
    }
  }

  /** The tile loop of one row. */
  method RunRankTiles<S, T>(c: Call<S, T>, state: array<S>, r: nat, begin: nat, end: nat)
    requires Shaped(c) && r < |c.sequences| && begin <= end && SlotsIn(c, state.Length, At(c, r))
    modifies state
    ensures state[..] == RunRank(c, old(state[..]), r, begin, end)
  {
    if begin < end {
      var q := At(c, r);
      var acc := c.zero;
      if begin == 0 {
        if !IsNull(c, q.initial) {
          acc := state[q.initial];
        }
      } else {
        acc := state[q.final];
      }
      ghost var all := RunTiles(c, state[..], r, acc, begin, end);
      var local := begin;
      while local < end
        invariant begin <= local <= end
        invariant RunTiles(c, state[..], r, acc, local, end) == all
      {
        acc := c.step(acc, c.tile(c.sortedSeq[r], local));
        Export(c, state, q, acc, local);
        local := local + 1;
      }
      if !IsNull(c, q.final) {
        state[q.final] := acc;
      }
    }
  }

  /** One row of one window. */
  method Row<S, T>(c: Call<S, T>, state: array<S>, w: nat, row: nat)
    requires Tables(c) && Slots(c, state.Length) && w < |c.windowTable|
    modifies state
    ensures state[..] == RunRow(c, old(state[..]), w, row)
  {
    var p := RowPlan(c, w, row);
    PlanStartsAtCut(c, w, row);
    if p.rank >= 0 {
      CutsGrow(c, w, p.rank);
      var begin := Min(p.begin, Tau(c, p.rank));
      var end := FindEnd(c, w, p.rank, begin);
      RunRankTiles(c, state, p.rank, begin, end);
    }
    assert state[..] == RowTiles(c, old(state[..]), w, row);
    if w == 0 {
      assert 0 <= Width(c, 0);
      CopyEmpties(c, state, c.bandBase[1] + row);
    }
  }

  method CopyEmpties<S, T>(c: Call<S, T>, state: array<S>, from: nat)
    requires Shaped(c) && Slots(c, state.Length) && c.rows > 0
    modifies state
    ensures state[..] == CopyEmpty(c, old(state[..]), from)
  {
    var r := from;
    while r < |c.sequences|
      invariant CopyEmpty(c, state[..], r) == CopyEmpty(c, old(state[..]), from)
      decreases |c.sequences| - r
    {
      var q := At(c, r);
      assert SlotsIn(c, state.Length, q);
      if !IsNull(c, q.final) {
        ghost var before := state[..];
        var acc := c.zero;
        if !IsNull(c, q.initial) {
          acc := state[q.initial];
        }
        state[q.final] := acc;
        assert state[..] == CopyOne(c, before, r);
      }
      r := r + c.rows;
    }
  }

  /** The windows of a call, launched one after the other; the rows of window w run in the order orders[w]. A call whose
      metadata check failed writes no state. */
  method Prefill<S, T>(c: Call<S, T>, state: array<S>, orders: seq<seq<nat>>, error: bool)
    requires Tables(c) && Slots(c, state.Length) && |orders| <= |c.windowTable|
    modifies state
    ensures state[..] == if error then old(state[..]) else RunWindows(c, old(state[..]), orders)
    ensures !error && Launched(c, orders) ==>
      && (forall s :: 0 <= s < |c.sequences| ==>
            SlotsIn(c, state.Length, c.sequences[s]) && Outcome(c, old(state[..]), state[..], s))
      && (forall k :: 0 <= k < state.Length && Elsewhere(c, k) ==> state[k] == old(state[k]))
  {
    if !error {
      ghost var start := state[..];
      var w := 0;
      while w < |orders|
        invariant 0 <= w <= |orders|
        invariant state[..] == RunWindows(c, start, orders[..w])
      {
        var i := 0;
        ghost var before := state[..];
        while i < |orders[w]|
          invariant 0 <= i <= |orders[w]|
          invariant state[..] == RunRows(c, before, w, orders[w][..i])
        {
          Row(c, state, w, orders[w][i]);
          assert orders[w][..i + 1][..i] == orders[w][..i];
          i := i + 1;
        }
        assert orders[w][..i] == orders[w];
        assert orders[..w + 1][..w] == orders[..w];
        w := w + 1;
      }
      assert orders[..w] == orders;
      if Launched(c, orders) {
        PrefillOutcome(c, start, state[..], orders);
      }
    }
  }

  lemma PrefillOutcome<S, T>(c: Call<S, T>, start: seq<S>, after: seq<S>, orders: seq<seq<nat>>)
    requires Tables(c) && Slots(c, |start|) && Launched(c, orders) && after == RunWindows(c, start, orders)
    ensures forall s :: 0 <= s < |c.sequences| ==> SlotsIn(c, |start|, c.sequences[s]) && Outcome(c, start, after, s)
    ensures forall k :: 0 <= k < |start| && Elsewhere(c, k) ==> after[k] == start[k]
  {
    assert Shaped(c);
    hide Tables, Slots, SlotsIn, Launched, RunWindows, Outcome, Elsewhere;
    forall s: nat | s < |c.sequences|
      ensures SlotsIn(c, |start|, c.sequences[s]) && Outcome(c, start, after, s)
    {
      CallOutcome(c, start, orders, s);
    }
    forall k: nat | k < |start| && Elsewhere(c, k)
      ensures after[k] == start[k]
    {
      ElsewhereUnchanged(c, start, orders, k);
    }
  }
}
