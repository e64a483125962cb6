/** The banded window schedule of the KDA prefill recurrence. The tiles of all sequences are laid out band by band, the
    line of positions is cut into windows of a fixed number of tiles, and a window is run by rows (thread blocks), each
    of which continues one sequence. Running states travel between windows in the final state slots. */
module KdaWindows {
  const CHUNK := 16

  /** One checkpoint entry: a state slot and the row offset whose state it is to hold. */
  datatype Export = Export(slot: int, offset: int)

  datatype Sequence = Sequence(initial: int, final: int, exports: seq<Export>)

  /** One prefill call: the launch constants, the metadata, and the tables the prologue builds. */
  datatype Call<!S, !T> = Call(
    starts: seq<int>,
    sequences: seq<Sequence>,
    tilesCapacity: nat,
    windowTiles: nat,
    rows: nat,
    nullSlot: int,
    bandBase: seq<int>,
    sortedSeq: seq<nat>,
    windowTable: seq<(int, int)>,
    zero: S,
    step: (S, T) -> S,
    tile: (nat, nat) -> T)

  function Min(a: int, b: int): int {
    if a < b then a else b
  }

  function Max(a: int, b: int): int {
    if a < b then b else a
  }

  predicate Shaped<S, T>(c: Call<S, T>) {
    && |c.starts| == |c.sequences| + 1
    && |c.bandBase| == c.tilesCapacity + 2
    && |c.sortedSeq| == |c.sequences|
    && (forall r :: 0 <= r < |c.sortedSeq| ==> c.sortedSeq[r] < |c.sequences|)
    && c.windowTiles > 0
  }

  /** Number of tiles of a sequence. */
  function Tiles<S, T>(c: Call<S, T>, s: nat): nat
    requires Shaped(c) && s < |c.sequences|
  {
    Min((Max(0, c.starts[s + 1] - c.starts[s]) + (CHUNK - 1)) / CHUNK, c.tilesCapacity)
  }

  /** Number of tiles of the sequence at a rank. */
  function Tau<S, T>(c: Call<S, T>, r: nat): nat
    requires Shaped(c) && r < |c.sequences|
  {
    Tiles(c, c.sortedSeq[r])
  }

  function Width<S, T>(c: Call<S, T>, l: nat): int
    requires Shaped(c) && l <= c.tilesCapacity
  {
    c.bandBase[l + 1] - c.bandBase[l]
  }

  /** Band l holds tile l of every rank that has one. */
  function Position<S, T>(c: Call<S, T>, r: nat, l: nat): int
    requires Shaped(c) && l <= c.tilesCapacity + 1
  {
    c.bandBase[l] + r
  }

  function Total<S, T>(c: Call<S, T>): int
    requires Shaped(c)
  {
    c.bandBase[c.tilesCapacity + 1]
  }

  function WindowBegin<S, T>(c: Call<S, T>, w: nat): nat {
    w * c.windowTiles
  }

  predicate WindowEntry<S, T>(c: Call<S, T>, w: nat)
    requires Shaped(c) && w < |c.windowTable|
  {
    var (band, first) := c.windowTable[w];
    && 0 <= band <= c.tilesCapacity
    && (WindowBegin(c, w) < Total(c) ==> 0 <= first < Width(c, band) && c.bandBase[band] + first == WindowBegin(c, w))
  }

  predicate Bands<S, T>(c: Call<S, T>)
    requires Shaped(c)
  {
    && c.bandBase[0] == 0
    && (forall l :: 0 <= l <= c.tilesCapacity ==> 0 <= Width(c, l) <= |c.sequences|)
    && (forall l, r :: 0 <= l <= c.tilesCapacity && 0 <= r < |c.sequences| ==> (r < Width(c, l) <==> l < Tau(c, r)))
  }

  /** What the prologue's tables promise: a band holds exactly the ranks with enough tiles (so the ranks are sorted by
      tile count, longest first), and the window table names the band and rank of each window's first position. */
  predicate Tables<S, T>(c: Call<S, T>) {
    && Shaped(c)
    && Bands(c)
    && (forall i, j :: 0 <= i < j < |c.sortedSeq| ==> c.sortedSeq[i] != c.sortedSeq[j])
    && (forall w :: 0 <= w < |c.windowTable| ==> WindowEntry(c, w))
    && Min(c.windowTiles, |c.sequences|) <= c.rows
    && c.rows > 0
  }

  // ---- rows of a window ----

  /** The rank a row continues and the tile it starts from; rank -1 leaves the row idle. */
  datatype Plan = Plan(rank: int, begin: int)

  function RowPlan<S, T>(c: Call<S, T>, w: nat, row: nat): Plan
    requires Shaped(c) && w < |c.windowTable| && WindowEntry(c, w)
  {
    var band := c.windowTable[w].0;
    var past := WindowBegin(c, w) >= Total(c);
    var first := if past then 0 else c.windowTable[w].1;
    var seg1 := if past then 0 else c.bandBase[band + 1] - WindowBegin(c, w);
    if row < seg1 then Plan(first + row, band)
    else if row - seg1 < first then Plan(row - seg1, band + 1)
    else Plan(-1, 0)
  }

  /** Number of tiles of a rank placed before position p, among its first n. */
  function CutAmong<S, T>(c: Call<S, T>, r: nat, p: int, n: nat): (k: nat)
    requires Shaped(c) && n <= c.tilesCapacity
    ensures k <= n
  {
    if n == 0 then 0 else if Position(c, r, n - 1) < p then n else CutAmong(c, r, p, n - 1)
  }

  /** Number of tiles of a rank placed before position p. */
  function Cut<S, T>(c: Call<S, T>, r: nat, p: int): nat
    requires Shaped(c) && r < |c.sequences|
  {
    CutAmong(c, r, p, Tau(c, r))
  }

  function Begin<S, T>(c: Call<S, T>, w: nat, r: nat): nat
    requires Shaped(c) && r < |c.sequences|
  {
    Cut(c, r, WindowBegin(c, w))
  }

  lemma {:induction false} CutAmongIs<S, T>(c: Call<S, T>, r: nat, p: int, n: nat, k: nat)
    requires Shaped(c) && Bands(c) && r < |c.sequences| && k <= n <= Tau(c, r)
    requires k > 0 ==> Position(c, r, k - 1) < p
    requires k < n ==> p <= Position(c, r, k)
    ensures CutAmong(c, r, p, n) == k
  {
    if k < n {
      PositionsAscend(c, r, k, n - 1);
      CutAmongIs(c, r, p, n - 1, k);
    }
  }

  lemma {:induction false} CutAmongSplits<S, T>(c: Call<S, T>, r: nat, p: int, n: nat)
    requires Shaped(c) && Bands(c) && r < |c.sequences| && n <= Tau(c, r)
    ensures var k := CutAmong(c, r, p, n); (k > 0 ==> Position(c, r, k - 1) < p) && (k < n ==> p <= Position(c, r, k))
  {
    if n > 0 && Position(c, r, n - 1) >= p {
      CutAmongSplits(c, r, p, n - 1);
    }
  }

  /** Along one rank positions ascend by at least one tile per band. */
  lemma {:induction false} PositionsAscend<S, T>(c: Call<S, T>, r: nat, l: nat, m: nat)
    requires Shaped(c) && Bands(c) && r < |c.sequences| && l <= m < Tau(c, r)
    ensures Position(c, r, l) + (m - l) <= Position(c, r, m)
  {
    if l < m {
      PositionsAscend(c, r, l, m - 1);
      assert r < Width(c, m - 1);
    }
  }

  lemma {:induction false} BasesAscend<S, T>(c: Call<S, T>, l: nat, m: nat)
    requires Shaped(c) && Bands(c) && l <= m <= c.tilesCapacity + 1
    ensures c.bandBase[l] <= c.bandBase[m]
  {
    if l < m {
      BasesAscend(c, l, m - 1);
      assert 0 <= Width(c, m - 1);
    }
  }

  /** Ranks leave the bands one after the other, never the other way round. */
  lemma WidthsDescend<S, T>(c: Call<S, T>, l: nat, m: nat, r: nat)
    requires Shaped(c) && Bands(c) && l <= m <= c.tilesCapacity && r < Width(c, m)
    ensures r < Width(c, l)
  {
    assert m < Tau(c, r);
    assert l < Tau(c, r);
  }

  /** The row that serves a rank in a window. */
  function RowFor<S, T>(c: Call<S, T>, w: nat, r: nat): nat
    requires Shaped(c) && w < |c.windowTable| && WindowEntry(c, w)
  {
    var (band, first) := c.windowTable[w];
    if WindowBegin(c, w) >= Total(c) then 0
    else if r >= first then r - first
    else c.bandBase[band + 1] - WindowBegin(c, w) + r
  }

  /** A row that gets a rank starts it exactly where the windows before left off, and no other row gets that rank. */
  lemma PlanStartsAtCut<S, T>(c: Call<S, T>, w: nat, row: nat)
    requires Tables(c) && w < |c.windowTable|
    ensures var p := RowPlan(c, w, row);
      p.rank >= 0 ==>
        p.rank < |c.sequences| && Min(p.begin, Tau(c, p.rank)) == Begin(c, w, p.rank) && RowFor(c, w, p.rank) == row
  {
    var p := RowPlan(c, w, row);
    assert WindowEntry(c, w);
    if p.rank >= 0 {
      var band, first := c.windowTable[w].0, c.windowTable[w].1;
      var r, wb := p.rank, WindowBegin(c, w);
      assert Width(c, band) <= |c.sequences|;
      assert r < Width(c, band);
      assert band < Tau(c, r);
      if p.begin == band {
        if band > 0 {
          assert Position(c, r, band - 1) < wb by { WidthsDescend(c, band - 1, band, r); }
        }
        CutAmongIs(c, r, wb, Tau(c, r), band);
      } else {
        CutAmongIs(c, r, wb, Tau(c, r), Min(band + 1, Tau(c, r)));
      }
    }
  }

  /** Every rank with a tile in the window is planned, on a row the launch has. */
  lemma PlanFindsRank<S, T>(c: Call<S, T>, w: nat, r: nat)
    requires Tables(c) && w < |c.windowTable| && r < |c.sequences| && Begin(c, w, r) < Begin(c, w + 1, r)
    ensures RowFor(c, w, r) < c.rows && RowPlan(c, w, RowFor(c, w, r)).rank == r
  {
    assert WindowEntry(c, w);
    var band, first := c.windowTable[w].0, c.windowTable[w].1;
    var l, wb := Begin(c, w, r), WindowBegin(c, w);
    WindowEndsNext(c, w);
    CutAmongSplits(c, r, wb, Tau(c, r));
    var m := Begin(c, w + 1, r) - 1;
    CutAmongSplits(c, r, WindowBegin(c, w + 1), Tau(c, r));
    PositionsAscend(c, r, l, m);
    assert wb <= Position(c, r, l) < wb + c.windowTiles;
    assert l < Tau(c, r) && r < Width(c, l);
    BasesAscend(c, l + 1, c.tilesCapacity + 1);
    assert wb < Total(c);
    if l < band { BasesAscend(c, l + 1, band); }
    WidthsDescend(c, band, l, r);
    if r >= first {
      BasesAscend(c, band, l);
    } else {
      BasesAscend(c, band + 1, l);
    }
  }

  lemma WindowEndsNext<S, T>(c: Call<S, T>, w: nat)
    ensures WindowBegin(c, w + 1) == WindowBegin(c, w) + c.windowTiles
  {
  }

  /** Cuts only grow from window to window, and by no more tiles than a window has. */
  lemma CutsGrow<S, T>(c: Call<S, T>, w: nat, r: nat)
    requires Tables(c) && r < |c.sequences|
    ensures Begin(c, w, r) <= Begin(c, w + 1, r) <= Tau(c, r) && Begin(c, w + 1, r) <= Begin(c, w, r) + c.windowTiles
  {
    WindowEndsNext(c, w);
    var n, a, b := Tau(c, r), Begin(c, w, r), Begin(c, w + 1, r);
    CutAmongSplits(c, r, WindowBegin(c, w), n);
    CutAmongSplits(c, r, WindowBegin(c, w + 1), n);
    if b < a {
      PositionsAscend(c, r, b, a - 1);
    }
    if a < b {
      PositionsAscend(c, r, a, b - 1);
    }
  }

  /** Every tile is run by exactly one row of exactly one window. */
  lemma EachTileOnce<S, T>(c: Call<S, T>, r: nat, l: nat, w: nat)
    requires Tables(c) && r < |c.sequences| && l < Tau(c, r) && w < |c.windowTable|
    ensures (Begin(c, w, r) <= l < Begin(c, w + 1, r)) <==>
      (WindowBegin(c, w) <= Position(c, r, l) < WindowBegin(c, w + 1))
    ensures Begin(c, w, r) <= l < Begin(c, w + 1, r) ==>
      (forall row: nat :: RowPlan(c, w, row).rank == r <==> row == RowFor(c, w, r))
  {
    CutAbove(c, r, WindowBegin(c, w), l);
    CutAbove(c, r, WindowBegin(c, w + 1), l);
    if Begin(c, w, r) <= l < Begin(c, w + 1, r) {
      PlanFindsRank(c, w, r);
      forall row: nat | RowPlan(c, w, row).rank == r
        ensures row == RowFor(c, w, r)
      {
        PlanStartsAtCut(c, w, row);
      }
    }
  }

  lemma CutAbove<S, T>(c: Call<S, T>, r: nat, p: int, l: nat)
    requires Tables(c) && r < |c.sequences| && l < Tau(c, r)
    ensures l < Cut(c, r, p) <==> Position(c, r, l) < p
  {
    var k := Cut(c, r, p);
    CutAmongSplits(c, r, p, Tau(c, r));
    if l < k { PositionsAscend(c, r, l, k - 1); } else { PositionsAscend(c, r, k, l); }
  }

  /** Distinct tiles have distinct positions. */
  lemma PositionsDistinct<S, T>(c: Call<S, T>, r: nat, l: nat, r': nat, l': nat)
    requires Tables(c) && r < |c.sequences| && r' < |c.sequences| && l < Tau(c, r) && l' < Tau(c, r')
    requires Position(c, r, l) == Position(c, r', l')
    ensures r == r' && l == l'
  {
    assert r < Width(c, l) && r' < Width(c, l');
    if l < l' { BasesAscend(c, l + 1, l'); }
    if l' < l { BasesAscend(c, l' + 1, l); }
  }

  /** Every position before the total holds a tile. */
  lemma {:induction false} PositionsFilled<S, T>(c: Call<S, T>, p: nat, n: nat) returns (r: nat, l: nat)
    requires Tables(c) && n <= c.tilesCapacity + 1 && p < c.bandBase[n]
    ensures r < |c.sequences| && l < n && l < Tau(c, r) && Position(c, r, l) == p
  {
    assert n > 0;
    if p < c.bandBase[n - 1] {
      r, l := PositionsFilled(c, p, n - 1);
    } else {
      r, l := p - c.bandBase[n - 1], n - 1;
      assert r < Width(c, l) <= |c.sequences|;
    }
  }
}
