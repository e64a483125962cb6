/** The indexer row split: every rank selects a tile-aligned range of the rows, and the gathered buffers are the full
    selection. */
module RowSplit {
  import opened TopK
  import opened TopKKernels
  import opened Arithmetic

  datatype Share = Share(start: nat, stop: nat, extent: nat)

  /** The rows of a rank and the extent all ranks share. Python's floor division of the negated count rounds up. */
  function Partition(rows: nat, world: nat, rank: nat, tile: nat): (s: Share)
    requires world >= 1 && rank < world && tile >= 1
    ensures s.start <= s.stop <= rows && s.stop - s.start <= s.extent
  {
    var extent := ((rows + (world * tile - 1)) / (world * tile)) * tile;
    var start: nat := Min(rows, rank * extent);
    Share(start, Min(rows, start + extent), extent)
  }

  /** The shares in terms of their common extent. */
  lemma ShareIs(rows: nat, world: nat, tile: nat)
    requires world >= 1 && tile >= 1
    ensures var e := Partition(rows, world, 0, tile).extent;
      && e % tile == 0 && rows <= world * e
      && (forall rank: nat :: rank < world ==>
            Partition(rows, world, rank, tile) == Share(Min(rows, rank * e), Min(rows, rank * e + e), e))
  {
    var unit := world * tile;
    assert unit >= 1 by { Positive(world, tile); }
    var q := (rows + (unit - 1)) / unit;
    var e := q * tile;
    RoundsUp(rows, unit);
    Regroup(q, world, tile);
    MultipleOf(q, tile);
    forall rank: nat | rank < world
      ensures Partition(rows, world, rank, tile) == Share(Min(rows, rank * e), Min(rows, rank * e + e), e)
    {
    }
  }

  predicate Contains(s: Share, i: nat) {
    s.start <= i < s.stop
  }

  /** The shares partition the rows: they all have one extent, a whole number of tiles; every row lies in exactly one of
      them, and in the gathered buffer at its own place. */
  lemma PartitionCovers(rows: nat, world: nat, tile: nat, i: nat) returns (rank: nat)
    requires world >= 1 && tile >= 1 && i < rows
    ensures rank < world && Contains(Partition(rows, world, rank, tile), i)
    ensures forall r: nat :: r < world && Contains(Partition(rows, world, r, tile), i) ==> r == rank
    ensures var s := Partition(rows, world, rank, tile);
      s.extent % tile == 0 && rank * s.extent + (i - s.start) == i && rows <= world * s.extent
    ensures forall r: nat :: r < world ==>
      Partition(rows, world, r, tile).extent == Partition(rows, world, rank, tile).extent
  {
    ShareIs(rows, world, tile);
    var e, j := Partition(rows, world, 0, tile).extent, 0;
    rank, j := Locate(i, world, e);
    hide Partition;
    assert Partition(rows, world, rank, tile) == Share(Min(rows, rank * e), Min(rows, rank * e + e), e);
    forall r: nat | r < world && Contains(Partition(rows, world, r, tile), i)
      ensures r == rank
    {
      assert Partition(rows, world, r, tile) == Share(Min(rows, r * e), Min(rows, r * e + e), e);
      DivModUnique(i, r, i - r * e, e);
      DivModUnique(i, rank, j, e);
    }
  }

  lemma Positive(a: nat, b: nat)
    requires a >= 1 && b >= 1
    ensures a * b >= 1
  {
  }

  lemma RoundsUp(n: nat, unit: nat)
    requires unit >= 1
    ensures n <= ((n + (unit - 1)) / unit) * unit
  {
    var x := n + (unit - 1);
    assert x == (x / unit) * unit + x % unit;
  }

  lemma Regroup(q: nat, world: nat, tile: nat)
    ensures q * (world * tile) == world * (q * tile)
  {
  }

  lemma MultipleOf(q: nat, tile: nat)
    requires tile >= 1
    ensures (q * tile) % tile == 0
  {
    DivModUnique(q * tile, q, 0, tile);
  }

  /** The chunk's rows, all as wide as n. */
  ghost predicate Chunk(rows: seq<Row>, n: nat, k: nat, inf: int) {
    n > 0 && Posed(Problem(rows, n, k, inf))
  }

  /** What a rank's buffer is to hold: its rows' canonical selections, then -1. */
  ghost predicate LocalBuffer(rows: seq<Row>, k: nat, s: Share, buffer: seq<seq<int>>)
    requires s.start <= s.stop <= |rows| && s.stop - s.start <= s.extent
  {
    && |buffer| == s.extent
    && (forall i :: 0 <= i < s.stop - s.start ==> buffer[i] == Canon(rows[s.start + i], k))
    && (forall i :: s.stop - s.start <= i < s.extent ==> |buffer[i]| == k && forall j :: 0 <= j < k ==>
      buffer[i][j] == -1)
  }

  /** One rank's selection. picks is whatever exact selection the native operation leaves for each of its rows; the
      number of its rows alone decides which kernels run. */
  method LocalSelect(rows: seq<Row>, n: nat, k: nat, inf: int, s: Share, smallRows: nat, picks: seq<seq<int>>,
                     first: seq<(nat, nat)>, second: seq<(nat, nat)>) returns (buffer: array2<int>)
    requires Chunk(rows, n, k, inf) && s.start <= s.stop <= |rows| && s.stop - s.start <= s.extent
    requires Selected(Problem(rows[s.start..s.stop], n, k, inf), picks)
    requires Covers(first, s.stop - s.start, Tiles(n)) && Covers(second, s.stop - s.start, Tiles(n))
    ensures fresh(buffer) && LocalBuffer(rows, k, s, Rows(buffer))
  {
    var count := s.stop - s.start;
    buffer := new int[s.extent, k]((_, _) => -1);
    if count > 0 {
      var out := new int[count, k]((r: nat, j: nat) => if r < |picks| && j < |picks[r]| then picks[r][j] else -1);
      var p := Problem(rows[s.start..s.stop], n, k, inf);
      assert forall r :: 0 <= r < count ==> Ids(out, r) == picks[r];
      CanonicalizeTopK(p, out, smallRows, first, second, picks);
      CopyRows(buffer, out);
    }
    assert forall i :: count <= i < s.extent ==> Ids(buffer, i) == Rows(buffer)[i];
  }

  /** out is a view of the buffer's first rows: what was written to it is in the buffer. */
  method CopyRows(buffer: array2<int>, out: array2<int>)
    requires buffer != out && out.Length0 <= buffer.Length0 && out.Length1 == buffer.Length1
    modifies buffer
    ensures forall r :: 0 <= r < out.Length0 ==> Ids(buffer, r) == Ids(out, r)
    ensures forall r, j :: out.Length0 <= r < buffer.Length0 && 0 <= j < buffer.Length1 ==>
      buffer[r, j] == old(buffer[r, j])
  {
    forall r, j | 0 <= r < out.Length0 && 0 <= j < out.Length1 {
      buffer[r, j] := out[r, j];
    }
  }

  /** The all-gather: the ranks' equal shares one after the other. */
  ghost function Gather(buffers: seq<seq<seq<int>>>): seq<seq<int>> {
    if |buffers| == 0 then [] else Gather(buffers[..|buffers| - 1]) + buffers[|buffers| - 1]
  }

  lemma {:induction false} GatherAt(buffers: seq<seq<seq<int>>>, e: nat, rank: nat, i: nat)
    requires forall b :: 0 <= b < |buffers| ==> |buffers[b]| == e
    requires rank < |buffers| && i < e
    ensures |Gather(buffers)| == |buffers| * e && rank * e + i < |buffers| * e
      && Gather(buffers)[rank * e + i] == buffers[rank][i]
  {
    var n := |buffers| - 1;
    GatherLength(buffers[..n], e);
    assert (n + 1) * e == n * e + e;
    if rank < n {
      GatherAt(buffers[..n], e, rank, i);
    }
  }

  lemma {:induction false} GatherLength(buffers: seq<seq<seq<int>>>, e: nat)
    requires forall b :: 0 <= b < |buffers| ==> |buffers[b]| == e
    ensures |Gather(buffers)| == |buffers| * e
  {
    if |buffers| > 0 {
      GatherLength(buffers[..|buffers| - 1], e);
      assert |buffers| * e == (|buffers| - 1) * e + e;
    }
  }

  /** On every rank the gathered rows are the full selection, row for row: the same as selecting all rows at once,
      although the split can put rows that were selected together on the other kernel path. */
  lemma SplitEqualsFull(rows: seq<Row>, k: nat, world: nat, tile: nat, buffers: seq<seq<seq<int>>>, i: nat)
    requires world >= 1 && tile >= 1 && |buffers| == world && i < |rows|
    requires forall rank: nat :: rank < world ==>
      LocalBuffer(rows, k, Partition(|rows|, world, rank, tile), buffers[rank])
    ensures |Gather(buffers)| == world * Partition(|rows|, world, 0, tile).extent >= |rows|
    ensures Gather(buffers)[i] == Canon(rows[i], k)
  {
    var e := Partition(|rows|, world, 0, tile).extent;
    ShareIs(|rows|, world, tile);
    hide Partition, Canon, Gather;
    var rank, j := Locate(i, world, e);
    assert Partition(|rows|, world, rank, tile) == Share(Min(|rows|, rank * e), Min(|rows|, rank * e + e), e);
    forall b: nat | b < world
      ensures |buffers[b]| == e
    {
      assert LocalBuffer(rows, k, Partition(|rows|, world, b, tile), buffers[b]);
    }
    GatherAt(buffers, e, rank, j);
    InShare(rows, k, Partition(|rows|, world, rank, tile), buffers[rank], j);
  }

  lemma InShare(rows: seq<Row>, k: nat, s: Share, buffer: seq<seq<int>>, j: nat)
    requires s.start <= s.stop <= |rows| && s.stop - s.start <= s.extent && j < s.stop - s.start
      && LocalBuffer(rows, k, s, buffer)
    ensures |buffer| == s.extent && buffer[j] == Canon(rows[s.start + j], k)
  {
  }

  lemma Locate(i: nat, world: nat, e: nat) returns (rank: nat, j: nat)
    requires i < world * e
    ensures rank < world && j < e && i == rank * e + j
  {
    assert e > 0 by { if e == 0 { TimesZero(world); } }
    rank, j := i / e, i % e;
    DivModDefinition(i, e);
    if world <= rank { TimesGrows(world, rank, e); }
  }

  lemma TimesZero(a: nat)
    ensures a * 0 == 0
  {
  }
}
