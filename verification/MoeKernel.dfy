/** The route table as the threads of one block build it in shared memory, phase by phase; within a phase the threads
    run in any order. */
module MoeKernel {
  import opened Arithmetic
  import opened MoeRoutes

  /** Every thread runs once. */
  ghost predicate Schedule(order: seq<nat>, threads: nat) {
    && (forall i :: 0 <= i < |order| ==> order[i] < threads)
    && (forall i, j :: 0 <= i < j < |order| ==> order[i] != order[j])
    && (forall t: nat :: t < threads ==> t in order)
  }

  lemma StrideNext(p: nat, threads: nat)
    requires threads > 0
    ensures (p + threads) % threads == p % threads
  {
    AddMultiple(p, 1, threads);
  }

  /** Between two steps of a thread's stride no index is its own. */
  lemma StrideGap(p: nat, q: nat, threads: nat)
    requires threads > 0 && p < q < p + threads
    ensures q % threads != p % threads
  {
    ModDistinct(p, q, threads);
  }

  // ---- ranks ----

  function RankOf(ids: seq<int>, experts: nat, p: nat): int
    requires p < |ids|
  {
    if Active(experts, ids[p]) then Rank(ids, p) else -1
  }

  /** One thread ranks the routes in pair order; the rank overwrites the staged id. */
  method RankRoutes(ids: seq<int>, experts: nat, hist: array<int>, pairRow: array<int>)
    requires hist.Length == experts && pairRow.Length == |ids| && hist != pairRow
    requires forall e :: 0 <= e < experts ==> hist[e] == 0
    requires pairRow[..] == ids
    modifies hist, pairRow
    ensures forall e :: 0 <= e < experts ==> hist[e] == Rows(ids, e)
    ensures forall p :: 0 <= p < |ids| ==> pairRow[p] == RankOf(ids, experts, p)
  {
    var p := 0;
    while p < |ids|
      invariant 0 <= p <= |ids|
      invariant forall e :: 0 <= e < experts ==> hist[e] == Count(ids, e, p)
      invariant forall q :: 0 <= q < p ==> pairRow[q] == RankOf(ids, experts, q)
      invariant forall q :: p <= q < |ids| ==> pairRow[q] == ids[q]
    {
      var e, rank := pairRow[p], -1;
      if 0 <= e < experts {
        rank := hist[e];
        hist[e] := rank + 1;
      }
      pairRow[p] := rank;
      p := p + 1;
    }
  }

  // ---- the two-level prefix sum ----

  /** The row counts of all experts. */
  ghost predicate Counted(ids: seq<int>, experts: nat, table: seq<int>) {
    |table| == experts && forall e :: 0 <= e < experts ==> table[e] == Rows(ids, e)
  }

  /** Where a thread's experts begin, given the first of them. */
  function Clip(first: nat, experts: nat): nat {
    Min(first, experts)
  }

  /** The tiles of one thread's experts, first up to first + span. */
  method ThreadTiles(ids: seq<int>, experts: nat, hist: array<int>, first: nat, span: nat) returns (local: int)
    requires Counted(ids, experts, hist[..])
    ensures local == Base(ids, Clip(first + span, experts)) - Base(ids, Clip(first, experts))
  {
    local := 0;
    var j := 0;
    while j < span
      invariant 0 <= j <= span
      invariant local == Base(ids, Clip(first + j, experts)) - Base(ids, Clip(first, experts))
    {
      var e := first + j;
      if e < experts {
        local := local + (hist[e] + TILE_M - 1) / TILE_M;
      }
      j := j + 1;
    }
  }

  /** The first tile of a thread's experts. */
  function Start(ids: seq<int>, experts: nat, span: nat, t: nat): nat {
    Base(ids, Clip(t * span, experts))
  }

  lemma StartNext(ids: seq<int>, experts: nat, span: nat, t: nat)
    ensures Start(ids, experts, span, t + 1) == Base(ids, Clip(t * span + span, experts))
  {
    assert (t + 1) * span == t * span + span;
  }

  /** All threads' partial sums, then the exclusive scan of them by one thread: the last entry is the number of
      tiles. */
  method ScanTiles(ids: seq<int>, experts: nat, hist: array<int>, partial: array<int>, threads: nat, span: nat,
                   order: seq<nat>)
    requires Counted(ids, experts, hist[..]) && Schedule(order, threads) && experts <= threads * span
    requires partial.Length == threads + 1 && hist != partial
    modifies partial
    ensures forall t :: 0 <= t <= threads ==> partial[t] == Start(ids, experts, span, t)
    ensures partial[threads] == Base(ids, experts)
  {
    hide Counted, Base;
    var i := 0;
    while i < |order|
      invariant 0 <= i <= |order|
      invariant forall t :: 0 <= t < threads && t in order[..i] ==>
        partial[t] == Start(ids, experts, span, t + 1) - Start(ids, experts, span, t)
      invariant Counted(ids, experts, hist[..])
    {
      var t := order[i];
      StartNext(ids, experts, span, t);
      var local := ThreadTiles(ids, experts, hist, t * span, span);
      partial[t] := local;
      assert order[..i + 1] == order[..i] + [t];
      i := i + 1;
    }
    assert order[..i] == order;
    Scan(ids, experts, partial, threads, span);
  }

  /** The scan by one thread. */
  method Scan(ids: seq<int>, experts: nat, partial: array<int>, threads: nat, span: nat)
    requires partial.Length == threads + 1 && experts <= threads * span
    requires forall t :: 0 <= t < threads ==>
      partial[t] == Start(ids, experts, span, t + 1) - Start(ids, experts, span, t)
    modifies partial
    ensures forall t :: 0 <= t <= threads ==> partial[t] == Start(ids, experts, span, t)
    ensures partial[threads] == Base(ids, experts)
  {
    var acc, t := 0, 0;
    assert Start(ids, experts, span, 0) == Base(ids, 0) by { assert 0 * span == 0; }
    while t < threads
      invariant 0 <= t <= threads && acc == Start(ids, experts, span, t)
      invariant forall s :: 0 <= s < t ==> partial[s] == Start(ids, experts, span, s)
      invariant forall s :: t <= s < threads ==>
        partial[s] == Start(ids, experts, span, s + 1) - Start(ids, experts, span, s)
    {
      hide Start;
      var v := partial[t];
      partial[t] := acc;
      acc := acc + v;
      t := t + 1;
    }
    partial[threads] := acc;
  }

  lemma PackedIs(ids: seq<int>, e: nat)
    ensures Packed(ids, e) == Pack(Rows(ids, e), Base(ids, e))
    ensures Base(ids, e + 1) == Base(ids, e) + (Rows(ids, e) + TILE_M - 1) / TILE_M
  {
  }

  /** The bases of one thread's experts, packed beside their row counts. */
  method PackThread(ids: seq<int>, experts: nat, hist: array<int>, run0: int, first: nat, span: nat)
    requires hist.Length == experts && run0 == Base(ids, Clip(first, experts))
    requires forall e :: first <= e < first + span && e < experts ==> hist[e] == Rows(ids, e)
    modifies hist
    ensures forall e :: 0 <= e < experts ==>
      hist[e] == if first <= e < first + span then Packed(ids, e) else old(hist[e])
  {
    var run: nat, j := run0, 0;
    while j < span
      invariant 0 <= j <= span && run == Base(ids, Clip(first + j, experts))
      invariant forall e :: 0 <= e < experts ==>
        hist[e] == if first <= e < first + j then Packed(ids, e) else old(hist[e])
    {
      var e := first + j;
      PackedIs(ids, e);
      hide Pack, Rows, Base, Packed;
      if e < experts {
        var rows: nat := hist[e];
        hist[e] := Pack(rows, run);
        run := run + (rows + TILE_M - 1) / TILE_M;
      }
      j := j + 1;
    }
  }

  /** The thread an expert belongs to. */
  function OwnerOf(e: nat, span: nat): nat
    requires span > 0
  {
    e / span
  }

  lemma OwnerIs(e: nat, t: nat, span: nat)
    requires span > 0
    ensures OwnerOf(e, span) == t <==> t * span <= e < t * span + span
  {
    DivModDefinition(e, span);
    if t * span <= e < t * span + span { DivModUnique(e, t, e - t * span, span); }
  }

  lemma OwnerRuns(e: nat, threads: nat, span: nat)
    requires span > 0 && e < threads * span
    ensures OwnerOf(e, span) < threads
  {
    DivModDefinition(e, span);
    if threads <= e / span { TimesGrows(threads, e / span, span); }
  }

  /** After all threads the table holds every expert's rows and first tile: the two-level scan is the sequential prefix
      sum. */
  method PackTable(ids: seq<int>, experts: nat, hist: array<int>, partial: array<int>, threads: nat, span: nat,
                   order: seq<nat>)
    requires Counted(ids, experts, hist[..]) && Schedule(order, threads) && experts <= threads * span && span > 0
    requires partial.Length == threads + 1 && hist != partial && forall t :: 0 <= t <= threads ==>
      partial[t] == Start(ids, experts, span, t)
    modifies hist
    ensures forall e :: 0 <= e < experts ==> hist[e] == Packed(ids, e)
  {
    var i := 0;
    while i < |order|
      invariant 0 <= i <= |order|
      invariant forall e :: 0 <= e < experts ==>
        hist[e] == if OwnerOf(e, span) in order[..i] then Packed(ids, e) else Rows(ids, e)
      invariant forall t :: 0 <= t <= threads ==> partial[t] == Start(ids, experts, span, t)
    {
      hide Packed, Rows, Base, OwnerOf;
      var t := order[i];
      assert t !in order[..i];
      forall e: nat | e < experts
        ensures OwnerOf(e, span) == t <==> t * span <= e < t * span + span
      {
        OwnerIs(e, t, span);
      }
      assert partial[t] == Start(ids, experts, span, t) == Base(ids, Clip(t * span, experts));
      PackThread(ids, experts, hist, partial[t], t * span, span);
      assert order[..i + 1] == order[..i] + [t];
      i := i + 1;
    }
    assert order[..i] == order;
    forall e: nat | e < experts
      ensures OwnerOf(e, span) in order
    {
      OwnerRuns(e, threads, span);
    }
  }

  // ---- physical rows ----

  /** The row the kernel finds for a route; it is the route's physical row exactly while its expert begins below the
      sign bit (MoeRoutes.RowReadsBack). */
  function RowOf(ids: seq<int>, experts: nat, p: nat): int
    requires p < |ids|
  {
    if Active(experts, ids[p]) then ReadRow(ids, p) else -1
  }

  /** The packed table. */
  ghost predicate Table(ids: seq<int>, experts: nat, table: seq<int>) {
    |table| == experts && forall e :: 0 <= e < experts ==> table[e] == Packed(ids, e)
  }

  /** The row of a route, from its rank and its expert's packed word. */
  method PlaceRoute(ids: seq<int>, experts: nat, hist: array<int>, rank: int, p: nat) returns (row: int)
    requires p < |ids| && Table(ids, experts, hist[..]) && rank == RankOf(ids, experts, p)
    ensures row == RowOf(ids, experts, p)
  {
    row := -1;
    if rank >= 0 {
      var e := ids[p];
      assert hist[..][e] == Packed(ids, e);
      var base := HighHalf(hist[e]);
      row := (base + rank / TILE_M) * TILE_M + rank % TILE_M;
    }
  }

  /** One thread's routes, a stride apart. */
  method PlaceThread(ids: seq<int>, experts: nat, hist: array<int>, pairRow: array<int>, t: nat, threads: nat)
    requires Table(ids, experts, hist[..]) && pairRow.Length == |ids| && hist != pairRow && t < threads
    requires forall p :: 0 <= p < |ids| && p % threads == t ==> pairRow[p] == RankOf(ids, experts, p)
    modifies pairRow
    ensures forall p :: 0 <= p < |ids| ==>
      pairRow[p] == if p % threads == t then RowOf(ids, experts, p) else old(pairRow[p])
  {
    hide RankOf, RowOf, Table;
    var p := t;
    DivModUnique(t, 0, t, threads);
    forall q | 0 <= q < t
      ensures q % threads != t
    {
      DivModUnique(q, 0, q, threads);
    }
    while p < |ids|
      invariant p % threads == t && Table(ids, experts, hist[..])
      invariant forall q :: 0 <= q < |ids| ==>
        pairRow[q] == if q < p && q % threads == t then RowOf(ids, experts, q) else old(pairRow[q])
    {
      var row := PlaceRoute(ids, experts, hist, pairRow[p], p);
      pairRow[p] := row;
      forall q | p < q < p + threads
        ensures q % threads != t
      {
        StrideGap(p, q, threads);
      }
      StrideNext(p, threads);
      p := p + threads;
    }
  }

  /** After all threads every route has its physical row, or -1 if its expert is out of range. */
  method PlaceRoutes(ids: seq<int>, experts: nat, hist: array<int>, pairRow: array<int>, threads: nat, order: seq<nat>)
    requires Table(ids, experts, hist[..]) && pairRow.Length == |ids| && hist != pairRow && threads > 0
    requires forall p :: 0 <= p < |ids| ==> pairRow[p] == RankOf(ids, experts, p)
    requires Schedule(order, threads)
    modifies pairRow
    ensures forall p :: 0 <= p < |ids| ==> pairRow[p] == RowOf(ids, experts, p)
  {
    var i := 0;
    while i < |order|
      invariant 0 <= i <= |order| && Table(ids, experts, hist[..])
      invariant forall p :: 0 <= p < |ids| ==>
        pairRow[p] == if p % threads in order[..i] then RowOf(ids, experts, p) else RankOf(ids, experts, p)
    {
      hide RankOf, RowOf, Table;
      assert order[i] !in order[..i];
      PlaceThread(ids, experts, hist, pairRow, order[i], threads);
      assert order[..i + 1] == order[..i] + [order[i]];
      i := i + 1;
    }
    assert order[..i] == order;
    forall p | 0 <= p < |ids|
      ensures p % threads in order
    {
      DivModDefinition(p, threads);
    }
  }

  // ---- tasks ----

  /** One expert's tasks, a tile at a time; the task slot is the tile. */
  method PublishExpert(ids: seq<int>, experts: nat, e: nat, word: int, taskExpert: array<int>, taskValid: array<int>)
    requires e < experts && |ids| < 0x1_0000 && word == Packed(ids, e) && (Rows(ids, e) > 0 ==> Base(ids, e) < 0x8000)
    requires taskExpert != taskValid && taskExpert.Length == taskValid.Length && Base(ids, e + 1) <= taskExpert.Length
    modifies taskExpert, taskValid
    ensures forall t: nat :: InExpert(ids, e, t) ==> TaskDone(ids, experts, taskExpert[t], taskValid[t], t)
    ensures forall t :: 0 <= t < taskExpert.Length && !(Base(ids, e) <= t < Base(ids, e + 1)) ==>
      taskExpert[t] == old(taskExpert[t]) && taskValid[t] == old(taskValid[t])
  {
    SlotReadsBack(ids, e, 0);
    var rows, tile := LowHalf(word), HighHalf(word);
    ghost var k, all, base := 0, Rows(ids, e), Base(ids, e);
    while rows > 0
      invariant 0 <= k <= TilesFor(all) && (all > 0 ==> tile == base + k) && rows == all - k * TILE_M
      invariant rows <= 0 ==> k == TilesFor(all)
      invariant forall t :: base <= t < base + k ==>
        taskExpert[t] == e && taskValid[t] == Min(all - (t - base) * TILE_M, TILE_M)
      invariant forall t :: 0 <= t < taskExpert.Length && !(base <= t < Base(ids, e + 1)) ==>
        taskExpert[t] == old(taskExpert[t]) && taskValid[t] == old(taskValid[t])
      decreases rows
    {
      hide Packed, Rows, Tasks;
      taskExpert[tile], taskValid[tile] := e, if rows > TILE_M then TILE_M else rows;
      rows, tile, k := rows - TILE_M, tile + 1, k + 1;
    }
    assert k == TilesFor(all) && base + k == Base(ids, e + 1);
    forall t: nat | InExpert(ids, e, t)
      ensures TaskDone(ids, experts, taskExpert[t], taskValid[t], t)
    {
      TaskAt(ids, experts, e, t - base);
      assert base + (t - base) == t;
    }
  }

  /** The expert loop: a stride of threads covers every expert once, in any order. */
  method PublishTasks(ids: seq<int>, experts: nat, hist: array<int>, taskExpert: array<int>, taskValid: array<int>,
                      order: seq<nat>)
    requires |ids| < 0x1_0000 && Table(ids, experts, hist[..]) && Usable(ids, experts) && Schedule(order, experts)
    requires taskExpert != taskValid && hist != taskExpert && hist != taskValid
    requires taskExpert.Length == taskValid.Length == Base(ids, experts)
    modifies taskExpert, taskValid
    ensures forall t :: 0 <= t < Base(ids, experts) ==> TaskDone(ids, experts, taskExpert[t], taskValid[t], t)
  {
    var i := 0;
    while i < |order|
      invariant 0 <= i <= |order| && Table(ids, experts, hist[..])
      invariant forall k: nat, t: nat :: k < i && InExpert(ids, order[k], t) && t < taskExpert.Length ==>
        TaskDone(ids, experts, taskExpert[t], taskValid[t], t)
    {
      hide Tasks, Packed, Base;
      var e := order[i];
      ExpertFits(ids, experts, e);
      assert hist[..][e] == Packed(ids, e);
      PublishExpert(ids, experts, e, hist[e], taskExpert, taskValid);
      i := i + 1;
    }
    forall t | 0 <= t < Base(ids, experts)
      ensures TaskDone(ids, experts, taskExpert[t], taskValid[t], t)
    {
      var e := ExpertOf(ids, experts, t);
      assert e in order;
      var k :| 0 <= k < |order| && order[k] == e;
      assert InExpert(ids, order[k], t);
    }
  }

  predicate InExpert(ids: seq<int>, e: nat, t: nat) {
    Base(ids, e) <= t < Base(ids, e + 1)
  }

  /** A tile's slot holds the tile's task. */
  predicate TaskDone(ids: seq<int>, experts: nat, expert: int, valid: int, t: nat) {
    t < |Tasks(ids, experts)| && Tasks(ids, experts)[t].expert == expert && Tasks(ids, experts)[t].valid == valid
  }

  lemma ExpertFits(ids: seq<int>, experts: nat, e: nat)
    requires e < experts
    ensures Base(ids, e) <= Base(ids, e + 1) <= Base(ids, experts)
  {
    BasesAscend(ids, e, e + 1);
    BasesAscend(ids, e + 1, experts);
  }

  lemma {:induction false} ExpertOf(ids: seq<int>, experts: nat, t: nat) returns (e: nat)
    requires t < Base(ids, experts)
    ensures e < experts && InExpert(ids, e, t)
  {
    if t >= Base(ids, experts - 1) { e := experts - 1; } else { e := ExpertOf(ids, experts - 1, t); }
  }

  // ---- the whole table ----

  /** All phases: for any route ids, any number of threads and any order of the threads within each phase, the rows,
      the task list and the task tail are those of the sequential specification. groups is the number of materialized
      groups. */
  method BuildRouteTable(ids: seq<int>, experts: nat, threads: nat, groups: nat, scan: seq<nat>, pack: seq<nat>,
                         place: seq<nat>, publish: seq<nat>)
    returns (rows: array<int>, taskExpert: array<int>, taskValid: array<int>, taskTail: int)
    requires experts >= 1 && threads >= 1 && |ids| < 0x1_0000 && Usable(ids, experts)
    requires Schedule(scan, threads) && Schedule(pack, threads) && Schedule(place, threads)
      && Schedule(publish, experts)
    ensures rows.Length == |ids|
    ensures forall p :: 0 <= p < |ids| ==> rows[p] == if Active(experts, ids[p]) then PhysicalRow(ids, p) else -1
    ensures taskExpert.Length == taskValid.Length == Base(ids, experts)
    ensures forall t :: 0 <= t < Base(ids, experts) ==> TaskDone(ids, experts, taskExpert[t], taskValid[t], t)
    ensures taskTail == Base(ids, experts) * groups
  {
    hide Tasks, Pack, Base, Rows;
    var span := (experts + threads - 1) / threads;
    SpanCovers(experts, threads);
    var hist, partial := new int[experts](_ => 0), new int[threads + 1];
    rows := new int[|ids|](p requires 0 <= p < |ids| => ids[p]);
    assert rows[..] == ids;
    RankRoutes(ids, experts, hist, rows);
    assert Counted(ids, experts, hist[..]);
    ScanTiles(ids, experts, hist, partial, threads, span, scan);
    var total := partial[threads];
    PackTable(ids, experts, hist, partial, threads, span, pack);
    assert Table(ids, experts, hist[..]);
    PlaceRoutes(ids, experts, hist, rows, threads, place);
    TableIsRight(ids, experts);
    taskExpert, taskValid := new int[total], new int[total];
    PublishTasks(ids, experts, hist, taskExpert, taskValid, publish);
    taskTail := total * groups;
  }

  lemma SpanCovers(experts: nat, threads: nat)
    requires experts >= 1 && threads >= 1
    ensures var span := (experts + threads - 1) / threads; span >= 1 && experts <= threads * span
  {
    var x, span := experts + threads - 1, (experts + threads - 1) / threads;
    DivModDefinition(x, threads);
    if span <= 0 { NonPositiveProduct(span, threads); }
  }
}
