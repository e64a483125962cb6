/** The decode route table: ranks in pair order, tile bases by a prefix sum, physical rows, and the task list. */
module MoeRoutes {
  const TILE_M := 16

  function Min(a: int, b: int): int {
    if a < b then a else b
  }

  predicate Active(experts: nat, id: int) {
    0 <= id < experts
  }

  /** How many of the first n routes go to an expert. */
  function Count(ids: seq<int>, e: int, n: nat): (c: nat)
    requires n <= |ids|
    ensures c <= n
  {
    if n == 0 then 0 else Count(ids, e, n - 1) + if ids[n - 1] == e then 1 else 0
  }

  function Rows(ids: seq<int>, e: int): nat {
    Count(ids, e, |ids|)
  }

  /** A route's rank among the routes of its expert, in pair order. */
  function Rank(ids: seq<int>, p: nat): nat
    requires p < |ids|
  {
    Count(ids, ids[p], p)
  }

  /** Tiles of TILE_M rows that hold so many rows. */
  function TilesFor(rows: nat): nat
  {
    (rows + TILE_M - 1) / TILE_M
  }

  /** The first tile of an expert: the tiles of all experts before it. */
  function Base(ids: seq<int>, e: nat): nat
  {
    if e == 0 then 0 else Base(ids, e - 1) + TilesFor(Rows(ids, e - 1))
  }

  /** The row of a route in the packed activations. */
  function PhysicalRow(ids: seq<int>, p: nat): nat
    requires p < |ids| && ids[p] >= 0
  {
    Base(ids, ids[p]) * TILE_M + Rank(ids, p)
  }

  // ---- ranks ----

  lemma {:induction false} CountAscends(ids: seq<int>, e: int, a: nat, b: nat)
    requires a <= b <= |ids|
    ensures Count(ids, e, a) <= Count(ids, e, b)
    ensures a < b && ids[a] == e ==> Count(ids, e, a) < Count(ids, e, b)
    decreases b - a
  {
    if a < b { CountAscends(ids, e, a, b - 1); }
  }

  /** Every rank below an expert's row count belongs to exactly one of its routes. */
  lemma {:induction false} RankFound(ids: seq<int>, e: int, k: nat, n: nat) returns (p: nat)
    requires n <= |ids| && k < Count(ids, e, n)
    ensures p < n && ids[p] == e && Rank(ids, p) == k
  {
    if k < Count(ids, e, n - 1) { p := RankFound(ids, e, k, n - 1); } else { p := n - 1; }
  }

  lemma TilesHold(rows: nat)
    ensures rows <= TilesFor(rows) * TILE_M && TilesFor(rows) <= rows
    ensures rows > 0 ==> rows > (TilesFor(rows) - 1) * TILE_M
  {
  }

  lemma {:induction false} BasesAscend(ids: seq<int>, d: nat, e: nat)
    requires d <= e
    ensures Base(ids, d) <= Base(ids, e)
  {
    if d < e { BasesAscend(ids, d, e - 1); }
  }

  /** A route's row lies in its own expert's tiles. */
  lemma RowInExpert(ids: seq<int>, p: nat)
    requires p < |ids| && ids[p] >= 0
    ensures Base(ids, ids[p]) * TILE_M <= PhysicalRow(ids, p) < Base(ids, ids[p] + 1) * TILE_M
    ensures Rank(ids, p) < Rows(ids, ids[p])
  {
    var e := ids[p];
    CountAscends(ids, e, p, |ids|);
    TilesHold(Rows(ids, e));
  }

  /** Distinct active routes have distinct physical rows. */
  lemma RowsAreDistinct(ids: seq<int>, p: nat, q: nat)
    requires p < q < |ids| && ids[p] >= 0 && ids[q] >= 0
    ensures PhysicalRow(ids, p) != PhysicalRow(ids, q)
  {
    if ids[p] == ids[q] {
      CountAscends(ids, ids[p], p, q);
    } else {
      RowInExpert(ids, p);
      RowInExpert(ids, q);
      var lo, hi: nat := Min(ids[p], ids[q]), if ids[p] < ids[q] then ids[q] else ids[p];
      BasesAscend(ids, lo + 1, hi);
    }
  }

  /** The rows lie in the order of the experts, and within an expert in the order of the pairs. */
  lemma RowsAreOrdered(ids: seq<int>, p: nat, q: nat)
    requires p < |ids| && q < |ids| && ids[p] >= 0 && ids[q] >= 0
    ensures PhysicalRow(ids, p) < PhysicalRow(ids, q) <==> ids[p] < ids[q] || (ids[p] == ids[q] && p < q)
  {
    if ids[p] == ids[q] {
      if p < q { CountAscends(ids, ids[p], p, q); } else { CountAscends(ids, ids[p], q, p); }
    } else {
      RowInExpert(ids, p);
      RowInExpert(ids, q);
      if ids[p] < ids[q] { BasesAscend(ids, ids[p] + 1, ids[q]); } else { BasesAscend(ids, ids[q] + 1, ids[p]); }
    }
  }

  /** The earlier pairs of an expert. */
  function Earlier(ids: seq<int>, e: int, p: nat): (s: set<nat>)
    requires p <= |ids|
    ensures forall q: nat :: q in s <==> q < p && ids[q] == e
  {
    set q: nat | q < p && ids[q] == e
  }

  /** An expert's rows begin a tile, and each of its routes lies as far behind as there are earlier pairs of it. */
  lemma RowsFollow(ids: seq<int>, p: nat)
    requires p < |ids| && ids[p] >= 0
    ensures var first := PhysicalRow(ids, p) - |Earlier(ids, ids[p], p)|;
      && first % 16 == 0
      && ((forall e: nat :: e < ids[p] ==> e !in ids) ==> first == 0)
  {
    EarlierAre(ids, ids[p], p);
    if forall e: nat :: e < ids[p] ==> e !in ids { NoneBefore(ids, ids[p]); }
  }

  lemma {:induction false} EarlierAre(ids: seq<int>, e: int, p: nat)
    requires p <= |ids|
    ensures |Earlier(ids, e, p)| == Count(ids, e, p)
  {
    if p > 0 {
      EarlierAre(ids, e, p - 1);
      assert Earlier(ids, e, p) == Earlier(ids, e, p - 1) + if ids[p - 1] == e then {p - 1} else {};
    } else {
      assert Earlier(ids, e, 0) == {};
    }
  }

  lemma {:induction false} NoneBefore(ids: seq<int>, e: nat)
    requires forall d: nat :: d < e ==> d !in ids
    ensures Base(ids, e) == 0
  {
    if e > 0 {
      NoneBefore(ids, e - 1);
      EarlierAre(ids, e - 1, |ids|);
      assert e - 1 !in ids;
      assert Earlier(ids, e - 1, |ids|) == {};
    }
  }

  // ---- the packed word ----

  /** A 32-bit signed word. */
  function Wrap(x: int): int {
    if x % 0x1_0000_0000 < 0x8000_0000 then x % 0x1_0000_0000 else x % 0x1_0000_0000 - 0x1_0000_0000
  }

  /** Rows in the low half, the tile base in the high half. */
  function Pack(rows: nat, base: nat): int {
    Wrap(rows + base * 0x1_0000)
  }

  function LowHalf(word: int): int {
    word % 0x1_0000
  }

  /** An arithmetic shift. */
  function HighHalf(word: int): int {
    word / 0x1_0000
  }

  /** The packing round-trips exactly as long as the base leaves the sign bit alone. */
  lemma PackingRoundTrips(rows: nat, base: nat)
    requires rows < 0x1_0000 && base < 0x1_0000
    ensures LowHalf(Pack(rows, base)) == rows
    ensures HighHalf(Pack(rows, base)) == base <==> base < 0x8000
  {
  }

  /** There are never more tiles than routes, and every expert wastes less than a tile. */
  lemma {:induction false} BaseIsBounded(ids: seq<int>, e: nat)
    ensures Base(ids, e) <= Routed(ids, e)
    ensures Base(ids, e) * TILE_M <= Routed(ids, e) + (TILE_M - 1) * e
  {
    if e > 0 {
      BaseIsBounded(ids, e - 1);
      var r := Rows(ids, e - 1);
      TilesHold(r);
    }
  }

  /** Active routes of the first e experts. */
  function Routed(ids: seq<int>, e: nat): nat {
    if e == 0 then 0 else Routed(ids, e - 1) + Rows(ids, e - 1)
  }

  /** Active routes among the first n. */
  function ActiveCount(ids: seq<int>, experts: nat, n: nat): nat
    requires n <= |ids|
  {
    if n == 0 then 0 else ActiveCount(ids, experts, n - 1) + if Active(experts, ids[n - 1]) then 1 else 0
  }

  function RoutedAmong(ids: seq<int>, e: nat, n: nat): nat
    requires n <= |ids|
  {
    if e == 0 then 0 else RoutedAmong(ids, e - 1, n) + Count(ids, e - 1, n)
  }

  lemma {:induction false} RoutedNone(ids: seq<int>, e: nat)
    ensures RoutedAmong(ids, e, 0) == 0 && Routed(ids, e) == RoutedAmong(ids, e, |ids|)
  {
    if e > 0 { RoutedNone(ids, e - 1); }
  }

  lemma {:induction false} RoutedStep(ids: seq<int>, e: nat, n: nat)
    requires 0 < n <= |ids|
    ensures RoutedAmong(ids, e, n) == RoutedAmong(ids, e, n - 1) + if Active(e, ids[n - 1]) then 1 else 0
  {
    if e > 0 { RoutedStep(ids, e - 1, n); }
  }

  lemma {:induction false} RoutedIsActive(ids: seq<int>, experts: nat, n: nat)
    requires n <= |ids|
    ensures RoutedAmong(ids, experts, n) == ActiveCount(ids, experts, n) <= n
  {
    if n == 0 {
      RoutedNone(ids, experts);
    } else {
      RoutedIsActive(ids, experts, n - 1);
      RoutedStep(ids, experts, n);
    }
  }

  lemma {:induction false} RoutedAscends(ids: seq<int>, d: nat, e: nat)
    requires d <= e
    ensures Routed(ids, d) <= Routed(ids, e)
  {
    if d < e { RoutedAscends(ids, d, e - 1); }
  }

  lemma RoutedBelow(ids: seq<int>, e: nat)
    ensures Routed(ids, e) <= |ids|
  {
    RoutedNone(ids, e);
    RoutedIsActive(ids, e, |ids|);
  }

  /** Every base fits its half of the word, sign bit included. */
  lemma BaseFitsHalf(ids: seq<int>, e: nat)
    requires |ids| < 0x1_0000
    ensures Base(ids, e) < 0x1_0000 && Rows(ids, e) < 0x1_0000
  {
    BaseIsBounded(ids, e);
    RoutedBelow(ids, e);
  }

  // ---- what the packed table gives back ----

  /** An expert's table entry. */
  function Packed(ids: seq<int>, e: nat): int {
    Pack(Rows(ids, e), Base(ids, e))
  }

  /** The row of a route as the kernel computes it, from its rank and its expert's packed word. */
  function ReadRow(ids: seq<int>, p: nat): int
    requires p < |ids| && ids[p] >= 0
  {
    (HighHalf(Packed(ids, ids[p])) + Rank(ids, p) / TILE_M) * TILE_M + Rank(ids, p) % TILE_M
  }

  /** The task slot of an expert's tile as the kernel computes it. */
  function ReadSlot(ids: seq<int>, e: nat, k: nat): int {
    HighHalf(Packed(ids, e)) + k
  }

  /** Every expert with a route begins below the sign bit. */
  ghost predicate Usable(ids: seq<int>, experts: nat) {
    forall e: nat :: e < experts && Rows(ids, e) > 0 ==> Base(ids, e) < 0x8000
  }

  /** A route's row comes back if and only if its expert's base leaves the sign bit alone. */
  lemma RowReadsBack(ids: seq<int>, p: nat)
    requires p < |ids| < 0x1_0000 && ids[p] >= 0
    ensures ReadRow(ids, p) == PhysicalRow(ids, p) <==> Base(ids, ids[p]) < 0x8000
  {
    BaseFitsHalf(ids, ids[p]);
    PackingRoundTrips(Rows(ids, ids[p]), Base(ids, ids[p]));
    hide Packed, Base, Rank, HighHalf;
    var high, rank := HighHalf(Packed(ids, ids[p])), Rank(ids, p);
    assert rank == rank / TILE_M * TILE_M + rank % TILE_M;
  }

  lemma SlotReadsBack(ids: seq<int>, e: nat, k: nat)
    requires |ids| < 0x1_0000
    ensures LowHalf(Packed(ids, e)) == Rows(ids, e)
    ensures ReadSlot(ids, e, k) == Base(ids, e) + k <==> Base(ids, e) < 0x8000
  {
    BaseFitsHalf(ids, e);
    PackingRoundTrips(Rows(ids, e), Base(ids, e));
  }

  ghost predicate RowsRight(ids: seq<int>, experts: nat) {
    forall p: nat :: p < |ids| && Active(experts, ids[p]) ==> ReadRow(ids, p) == PhysicalRow(ids, p)
  }

  ghost predicate SlotsRight(ids: seq<int>, experts: nat) {
    forall e: nat, k: nat :: e < experts && k < TilesFor(Rows(ids, e)) ==> ReadSlot(ids, e, k) == Base(ids, e) + k
  }

  /** The whole table, exactly: all rows are right, and all task slots, if and only if every expert with a route begins
      below the sign bit. */
  lemma TableIsRight(ids: seq<int>, experts: nat)
    requires |ids| < 0x1_0000
    ensures RowsRight(ids, experts) <==> Usable(ids, experts)
    ensures SlotsRight(ids, experts) <==> Usable(ids, experts)
  {
    hide Rows, Base, ReadRow, ReadSlot, PhysicalRow;
    forall p: nat | p < |ids| && Active(experts, ids[p])
      ensures Rows(ids, ids[p]) > 0 && (ReadRow(ids, p) == PhysicalRow(ids, p) <==> Base(ids, ids[p]) < 0x8000)
    {
      RowReadsBack(ids, p);
      RowInExpert(ids, p);
    }
    forall e: nat | e < experts && Rows(ids, e) > 0
      ensures exists p: nat :: p < |ids| && ids[p] == e
      ensures 0 < TilesFor(Rows(ids, e))
    {
      var p := RouteOf(ids, e);
      TilesLess(Rows(ids, e));
    }
    forall e: nat, k: nat | e < experts && k < TilesFor(Rows(ids, e))
      ensures Rows(ids, e) > 0 && (ReadSlot(ids, e, k) == Base(ids, e) + k <==> Base(ids, e) < 0x8000)
    {
      SlotReadsBack(ids, e, k);
    }
    if SlotsRight(ids, experts) {
      forall e: nat | e < experts && Rows(ids, e) > 0
        ensures Base(ids, e) < 0x8000
      {
        assert ReadSlot(ids, e, 0) == Base(ids, e) + 0;
      }
    }
  }

  lemma RouteOf(ids: seq<int>, e: nat) returns (p: nat)
    requires Rows(ids, e) > 0
    ensures p < |ids| && ids[p] == e
  {
    p := RankFound(ids, e, 0, |ids|);
  }

  // ---- which calls are safe ----

  /** No list of so many routes over so many experts can reach the sign bit. */
  predicate Safe(routes: nat, experts: nat) {
    routes <= 0x8000 || routes - 1 + (TILE_M - 1) * (experts - 1) < 0x8000 * TILE_M
  }

  lemma SafeIsUsable(ids: seq<int>, experts: nat)
    requires Safe(|ids|, experts)
    ensures Usable(ids, experts)
  {
    hide Base, Rows;
    forall e: nat | e < experts && Rows(ids, e) > 0
      ensures Base(ids, e) < 0x8000
    {
      BaseIsBounded(ids, e);
      RoutedBelow(ids, e + 1);
      assert Routed(ids, e) + Rows(ids, e) == Routed(ids, e + 1);
    }
  }

  /** One route for every expert but the last, as far as they go, what is left over for expert 0, and the last route for
      the last expert. */
  function Spread(routes: nat, experts: nat): (ids: seq<int>)
    requires routes >= 1 && experts >= 1
    ensures |ids| == routes
  {
    seq(routes, (i: nat) => if i == routes - 1 then experts - 1 else if i < experts - 1 then i else 0)
  }

  function Extra(routes: nat, experts: nat): nat {
    if routes > experts then routes - experts else 0
  }

  lemma {:induction false} SpreadCount(routes: nat, experts: nat, e: nat, n: nat)
    requires routes >= 1 && experts >= 1 && e < experts - 1 && n < routes
    ensures Count(Spread(routes, experts), e, n)
         == (if e < n then 1 else 0) + (if e == 0 && n >= experts then n - (experts - 1) else 0)
  {
    if n > 0 { SpreadCount(routes, experts, e, n - 1); }
  }

  lemma {:induction false} SpreadBase(routes: nat, experts: nat, e: nat)
    requires routes >= 1 && experts >= 1 && 0 < e < experts
    ensures Base(Spread(routes, experts), e) == TilesFor(1 + Extra(routes, experts)) - 1 + Min(e, routes - 1)
      || routes == 1
  {
    hide Spread;
    var ids := Spread(routes, experts);
    SpreadRows(routes, experts, e - 1);
    if e > 1 {
      SpreadBase(routes, experts, e - 1);
    } else {
      assert Base(ids, 0) == 0;
    }
  }

  lemma SpreadRows(routes: nat, experts: nat, e: nat)
    requires routes >= 1 && experts >= 1 && e < experts - 1
    ensures Rows(Spread(routes, experts), e)
      == (if e < routes - 1 then 1 else 0) + (if e == 0 then Extra(routes, experts) else 0)
  {
    SpreadCount(routes, experts, e, routes - 1);
  }

  /** Outside the safe sizes that list reaches it. */
  lemma SpreadIsUnusable(routes: nat, experts: nat)
    requires 1 <= routes < 0x1_0000 && experts >= 1 && !Safe(routes, experts)
    ensures !Usable(Spread(routes, experts), experts)
  {
    var ids := Spread(routes, experts);
    SpreadBase(routes, experts, experts - 1);
    assert ids[routes - 1] == experts - 1;
    CountAscends(ids, experts - 1, routes - 1, routes);
    assert Rows(ids, experts - 1) > 0;
    hide Spread, Base, Rows;
    if routes <= experts {
      assert Extra(routes, experts) == 0 && TilesFor(1) == 1;
    }
  }

  /** The caller's condition, exactly: all route lists of a size are usable if and only if the size is safe. */
  lemma SafeSizes(routes: nat, experts: nat)
    requires 1 <= routes < 0x1_0000 && experts >= 1
    ensures Safe(routes, experts) <==> forall ids: seq<int> :: |ids| == routes ==> Usable(ids, experts)
  {
    if Safe(routes, experts) {
      forall ids: seq<int> | |ids| == routes
        ensures Usable(ids, experts)
      {
        SafeIsUsable(ids, experts);
      }
    } else {
      SpreadIsUnusable(routes, experts);
    }
  }

  /** The kernel's own limits admit a call that fails: the routes 0, 1, ..., 2^15, one for each expert. The last one's
      row comes back negative. */
  lemma RowIsLost()
    ensures var ids := Spread(0x8001, 0x8001);
      |ids| < 0x1_0000 && (forall i :: 0 <= i < |ids| ==> ids[i] == i)
      && PhysicalRow(ids, 0x8000) == 0x8_0000 && ReadRow(ids, 0x8000) == -0x8_0000
  {
    SpreadLine(0x8000);
    hide Spread, Base, Rows, Rank;
    assert HighHalf(Pack(1, 0x8000)) == -0x8000;
  }

  /** As many experts as routes: each has one, and its base is its number. */
  lemma SpreadLine(n: nat)
    requires n > 0
    ensures var ids := Spread(n + 1, n + 1);
      (forall i :: 0 <= i < |ids| ==> ids[i] == i) && Base(ids, n) == n && Rank(ids, n) == 0 && Rows(ids, n) == 1
  {
    var ids := Spread(n + 1, n + 1);
    SpreadBase(n + 1, n + 1, n);
    LastAlone(ids, n, n);
    assert TilesFor(1) == 1;
    assert Rows(ids, n) == Count(ids, n, n) + 1;
  }

  lemma {:induction false} LastAlone(ids: seq<int>, e: int, n: nat)
    requires n <= |ids| && forall i :: 0 <= i < n ==> ids[i] != e
    ensures Count(ids, e, n) == 0
  {
    if n > 0 { LastAlone(ids, e, n - 1); }
  }

  // ---- tasks ----

  /** A tile's task: its expert and how many of its rows are routes. */
  datatype Task = Task(expert: nat, valid: nat)

  /** The tasks of one expert, a full tile at a time. */
  function TasksOf(e: nat, rows: nat): (tasks: seq<Task>)
    decreases rows
  {
    if rows == 0 then [] else [Task(e, Min(rows, TILE_M))] + (if rows <= TILE_M then [] else TasksOf(e, rows - TILE_M))
  }

  /** The task list of the first e experts, tile by tile. */
  function Tasks(ids: seq<int>, e: nat): (tasks: seq<Task>)
  {
    if e == 0 then [] else Tasks(ids, e - 1) + TasksOf(e - 1, Rows(ids, e - 1))
  }

  function SumValid(tasks: seq<Task>): nat {
    if |tasks| == 0 then 0 else SumValid(tasks[..|tasks| - 1]) + tasks[|tasks| - 1].valid
  }

  lemma {:induction false} SumJoins(a: seq<Task>, b: seq<Task>)
    ensures SumValid(a + b) == SumValid(a) + SumValid(b)
  {
    if |b| == 0 {
      assert a + b == a;
    } else {
      assert (a + b)[..|a + b| - 1] == a + b[..|b| - 1];
      SumJoins(a, b[..|b| - 1]);
    }
  }

  lemma TilesLess(rows: nat)
    requires rows > 0
    ensures TilesFor(rows) == 1 + if rows <= TILE_M then 0 else TilesFor(rows - TILE_M)
    ensures rows <= TILE_M ==> TilesFor(rows) == 1
  {
  }

  /** One expert's tasks: as many as its tiles, holding its rows. */
  lemma {:induction false} TasksOfExpert(e: nat, rows: nat)
    ensures |TasksOf(e, rows)| == TilesFor(rows) && SumValid(TasksOf(e, rows)) == rows
    decreases rows
  {
    if rows > 0 {
      TilesLess(rows);
      var first: seq<Task> := [Task(e, Min(rows, TILE_M))];
      var rest := if rows <= TILE_M then [] else TasksOf(e, rows - TILE_M);
      if rows > TILE_M { TasksOfExpert(e, rows - TILE_M); }
      assert first[..0] == [] && SumValid(first) == Min(rows, TILE_M);
      assert TasksOf(e, rows) == first + rest && (rows <= TILE_M ==> SumValid(rest) == 0);
      hide TasksOf, SumValid;
      SumJoins(first, rest);
    }
  }

  /** Task k of an expert holds its rows from k tiles on. */
  lemma {:induction false} TaskOfExpertAt(e: nat, rows: nat, k: nat)
    requires k < TilesFor(rows)
    ensures k < |TasksOf(e, rows)| && k * TILE_M < rows
      && TasksOf(e, rows)[k] == Task(e, Min(rows - k * TILE_M, TILE_M))
    decreases rows
  {
    TasksOfExpert(e, rows);
    if k > 0 {
      TilesLess(rows);
      TaskOfExpertAt(e, rows - TILE_M, k - 1);
      assert TasksOf(e, rows)[k] == TasksOf(e, rows - TILE_M)[k - 1];
    }
  }

  /** The task list has one task per tile, and its valid rows sum to the active routes. */
  lemma {:induction false} TasksCount(ids: seq<int>, e: nat)
    ensures |Tasks(ids, e)| == Base(ids, e) && SumValid(Tasks(ids, e)) == Routed(ids, e)
  {
    if e > 0 {
      hide Rows, TasksOf, TilesFor, SumValid;
      TasksCount(ids, e - 1);
      TasksOfExpert(e - 1, Rows(ids, e - 1));
      SumJoins(Tasks(ids, e - 1), TasksOf(e - 1, Rows(ids, e - 1)));
    } else {
      assert SumValid([]) == 0;
    }
  }

  /** Tile Base(e) + k is task k of expert e. */
  lemma {:induction false} TaskAt(ids: seq<int>, experts: nat, e: nat, k: nat)
    requires e < experts && k < TilesFor(Rows(ids, e))
    ensures Base(ids, e) + k < |Tasks(ids, experts)|
    ensures k * TILE_M < Rows(ids, e)
      && Tasks(ids, experts)[Base(ids, e) + k] == Task(e, Min(Rows(ids, e) - k * TILE_M, TILE_M))
  {
    hide Rows, TasksOf, SumValid, TilesFor;
    TasksCount(ids, experts - 1);
    if e < experts - 1 {
      TaskAt(ids, experts - 1, e, k);
    } else {
      TasksOfExpert(e, Rows(ids, e));
      TaskOfExpertAt(e, Rows(ids, e), k);
    }
  }

  /** Every active route lies in exactly one tile, its own expert's, among the tile's valid rows. */
  lemma RouteHasTask(ids: seq<int>, experts: nat, p: nat)
    requires p < |ids| && Active(experts, ids[p])
    ensures var t, r := PhysicalRow(ids, p) / TILE_M, PhysicalRow(ids, p) % TILE_M;
      t < |Tasks(ids, experts)| && Tasks(ids, experts)[t].expert == ids[p] && r < Tasks(ids, experts)[t].valid
  {
    var e, k, r := ids[p], Rank(ids, p) / TILE_M, Rank(ids, p) % TILE_M;
    RowInExpert(ids, p);
    TilesHold(Rows(ids, e));
    TaskAt(ids, experts, e, k);
  }

  /** And every valid row of every tile is some route's. */
  lemma TaskHasRoute(ids: seq<int>, experts: nat, e: nat, k: nat, r: nat) returns (p: nat)
    requires e < experts && k < TilesFor(Rows(ids, e)) && r < Min(Rows(ids, e) - k * TILE_M, TILE_M)
    ensures p < |ids| && ids[p] == e && PhysicalRow(ids, p) == (Base(ids, e) + k) * TILE_M + r
  {
    p := RankFound(ids, e, k * TILE_M + r, |ids|);
  }

  /** The task list covers exactly the active routes. */
  lemma TasksCoverActiveRoutes(ids: seq<int>, experts: nat)
    ensures SumValid(Tasks(ids, experts)) == ActiveCount(ids, experts, |ids|)
      && |Tasks(ids, experts)| == Base(ids, experts)
  {
    TasksCount(ids, experts);
    RoutedNone(ids, experts);
    RoutedIsActive(ids, experts, |ids|);
  }
}
