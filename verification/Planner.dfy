/** Chunk planning around mandatory stops: which stops a chunk exports from inside, and where it ends. */
module Planner {
  import opened Arithmetic

  const CHUNK_TOKENS := 16

  datatype Option<T> = None | Some(value: T)

  function Cdiv(a: int, b: int): int
    requires b > 0
  {
    -((-a) / b)
  }

  function Max(a: int, b: int): int {
    if a < b then b else a
  }

  /** The longest prefix a replay of a prompt can hit. */
  function ReplayBoundary(promptTokens: int, unit: int): int
    requires unit > 0
  {
    Max(0, (promptTokens - 1) / unit * unit - unit)
  }

  /** It is a multiple of the unit that leaves one whole unit before the prompt's last token, or 0. */
  lemma ReplayBoundaryFits(promptTokens: int, unit: int)
    requires unit > 0
    ensures ReplayBoundary(promptTokens, unit) >= 0 && ReplayBoundary(promptTokens, unit) % unit == 0
    ensures ReplayBoundary(promptTokens, unit) > 0 ==> ReplayBoundary(promptTokens, unit) + unit <= promptTokens - 1
  {
    var q := (promptTokens - 1) / unit;
    DivModDefinition(promptTokens - 1, unit);
    assert q * unit - unit == (q - 1) * unit;
    DivModUnique((q - 1) * unit, q - 1, 0, unit);
    DivModUnique(0, 0, 0, unit);
  }

  /** No longer multiple does. */
  lemma ReplayBoundaryIsLongest(promptTokens: int, unit: int, k: int)
    requires unit > 0 && k * unit + unit <= promptTokens - 1
    ensures k * unit <= ReplayBoundary(promptTokens, unit)
  {
    var q := (promptTokens - 1) / unit;
    DivModDefinition(promptTokens - 1, unit);
    if k > q - 1 {
      ProductAtLeast(k - q + 1, unit);
      Distributes(k, q, unit);
    } else {
      NonPositiveProduct(k - (q - 1), unit);
      Distributes(k, q, unit);
    }
  }

  lemma Distributes(k: int, q: int, unit: int)
    ensures (k - q + 1) * unit == k * unit - q * unit + unit
  {
  }

  // ---- the plan ----

  datatype Plan = Plan(end: int, exports: seq<int>)

  predicate Ascending(list: seq<int>) {
    forall i, j :: 0 <= i < j < |list| ==> list[i] < list[j]
  }

  /** The stops strictly between two positions, ascending. */
  function Inside(stops: set<int>, start: int, end: int): (list: seq<int>)
    ensures forall s :: s in list <==> s in stops && start < s < end
    ensures Ascending(list)
    decreases end - start
  {
    if end - 1 <= start then []
    else
      var rest := Inside(stops, start, end - 1);
      assert forall i :: 0 <= i < |rest| ==> rest[i] in rest;
      if end - 1 in stops then rest + [end - 1] else rest
  }

  predicate Exportable(stop: int, start: int, grid: int, boundary: int)
    requires grid > 0
  {
    (stop % grid == 0 || stop == boundary) && (stop - start) % CHUNK_TOKENS == 0
  }

  /** How many of the listed stops a chunk can export before one ends it. */
  function Walk(list: seq<int>, start: int, grid: int, boundary: int, maxExports: int): (n: nat)
    requires grid > 0
    ensures n <= |list|
  {
    if |list| == 0 || !Exportable(list[0], start, grid, boundary) || maxExports <= 0 then 0
    else 1 + Walk(list[1..], start, grid, boundary, maxExports - 1)
  }

  function Column(p: int, grid: int): int
    requires grid > 0
  {
    Cdiv(p, grid) - 1
  }

  /** The boundary shares its column with the chunk's final state or with another export. */
  predicate Clash(exports: seq<int>, boundary: int, end: int, grid: int)
    requires grid > 0
  {
    && boundary in exports
    && (Column(boundary, grid) == Column(end, grid)
        || exists p :: p in exports && p != boundary && Column(p, grid) == Column(boundary, grid))
  }

  function Below(list: seq<int>, bound: int): (below: seq<int>)
    ensures forall p :: p in below <==> p in list && p < bound
    ensures Ascending(list) ==> Ascending(below)
  {
    if |list| == 0 then []
    else
      assert list == list[..|list| - 1] + [list[|list| - 1]];
      var rest := Below(list[..|list| - 1], bound);
      assert forall i :: 0 <= i < |rest| ==> rest[i] in rest;
      var front, last := list[..|list| - 1], list[|list| - 1];
      assert Ascending(list) ==> forall i :: 0 <= i < |front| ==> front[i] < last;
      if list[|list| - 1] < bound then rest + [list[|list| - 1]] else rest
  }

  predicate GridOk(grid: int) {
    grid > 0 && grid % CHUNK_TOKENS == 0
  }

  /** The plan of a chunk; None for a grid the tiles do not divide. */
  function PlanChunk(start: int, end: int, stops: set<int>, grid: int, boundary: int, maxExports: int): Option<Plan> {
    if !GridOk(grid) then None
    else
      var list := Inside(stops, start, end);
      var n := Walk(list, start, grid, boundary, maxExports);
      var exports, stopAt := list[..n], if n < |list| then list[n] else end;
      Some(if Clash(exports, boundary, stopAt, grid) then Plan(boundary, Below(exports, boundary))
        else Plan(stopAt, exports))
  }

  /** The planner without a boundary. */
  function OlderPlan(start: int, end: int, stops: set<int>, grid: int, maxExports: int): Option<Plan> {
    if !GridOk(grid) then None
    else
      var list := Inside(stops, start, end);
      var n := OlderWalk(list, start, grid, maxExports);
      Some(Plan(if n < |list| then list[n] else end, list[..n]))
  }

  function OlderWalk(list: seq<int>, start: int, grid: int, maxExports: int): (n: nat)
    requires grid > 0
    ensures n <= |list|
  {
    if |list| == 0 || list[0] % grid != 0 || (list[0] - start) % CHUNK_TOKENS != 0 || maxExports <= 0 then 0
    else 1 + OlderWalk(list[1..], start, grid, maxExports - 1)
  }

  /** The separate validation of a plan. */
  predicate Validates(start: int, p: Plan, block: int)
    requires block > 0
  {
    && 0 <= start < p.end && start % CHUNK_TOKENS == 0
    && p.exports != [] && Ascending(p.exports)
    && (forall e :: e in p.exports ==>
      start < e < p.end && (e - start) % CHUNK_TOKENS == 0 && Column(e, block) != Column(p.end, block))
    && (forall e, f :: e in p.exports && f in p.exports && e != f ==> Column(e, block) != Column(f, block))
  }

  // ---- columns ----

  /** Columns never descend, and an on-grid position is the last of its column. */
  lemma ColumnsAscend(p: int, q: int, grid: int)
    requires grid > 0 && p < q
    ensures Column(p, grid) <= Column(q, grid)
    ensures p % grid == 0 ==> Column(p, grid) < Column(q, grid)
  {
    DivModDefinition(-p, grid);
    DivModDefinition(-q, grid);
    var a, b := (-p) / grid, (-q) / grid;
    if b > a {
      assert (b - a) * grid == b * grid - a * grid;
      ProductAtLeast(b - a, grid);
    }
    if p % grid == 0 && a == b {
      DivModDefinition(p, grid);
      DivModUnique(-p, -(p / grid), 0, grid);
    }
  }

  lemma {:induction false} WalkExports(list: seq<int>, start: int, grid: int, boundary: int, maxExports: int)
    requires grid > 0
    ensures forall i :: 0 <= i < Walk(list, start, grid, boundary, maxExports) ==>
      Exportable(list[i], start, grid, boundary)
  {
    if |list| > 0 && Walk(list, start, grid, boundary, maxExports) > 0 {
      WalkExports(list[1..], start, grid, boundary, maxExports - 1);
      var n := Walk(list[1..], start, grid, boundary, maxExports - 1);
      forall i | 0 <= i < 1 + n
        ensures Exportable(list[i], start, grid, boundary)
      {
        if i > 0 { assert list[i] == list[1..][i - 1]; }
      }
    }
  }

  /** What a plan of the boundary planner consists of: it ends after start and no later than asked, and it exports
      exactly the stops strictly inside it. */
  lemma PlanExportsStopsInside(start: int, end: int, stops: set<int>, grid: int, boundary: int, maxExports: int)
    requires GridOk(grid) && start < end
    ensures var p := PlanChunk(start, end, stops, grid, boundary, maxExports).value;
      && start < p.end <= end && (p.end < end ==> p.end in stops)
      && (forall s :: s in p.exports <==> s in stops && start < s < p.end)
      && Ascending(p.exports)
      && (forall e :: e in p.exports ==> Exportable(e, start, grid, boundary))
  {
    var list := Inside(stops, start, end);
    var n := Walk(list, start, grid, boundary, maxExports);
    WalkExports(list, start, grid, boundary, maxExports);
    PrefixInside(list, n, stops, start, end);
    var exports, stopAt := list[..n], if n < |list| then list[n] else end;
    hide Walk, Inside, Exportable, Column, Ascending;
    forall e | e in exports
      ensures Exportable(e, start, grid, boundary)
    {
      var i :| 0 <= i < n && list[i] == e;
    }
  }

  /** A prefix of the stops inside a chunk is the stops up to the next one. */
  lemma PrefixInside(list: seq<int>, n: nat, stops: set<int>, start: int, end: int)
    requires n <= |list| && Ascending(list) && start < end && forall s :: s in list <==> s in stops && start < s < end
    ensures var stopAt := if n < |list| then list[n] else end;
      && start < stopAt <= end && (stopAt < end ==> stopAt in stops)
      && Ascending(list[..n]) && (forall s :: s in list[..n] <==> s in stops && start < s < stopAt)
  {
    var stopAt := if n < |list| then list[n] else end;
    assert n < |list| ==> list[n] in list;
    forall s | s in stops && start < s < stopAt
      ensures s in list[..n]
    {
      assert s in list;
      var i :| 0 <= i < |list| && list[i] == s;
      assert list[..n][i] == s;
    }
    forall s | s in list[..n]
      ensures s in stops && start < s < stopAt
    {
      assert s in list;
    }
  }

  /** Without exports a plan is the scheduler's own rule: the first stop inside, or the end asked for. */
  lemma NoExportsNoChange(start: int, end: int, stops: set<int>, grid: int, boundary: int, maxExports: int)
    requires GridOk(grid) && start < end && PlanChunk(start, end, stops, grid, boundary, maxExports).value.exports == []
    ensures var p := PlanChunk(start, end, stops, grid, boundary, maxExports).value;
      && (forall s :: s in stops && start < s < end ==> p.end <= s) && (p.end == end || p.end in stops)
  {
    PlanExportsStopsInside(start, end, stops, grid, boundary, maxExports);
    hide PlanChunk;
    var p := PlanChunk(start, end, stops, grid, boundary, maxExports).value;
    forall s | s in stops && start < s < end
      ensures p.end <= s
    {
      assert s in p.exports <==> s < p.end;
    }
  }

  /** From a tile-aligned start every plan with exports passes the separate validation: its exports are interior tile
      states in distinct block columns, none of them the final state's. */
  lemma PlansValidate(start: int, end: int, stops: set<int>, grid: int, boundary: int, maxExports: int)
    requires GridOk(grid) && 0 <= start < end && start % CHUNK_TOKENS == 0
    requires PlanChunk(start, end, stops, grid, boundary, maxExports).value.exports != []
    ensures Validates(start, PlanChunk(start, end, stops, grid, boundary, maxExports).value, grid)
  {
    PlanExportsStopsInside(start, end, stops, grid, boundary, maxExports);
    var p := PlanChunk(start, end, stops, grid, boundary, maxExports).value;
    OffGridAlone(start, end, stops, grid, boundary, maxExports);
    hide PlanChunk, Column, Ascending;
    forall e | e in p.exports
      ensures Column(e, grid) != Column(p.end, grid)
    {
      if e % grid == 0 { ColumnsAscend(e, p.end, grid); }
    }
    forall e, f | e in p.exports && f in p.exports && e < f
      ensures Column(e, grid) != Column(f, grid)
    {
      if e % grid == 0 { ColumnsAscend(e, f, grid); }
    }
  }

  /** An exported boundary off the grid has its column to itself: otherwise the chunk ends there. */
  lemma OffGridAlone(start: int, end: int, stops: set<int>, grid: int, boundary: int, maxExports: int)
    requires GridOk(grid) && start < end
    ensures var p := PlanChunk(start, end, stops, grid, boundary, maxExports).value;
      forall e :: e in p.exports && e % grid != 0 ==> (
        && e == boundary && Column(e, grid) != Column(p.end, grid)
        && forall f :: f in p.exports && f != e ==> Column(f, grid) != Column(e, grid))
  {
    PlanExportsStopsInside(start, end, stops, grid, boundary, maxExports);
    hide Walk, Inside, Column;
  }

  // ---- agreement with the older planner ----

  lemma {:induction false} SameWalk(list: seq<int>, start: int, grid: int, boundary: int, maxExports: int)
    requires grid > 0 && (boundary % grid == 0 || boundary !in list)
    ensures Walk(list, start, grid, boundary, maxExports) == OlderWalk(list, start, grid, maxExports)
  {
    if |list| > 0 {
      assert forall x :: x in list[1..] ==> x in list;
      assert list[0] in list;
      SameWalk(list[1..], start, grid, boundary, maxExports - 1);
    }
  }

  /** With the boundary on the grid, or not a stop inside the chunk, the plan is the older planner's. */
  lemma AgreesWithOlder(start: int, end: int, stops: set<int>, grid: int, boundary: int, maxExports: int)
    requires start < end
    requires GridOk(grid) ==> boundary % grid == 0 || !(boundary in stops && start < boundary < end)
    ensures PlanChunk(start, end, stops, grid, boundary, maxExports) == OlderPlan(start, end, stops, grid, maxExports)
  {
    if GridOk(grid) {
      var list := Inside(stops, start, end);
      SameWalk(list, start, grid, boundary, maxExports);
      var n := Walk(list, start, grid, boundary, maxExports);
      WalkExports(list, start, grid, boundary, maxExports);
      var exports, stopAt := list[..n], if n < |list| then list[n] else end;
      hide Walk, OlderWalk, Inside, Column, Exportable;
      if boundary in exports {
        assert boundary in list;
        var i :| 0 <= i < n && list[i] == boundary;
        assert n < |list| ==> list[n] in list;
        ColumnsAscend(boundary, stopAt, grid);
        forall p | p in exports && p != boundary
          ensures Column(p, grid) != Column(boundary, grid)
        {
          var j :| 0 <= j < n && list[j] == p;
          OnGrid(p, start, grid, boundary);
          if p < boundary { ColumnsAscend(p, boundary, grid); } else { ColumnsAscend(boundary, p, grid); }
        }
      }
    }
  }

  lemma OnGrid(p: int, start: int, grid: int, boundary: int)
    requires grid > 0 && Exportable(p, start, grid, boundary) && p != boundary
    ensures p % grid == 0
  {
  }

  // ---- a whole prompt ----

  /** The states a run of chunks leaves behind: each chunk's exports, then its final state. ends are the ends the
      scheduler asks for, chunk by chunk. */
  function Materialised(start: int, ends: seq<int>, stops: set<int>, grid: int, boundary: int,
                        maxExports: int): seq<int>
    requires GridOk(grid)
    decreases |ends|
  {
    if |ends| == 0 then []
    else
      var p := PlanChunk(start, ends[0], stops, grid, boundary, maxExports).value;
      p.exports + [p.end] + Materialised(p.end, ends[1..], stops, grid, boundary, maxExports)
  }

  function Reached(start: int, ends: seq<int>, stops: set<int>, grid: int, boundary: int, maxExports: int): int
    requires GridOk(grid)
    decreases |ends|
  {
    if |ends| == 0 then start
    else Reached(PlanChunk(start, ends[0], stops, grid, boundary, maxExports).value.end, ends[1..], stops, grid,
      boundary, maxExports)
  }

  ghost predicate Asks(start: int, ends: seq<int>, stops: set<int>, grid: int, boundary: int, maxExports: int)
    requires GridOk(grid)
    decreases |ends|
  {
    |ends| > 0 ==>
      && start < ends[0]
      && Asks(PlanChunk(start, ends[0], stops, grid, boundary, maxExports).value.end, ends[1..], stops, grid, boundary,
        maxExports)
  }

  /** Iterating advances, and every mandatory stop up to where the run has got is materialised exactly once: the states
      are strictly ascending, and each stop is among them. */
  lemma {:induction false} EachStopOnce(start: int, ends: seq<int>, stops: set<int>, grid: int, boundary: int,
                                        maxExports: int)
    requires GridOk(grid) && Asks(start, ends, stops, grid, boundary, maxExports)
    ensures var m, last := Materialised(start, ends, stops, grid, boundary, maxExports),
      Reached(start, ends, stops, grid, boundary, maxExports);
      && start + |ends| <= last
      && (forall s :: s in stops && start < s <= last ==> s in m)
      && Ascending(m)
      && (forall s :: s in m ==> start < s <= last)
    decreases |ends|
  {
    if |ends| > 0 {
      var p := PlanChunk(start, ends[0], stops, grid, boundary, maxExports).value;
      PlanExportsStopsInside(start, ends[0], stops, grid, boundary, maxExports);
      EachStopOnce(p.end, ends[1..], stops, grid, boundary, maxExports);
      hide PlanChunk, Exportable, Ascending;
      Joined(start, p, Materialised(p.end, ends[1..], stops, grid, boundary, maxExports),
        Reached(start, ends, stops, grid, boundary, maxExports), stops);
    }
  }

  lemma Joined(start: int, p: Plan, rest: seq<int>, last: int, stops: set<int>)
    requires start < p.end <= last
    requires forall s :: s in p.exports <==> s in stops && start < s < p.end
    requires Ascending(p.exports)
    requires forall s :: s in stops && p.end < s <= last ==> s in rest
    requires Ascending(rest)
    requires forall s :: s in rest ==> p.end < s <= last
    ensures var m := p.exports + [p.end] + rest;
      && (forall s :: s in stops && start < s <= last ==> s in m)
      && Ascending(m)
      && (forall s :: s in m ==> start < s <= last)
  {
    var m, n := p.exports + [p.end] + rest, |p.exports|;
    forall i, j | 0 <= i < j < |m|
      ensures m[i] < m[j]
    {
      if i < n { assert m[i] == p.exports[i] && m[i] in p.exports; }
      if j < n { assert m[j] == p.exports[j]; }
      if j > n { assert m[j] == rest[j - n - 1] && m[j] in rest; }
      if i > n { assert m[i] == rest[i - n - 1]; }
    }
  }

  // ---- the loop ----

  lemma WalkNext(list: seq<int>, i: nat, start: int, grid: int, boundary: int, left: int)
    requires grid > 0 && i < |list|
    ensures Walk(list[i..], start, grid, boundary, left)
         == if Exportable(list[i], start, grid, boundary) && left > 0
           then 1 + Walk(list[i + 1..], start, grid, boundary, left - 1) else 0
  {
    assert list[i..][1..] == list[i + 1..];
  }

  /** The loop over the sorted stops inside the chunk. */
  method Exports(list: seq<int>, start: int, end: int, grid: int, boundary: int, maxExports: int)
    returns (exports: seq<int>, stopAt: int)
    requires grid > 0
    ensures var n := Walk(list, start, grid, boundary, maxExports);
      exports == list[..n] && stopAt == if n < |list| then list[n] else end
  {
    exports, stopAt := [], end;
    var i := 0;
    assert list[0..] == list;
    while i < |list|
      invariant 0 <= i <= |list| && exports == list[..i] && stopAt == end
      invariant Walk(list, start, grid, boundary, maxExports)
        == i + Walk(list[i..], start, grid, boundary, maxExports - i)
    {
      hide Walk;
      WalkNext(list, i, start, grid, boundary, maxExports - i);
      if !(Exportable(list[i], start, grid, boundary) && |exports| < maxExports) {
        stopAt := list[i];
        return;
      }
      exports := exports + [list[i]];
      i := i + 1;
    }
    assert list[..i] == list;
  }

  method Chunk(start: int, end: int, stops: set<int>, grid: int, boundary: int, maxExports: int)
    returns (plan: Option<Plan>)
    ensures plan == PlanChunk(start, end, stops, grid, boundary, maxExports)
    ensures plan.None? <==> grid <= 0 || grid % 16 != 0
  {
    if grid <= 0 || grid % CHUNK_TOKENS != 0 {
      return None;
    }
    var exports, stopAt := Exports(Inside(stops, start, end), start, end, grid, boundary, maxExports);
    if Clash(exports, boundary, stopAt, grid) {
      exports, stopAt := Below(exports, boundary), boundary;
    }
    plan := Some(Plan(stopAt, exports));
  }
}
