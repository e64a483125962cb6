/** What a chunk plan promises, told without the planner's walk: a law that the plan meets, and that no other plan
    does. */
module PlannerPromises {
  import opened Arithmetic
  import opened Planner

  /** p is a position in column c: after the c-th grid line and up to the next one. */
  predicate InColumn(p: int, grid: int, c: int) {
    c * grid < p <= c * grid + grid
  }

  lemma ColumnIs(p: int, grid: int, c: int)
    requires grid > 0
    ensures InColumn(p, grid, Column(p, grid))
    ensures Column(p, grid) == c <==> InColumn(p, grid, c)
  {
    DivModDefinition(-p, grid);
    var q := (-p) / grid;
    assert (-q - 1) * grid == -(q * grid) - grid;
    if InColumn(p, grid, c) {
      assert -p == (-(c + 1)) * grid + (c * grid + grid - p) by { assert (-(c + 1)) * grid == -(c * grid) - grid; }
      DivModUnique(-p, -(c + 1), c * grid + grid - p, grid);
    }
  }

  ghost predicate SameColumn(p: int, q: int, grid: int) {
    exists c :: InColumn(p, grid, c) && InColumn(q, grid, c)
  }

  lemma SameColumnIs(p: int, q: int, grid: int)
    requires grid > 0
    ensures SameColumn(p, q, grid) <==> Column(p, grid) == Column(q, grid)
  {
    ColumnIs(p, grid, Column(p, grid));
    ColumnIs(q, grid, Column(q, grid));
    if SameColumn(p, q, grid) {
      var c :| InColumn(p, grid, c) && InColumn(q, grid, c);
      ColumnIs(p, grid, c);
      ColumnIs(q, grid, c);
    }
  }

  /** A stop that may be exported from inside a chunk: on the grid or the boundary, and at the end of a tile. */
  predicate Good(s: int, start: int, grid: int, boundary: int)
    requires grid > 0
  {
    (s % grid == 0 || s == boundary) && (s - start) % 16 == 0
  }

  /** Something after the boundary, a stop or the end asked for, has the boundary's column. */
  ghost predicate Crowded(end: int, stops: set<int>, grid: int, boundary: int) {
    exists f :: (f == end || f in stops) && boundary < f <= end && SameColumn(f, boundary, grid)
  }

  /** The law of a plan. It ends at a stop or where asked, and exports exactly the stops before that; all of them are
      good, at most maxExports, and the boundary among them has its column to itself. And it ends at a stop only if it
      must: the stop is not good, or maxExports stops precede it, or it is the boundary and crowded. */
  ghost predicate Law(start: int, end: int, stops: set<int>, grid: int, boundary: int, maxExports: int, p: Plan)
    requires grid > 0
  {
    && start < p.end <= end && (p.end < end ==> p.end in stops)
    && (forall s :: s in p.exports <==> s in stops && start < s < p.end)
    && (forall i, j :: 0 <= i < j < |p.exports| ==> p.exports[i] < p.exports[j])
    && (forall e :: e in p.exports ==> Good(e, start, grid, boundary))
    && (|p.exports| == 0 || |p.exports| <= maxExports)
    && (boundary in p.exports ==>
          !SameColumn(p.end, boundary, grid)
          && forall e :: e in p.exports && e != boundary ==> !SameColumn(e, boundary, grid))
    && (p.end < end ==>
          !Good(p.end, start, grid, boundary) || |p.exports| >= maxExports
          || (p.end == boundary && Crowded(end, stops, grid, boundary)))
  }

  lemma {:induction false} WalkStops(list: seq<int>, start: int, grid: int, boundary: int, maxExports: int)
    requires grid > 0
    ensures var n := Walk(list, start, grid, boundary, maxExports);
      && (n == 0 || n <= maxExports)
      && (n < |list| ==> !Good(list[n], start, grid, boundary) || n >= maxExports)
      && (forall i :: 0 <= i < n ==> Good(list[i], start, grid, boundary))
  {
    if |list| > 0 && Walk(list, start, grid, boundary, maxExports) > 0 {
      WalkStops(list[1..], start, grid, boundary, maxExports - 1);
      var n := Walk(list[1..], start, grid, boundary, maxExports - 1);
      forall i | 0 <= i < 1 + n
        ensures Good(list[i], start, grid, boundary)
      {
        if i > 0 { assert list[i] == list[1..][i - 1]; }
      }
    }
  }

  lemma {:induction false} BelowCount(list: seq<int>, bound: int, k: nat)
    requires Ascending(list) && k < |list| && list[k] == bound
    ensures Below(list, bound) == list[..k]
    decreases |list|
  {
    var n := |list| - 1;
    if k < n {
      assert list[..n][..k] == list[..k];
      BelowCount(list[..n], bound, k);
    } else {
      BelowAll(list[..n], bound);
    }
  }

  lemma {:induction false} BelowAll(list: seq<int>, bound: int)
    requires forall i :: 0 <= i < |list| ==> list[i] < bound
    ensures Below(list, bound) == list
  {
    if |list| > 0 {
      BelowAll(list[..|list| - 1], bound);
      assert list == list[..|list| - 1] + [list[|list| - 1]];
    }
  }

  /** A clash is always with something after the boundary. */
  lemma ClashIsCrowded(exports: seq<int>, boundary: int, stopAt: int, end: int, stops: set<int>, grid: int)
    requires grid > 0 && Clash(exports, boundary, stopAt, grid) && boundary < stopAt <= end
      && (stopAt == end || stopAt in stops)
    requires forall s :: s in exports ==> s in stops && s < stopAt
    requires forall s :: s in exports && s != boundary && s < boundary ==> Column(s, grid) != Column(boundary, grid)
    ensures Crowded(end, stops, grid, boundary)
  {
    if Column(boundary, grid) == Column(stopAt, grid) {
      SameColumnIs(stopAt, boundary, grid);
    } else {
      var q :| q in exports && q != boundary && Column(q, grid) == Column(boundary, grid);
      SameColumnIs(q, boundary, grid);
    }
  }

  /** The walk's own result: the stops it took, and where it stopped. */
  ghost predicate Walked(start: int, end: int, stops: set<int>, grid: int, boundary: int, maxExports: int,
                         exports: seq<int>,
                         stopAt: int)
    requires grid > 0
  {
    && start < stopAt <= end && (stopAt < end ==> stopAt in stops)
    && (forall s :: s in exports <==> s in stops && start < s < stopAt) && Ascending(exports)
    && (forall e :: e in exports ==> Good(e, start, grid, boundary))
    && (|exports| == 0 || |exports| <= maxExports)
    && (stopAt < end ==> !Good(stopAt, start, grid, boundary) || |exports| >= maxExports)
  }

  lemma WalkIs(start: int, end: int, stops: set<int>, grid: int, boundary: int, maxExports: int)
    returns (exports: seq<int>, stopAt: int)
    requires GridOk(grid) && start < end
    ensures Walked(start, end, stops, grid, boundary, maxExports, exports, stopAt)
    ensures PlanChunk(start, end, stops, grid, boundary, maxExports).value
         == if Clash(exports, boundary, stopAt, grid) then Plan(boundary, Below(exports, boundary))
            else Plan(stopAt, exports)
  {
    var list := Inside(stops, start, end);
    var n := Walk(list, start, grid, boundary, maxExports);
    exports, stopAt := list[..n], if n < |list| then list[n] else end;
    WalkStops(list, start, grid, boundary, maxExports);
    PrefixInside(list, n, stops, start, end);
    hide Walk, Inside, Clash, Below, Good, Ascending;
    forall e | e in exports
      ensures Good(e, start, grid, boundary)
    {
      var i :| 0 <= i < n && exports[i] == e;
      assert list[i] == e;
    }
    assert n < |list| ==> list[n] in list;
  }

  /** An exported on-grid stop before the boundary has another column. */
  lemma EarlierApart(s: int, start: int, grid: int, boundary: int)
    requires grid > 0 && Good(s, start, grid, boundary) && s < boundary
    ensures Column(s, grid) != Column(boundary, grid)
  {
    ColumnsAscend(s, boundary, grid);
  }

  lemma ClashedLaw(start: int, end: int, stops: set<int>, grid: int, boundary: int, maxExports: int,
                   exports: seq<int>, stopAt: int)
    requires GridOk(grid) && Walked(start, end, stops, grid, boundary, maxExports, exports, stopAt)
    requires Clash(exports, boundary, stopAt, grid)
    ensures Law(start, end, stops, grid, boundary, maxExports, Plan(boundary, Below(exports, boundary)))
  {
    forall s | s in exports && s < boundary
      ensures Column(s, grid) != Column(boundary, grid)
    {
      EarlierApart(s, start, grid, boundary);
    }
    ClashIsCrowded(exports, boundary, stopAt, end, stops, grid);
    var k :| 0 <= k < |exports| && exports[k] == boundary;
    BelowCount(exports, boundary, k);
    var below := Below(exports, boundary);
    assert |below| < |exports| && Ascending(below);
    assert boundary in exports;
    hide Column, Good, Crowded, SameColumn, Clash, Below;
  }

  lemma UnclashedLaw(start: int, end: int, stops: set<int>, grid: int, boundary: int, maxExports: int,
                     exports: seq<int>, stopAt: int)
    requires GridOk(grid) && Walked(start, end, stops, grid, boundary, maxExports, exports, stopAt)
    requires !Clash(exports, boundary, stopAt, grid)
    ensures Law(start, end, stops, grid, boundary, maxExports, Plan(stopAt, exports))
  {
    if boundary in exports {
      SameColumnIs(stopAt, boundary, grid);
      forall e | e in exports && e != boundary
        ensures !SameColumn(e, boundary, grid)
      {
        SameColumnIs(e, boundary, grid);
      }
    }
    hide Column, Good, Crowded, SameColumn;
  }

  /** The plan meets the law. */
  lemma PlanMeetsLaw(start: int, end: int, stops: set<int>, grid: int, boundary: int, maxExports: int)
    requires GridOk(grid) && start < end
    ensures Law(start, end, stops, grid, boundary, maxExports,
                PlanChunk(start, end, stops, grid, boundary, maxExports).value)
  {
    var exports, stopAt := WalkIs(start, end, stops, grid, boundary, maxExports);
    hide PlanChunk, Walked, Law, Clash, Below;
    if Clash(exports, boundary, stopAt, grid) {
      ClashedLaw(start, end, stops, grid, boundary, maxExports, exports, stopAt);
    } else {
      UnclashedLaw(start, end, stops, grid, boundary, maxExports, exports, stopAt);
    }
  }

  /** Columns between two of the same column are that column too. */
  lemma BetweenSame(p: int, q: int, f: int, grid: int)
    requires grid > 0 && p < q <= f && SameColumn(f, p, grid)
    ensures SameColumn(q, p, grid)
  {
    var c :| InColumn(f, grid, c) && InColumn(p, grid, c);
    assert InColumn(q, grid, c);
  }

  lemma NoLaterEnd(start: int, end: int, stops: set<int>, grid: int, boundary: int, maxExports: int, p: Plan, q: Plan)
    requires grid > 0 && Law(start, end, stops, grid, boundary, maxExports, p)
      && Law(start, end, stops, grid, boundary, maxExports, q)
    ensures p.end >= q.end
  {
    if p.end < q.end {
      hide Good, SameColumn;
      assert p.end in q.exports;
      FewerBefore(p.exports, q.exports, p.end);
      var f :| (f == end || f in stops) && boundary < f <= end && SameColumn(f, boundary, grid);
      if f >= q.end { BetweenSame(boundary, q.end, f, grid); }
    }
  }

  lemma FewerBefore(a: seq<int>, b: seq<int>, x: int)
    requires (forall i, j :: 0 <= i < j < |a| ==> a[i] < a[j]) && (forall i, j :: 0 <= i < j < |b| ==> b[i] < b[j])
    requires x in b && (forall s :: s in a ==> s in b && s < x)
    ensures |a| < |b|
  {
    var sa, sb := (set s | s in a), (set s | s in b);
    AscendingCard(a);
    AscendingCard(b);
    assert sa <= sb - {x};
    SmallerCard(sa, sb - {x});
  }

  lemma {:induction false} SmallerCard<T>(a: set<T>, b: set<T>)
    requires a <= b
    ensures |a| <= |b|
    decreases |a|
  {
    if |a| > 0 {
      var x :| x in a;
      SmallerCard(a - {x}, b - {x});
    }
  }

  lemma {:induction false} AscendingCard(a: seq<int>)
    requires forall i, j :: 0 <= i < j < |a| ==> a[i] < a[j]
    ensures |set s | s in a| == |a|
  {
    if |a| > 0 {
      var n := |a| - 1;
      AscendingCard(a[..n]);
      assert a == a[..n] + [a[n]];
      assert (set s | s in a) == (set s | s in a[..n]) + {a[n]};
    }
  }

  /** And no other plan does. */
  lemma LawIsThePlan(start: int, end: int, stops: set<int>, grid: int, boundary: int, maxExports: int, q: Plan)
    requires GridOk(grid) && start < end && Law(start, end, stops, grid, boundary, maxExports, q)
    ensures PlanChunk(start, end, stops, grid, boundary, maxExports) == Some(q)
  {
    var p := PlanChunk(start, end, stops, grid, boundary, maxExports).value;
    PlanMeetsLaw(start, end, stops, grid, boundary, maxExports);
    NoLaterEnd(start, end, stops, grid, boundary, maxExports, p, q);
    NoLaterEnd(start, end, stops, grid, boundary, maxExports, q, p);
    hide PlanChunk, Good, SameColumn;
    SameList(p.exports, q.exports);
  }

  /** All but the last of an ascending list. */
  lemma AllButLast(a: seq<int>)
    requires |a| > 0 && forall i, j :: 0 <= i < j < |a| ==> a[i] < a[j]
    ensures var m := |a| - 1;
      && a[m] in a && (forall s :: s in a ==> s <= a[m]) && a == a[..m] + [a[m]]
      && (forall s :: s in a[..m] <==> s in a && s != a[m])
      && (forall i, j :: 0 <= i < j < m ==> a[..m][i] < a[..m][j])
  {
    var m := |a| - 1;
    forall s | s in a && s != a[m]
      ensures s in a[..m]
    {
      var i :| 0 <= i < |a| && a[i] == s;
      assert a[..m][i] == s;
    }
  }

  lemma {:induction false} SameList(a: seq<int>, b: seq<int>)
    requires (forall i, j :: 0 <= i < j < |a| ==> a[i] < a[j]) && (forall i, j :: 0 <= i < j < |b| ==> b[i] < b[j])
    requires forall s :: s in a <==> s in b
    ensures a == b
  {
    NoneOnlyIfNone(a, b);
    assert forall i :: 0 <= i < |b| ==> b[i] in b && b[i] in a;
    NoneOnlyIfNone(b, a);
    if |a| > 0 {
      AllButLast(a);
      AllButLast(b);
      SameList(a[..|a| - 1], b[..|b| - 1]);
    } else {
      assert |b| == 0;
    }
  }

  lemma NoneOnlyIfNone<T>(a: seq<T>, b: seq<T>)
    requires forall i :: 0 <= i < |a| ==> a[i] in b
    ensures |a| > 0 ==> |b| > 0
  {
    if |a| > 0 { assert a[0] in b; }
  }

  /** The case the planner exists for: a boundary that is the only stop inside, at the end of a tile, with room for an
      export and another column than the chunk's end, is exported from inside the chunk. */
  lemma LoneBoundaryIsExported(start: int, end: int, stops: set<int>, grid: int, boundary: int, maxExports: int)
    requires GridOk(grid) && start < boundary < end && boundary in stops && maxExports >= 1
    requires forall s :: s in stops && start < s < end ==> s == boundary
    requires (boundary - start) % 16 == 0 && !SameColumn(end, boundary, grid)
    ensures PlanChunk(start, end, stops, grid, boundary, maxExports) == Some(Plan(end, [boundary]))
  {
    LawIsThePlan(start, end, stops, grid, boundary, maxExports, Plan(end, [boundary]));
  }

  /** What the separate validation asks, in full: a plan with exports starts on a tile and exports interior tile
      states in columns of their own, none of them the final state's. */
  lemma PlanPassesValidation(start: int, end: int, stops: set<int>, grid: int, boundary: int, maxExports: int)
    requires GridOk(grid) && 0 <= start < end && start % 16 == 0
    requires PlanChunk(start, end, stops, grid, boundary, maxExports).value.exports != []
    ensures var p := PlanChunk(start, end, stops, grid, boundary, maxExports).value;
      && 0 <= start < p.end && (forall i, j :: 0 <= i < j < |p.exports| ==> p.exports[i] < p.exports[j])
      && (forall e :: e in p.exports ==> start < e < p.end && (e - start) % 16 == 0 && !SameColumn(e, p.end, grid))
      && (forall e, f :: e in p.exports && f in p.exports && e != f ==> !SameColumn(e, f, grid))
  {
    PlansValidate(start, end, stops, grid, boundary, maxExports);
    hide PlanChunk, Column;
    var p := PlanChunk(start, end, stops, grid, boundary, maxExports).value;
    forall e, f
      ensures SameColumn(e, f, grid) <==> Column(e, grid) == Column(f, grid)
    {
      SameColumnIs(e, f, grid);
    }
  }
}
