/** What canonical top-k selection means for one row, and why a threshold and two tie counts are enough to find it. */
module TopK {

  /** One row of scores and the columns that count. The kernels are told only start and end. */
  datatype Row = Row(scores: seq<int>, start: int, end: int)

  predicate Sound(row: Row) {
    0 <= row.start <= row.end <= |row.scores|
  }

  predicate Valid(row: Row, c: int) {
    Sound(row) && row.start <= c < row.end
  }

  function Len(row: Row): int {
    row.end - row.start
  }

  function Min(a: int, b: int): int {
    if a < b then a else b
  }

  function Max(a: int, b: int): int {
    if a < b then b else a
  }

  // ---- counting ----

  function Count(f: int -> bool, lo: int, hi: int): nat
    decreases hi - lo
  {
    if hi <= lo then 0 else Count(f, lo, hi - 1) + if f(hi - 1) then 1 else 0
  }

  lemma {:induction false} CountJoins(f: int -> bool, lo: int, mid: int, hi: int)
    requires lo <= mid <= hi
    ensures Count(f, lo, hi) == Count(f, lo, mid) + Count(f, mid, hi)
    decreases hi - mid
  {
    if mid < hi { CountJoins(f, lo, mid, hi - 1); }
  }

  lemma {:induction false} CountImplies(f: int -> bool, g: int -> bool, lo: int, hi: int)
    requires forall c :: lo <= c < hi && f(c) ==> g(c)
    ensures Count(f, lo, hi) <= Count(g, lo, hi)
    decreases hi - lo
  {
    if lo < hi { CountImplies(f, g, lo, hi - 1); }
  }

  /** A predicate that misses a column another one has counts strictly less. */
  lemma CountMisses(f: int -> bool, g: int -> bool, lo: int, hi: int, c: int)
    requires forall d :: lo <= d < hi && f(d) ==> g(d)
    requires lo <= c < hi && g(c) && !f(c)
    ensures Count(f, lo, hi) < Count(g, lo, hi)
  {
    CountJoins(f, lo, c, hi);
    CountJoins(f, c, c + 1, hi);
    CountJoins(g, lo, c, hi);
    CountJoins(g, c, c + 1, hi);
    CountImplies(f, g, lo, c);
    CountImplies(f, g, c + 1, hi);
  }

  lemma {:induction false} CountSame(f: int -> bool, g: int -> bool, lo: int, hi: int)
    requires forall c :: lo <= c < hi ==> f(c) == g(c)
    ensures Count(f, lo, hi) == Count(g, lo, hi)
  {
    CountImplies(f, g, lo, hi);
    CountImplies(g, f, lo, hi);
  }

  lemma {:induction false} CountSplits(f: int -> bool, g: int -> bool, h: int -> bool, lo: int, hi: int)
    requires forall c :: lo <= c < hi ==> (h(c) <==> f(c) || g(c)) && !(f(c) && g(c))
    ensures Count(h, lo, hi) == Count(f, lo, hi) + Count(g, lo, hi)
    decreases hi - lo
  {
    if lo < hi { CountSplits(f, g, h, lo, hi - 1); }
  }

  lemma {:induction false} CountNone(f: int -> bool, lo: int, hi: int)
    requires forall c :: lo <= c < hi ==> !f(c)
    ensures Count(f, lo, hi) == 0
    decreases hi - lo
  {
    if lo < hi { CountNone(f, lo, hi - 1); }
  }

  lemma {:induction false} CountFull(f: int -> bool, lo: int, hi: int)
    requires forall c :: lo <= c < hi ==> f(c)
    ensures Count(f, lo, hi) == Max(0, hi - lo)
    decreases hi - lo
  {
    if lo < hi { CountFull(f, lo, hi - 1); }
  }

  // ---- the canonical selection ----

  function ValidIn(row: Row): int -> bool {
    c => Valid(row, c)
  }

  /** The columns that come before c: a higher score, or the same score at a lower index. */
  function Better(row: Row, c: int): int -> bool
    requires Valid(row, c)
  {
    d => Valid(row, d) && (row.scores[d] > row.scores[c] || (row.scores[d] == row.scores[c] && d < c))
  }

  /** The k best columns. */
  function Best(row: Row, k: nat): int -> bool {
    c => Valid(row, c) && Count(Better(row, c), 0, |row.scores|) < k
  }

  /** The chosen columns below hi, ascending, relative to the row's start. */
  function Listed(row: Row, f: int -> bool, hi: int): (list: seq<int>)
    ensures |list| == Count(f, 0, hi)
    decreases hi
  {
    if hi <= 0 then [] else Listed(row, f, hi - 1) + if f(hi - 1) then [hi - 1 - row.start] else []
  }

  /** The canonical selection: the k best columns, ascending, then -1. */
  ghost function Canon(row: Row, k: nat): (out: seq<int>)
    ensures |out| == k
  {
    var list := Listed(row, Best(row, k), |row.scores|);
    seq(k, (i: nat) => if i < |list| then list[i] else -1)
  }

  lemma {:induction false} ListedAt(row: Row, f: int -> bool, hi: int, c: int)
    requires 0 <= c < hi && f(c)
    ensures Count(f, 0, c) < Count(f, 0, hi) && Listed(row, f, hi)[Count(f, 0, c)] == c - row.start
    decreases hi
  {
    if c < hi - 1 { ListedAt(row, f, hi - 1, c); }
  }

  // ---- the threshold ----

  /** A column the selector picked. */
  function Chosen(row: Row, ids: seq<int>): int -> bool {
    c => Valid(row, c) && c - row.start in ids
  }

  /** Any exact selection: it names min(k, length) columns and no other column scores higher than a named one. The
      order of the ids, the choice among ties and the ids outside the row are free. */
  ghost predicate Exact(row: Row, ids: seq<int>, k: nat) {
    && Sound(row) && |ids| == k
    && Count(Chosen(row, ids), 0, |row.scores|) == Min(k, Len(row))
    && (forall c, d :: Valid(row, c) && Valid(row, d) && Chosen(row, ids)(c) && !Chosen(row, ids)(d) ==>
      row.scores[d] <= row.scores[c])
  }

  /** A picked id is masked unless it lies in the row. */
  predicate Live(row: Row, id: int) {
    id >= 0 && row.start + id < row.end
  }

  /** The least score among the picked ids, masked ones reading as inf. */
  function Threshold(row: Row, ids: seq<int>, inf: int): int
    requires Sound(row)
  {
    if |ids| == 0 then inf
    else
      var rest := Threshold(row, ids[..|ids| - 1], inf);
      var id := ids[|ids| - 1];
      if Live(row, id) then Min(rest, row.scores[row.start + id]) else rest
  }

  /** inf is at least every score. */
  predicate Bounded(row: Row, inf: int) {
    forall c :: 0 <= c < |row.scores| ==> row.scores[c] <= inf
  }

  lemma {:induction false} ThresholdIsLeast(row: Row, ids: seq<int>, inf: int)
    requires Sound(row)
    ensures forall i :: 0 <= i < |ids| && Live(row, ids[i]) ==>
      Threshold(row, ids, inf) <= row.scores[row.start + ids[i]]
  {
    if |ids| > 0 {
      var rest := ids[..|ids| - 1];
      ThresholdIsLeast(row, rest, inf);
      forall i | 0 <= i < |ids| && Live(row, ids[i])
        ensures Threshold(row, ids, inf) <= row.scores[row.start + ids[i]]
      {
        if i < |rest| { assert rest[i] == ids[i]; }
      }
    }
  }

  function Greater(row: Row, threshold: int): int -> bool {
    c => Valid(row, c) && row.scores[c] > threshold
  }

  function Equal(row: Row, threshold: int): int -> bool {
    c => Valid(row, c) && row.scores[c] == threshold
  }

  /** What the scatter keeps: everything above the threshold, and ties while slots last. */
  function Keep(row: Row, threshold: int, ties: int): int -> bool {
    c => Valid(row, c) && (row.scores[c] > threshold
      || (row.scores[c] == threshold && Count(Equal(row, threshold), 0, c + 1) <= ties))
  }

  function TieSlots(row: Row, threshold: int, k: nat): nat {
    Max(0, k - Count(Greater(row, threshold), 0, |row.scores|))
  }

  // ---- the selection recovered ----

  /** The threshold of an exact selection: every picked column reaches it, one picked column meets it. */
  lemma ThresholdMet(row: Row, ids: seq<int>, k: nat, inf: int) returns (c: int)
    requires Exact(row, ids, k) && Bounded(row, inf) && k > 0 && Len(row) > 0
    ensures var t := Threshold(row, ids, inf);
      && Chosen(row, ids)(c) && row.scores[c] == t
      && (forall d :: Valid(row, d) && Chosen(row, ids)(d) ==> t <= row.scores[d])
      && (forall d :: Valid(row, d) && row.scores[d] > t ==> Chosen(row, ids)(d))
  {
    c := LeastChosen(row, ids, k, inf);
    AboveChosen(row, ids, k, c);
    hide Threshold, Count, Exact, Bounded;
    forall d | Valid(row, d) && Chosen(row, ids)(d)
      ensures Threshold(row, ids, inf) <= row.scores[d]
    {
      ChosenReach(row, ids, inf, d);
    }
  }

  /** Some picked column meets the threshold. */
  lemma LeastChosen(row: Row, ids: seq<int>, k: nat, inf: int) returns (c: int)
    requires Exact(row, ids, k) && Bounded(row, inf) && k > 0 && Len(row) > 0
    ensures Chosen(row, ids)(c) && row.scores[c] == Threshold(row, ids, inf)
  {
    var i := ThresholdWitness(row, ids, inf);
    if i < 0 {
      c := SomeChosen(row, ids, k);
      ChosenReach(row, ids, inf, c);
    } else {
      c := row.start + ids[i];
    }
  }

  /** A position whose id meets the threshold, or -1 when it is inf. */
  lemma {:induction false} ThresholdWitness(row: Row, ids: seq<int>, inf: int) returns (i: int)
    requires Sound(row)
    ensures -1 <= i < |ids| && (i < 0 ==> Threshold(row, ids, inf) == inf)
    ensures i >= 0 ==> Live(row, ids[i]) && row.scores[row.start + ids[i]] == Threshold(row, ids, inf)
  {
    i := -1;
    if |ids| > 0 {
      var n := |ids| - 1;
      i := ThresholdWitness(row, ids[..n], inf);
      if Live(row, ids[n]) && row.scores[row.start + ids[n]] == Threshold(row, ids, inf) { i := n; }
    }
  }

  lemma SomeChosen(row: Row, ids: seq<int>, k: nat) returns (c: int)
    requires Exact(row, ids, k) && k > 0 && Len(row) > 0
    ensures 0 <= c < |row.scores| && Chosen(row, ids)(c)
  {
    if forall d :: 0 <= d < |row.scores| ==> !Chosen(row, ids)(d) {
      CountNone(Chosen(row, ids), 0, |row.scores|);
      assert false;
    }
    c :| 0 <= c < |row.scores| && Chosen(row, ids)(c);
  }

  lemma ChosenReach(row: Row, ids: seq<int>, inf: int, c: int)
    requires Sound(row) && Bounded(row, inf) && Valid(row, c) && Chosen(row, ids)(c)
    ensures Threshold(row, ids, inf) <= row.scores[c]
  {
    ThresholdIsLeast(row, ids, inf);
    hide Threshold;
    var i :| 0 <= i < |ids| && ids[i] == c - row.start;
    assert Live(row, ids[i]);
  }

  lemma AboveChosen(row: Row, ids: seq<int>, k: nat, c: int)
    requires Exact(row, ids, k) && Valid(row, c) && Chosen(row, ids)(c)
    ensures forall d :: Valid(row, d) && row.scores[d] > row.scores[c] ==> Chosen(row, ids)(d)
  {
  }

  /** Fewer than k columns lie above the threshold. */
  lemma FewAbove(row: Row, ids: seq<int>, k: nat, inf: int)
    requires Exact(row, ids, k) && Bounded(row, inf) && k > 0 && Len(row) > 0
    ensures Count(Greater(row, Threshold(row, ids, inf)), 0, |row.scores|) < Min(k, Len(row))
  {
    var t := Threshold(row, ids, inf);
    var c := ThresholdMet(row, ids, k, inf);
    CountMisses(Greater(row, t), Chosen(row, ids), 0, |row.scores|, c);
  }

  /** The kept columns are exactly the k best, whichever exact selection the threshold came from. */
  lemma KeepIsBest(row: Row, ids: seq<int>, k: nat, inf: int, c: int)
    requires Exact(row, ids, k) && Bounded(row, inf) && k > 0
    ensures var t := Threshold(row, ids, inf); Keep(row, t, TieSlots(row, t, k))(c) == Best(row, k)(c)
  {
    if Valid(row, c) {
      var t, n := Threshold(row, ids, inf), |row.scores|;
      var met := ThresholdMet(row, ids, k, inf);
      FewAbove(row, ids, k, inf);
      if row.scores[c] > t {
        CountMisses(Better(row, c), Greater(row, t), 0, n, c);
      } else if row.scores[c] == t {
        BetterThanTie(row, t, c);
      } else {
        CountMisses(Chosen(row, ids), ValidIn(row), 0, n, c);
        CountValid(row);
        CountImplies(Chosen(row, ids), Better(row, c), 0, n);
      }
    }
  }

  lemma CountValid(row: Row)
    requires Sound(row)
    ensures Count(ValidIn(row), 0, |row.scores|) == Len(row)
  {
    var f := ValidIn(row);
    CountJoins(f, 0, row.start, |row.scores|);
    CountJoins(f, row.start, row.end, |row.scores|);
    CountNone(f, 0, row.start);
    CountFull(f, row.start, row.end);
    CountNone(f, row.end, |row.scores|);
  }

  lemma BetterThanTie(row: Row, t: int, c: int)
    requires Valid(row, c) && row.scores[c] == t
    ensures Count(Better(row, c), 0, |row.scores|)
      == Count(Greater(row, t), 0, |row.scores|) + Count(Equal(row, t), 0, c)
  {
    var n, ties := |row.scores|, (d: int) => Valid(row, d) && row.scores[d] == t && d < c;
    CountSplits(Greater(row, t), ties, Better(row, c), 0, n);
    CountJoins(ties, 0, c, n);
    CountNone(ties, c, n);
    CountSame(ties, Equal(row, t), 0, c);
  }

  /** Kept columns so far, from the two running counts. */
  lemma {:induction false} CountKept(row: Row, t: int, ties: nat, hi: nat)
    ensures Count(Keep(row, t, ties), 0, hi)
         == Count(Greater(row, t), 0, hi) + Min(Count(Equal(row, t), 0, hi), ties)
  {
    if hi > 0 {
      CountKept(row, t, ties, hi - 1);
    }
  }

  /** As many columns are kept as there are places or columns. */
  lemma KeptFillsRow(row: Row, ids: seq<int>, k: nat, inf: int)
    requires Exact(row, ids, k) && Bounded(row, inf) && k > 0
    ensures var t := Threshold(row, ids, inf);
      Count(Keep(row, t, TieSlots(row, t, k)), 0, |row.scores|) == Min(k, Len(row))
  {
    var t, n := Threshold(row, ids, inf), |row.scores|;
    var reach := (c: int) => Valid(row, c) && row.scores[c] >= t;
    CountKept(row, t, TieSlots(row, t, k), n);
    CountSplits(Greater(row, t), Equal(row, t), reach, 0, n);
    CountValid(row);
    CountImplies(reach, ValidIn(row), 0, n);
    if Len(row) > 0 {
      var met := ThresholdMet(row, ids, k, inf);
      FewAbove(row, ids, k, inf);
      CountImplies(Chosen(row, ids), reach, 0, n);
    }
  }

  /** What a row is to become, told by its kept columns. */
  ghost predicate Goal(row: Row, keep: int -> bool, goal: seq<int>) {
    && (forall c :: 0 <= c < |row.scores| && keep(c) ==>
      Count(keep, 0, c) < |goal| && goal[Count(keep, 0, c)] == c - row.start)
    && (forall i :: Max(0, Min(|goal|, Len(row))) <= i < |goal| ==> goal[i] == -1)
  }

  /** The whole row, for any exact selection: kept column c belongs at the number of columns kept before it, and there
      the canonical selection has c; the places from min(k, length) on hold -1 there. */
  lemma CanonAt(row: Row, ids: seq<int>, k: nat, inf: int)
    requires Exact(row, ids, k) && Bounded(row, inf) && k > 0
    ensures var t := Threshold(row, ids, inf); Goal(row, Keep(row, t, TieSlots(row, t, k)), Canon(row, k))
  {
    var t, n := Threshold(row, ids, inf), |row.scores|;
    var keep, best, canon := Keep(row, t, TieSlots(row, t, k)), Best(row, k), Canon(row, k);
    forall c | 0 <= c < n
      ensures keep(c) == best(c)
    {
      KeepIsBest(row, ids, k, inf, c);
    }
    hide Keep, Best, Exact, Bounded;
    KeptFillsRow(row, ids, k, inf);
    CountSame(keep, best, 0, n);
    forall c | 0 <= c < n && keep(c)
      ensures Count(keep, 0, c) < k && canon[Count(keep, 0, c)] == c - row.start
    {
      CountSame(keep, best, 0, c);
      ListedAt(row, best, n, c);
    }
  }

  /** The canonical list is strictly ascending, and its members are exactly the best columns. */
  lemma {:induction false} ListedAscends(row: Row, f: int -> bool, hi: int)
    ensures forall i, j :: 0 <= i < j < |Listed(row, f, hi)| ==> Listed(row, f, hi)[i] < Listed(row, f, hi)[j]
    ensures forall x :: x in Listed(row, f, hi) <==> 0 <= x + row.start < hi && f(x + row.start)
    decreases hi
  {
    if hi > 0 {
      ListedAscends(row, f, hi - 1);
      var rest := Listed(row, f, hi - 1);
      forall i | 0 <= i < |rest|
        ensures rest[i] < hi - 1 - row.start
      {
        assert rest[i] in rest;
      }
    }
  }

  /** The j-th kept column. */
  lemma {:induction false} NthKept(f: int -> bool, hi: nat, j: nat) returns (c: nat)
    requires j < Count(f, 0, hi)
    ensures c < hi && f(c) && Count(f, 0, c) == j
  {
    if j < Count(f, 0, hi - 1) { c := NthKept(f, hi - 1, j); } else { c := hi - 1; }
  }
}
