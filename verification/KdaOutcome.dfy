/** What a prefill call leaves in the caller's slots, sequence by sequence, told without the kernel's own notions: the
    tiles of the sequence, one after the other, added to the state in its initial slot, or to zero if it has none. */
module KdaOutcome {
  import opened KdaWindows
  import opened KdaRecurrence
  import opened KdaPrefill

  /** The first n tiles of a sequence, added to a state. */
  ghost function TileFold<S, T>(c: Call<S, T>, s: nat, first: S, n: nat): S {
    if n == 0 then first else c.step(TileFold(c, s, first, n - 1), c.tile(s, n - 1))
  }

  /** The final slot holds all of the sequence's tiles, each checkpoint slot those before its offset, in both cases
      added to the state the caller left in the initial slot; a checkpoint that ends nowhere in the sequence leaves
      its slot. */
  ghost predicate Outcome<S, T>(c: Call<S, T>, before: seq<S>, after: seq<S>, s: nat)
    requires Shaped(c) && s < |c.sequences| && |after| == |before| && SlotsIn(c, |before|, c.sequences[s])
  {
    var q := c.sequences[s];
    var first := if q.initial == c.nullSlot then c.zero else before[q.initial];
    && (q.final != c.nullSlot ==> after[q.final] == TileFold(c, s, first, Tiles(c, s)))
    && forall i :: 0 <= i < |q.exports| && q.exports[i].slot != c.nullSlot ==>
         var e := q.exports[i];
         if e.offset > 0 && e.offset % 16 == 0 && e.offset / 16 <= Tiles(c, s)
         then q.final != c.nullSlot ==> after[e.slot] == TileFold(c, s, first, e.offset / 16)
         else after[e.slot] == before[e.slot]
  }

  /** A slot that is null, or that no sequence names as its final slot or as a checkpoint's. */
  ghost predicate Elsewhere<S, T>(c: Call<S, T>, k: int) {
    || k == c.nullSlot
    || forall s :: 0 <= s < |c.sequences| ==>
         && k != c.sequences[s].final
         && forall i :: 0 <= i < |c.sequences[s].exports| ==> k != c.sequences[s].exports[i].slot
  }

  // ---- tiles and ranks ----

  /** Below the capacity the tiles of a sequence hold its rows, sixteen a tile, and the last one is not empty. */
  lemma TilesHoldRows<S, T>(c: Call<S, T>, s: nat)
    requires Shaped(c) && s < |c.sequences|
    ensures var rows := c.starts[s + 1] - c.starts[s];
      && (rows <= 0 ==> Tiles(c, s) == 0)
      && (0 < rows <= 16 * c.tilesCapacity ==> 16 * (Tiles(c, s) - 1) < rows <= 16 * Tiles(c, s))
      && (rows > 16 * c.tilesCapacity ==> Tiles(c, s) == c.tilesCapacity)
  {
  }

  function Members(q: seq<nat>): (m: set<nat>)
    ensures forall x :: x in m <==> x in q
    ensures (forall i, j :: 0 <= i < j < |q| ==> q[i] != q[j]) ==> |m| == |q|
  {
    if |q| == 0 then {}
    else
      assert q == q[..|q| - 1] + [q[|q| - 1]];
      Members(q[..|q| - 1]) + {q[|q| - 1]}
  }

  function Below(n: nat): (m: set<nat>)
    ensures |m| == n && forall x: nat :: x in m <==> x < n
  {
    if n == 0 then {} else Below(n - 1) + {n - 1}
  }

  lemma SubsetIsAll(a: set<nat>, b: set<nat>)
    requires a <= b && |a| == |b|
    ensures a == b
  {
    if x :| x in b && x !in a {
      assert a <= b - {x} && |b - {x}| == |b| - 1;
      SubsetCard(a, b - {x});
    }
  }

  lemma {:induction false} SubsetCard(a: set<nat>, b: set<nat>)
    requires a <= b
    ensures |a| <= |b|
    decreases |a|
  {
    if x :| x in a { SubsetCard(a - {x}, b - {x}); }
  }

  /** Every sequence has a rank. */
  lemma RankOf<S, T>(c: Call<S, T>, s: nat) returns (r: nat)
    requires Tables(c) && s < |c.sequences|
    ensures r < |c.sequences| && c.sortedSeq[r] == s
  {
    SubsetIsAll(Members(c.sortedSeq), Below(|c.sequences|));
    assert s in c.sortedSeq;
    r :| r < |c.sequences| && c.sortedSeq[r] == s;
  }

  lemma {:induction false} FoldIsTileFold<S, T>(c: Call<S, T>, start: seq<S>, r: nat, n: nat)
    requires Shaped(c) && r < |c.sequences| && SlotsIn(c, |start|, At(c, r))
    ensures var q := c.sequences[c.sortedSeq[r]];
      var first := if q.initial == c.nullSlot then c.zero else start[q.initial];
      Fold(c, start, r, n) == TileFold(c, c.sortedSeq[r], first, n)
  {
    if n > 0 { FoldIsTileFold(c, start, r, n - 1); }
  }

  // ---- the whole call ----

  ghost predicate Launched<S, T>(c: Call<S, T>, orders: seq<seq<nat>>)
    requires Shaped(c)
  {
    && 0 < |orders| <= |c.windowTable| && Total(c) <= WindowBegin(c, |orders|)
    && forall w :: 0 <= w < |orders| ==> Permutation(orders[w], c.rows)
  }

  /** Every sequence's slots after the call, whatever the order of the rows within each window. */
  lemma CallOutcome<S, T>(c: Call<S, T>, start: seq<S>, orders: seq<seq<nat>>, s: nat)
    requires Tables(c) && Slots(c, |start|) && Launched(c, orders) && s < |c.sequences|
    ensures SlotsIn(c, |start|, c.sequences[s]) && Outcome(c, start, RunWindows(c, start, orders), s)
  {
    var r := RankOf(c, s);
    var mem, q := RunWindows(c, start, orders), c.sequences[s];
    assert At(c, r) == q && Tau(c, r) == Tiles(c, s) && SlotsIn(c, |start|, q);
    PrefillFolds(c, start, orders, r);
    FoldIsTileFold(c, start, r, Tiles(c, s));
    hide Tables, Slots, SlotsIn, Launched, RunWindows, Fold, TileFold, Running, Tiles;
    var first := if q.initial == c.nullSlot then c.zero else start[q.initial];
    forall i | 0 <= i < |q.exports| && q.exports[i].slot != c.nullSlot
      ensures var e := q.exports[i];
        if e.offset > 0 && e.offset % 16 == 0 && e.offset / 16 <= Tiles(c, s)
        then q.final != c.nullSlot ==> mem[e.slot] == TileFold(c, s, first, e.offset / 16)
        else mem[e.slot] == start[e.slot]
    {
      var e := q.exports[i];
      assert ExportHolds(c, start, mem, r, i, Tau(c, r));
      if Due(e, Tau(c, r)) && q.final != c.nullSlot {
        UninterruptedFolds(c, start, r, e.offset / 16);
        FoldIsTileFold(c, start, r, e.offset / 16);
      }
    }
  }

  /** And nothing else changes. */
  lemma ElsewhereUnchanged<S, T>(c: Call<S, T>, start: seq<S>, orders: seq<seq<nat>>, k: nat)
    requires Tables(c) && Slots(c, |start|) && Launched(c, orders) && k < |start| && Elsewhere(c, k)
    ensures RunWindows(c, start, orders)[k] == start[k]
  {
    forall r | 0 <= r < |c.sequences|
      ensures !Owns(c, At(c, r), k)
    {
      assert At(c, r) == c.sequences[c.sortedSeq[r]];
    }
    hide Tables, Slots, RunWindows, Permutation;
    UnownedUnchanged(c, start, orders, k);
  }
}
