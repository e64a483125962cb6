/** The host's builder of a call's checkpoint plan: slot and offset tables padded with the null slot, and the conv
    rows each checkpoint exports. */
module Checkpoints {
  const CHUNK := 16
  const MAX_CHECKPOINTS := 8

  datatype Option<T> = None | Some(value: T)

  /** One checkpoint a caller asks for: an offset into its sequence's rows, and a state slot. */
  datatype Wish = Wish(offset: int, slot: int)

  /** A conv row to copy: an absolute row of the call, into row col of a slot's history. */
  datatype Copy = Copy(row: int, slot: int, col: int)

  datatype Plan = Plan(slots: seq<seq<int>>, offsets: seq<seq<int>>, copies: seq<Copy>)

  predicate GoodWish(w: Wish, nullSlot: int) {
    w.offset > 0 && w.offset % CHUNK == 0 && w.slot != nullSlot
  }

  /** What one sequence may ask for: at most m checkpoints, good ones, in distinct slots. */
  predicate GoodList(ws: seq<Wish>, m: int, nullSlot: int) {
    && |ws| <= m
    && (forall i :: 0 <= i < |ws| ==> GoodWish(ws[i], nullSlot))
    && (forall i, j :: 0 <= i < j < |ws| ==> ws[i].slot != ws[j].slot)
  }

  function PadSlots(ws: seq<Wish>, m: nat, nullSlot: int): (row: seq<int>)
    ensures |row| == m
  {
    seq(m, i => if 0 <= i < |ws| then ws[i].slot else nullSlot)
  }

  function PadOffsets(ws: seq<Wish>, m: nat): (row: seq<int>)
    ensures |row| == m
  {
    seq(m, i => if 0 <= i < |ws| then ws[i].offset else 0)
  }

  /** The three rows before each checkpoint of one sequence. */
  function CopiesOf(ws: seq<Wish>, start: int): (copies: seq<Copy>)
    ensures |copies| == 3 * |ws|
  {
    if |ws| == 0 then []
    else
      var w := ws[|ws| - 1];
      CopiesOf(ws[..|ws| - 1], start) + Three(start, w)
  }

  function Three(start: int, w: Wish): (copies: seq<Copy>)
    ensures |copies| == 3
  {
    [Copy(start + w.offset - 3, w.slot, 0), Copy(start + w.offset - 2, w.slot, 1),
      Copy(start + w.offset - 1, w.slot, 2)]
  }

  function Copies(perSeq: seq<seq<Wish>>, starts: seq<int>): seq<Copy>
    requires |starts| == |perSeq|
  {
    if |perSeq| == 0 then []
    else Copies(perSeq[..|perSeq| - 1], starts[..|starts| - 1]) + CopiesOf(perSeq[|perSeq| - 1], starts[|starts| - 1])
  }

  /** The conv rows of the first n sequences, if they are wanted. */
  function Wanted(perSeq: seq<seq<Wish>>, starts: Option<seq<int>>, withConv: bool, n: nat): seq<Copy>
    requires n <= |perSeq| && (starts.Some? ==> |starts.value| == |perSeq|)
  {
    if withConv && starts.Some? then Copies(perSeq[..n], starts.value[..n]) else []
  }

  lemma WantedNext(perSeq: seq<seq<Wish>>, starts: Option<seq<int>>, withConv: bool, n: nat)
    requires n < |perSeq| && (starts.Some? ==> |starts.value| == |perSeq|)
    ensures Wanted(perSeq, starts, withConv, n + 1)
         == Wanted(perSeq, starts, withConv, n) + if withConv && starts.Some? then CopiesOf(perSeq[n], starts.value[n])
           else []
  {
    assert perSeq[..n + 1][..n] == perSeq[..n];
    assert starts.Some? ==> starts.value[..n + 1][..n] == starts.value[..n];
  }

  lemma {:induction false} CopyAt(ws: seq<Wish>, start: int, i: nat, j: nat)
    requires i < |ws| && j < 3
    ensures CopiesOf(ws, start)[3 * i + j] == Copy(start + ws[i].offset - 3 + j, ws[i].slot, j)
  {
    if i < |ws| - 1 { CopyAt(ws[..|ws| - 1], start, i, j); }
  }

  /** The conv rows are wanted but the sequences' first rows are not given. */
  predicate Lacks<T>(withConv: bool, starts: Option<T>) {
    withConv && starts.None?
  }

  /** The list of one sequence: it fails as soon as an entry is bad, or needs the first row and has none. */
  method BuildOne(ws: seq<Wish>, m: nat, nullSlot: int, withConv: bool, start: Option<int>, before: seq<Copy>)
    returns (ok: bool, slots: seq<int>, offsets: seq<int>, copies: seq<Copy>)
    ensures ok == (GoodList(ws, m, nullSlot) && (Lacks(withConv, start) ==> |ws| == 0))
    ensures ok ==> slots == PadSlots(ws, m, nullSlot) && offsets == PadOffsets(ws, m)
    ensures ok ==> copies == before + if withConv && start.Some? then CopiesOf(ws, start.value) else []
  {
    slots, offsets, copies := seq(m, _ => nullSlot), seq(m, _ => 0), before;
    if |ws| > m {
      return false, slots, offsets, copies;
    }
    var seen: set<int>, c := {}, 0;
    while c < |ws|
      invariant 0 <= c <= |ws| && seen == set i | 0 <= i < c :: ws[i].slot
      invariant GoodList(ws[..c], m, nullSlot) && (Lacks(withConv, start) ==> c == 0)
      invariant slots == PadSlots(ws[..c], m, nullSlot) && offsets == PadOffsets(ws[..c], m)
      invariant copies == before + if withConv && start.Some? then CopiesOf(ws[..c], start.value) else []
    {
      var w := ws[c];
      assert ws[..c + 1][..c] == ws[..c];
      if w.offset <= 0 || w.offset % CHUNK != 0 || w.slot == nullSlot || w.slot in seen {
        assert !GoodList(ws, m, nullSlot);
        return false, slots, offsets, copies;
      }
      seen := seen + {w.slot};
      slots, offsets := slots[c := w.slot], offsets[c := w.offset];
      if withConv {
        if start.None? {
          return false, slots, offsets, copies;
        }
        copies := CopyRows(copies, start.value, w);
      }
      c := c + 1;
    }
    assert ws[..c] == ws;
    ok := true;
  }

  /** The rows of one checkpoint. */
  method CopyRows(before: seq<Copy>, start: int, w: Wish) returns (copies: seq<Copy>)
    ensures copies == before + Three(start, w)
  {
    copies := before;
    var j := 0;
    while j < 3
      invariant 0 <= j <= 3 && copies == before + Three(start, w)[..j]
    {
      copies := copies + [Copy(start + w.offset - 3 + j, w.slot, j)];
      j := j + 1;
    }
  }

  /** All lists are good, entry by entry. */
  ghost predicate AllGood(perSeq: seq<seq<Wish>>, m: int, nullSlot: int) {
    && (forall s :: 0 <= s < |perSeq| ==> |perSeq[s]| <= m)
    && (forall s, i :: 0 <= s < |perSeq| && 0 <= i < |perSeq[s]| ==>
          var w := perSeq[s][i]; w.offset > 0 && w.offset % 16 == 0 && w.slot != nullSlot)
    && (forall s, i, j :: 0 <= s < |perSeq| && 0 <= i < j < |perSeq[s]| ==> perSeq[s][i].slot != perSeq[s][j].slot)
  }

  /** The builder accepts exactly such lists. */
  lemma GoodLists(perSeq: seq<seq<Wish>>, m: int, nullSlot: int)
    ensures (forall s :: 0 <= s < |perSeq| ==> GoodList(perSeq[s], m, nullSlot)) <==> AllGood(perSeq, m, nullSlot)
  {
    if AllGood(perSeq, m, nullSlot) {
      forall s | 0 <= s < |perSeq|
        ensures GoodList(perSeq[s], m, nullSlot)
      {
        assert forall i :: 0 <= i < |perSeq[s]| ==> GoodWish(perSeq[s][i], nullSlot);
      }
    }
    if forall s :: 0 <= s < |perSeq| ==> GoodList(perSeq[s], m, nullSlot) {
      forall s, i | 0 <= s < |perSeq| && 0 <= i < |perSeq[s]|
        ensures var w := perSeq[s][i]; w.offset > 0 && w.offset % 16 == 0 && w.slot != nullSlot
      {
        assert GoodList(perSeq[s], m, nullSlot) && GoodWish(perSeq[s][i], nullSlot);
      }
    }
  }

  /** The tables of a plan: the wishes in order, then the null slot and offset 0. */
  ghost predicate Tabled(perSeq: seq<seq<Wish>>, m: int, nullSlot: int, plan: Plan) {
    && |plan.slots| == |plan.offsets| == |perSeq|
    && (forall s :: 0 <= s < |perSeq| ==> |plan.slots[s]| == |plan.offsets[s]| == m)
    && (forall s, i :: 0 <= s < |perSeq| && 0 <= i < m ==>
          && plan.slots[s][i] == (if i < |perSeq[s]| then perSeq[s][i].slot else nullSlot)
          && plan.offsets[s][i] == (if i < |perSeq[s]| then perSeq[s][i].offset else 0))
  }

  lemma PaddedTables(perSeq: seq<seq<Wish>>, m: nat, nullSlot: int, plan: Plan)
    requires |plan.slots| == |plan.offsets| == |perSeq|
    requires forall s :: 0 <= s < |perSeq| ==>
      plan.slots[s] == PadSlots(perSeq[s], m, nullSlot) && plan.offsets[s] == PadOffsets(perSeq[s], m)
    ensures Tabled(perSeq, m, nullSlot, plan)
  {
  }

  /** The whole plan. It fails exactly when the count is out of range, some sequence asks for something it may not, or a
      checkpoint's conv rows are wanted and the sequences' first rows are missing. */
  method MakeCheckpoints(perSeq: seq<seq<Wish>>, m: int, nullSlot: int, starts: Option<seq<int>>, withConv: bool)
    returns (plan: Option<Plan>)
    requires starts.Some? ==> |starts.value| == |perSeq|
    ensures plan.Some? <==>
      && 1 <= m <= 8 && (forall s :: 0 <= s < |perSeq| ==> GoodList(perSeq[s], m, nullSlot))
      && (Lacks(withConv, starts) ==> forall s :: 0 <= s < |perSeq| ==> |perSeq[s]| == 0)
    ensures plan.Some? ==>
      && |plan.value.slots| == |plan.value.offsets| == |perSeq|
      && plan.value.copies == (if withConv && starts.Some? then Copies(perSeq, starts.value) else [])
      && forall s :: 0 <= s < |perSeq| ==>
           plan.value.slots[s] == PadSlots(perSeq[s], m, nullSlot) && plan.value.offsets[s] == PadOffsets(perSeq[s], m)
  {
    hide GoodList, PadSlots, PadOffsets;
    if !(1 <= m <= MAX_CHECKPOINTS) {
      return None;
    }
    var slots: seq<seq<int>>, offsets: seq<seq<int>>, copies: seq<Copy>, s := [], [], [], 0;
    while s < |perSeq|
      invariant 0 <= s <= |perSeq| && |slots| == |offsets| == s
      invariant copies == Wanted(perSeq, starts, withConv, s)
      invariant forall r :: 0 <= r < s ==> GoodList(perSeq[r], m, nullSlot)
      invariant forall r :: 0 <= r < s ==>
        slots[r] == PadSlots(perSeq[r], m, nullSlot) && offsets[r] == PadOffsets(perSeq[r], m)
      invariant Lacks(withConv, starts) ==> forall r :: 0 <= r < s ==> |perSeq[r]| == 0
    {
      hide CopiesOf, Wanted;
      WantedNext(perSeq, starts, withConv, s);
      var start := if starts.Some? then Some(starts.value[s]) else None;
      var ok, slotRow, offsetRow, more := BuildOne(perSeq[s], m, nullSlot, withConv, start, copies);
      if !ok {
        return None;
      }
      slots, offsets, copies := slots + [slotRow], offsets + [offsetRow], more;
      s := s + 1;
    }
    assert perSeq[..s] == perSeq && (starts.Some? ==> starts.value[..s] == starts.value);
    plan := Some(Plan(slots, offsets, copies));
  }
}
