/** The short causal convolution folded into the prepare kernel, one channel at a time: tiles with a halo, the state
    update and the exported histories. */
module CausalConv {
  const CHUNK := 16
  const HALO := 3

  /** The three rows before a chunk. */
  datatype History<V> = History(a: V, b: V, c: V)

  function Rows<V>(h: History<V>): seq<V> {
    [h.a, h.b, h.c]
  }

  function Min(a: int, b: int): int {
    if a < b then a else b
  }

  /** The convolution of a whole chunk over old rows and new ones: output t sees its own row and the three before it. */
  function Direct<V>(conv: (V, V, V, V) -> V, old_: History<V>, x: seq<V>): (out: seq<V>)
    ensures |out| == |x|
  {
    var h := Rows(old_) + x;
    seq(|x|, t requires 0 <= t < |x| => conv(h[t], h[t + 1], h[t + 2], h[t + 3]))
  }

  function Tiles(n: nat): nat {
    (n + CHUNK - 1) / CHUNK
  }

  /** The tiles hold all rows, the last one at least one. */
  lemma TilesHold(n: nat)
    ensures n <= 16 * Tiles(n) && (n > 0 ==> 16 * (Tiles(n) - 1) < n) && (n == 0 ==> Tiles(n) == 0)
  {
  }

  /** Rows of the chunk that a tile holds. */
  function Live(n: nat, local: nat): int {
    Min(CHUNK, n - local * CHUNK)
  }

  /** The staging of one tile: its rows and a three-row halo, from the chunk, or for the first tile from the state, or
      zero; rows past the tail are zero. */
  method Stage<V(0)>(zero: V, init: History<V>, hasInit: bool, x: seq<V>, local: nat) returns (s: array<V>)
    requires local < Tiles(|x|)
    ensures fresh(s) && s.Length == CHUNK + HALO
    ensures s[..] == StagedTile(zero, if hasInit then init else History(zero, zero, zero), x, local)
  {
    s := new V[CHUNK + HALO];
    var row := 0;
    while row < CHUNK + HALO
      invariant 0 <= row <= s.Length
      invariant forall r :: 0 <= r < row ==>
        s[r] == Staged(zero, if hasInit then init else History(zero, zero, zero), x, local, r)
    {
      var t := row - HALO;
      if t >= Live(|x|, local) {
        s[row] := zero;
      } else if t < 0 {
        if local > 0 {
          s[row] := x[local * CHUNK + t];
        } else {
          s[row] := if hasInit then Rows(init)[row] else zero;
        }
      } else {
        s[row] := x[local * CHUNK + t];
      }
      row := row + 1;
    }
  }

  /** Row r of a tile's staging is row r of the old rows and the chunk, as far as the chunk reaches. */
  function Staged<V>(zero: V, old_: History<V>, x: seq<V>, local: nat, row: nat): V {
    var at := local * CHUNK + row;
    if row - HALO >= Live(|x|, local) then zero else if at < |x| + HALO then (Rows(old_) + x)[at] else zero
  }

  function StagedTile<V>(zero: V, old_: History<V>, x: seq<V>, local: nat): (tile: seq<V>)
    ensures |tile| == CHUNK + HALO
  {
    seq(CHUNK + HALO, (row: nat) => Staged(zero, old_, x, local, row))
  }

  /** Four staged rows make the output of the row the last of them is. */
  lemma TapsAreDirect<V>(conv: (V, V, V, V) -> V, zero: V, old_: History<V>, x: seq<V>, local: nat, ct: nat)
    requires ct < CHUNK && ct < Live(|x|, local)
    ensures local * CHUNK + ct < |x|
    ensures var s := StagedTile(zero, old_, x, local);
      Direct(conv, old_, x)[local * CHUNK + ct] == conv(s[ct], s[ct + 1], s[ct + 2], s[ct + 3])
  {
  }

  /** A window of four staged rows slides down a tile that starts at row first; rows past the tail write nothing. */
  method Slide<V>(conv: (V, V, V, V) -> V, s: seq<V>, first: nat, rows: nat, out: array<V>)
    requires |s| == CHUNK + HALO && rows <= CHUNK && first + rows <= out.Length
    modifies out
    ensures forall t :: 0 <= t < out.Length ==>
      out[t] == if first <= t < first + rows
        then conv(s[t - first], s[t - first + 1], s[t - first + 2], s[t - first + 3]) else old(out[t])
  {
    var c0, c1, c2 := s[0], s[1], s[2];
    var ct := 0;
    while ct < CHUNK
      invariant 0 <= ct <= CHUNK
      invariant ct < CHUNK ==> c0 == s[ct] && c1 == s[ct + 1] && c2 == s[ct + 2]
      invariant forall t :: 0 <= t < out.Length ==>
        out[t] == if first <= t < first + ct && t < first + rows
          then conv(s[t - first], s[t - first + 1], s[t - first + 2], s[t - first + 3]) else old(out[t])
    {
      var c3 := s[ct + HALO];
      if ct < rows {
        out[first + ct] := conv(c0, c1, c2, c3);
      }
      c0, c1, c2 := c1, c2, c3;
      ct := ct + 1;
    }
  }

  /** One tile's outputs: those of the direct convolution. */
  method ConvTile<V(0)>(conv: (V, V, V, V) -> V, zero: V, init: History<V>, hasInit: bool, x: seq<V>, local: nat,
                    out: array<V>)
    requires local < Tiles(|x|) && out.Length == |x|
    modifies out
    ensures var all := Direct(conv, if hasInit then init else History(zero, zero, zero), x);
      forall t :: 0 <= t < |x| ==> out[t] == if local * CHUNK <= t < (local + 1) * CHUNK then all[t] else old(out[t])
  {
    ghost var old_ := if hasInit then init else History(zero, zero, zero);
    ghost var all := Direct(conv, old_, x);
    var staged := Stage(zero, init, hasInit, x, local);
    var s, first := staged[..], local * CHUNK;
    var rows := Live(|x|, local);
    Slide(conv, s, first, rows, out);
    forall t | first <= t < first + rows
      ensures all[t] == conv(s[t - first], s[t - first + 1], s[t - first + 2], s[t - first + 3])
    {
      hide StagedTile, Direct;
      TapsAreDirect(conv, zero, old_, x, local, t - first);
      assert first + (t - first) == t;
    }
  }

  /** All tiles, in any order: together they are the direct convolution. */
  method ConvChunk<V(0)>(conv: (V, V, V, V) -> V, zero: V, init: History<V>, hasInit: bool, x: seq<V>, out: array<V>,
                     order: seq<nat>)
    requires out.Length == |x| && (forall i :: 0 <= i < |order| ==> order[i] < Tiles(|x|))
    requires forall l: nat :: l < Tiles(|x|) ==> l in order
    modifies out
    ensures out[..] == Direct(conv, if hasInit then init else History(zero, zero, zero), x)
  {
    ghost var all := Direct(conv, if hasInit then init else History(zero, zero, zero), x);
    var i := 0;
    while i < |order|
      invariant 0 <= i <= |order|
      invariant forall t :: 0 <= t < |x| && t / CHUNK in order[..i] ==> out[t] == all[t]
    {
      hide Direct;
      ConvTile(conv, zero, init, hasInit, x, order[i], out);
      assert order[..i + 1] == order[..i] + [order[i]];
      i := i + 1;
    }
    assert order[..i] == order;
    assert forall t :: 0 <= t < |x| ==> t / CHUNK < Tiles(|x|);
  }

  // ---- the state ----

  /** The last three of the old rows and the chunk's. */
  function Update<V>(old_: History<V>, x: seq<V>): (new_: History<V>)
    ensures Rows(new_) == (Rows(old_) + x)[|x|..]
  {
    var h := Rows(old_) + x;
    History(h[|x|], h[|x| + 1], h[|x| + 2])
  }

  /** The state kernel's selection, index by index. */
  method NewState<V>(zero: V, init: History<V>, hasInit: bool, x: seq<V>) returns (new_: History<V>)
    ensures new_ == Update(if hasInit then init else History(zero, zero, zero), x)
  {
    var old_ := if hasInit then Rows(init) else [zero, zero, zero];
    var picked: seq<V>, j := [], 0;
    ghost var h := (if hasInit then Rows(init) else [zero, zero, zero]) + x;
    while j < HALO
      invariant 0 <= j <= HALO && |picked| == j
      invariant forall k :: 0 <= k < j ==> picked[k] == h[|x| + k]
    {
      var position := |x| + j;
      picked := picked + [if position >= HALO then x[position - HALO] else old_[position]];
      j := j + 1;
    }
    new_ := History(picked[0], picked[1], picked[2]);
  }

  /** Splitting a chunk changes no state, for all lengths, those under three included. */
  lemma UpdateComposes<V>(s: History<V>, a: seq<V>, b: seq<V>)
    ensures Update(Update(s, a), b) == Update(s, a + b)
  {
    var h, h' := Rows(s) + (a + b), Rows(Update(s, a)) + b;
    assert forall i :: 0 <= i < |b| + 3 ==> h'[i] == h[|a| + i] by {
      forall i | 0 <= i < |b| + 3
        ensures h'[i] == h[|a| + i]
      {
        if i < 3 { assert Rows(Update(s, a))[i] == (Rows(s) + a)[|a|..][i]; }
      }
    }
  }

  /** And no output: the second part sees, as its history, the state the first part left. */
  lemma DirectComposes<V>(conv: (V, V, V, V) -> V, s: History<V>, a: seq<V>, b: seq<V>)
    ensures Direct(conv, s, a + b) == Direct(conv, s, a) + Direct(conv, Update(s, a), b)
  {
    var whole, front, back := Direct(conv, s, a + b), Direct(conv, s, a), Direct(conv, Update(s, a), b);
    forall t | 0 <= t < |a| + |b|
      ensures whole[t] == (front + back)[t]
    {
      if t < |a| { FrontComposes(conv, s, a, b, t); } else { BackComposes(conv, s, a, b, t - |a|); }
    }
    assert whole == front + back;
  }

  lemma FrontComposes<V>(conv: (V, V, V, V) -> V, s: History<V>, a: seq<V>, b: seq<V>, t: nat)
    requires t < |a|
    ensures Direct(conv, s, a + b)[t] == Direct(conv, s, a)[t]
  {
    var h, h' := Rows(s) + a, Rows(s) + (a + b);
    assert h'[t] == h[t] && h'[t + 1] == h[t + 1] && h'[t + 2] == h[t + 2] && h'[t + 3] == h[t + 3];
  }

  lemma BackComposes<V>(conv: (V, V, V, V) -> V, s: History<V>, a: seq<V>, b: seq<V>, t: nat)
    requires t < |b|
    ensures Direct(conv, s, a + b)[|a| + t] == Direct(conv, Update(s, a), b)[t]
  {
    var h, h', n := Rows(Update(s, a)) + b, Rows(s) + (a + b), |a| + t;
    assert (Rows(s) + a)[|a|..] + b == h'[|a|..];
    hide Update;
    assert h == h'[|a|..];
    assert h'[n] == h[t] && h'[n + 1] == h[t + 1] && h'[n + 2] == h[t + 2] && h'[n + 3] == h[t + 3];
  }

  /** The history exported for a checkpoint, three rows of the chunk before its offset, is the state a chunk ending at
      that offset would store. */
  lemma ExportIsState<V>(s: History<V>, x: seq<V>, offset: nat)
    requires HALO <= offset <= |x|
    ensures History(x[offset - 3], x[offset - 2], x[offset - 1]) == Update(s, x[..offset])
  {
  }

  // ---- the state slots ----

  /** One sequence of a call: its rows, the slot it starts from and the slot it ends in. */
  datatype Sequence<V> = Sequence(x: seq<V>, initial: int, final: int)

  function Initial<V>(zero: V, nullSlot: int, state: seq<History<V>>, q: Sequence<V>): History<V>
    requires 0 <= q.initial < |state|
  {
    if q.initial == nullSlot then History(zero, zero, zero) else state[q.initial]
  }

  predicate InRange<V>(qs: seq<Sequence<V>>, n: int) {
    forall s :: 0 <= s < |qs| ==> 0 <= qs[s].initial < n && 0 <= qs[s].final < n
  }

  /** Final slots are distinct, and none is another sequence's starting slot. */
  predicate FinalsApart<V>(nullSlot: int, qs: seq<Sequence<V>>) {
    forall i, j :: 0 <= i < |qs| && 0 <= j < |qs| && i != j && qs[i].final != nullSlot ==>
      qs[i].final != qs[j].final && qs[i].final != qs[j].initial
  }

  /** A slot no sequence leaves its state in. */
  ghost predicate Foreign<V>(nullSlot: int, qs: seq<Sequence<V>>, k: int) {
    forall s :: 0 <= s < |qs| ==> qs[s].final == nullSlot || qs[s].final != k
  }

  /** The state launch, sequences in any order: every final slot becomes the update of its sequence's own starting
      state. */
  method UpdateStates<V>(zero: V, nullSlot: int, qs: seq<Sequence<V>>, state: array<History<V>>, order: seq<nat>)
    requires InRange(qs, state.Length) && FinalsApart(nullSlot, qs)
    requires (forall i :: 0 <= i < |order| ==> order[i] < |qs|) && forall i, j :: 0 <= i < j < |order| ==>
      order[i] != order[j]
    requires forall s: nat :: s < |qs| ==> s in order
    modifies state
    ensures forall s :: 0 <= s < |qs| && qs[s].final != nullSlot ==>
      state[qs[s].final] == Update(
        if qs[s].initial == nullSlot then History(zero, zero, zero) else old(state[qs[s].initial]), qs[s].x)
    ensures forall k :: 0 <= k < state.Length && Foreign(nullSlot, qs, k) ==> state[k] == old(state[k])
  {
    ghost var start := state[..];
    var i := 0;
    while i < |order|
      invariant 0 <= i <= |order|
      invariant forall s :: 0 <= s < |qs| && qs[s].final != nullSlot ==>
        state[qs[s].final] == if s in order[..i] then Update(Initial(zero, nullSlot, start, qs[s]), qs[s].x)
          else start[qs[s].final]
      invariant forall k :: 0 <= k < state.Length && Foreign(nullSlot, qs, k) ==> state[k] == start[k]
    {
      hide Update;
      var s := order[i];
      var q := qs[s];
      assert s !in order[..i];
      assert order[..i + 1] == order[..i] + [s];
      if q.final != nullSlot {
        InitialUntouched(nullSlot, qs, s, start, state[..], order[..i], zero);
        var hasInit := q.initial != nullSlot;
        var new_ := NewState(zero, state[q.initial], hasInit, q.x);
        state[q.final] := new_;
      }
      i := i + 1;
    }
    assert order[..i] == order;
  }

  /** A sequence that has not run yet still finds the state it starts from. */
  lemma InitialUntouched<V>(nullSlot: int, qs: seq<Sequence<V>>, s: nat, start: seq<History<V>>, now: seq<History<V>>,
                            done: seq<nat>, zero: V)
    requires s < |qs| && |start| == |now| && InRange(qs, |now|) && FinalsApart(nullSlot, qs) && s !in done
    requires forall r :: 0 <= r < |qs| && qs[r].final != nullSlot ==>
      r in done || now[qs[r].final] == start[qs[r].final]
    requires forall k :: 0 <= k < |now| && Foreign(nullSlot, qs, k) ==> now[k] == start[k]
    ensures Initial(zero, nullSlot, now, qs[s]) == Initial(zero, nullSlot, start, qs[s])
  {
    if qs[s].initial != nullSlot {
      var k := qs[s].initial;
      if r :| 0 <= r < |qs| && qs[r].final != nullSlot && qs[r].final == k {
        assert r == s;
      }
    }
  }

  /** A checkpoint of a sequence: the slot that is to hold its history at an offset. */
  datatype Export = Export(sequence: nat, offset: nat, slot: nat)

  predicate ExportsFit<V>(qs: seq<Sequence<V>>, exports: seq<Export>, n: nat) {
    && (forall e :: 0 <= e < |exports| ==>
          exports[e].sequence < |qs| && HALO <= exports[e].offset <= |qs[exports[e].sequence].x| && exports[e].slot < n)
    && (forall d, e :: 0 <= d < e < |exports| ==> exports[d].slot != exports[e].slot)
  }

  /** The scatter of three rows per checkpoint, row by row: whatever state the sequence started from, each checkpoint
      slot ends with the history a chunk ending at its offset would have stored. */
  method ExportHistories<V>(qs: seq<Sequence<V>>, exports: seq<Export>, state: array<History<V>>)
    requires ExportsFit(qs, exports, state.Length)
    modifies state
    ensures forall e, s :: 0 <= e < |exports| ==>
      state[exports[e].slot] == Update(s, qs[exports[e].sequence].x[..exports[e].offset])
    ensures forall k :: 0 <= k < state.Length && (forall e :: 0 <= e < |exports| ==> exports[e].slot != k) ==>
      state[k] == old(state[k])
  {
    var i := 0;
    while i < |exports|
      invariant 0 <= i <= |exports|
      invariant forall e :: 0 <= e < i ==>
        state[exports[e].slot] == Before(qs[exports[e].sequence].x, exports[e].offset)
      invariant forall k :: 0 <= k < state.Length && (forall e :: 0 <= e < |exports| ==> exports[e].slot != k) ==>
        state[k] == old(state[k])
    {
      var e := exports[i];
      var x := qs[e.sequence].x;
      state[e.slot] := state[e.slot].(a := x[e.offset - 3]);
      state[e.slot] := state[e.slot].(b := x[e.offset - 2]);
      state[e.slot] := state[e.slot].(c := x[e.offset - 1]);
      i := i + 1;
    }
    forall e, s | 0 <= e < |exports|
      ensures state[exports[e].slot] == Update(s, qs[exports[e].sequence].x[..exports[e].offset])
    {
      ExportIsState(s, qs[exports[e].sequence].x, exports[e].offset);
    }
  }

  /** The three rows before an offset. */
  function Before<V>(x: seq<V>, offset: nat): History<V>
    requires HALO <= offset <= |x|
  {
    History(x[offset - 3], x[offset - 2], x[offset - 1])
  }
}
