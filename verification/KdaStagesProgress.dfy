/** Every run of the stage ring ends, with every tile read by every warp, after a number of steps known beforehand. */
module KdaStagesProgress {
  import opened KdaStages

  function CopyingIn(slots: seq<Slot>): int {
    if |slots| == 0 then 0 else CopyingIn(slots[..|slots| - 1]) + if slots[|slots| - 1].Copying? then 1 else 0
  }

  function WarpWork(warps: seq<Warp>): int {
    if |warps| == 0 then 0
    else
      var w := warps[|warps| - 1];
      WarpWork(warps[..|warps| - 1]) + 2 * w.count + if w.reading then 1 else 0
  }

  /** The steps taken so far. */
  function Work(st: Ring): int {
    2 * st.sent - CopyingIn(st.slots) + WarpWork(st.warps)
  }

  lemma {:induction false} CopyingUpdate(slots: seq<Slot>, s: nat, x: Slot)
    requires s < |slots|
    ensures CopyingIn(slots[s := x])
         == CopyingIn(slots) - (if slots[s].Copying? then 1 else 0) + if x.Copying? then 1 else 0
  {
    var n := |slots| - 1;
    if s < n {
      assert slots[s := x][..n] == slots[..n][s := x];
      CopyingUpdate(slots[..n], s, x);
    } else {
      assert slots[s := x][..n] == slots[..n];
    }
  }

  lemma {:induction false} WarpUpdate(warps: seq<Warp>, m: nat, w: Warp)
    requires m < |warps|
    ensures WarpWork(warps[m := w]) == WarpWork(warps)
      - (2 * warps[m].count + if warps[m].reading then 1 else 0) + 2 * w.count + if w.reading then 1 else 0
  {
    var n := |warps| - 1;
    if m < n {
      assert warps[m := w][..n] == warps[..n][m := w];
      WarpUpdate(warps[..n], m, w);
    } else {
      assert warps[m := w][..n] == warps[..n];
    }
  }

  /** Every step does one unit of work. */
  lemma StepWork(stages: nat, tiles: nat, st: Ring, a: Action)
    requires Inv(stages, st) && Enabled(stages, tiles, st, a)
    ensures Work(Apply(stages, tiles, st, a)) == Work(st) + 1
  {
    hide CopyingIn, WarpWork;
    match a
    case Issue =>
      IssueNeedsRelease(stages, tiles, st);
      CopyingUpdate(st.slots, st.sent % stages, Copying(st.sent));
    case Land(s) => CopyingUpdate(st.slots, s, Holds(st.slots[s].tile));
    case Acquire(m) => WarpUpdate(st.warps, m, st.warps[m].(reading := true));
    case Release(m) => WarpUpdate(st.warps, m, Apply(stages, tiles, st, a).warps[m]);
  }

  /** Nobody goes past the last tile. */
  predicate Within(tiles: nat, st: Ring) {
    st.sent <= tiles && forall m :: 0 <= m < |st.warps| ==>
      st.warps[m].count <= tiles && (st.warps[m].reading ==> st.warps[m].count < tiles)
  }

  lemma {:induction false} NoWork(st: Ring, n: nat, k: nat)
    requires n <= |st.warps| && k <= |st.slots|
    requires forall m :: 0 <= m < n ==> st.warps[m].count == 0 && !st.warps[m].reading
    requires forall s :: 0 <= s < k ==> !st.slots[s].Copying?
    ensures WarpWork(st.warps[..n]) == 0 && CopyingIn(st.slots[..k]) == 0
    decreases n + k
  {
    if n > 0 {
      assert st.warps[..n][..n - 1] == st.warps[..n - 1];
      NoWork(st, n - 1, k);
    } else if k > 0 {
      assert st.slots[..k][..k - 1] == st.slots[..k - 1];
      NoWork(st, n, k - 1);
    }
  }

  /** A run of k steps has done k units of work. */
  lemma {:induction false} WorkIsSteps(stages: nat, tiles: nat, states: seq<Ring>, steps: seq<Action>, k: nat)
    requires Run(stages, tiles, states, steps) && k < |states|
    ensures Work(states[k]) == k && Within(tiles, states[k]) && |states[k].warps| == |states[0].warps|
  {
    hide Inv, Work, Within;
    if k == 0 {
      Starts(stages, tiles, states[0]);
    } else {
      WorkIsSteps(stages, tiles, states, steps, k - 1);
      RunInvariant(stages, tiles, states, steps, k - 1);
      StepWork(stages, tiles, states[k - 1], steps[k - 1]);
      StaysWithin(stages, tiles, states[k - 1], steps[k - 1]);
    }
  }

  lemma Starts(stages: nat, tiles: nat, st: Ring)
    requires Initial(stages, st)
    ensures Work(st) == 0 && Within(tiles, st)
  {
    NoWork(st, |st.warps|, |st.slots|);
    assert st.warps[..|st.warps|] == st.warps && st.slots[..|st.slots|] == st.slots;
  }

  lemma StaysWithin(stages: nat, tiles: nat, st: Ring, a: Action)
    requires Shaped(stages, st) && Enabled(stages, tiles, st, a) && Within(tiles, st)
    ensures var after := Apply(stages, tiles, st, a); Within(tiles, after) && |after.warps| == |st.warps|
  {
  }

  lemma {:induction false} WorkBound(warps: seq<Warp>, tiles: nat)
    requires forall m :: 0 <= m < |warps| ==>
      warps[m].count <= tiles && (warps[m].reading ==> warps[m].count < tiles)
    ensures WarpWork(warps) <= 2 * (tiles * |warps|)
    ensures (forall m :: 0 <= m < |warps| ==> warps[m].count == tiles) ==> WarpWork(warps) == 2 * (tiles * |warps|)
  {
    if |warps| > 0 {
      WorkBound(warps[..|warps| - 1], tiles);
      assert tiles * |warps| == tiles * (|warps| - 1) + tiles;
    }
  }

  lemma {:induction false} CopyingBound(slots: seq<Slot>)
    ensures CopyingIn(slots) >= 0
    ensures (forall s :: 0 <= s < |slots| ==> !slots[s].Copying?) ==> CopyingIn(slots) == 0
  {
    if |slots| > 0 { CopyingBound(slots[..|slots| - 1]); }
  }

  /** Every run is finite: two steps for each tile, and two for each tile and warp, at the most. */
  lemma RunsAreFinite(stages: nat, tiles: nat, states: seq<Ring>, steps: seq<Action>)
    requires Run(stages, tiles, states, steps)
    ensures |steps| <= 2 * tiles + 2 * (tiles * |states[0].warps|)
  {
    WorkIsSteps(stages, tiles, states, steps, |steps|);
    WorkBound(states[|steps|].warps, tiles);
    CopyingBound(states[|steps|].slots);
  }

  /** A run that cannot go on has copied every tile and had it read by every warp, in exactly that many steps. */
  lemma StoppedRunsAreComplete(stages: nat, tiles: nat, states: seq<Ring>, steps: seq<Action>)
    requires Run(stages, tiles, states, steps)
    requires forall a :: !(Shaped(stages, states[|steps|]) && Enabled(stages, tiles, states[|steps|], a))
    ensures var last := states[|steps|];
      last.sent == tiles && forall m :: 0 <= m < |last.warps| ==> last.warps[m].count == tiles
    ensures |steps| == 2 * tiles + 2 * (tiles * |states[0].warps|)
  {
    var last := states[|steps|];
    RunInvariant(stages, tiles, states, steps, |steps|);
    WorkIsSteps(stages, tiles, states, steps, |steps|);
    hide Run, Work, Enabled;
    forall m | 0 <= m < |last.warps|
      ensures last.warps[m].count == tiles
    {
      if last.warps[m].count < tiles { NeverStuck(stages, tiles, states, steps, |steps|, m); }
    }
    AllSent(stages, tiles, last);
    NothingInFlight(stages, tiles, last);
    WorkBound(last.warps, tiles);
    CopyingBound(last.slots);
    WorkOf(last);
  }

  lemma WorkOf(st: Ring)
    ensures Work(st) == 2 * st.sent - CopyingIn(st.slots) + WarpWork(st.warps)
  {
  }

  lemma NothingInFlight(stages: nat, tiles: nat, st: Ring)
    requires Shaped(stages, st) && forall a :: !Enabled(stages, tiles, st, a)
    ensures forall s :: 0 <= s < |st.slots| ==> !st.slots[s].Copying?
  {
    forall s | 0 <= s < |st.slots|
      ensures !st.slots[s].Copying?
    {
      assert !Enabled(stages, tiles, st, Land(s));
    }
  }

  /** A warp cannot have done more tiles than were sent. */
  lemma AllSent(stages: nat, tiles: nat, st: Ring)
    requires Inv(stages, st) && Within(tiles, st) && forall m :: 0 <= m < |st.warps| ==> st.warps[m].count == tiles
    ensures st.sent == tiles
  {
    if st.sent < tiles {
      var s := st.sent % stages;
      assert StageOk(stages, st, s);
      WarpAt(stages, st, 0, s);
      UsesAscend(stages, st.sent, tiles, s);
    }
  }

  /** On the way to its count each warp has been reading every tile below it. */
  lemma {:induction false} EveryTileIsRead(stages: nat, tiles: nat, states: seq<Ring>, steps: seq<Action>, k: nat,
                                           m: nat, i: nat) returns (j: nat)
    requires Run(stages, tiles, states, steps) && k < |states| && m < |states[k].warps| && i < states[k].warps[m].count
    ensures j < k && m < |states[j].warps| && states[j].warps[m].reading && states[j].warps[m].count == i
  {
    hide Passes, Flip;
    if m < |states[k - 1].warps| && i < states[k - 1].warps[m].count {
      j := EveryTileIsRead(stages, tiles, states, steps, k - 1, m, i);
    } else {
      j := k - 1;
    }
  }
}
