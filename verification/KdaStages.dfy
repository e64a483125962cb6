/** The stage ring inside a recurrence thread block: one producer warp copies tiles into a few shared-memory stages, the
    MMA warps consume them, and a full and an empty barrier per stage, waited on by phase parity, keep them apart. */
module KdaStages {
  import opened Arithmetic

  /** What a stage holds: nothing yet, a copy in flight, or the copy of a tile. */
  datatype Slot = Empty | Copying(tile: nat) | Holds(tile: nat)

  /** An empty barrier: completed phases and arrivals in the current one. */
  datatype Barrier = Barrier(phases: nat, arrived: nat)

  datatype Warp = Warp(count: nat, phase: nat, reading: bool)

  datatype Ring = Ring(
    sent: nat,                // tiles the producer has issued
    phase: nat,               // its parity
    warps: seq<Warp>,
    full: seq<nat>,           // completed phases of each full barrier
    empty: seq<Barrier>,
    slots: seq<Slot>)

  datatype Action = Issue | Land(stage: nat) | Acquire(warp: nat) | Release(warp: nat)

  predicate Shaped(stages: nat, st: Ring) {
    stages > 0 && |st.full| == |st.empty| == |st.slots| == stages && |st.warps| > 0
  }

  /** A wait for a phase parity passes once the phase of that parity before the current one has completed. */
  predicate Passes(phases: nat, parity: nat) {
    phases % 2 != parity
  }

  function Flip(stages: nat, stage: nat, phase: nat): nat {
    if stage == stages - 1 then (if phase == 0 then 1 else 0) else phase
  }

  predicate Enabled(stages: nat, tiles: nat, st: Ring, a: Action)
    requires Shaped(stages, st)
  {
    match a
    case Issue => st.sent < tiles && Passes(st.empty[st.sent % stages].phases, st.phase)
    case Land(s) => s < stages && st.slots[s].Copying?
    case Acquire(m) =>
      m < |st.warps| && st.warps[m].count < tiles && !st.warps[m].reading
      && Passes(st.full[st.warps[m].count % stages], st.warps[m].phase)
    case Release(m) => m < |st.warps| && st.warps[m].reading
  }

  /** One warp's arrival; the last one completes the phase. */
  function Arrive(warps: nat, b: Barrier): Barrier {
    if b.arrived + 1 == warps then Barrier(b.phases + 1, 0) else Barrier(b.phases, b.arrived + 1)
  }

  function Apply(stages: nat, tiles: nat, st: Ring, a: Action): Ring
    requires Shaped(stages, st) && Enabled(stages, tiles, st, a)
  {
    match a
    case Issue =>
      var s := st.sent % stages;
      st.(slots := st.slots[s := Copying(st.sent)], sent := st.sent + 1, phase := Flip(stages, s, st.phase))
    case Land(s) => st.(slots := st.slots[s := Holds(st.slots[s].tile)], full := st.full[s := st.full[s] + 1])
    case Acquire(m) => st.(warps := st.warps[m := st.warps[m].(reading := true)])
    case Release(m) =>
      var w := st.warps[m];
      var s := w.count % stages;
      st.(warps := st.warps[m := Warp(w.count + 1, Flip(stages, s, w.phase), false)],
          empty := st.empty[s := Arrive(|st.warps|, st.empty[s])])
  }

  /** How many of the first count tiles went to stage s. */
  function Uses(stages: nat, count: nat, s: nat): nat
    requires stages > 0
  {
    count / stages + if s < count % stages then 1 else 0
  }

  /** The tile of a stage's use-th use. */
  function TileOf(stages: nat, use: nat, s: nat): nat {
    use * stages + s
  }

  lemma CountSplits(stages: nat, count: nat)
    requires stages > 0
    ensures count % stages < stages && TileOf(stages, count / stages, count % stages) == count
  {
    DivModDefinition(count, stages);
  }

  /** Counting one tile further moves to the next stage, and to the next lap after the last one. */
  lemma NextCount(stages: nat, count: nat)
    requires stages > 0
    ensures count % stages == stages - 1 ==> (count + 1) / stages == count / stages + 1 && (count + 1) % stages == 0
    ensures count % stages < stages - 1 ==>
      (count + 1) / stages == count / stages && (count + 1) % stages == count % stages + 1
  {
    DivModDefinition(count, stages);
    if count % stages == stages - 1 {
      DivModUnique(count + 1, count / stages + 1, 0, stages);
    } else {
      DivModUnique(count + 1, count / stages, count % stages + 1, stages);
    }
  }

  lemma NextUses(stages: nat, count: nat, s: nat)
    requires stages > 0 && s < stages
    ensures Uses(stages, count + 1, s) == Uses(stages, count, s) + if s == count % stages then 1 else 0
  {
    NextCount(stages, count);
    DivModDefinition(count, stages);
  }

  lemma {:induction false} UsesAscend(stages: nat, a: nat, b: nat, s: nat)
    requires stages > 0 && s < stages && a <= b
    ensures Uses(stages, a, s) <= Uses(stages, b, s)
    ensures a < b && s == a % stages ==> Uses(stages, a, s) < Uses(stages, b, s)
    decreases b - a
  {
    if a < b {
      NextUses(stages, a, s);
      UsesAscend(stages, a + 1, b, s);
    }
  }

  /** Arrivals counted so far in a phase: warps that have released more uses than the barrier has completed. */
  function Ahead(stages: nat, warps: seq<Warp>, s: nat, phases: nat): nat
    requires stages > 0
  {
    if |warps| == 0 then 0
    else Ahead(stages, warps[..|warps| - 1], s, phases) + if Uses(stages, warps[|warps| - 1].count, s) > phases then 1
      else 0
  }

  ghost predicate WarpOk(stages: nat, st: Ring, w: Warp, s: nat)
    requires Shaped(stages, st) && s < stages
  {
    var used := Uses(stages, w.count, s);
    st.empty[s].phases <= used <= st.empty[s].phases + 1 && used <= st.full[s]
  }

  ghost predicate WarpsOk(stages: nat, st: Ring, s: nat)
    requires Shaped(stages, st) && s < stages
  {
    forall m :: 0 <= m < |st.warps| ==> WarpOk(stages, st, st.warps[m], s)
  }

  ghost predicate StageOk(stages: nat, st: Ring, s: nat)
    requires Shaped(stages, st) && s < stages
  {
    var sent := Uses(stages, st.sent, s);
    && sent <= st.empty[s].phases + 1
    && st.full[s] + (if st.slots[s].Copying? then 1 else 0) == sent
    && (st.slots[s].Copying? ==> st.slots[s].tile == TileOf(stages, st.full[s], s))
    && (!st.slots[s].Copying? && st.full[s] > 0 ==> st.slots[s] == Holds(TileOf(stages, st.full[s] - 1, s)))
    && st.empty[s].arrived == Ahead(stages, st.warps, s, st.empty[s].phases) < |st.warps|
    && WarpsOk(stages, st, s)
  }

  ghost predicate Inv(stages: nat, st: Ring) {
    && Shaped(stages, st)
    && st.phase == (st.sent / stages + 1) % 2
    && (forall m :: 0 <= m < |st.warps| ==> st.warps[m].phase == (st.warps[m].count / stages) % 2)
    && (forall m :: 0 <= m < |st.warps| && st.warps[m].reading ==>
          st.full[st.warps[m].count % stages] > st.warps[m].count / stages)
    && (forall s :: 0 <= s < stages ==> StageOk(stages, st, s))
  }

  ghost predicate Initial(stages: nat, st: Ring) {
    && Shaped(stages, st) && st.sent == 0 && st.phase == 1
    && (forall m :: 0 <= m < |st.warps| ==> st.warps[m] == Warp(0, 0, false))
    && (forall s :: 0 <= s < stages ==> st.full[s] == 0 && st.empty[s] == Barrier(0, 0) && st.slots[s] == Empty)
  }

  lemma {:induction false} AheadUpdate(stages: nat, warps: seq<Warp>, m: nat, w: Warp, s: nat, phases: nat)
    requires stages > 0 && m < |warps|
    ensures Ahead(stages, warps[m := w], s, phases) + (if Uses(stages, warps[m].count, s) > phases then 1 else 0)
         == Ahead(stages, warps, s, phases) + (if Uses(stages, w.count, s) > phases then 1 else 0)
  {
    var n := |warps| - 1;
    if m < n {
      assert warps[m := w][..n] == warps[..n][m := w];
      AheadUpdate(stages, warps[..n], m, w, s, phases);
    } else {
      assert warps[m := w][..n] == warps[..n];
    }
  }

  lemma {:induction false} AheadAll(stages: nat, warps: seq<Warp>, s: nat, phases: nat)
    requires stages > 0
    ensures Ahead(stages, warps, s, phases) <= |warps|
    ensures Ahead(stages, warps, s, phases) == |warps| <==>
      forall m :: 0 <= m < |warps| ==> Uses(stages, warps[m].count, s) > phases
    ensures Ahead(stages, warps, s, phases) == 0 <==>
      forall m :: 0 <= m < |warps| ==> Uses(stages, warps[m].count, s) <= phases
  {
    if |warps| > 0 {
      var n := |warps| - 1;
      AheadAll(stages, warps[..n], s, phases);
      assert forall m :: 0 <= m < n ==> warps[..n][m] == warps[m];
    }
  }

  /** The producer's wait passes exactly when every MMA warp has released the stage's previous tile. */
  lemma IssueNeedsRelease(stages: nat, tiles: nat, st: Ring)
    requires Inv(stages, st)
    ensures var s := st.sent % stages;
      Passes(st.empty[s].phases, st.phase)
      <==> forall m :: 0 <= m < |st.warps| ==> Uses(stages, st.warps[m].count, s) == Uses(stages, st.sent, s)
    ensures var s := st.sent % stages;
      Passes(st.empty[s].phases, st.phase) ==>
        st.empty[s].phases == st.full[s] == Uses(stages, st.sent, s) && !st.slots[s].Copying?
  {
    var s, lap := st.sent % stages, st.sent / stages;
    CountSplits(stages, st.sent);
    assert StageOk(stages, st, s) && st.phase == (lap + 1) % 2;
    AheadAll(stages, st.warps, s, st.empty[s].phases);
    hide Ahead, Passes;
    assert Uses(stages, st.sent, s) == lap;
    hide Uses;
    assert WarpOk(stages, st, st.warps[0], s);
    var e := st.empty[s].phases;
    assert e <= lap <= e + 1;
    ParityMeets(e, lap);
    assert e == lap ==> forall m :: 0 <= m < |st.warps| ==> WarpOk(stages, st, st.warps[m], s);
  }

  lemma ParityMeets(phases: nat, lap: nat)
    requires phases <= lap <= phases + 1
    ensures Passes(phases, (lap + 1) % 2) <==> phases == lap
  {
  }

  lemma ParityFollows(phases: nat, lap: nat)
    requires lap <= phases <= lap + 1
    ensures Passes(phases, lap % 2) <==> phases == lap + 1
  {
  }

  /** A warp that waits for its tile passes exactly when the copy has landed, and then the stage holds that tile. */
  lemma AcquireNeedsCopy(stages: nat, st: Ring, m: nat)
    requires Inv(stages, st) && m < |st.warps|
    ensures var w, s := st.warps[m], st.warps[m].count % stages;
      && (Passes(st.full[s], w.phase) <==> st.full[s] > w.count / stages)
      && (st.full[s] > w.count / stages ==> st.slots[s] == Holds(w.count) && st.full[s] == w.count / stages + 1
                                            && st.empty[s].phases == w.count / stages)
  {
    var w, s := st.warps[m], st.warps[m].count % stages;
    CountSplits(stages, w.count);
    assert StageOk(stages, st, s) && WarpOk(stages, st, w, s);
    hide Ahead, Passes;
    assert Uses(stages, w.count, s) == w.count / stages;
    hide Uses;
    ParityFollows(st.full[s], w.count / stages);
  }

  lemma IssueKept(stages: nat, tiles: nat, st: Ring)
    requires Inv(stages, st) && Enabled(stages, tiles, st, Issue)
    ensures Inv(stages, Apply(stages, tiles, st, Issue))
  {
    var after, at := Apply(stages, tiles, st, Issue), st.sent % stages;
    IssueNeedsRelease(stages, tiles, st);
    CountSplits(stages, st.sent);
    NextCount(stages, st.sent);
    forall s | 0 <= s < stages
      ensures StageOk(stages, after, s)
    {
      NextUses(stages, st.sent, s);
      assert StageOk(stages, st, s);
      WarpsKept(stages, st, after, s);
      assert s == at ==> Uses(stages, st.sent, s) == st.sent / stages;
      hide Ahead, Uses, WarpsOk;
    }
  }

  /** A stage's warps are fine as long as its barriers have not moved. */
  lemma WarpsKept(stages: nat, st: Ring, after: Ring, s: nat)
    requires Shaped(stages, st) && Shaped(stages, after) && s < stages && WarpsOk(stages, st, s)
    requires after.warps == st.warps && after.empty[s] == st.empty[s] && after.full[s] >= st.full[s]
    ensures WarpsOk(stages, after, s)
  {
    forall m | 0 <= m < |after.warps|
      ensures WarpOk(stages, after, after.warps[m], s)
    {
      assert WarpOk(stages, st, st.warps[m], s);
    }
  }

  lemma LandKept(stages: nat, tiles: nat, st: Ring, at: nat)
    requires Inv(stages, st) && Enabled(stages, tiles, st, Land(at))
    ensures Inv(stages, Apply(stages, tiles, st, Land(at)))
  {
    var after := Apply(stages, tiles, st, Land(at));
    forall s | 0 <= s < stages
      ensures StageOk(stages, after, s)
    {
      assert StageOk(stages, st, s);
      WarpsKept(stages, st, after, s);
      hide Ahead, Uses, WarpsOk;
    }
  }

  lemma AcquireKept(stages: nat, tiles: nat, st: Ring, m: nat)
    requires Inv(stages, st) && Enabled(stages, tiles, st, Acquire(m))
    ensures Inv(stages, Apply(stages, tiles, st, Acquire(m)))
  {
    var after := Apply(stages, tiles, st, Acquire(m));
    AcquireNeedsCopy(stages, st, m);
    forall s | 0 <= s < stages
      ensures StageOk(stages, after, s)
    {
      assert StageOk(stages, st, s);
      AheadUpdate(stages, st.warps, m, after.warps[m], s, st.empty[s].phases);
      hide Ahead, Uses;
      forall k | 0 <= k < |after.warps|
        ensures WarpOk(stages, after, after.warps[k], s)
      {
        WarpAt(stages, st, k, s);
      }
    }
  }

  lemma ReleaseKept(stages: nat, tiles: nat, st: Ring, m: nat)
    requires Inv(stages, st) && Enabled(stages, tiles, st, Release(m))
    ensures Inv(stages, Apply(stages, tiles, st, Release(m)))
  {
    var after := Apply(stages, tiles, st, Release(m));
    AcquireNeedsCopy(stages, st, m);
    CountSplits(stages, st.warps[m].count);
    NextCount(stages, st.warps[m].count);
    hide StageOk;
    forall s | 0 <= s < stages
      ensures StageOk(stages, after, s)
    {
      ReleaseStage(stages, tiles, st, m, s);
    }
  }

  lemma ReleaseStage(stages: nat, tiles: nat, st: Ring, m: nat, s: nat)
    requires Inv(stages, st) && Enabled(stages, tiles, st, Release(m)) && s < stages
    ensures StageOk(stages, Apply(stages, tiles, st, Release(m)), s)
  {
    AcquireNeedsCopy(stages, st, m);
    assert StageOk(stages, st, s);
    ReleasedTally(stages, tiles, st, m, s);
    ReleasedWarps(stages, tiles, st, m, s);
    hide Ahead, Uses, Inv, WarpsOk, TileOf;
  }

  /** A warp that is reading is in the phase its stage's empty barrier is in. */
  lemma ReleasedUses(stages: nat, tiles: nat, st: Ring, m: nat)
    requires Inv(stages, st) && Enabled(stages, tiles, st, Release(m))
    ensures var at := st.warps[m].count % stages;
      at < stages && Uses(stages, st.warps[m].count, at) == st.empty[at].phases
  {
    AcquireNeedsCopy(stages, st, m);
    CountSplits(stages, st.warps[m].count);
    assert StageOk(stages, st, st.warps[m].count % stages);
  }

  lemma ReleasedTally(stages: nat, tiles: nat, st: Ring, m: nat, s: nat)
    requires Inv(stages, st) && Enabled(stages, tiles, st, Release(m)) && s < stages
    ensures var after := Apply(stages, tiles, st, Release(m));
      && after.empty[s].phases >= st.empty[s].phases
      && after.empty[s].arrived == Ahead(stages, after.warps, s, after.empty[s].phases) < |after.warps|
  {
    var after, w, at := Apply(stages, tiles, st, Release(m)), st.warps[m], st.warps[m].count % stages;
    var phases := st.empty[s].phases;
    assert StageOk(stages, st, s);
    NextUses(stages, w.count, s);
    ReleasedUses(stages, tiles, st, m);
    AheadUpdate(stages, st.warps, m, after.warps[m], s, phases);
    ReleasedWarps(stages, tiles, st, m, s);
    hide Ahead, Uses, Inv, StageOk;
    if after.empty[s].phases == phases + 1 {
      AheadAll(stages, after.warps, s, phases);
      AheadAll(stages, after.warps, s, phases + 1);
      assert forall k :: 0 <= k < |after.warps| ==> WarpOk(stages, after, after.warps[k], s);
    }
  }

  lemma ReleasedWarps(stages: nat, tiles: nat, st: Ring, m: nat, s: nat)
    requires Inv(stages, st) && Enabled(stages, tiles, st, Release(m)) && s < stages
    ensures Shaped(stages, Apply(stages, tiles, st, Release(m)))
      && WarpsOk(stages, Apply(stages, tiles, st, Release(m)), s)
  {
    var after, w, at := Apply(stages, tiles, st, Release(m)), st.warps[m], st.warps[m].count % stages;
    assert StageOk(stages, st, s);
    NextUses(stages, w.count, s);
    ReleasedUses(stages, tiles, st, m);
    AheadUpdate(stages, st.warps, m, after.warps[m], s, st.empty[s].phases);
    AheadAll(stages, after.warps, s, st.empty[s].phases);
    assert s == at ==> Uses(stages, w.count, s) == w.count / stages == st.empty[s].phases;
    assert WarpsOk(stages, st, s);
    hide Ahead, Uses, Inv, StageOk, WarpsOk;
    forall k | 0 <= k < |st.warps|
      ensures WarpOk(stages, after, after.warps[k], s)
    {
      WarpAt(stages, st, k, s);
    }
  }

  lemma StepKept(stages: nat, tiles: nat, st: Ring, a: Action)
    requires Inv(stages, st) && Enabled(stages, tiles, st, a)
    ensures Inv(stages, Apply(stages, tiles, st, a))
  {
    match a
    case Issue => IssueKept(stages, tiles, st);
    case Land(s) => LandKept(stages, tiles, st, s);
    case Acquire(m) => AcquireKept(stages, tiles, st, m);
    case Release(m) => ReleaseKept(stages, tiles, st, m);
  }

  lemma WarpAt(stages: nat, st: Ring, m: nat, s: nat)
    requires Shaped(stages, st) && s < stages && WarpsOk(stages, st, s) && m < |st.warps|
    ensures WarpOk(stages, st, st.warps[m], s)
  {
  }

  lemma InitialInv(stages: nat, st: Ring)
    requires Initial(stages, st)
    ensures Inv(stages, st)
  {
    assert 0 / stages == 0 && 0 % stages == 0 by { DivModUnique(0, 0, 0, stages); }
    forall s | 0 <= s < stages
      ensures StageOk(stages, st, s)
    {
      AheadAll(stages, st.warps, s, 0);
      assert Uses(stages, 0, s) == 0;
      hide Ahead, Uses;
      forall m | 0 <= m < |st.warps|
        ensures WarpOk(stages, st, st.warps[m], s)
      {
      }
    }
  }

  /** A run of one thread block over its tiles of a window. */
  ghost predicate Run(stages: nat, tiles: nat, states: seq<Ring>, steps: seq<Action>) {
    && |states| == |steps| + 1 && Initial(stages, states[0])
    && (forall k :: 0 <= k < |steps| ==>
         && Shaped(stages, states[k]) && Enabled(stages, tiles, states[k], steps[k])
         && states[k + 1] == Apply(stages, tiles, states[k], steps[k]))
  }

  lemma {:induction false} RunInvariant(stages: nat, tiles: nat, states: seq<Ring>, steps: seq<Action>, k: nat)
    requires Run(stages, tiles, states, steps) && k < |states|
    ensures Inv(stages, states[k])
  {
    hide Inv, Enabled, Apply, Shaped;
    if k == 0 {
      InitialInv(stages, states[0]);
    } else {
      RunInvariant(stages, tiles, states, steps, k - 1);
      StepKept(stages, tiles, states[k - 1], steps[k - 1]);
    }
  }

  /** In every interleaving of the producer, the copies and the MMA warps: a warp that reads its k-th tile reads the
      producer's k-th copy, complete and still in place. */
  lemma WarpsReadTheirTiles(stages: nat, tiles: nat, states: seq<Ring>, steps: seq<Action>, k: nat, m: nat)
    requires Run(stages, tiles, states, steps) && k < |states| && Shaped(stages, states[k]) && m < |states[k].warps|
    requires states[k].warps[m].reading
    ensures states[k].slots[states[k].warps[m].count % stages] == Holds(states[k].warps[m].count)
  {
    RunInvariant(stages, tiles, states, steps, k);
    AcquireNeedsCopy(stages, states[k], m);
  }

  /** No stage is refilled before every MMA warp has finished all earlier tiles of that stage. */
  lemma NoEarlyRefill(stages: nat, tiles: nat, states: seq<Ring>, steps: seq<Action>, k: nat, m: nat, i: nat)
    requires Run(stages, tiles, states, steps) && k < |steps| && steps[k].Issue? && m < |states[k].warps|
    requires i < states[k].sent && i % stages == states[k].sent % stages
    ensures states[k].warps[m].count > i
  {
    RunInvariant(stages, tiles, states, steps, k);
    var st := states[k];
    IssueNeedsRelease(stages, tiles, st);
    UsesAscend(stages, i, st.sent, i % stages);
    if st.warps[m].count <= i {
      UsesAscend(stages, st.warps[m].count, i, i % stages);
    }
  }

  /** Until every warp has consumed every tile, some step is enabled. */
  lemma NeverStuck(stages: nat, tiles: nat, states: seq<Ring>, steps: seq<Action>, k: nat, m: nat)
    requires Run(stages, tiles, states, steps) && k < |states| && Shaped(stages, states[k])
    requires m < |states[k].warps| && states[k].warps[m].count < tiles
    ensures exists a :: Enabled(stages, tiles, states[k], a)
  {
    RunInvariant(stages, tiles, states, steps, k);
    var st := states[k];
    hide Run;
    if s :| 0 <= s < stages && st.slots[s].Copying? {
      assert Enabled(stages, tiles, st, Land(s));
    } else if r :| 0 <= r < |st.warps| && st.warps[r].reading {
      assert Enabled(stages, tiles, st, Release(r));
    } else {
      var least := Least(st.warps, |st.warps|);
      LeastWarpMoves(stages, tiles, st, least);
    }
  }

  /** A warp with the fewest tiles done. */
  lemma {:induction false} Least(warps: seq<Warp>, n: nat) returns (least: nat)
    requires 0 < n <= |warps|
    ensures least < n && forall m :: 0 <= m < n ==> warps[least].count <= warps[m].count
  {
    least := 0;
    if n > 1 {
      least := Least(warps, n - 1);
      if warps[n - 1].count < warps[least].count { least := n - 1; }
    }
  }

  lemma LeastWarpMoves(stages: nat, tiles: nat, st: Ring, m: nat)
    requires Inv(stages, st) && m < |st.warps| && st.warps[m].count < tiles && !st.warps[m].reading
    requires forall s :: 0 <= s < stages ==> !st.slots[s].Copying?
    requires forall r :: 0 <= r < |st.warps| ==> st.warps[m].count <= st.warps[r].count
    ensures Enabled(stages, tiles, st, Acquire(m)) || Enabled(stages, tiles, st, Issue)
  {
    var w, s := st.warps[m], st.warps[m].count % stages;
    AcquireNeedsCopy(stages, st, m);
    IssueNeedsRelease(stages, tiles, st);
    CountSplits(stages, w.count);
    assert StageOk(stages, st, s);
    if st.full[s] <= w.count / stages {
      assert Uses(stages, w.count, s) == w.count / stages;
      if w.count < st.sent { UsesAscend(stages, w.count, st.sent, s); }
      assert st.sent <= w.count;
      var at := st.sent % stages;
      assert StageOk(stages, st, at);
      forall r | 0 <= r < |st.warps|
        ensures Uses(stages, st.warps[r].count, at) == Uses(stages, st.sent, at)
      {
        UsesAscend(stages, st.sent, st.warps[r].count, at);
        WarpAt(stages, st, r, at);
        hide Uses, Ahead;
      }
    }
  }
}
