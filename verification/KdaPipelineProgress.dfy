/** Every run of the two streams ends, with every window prepared and run. */
module KdaPipelineProgress {
  import opened KdaPipeline

  /** Each window is prepared and run by one call each, and no others are. */
  lemma EveryWindowIsLaunched(n: nat, w: nat, i: nat)
    requires n >= 1
    ensures w < n ==> PrepareCall(w) < Calls(n) && RecurCall(w) < Calls(n)
    ensures CallAt(i) == Issued(Side, Prepare(w)) <==> i == PrepareCall(w)
    ensures CallAt(i) == Issued(Main, Recur(w)) <==> i == RecurCall(w)
    ensures i < Calls(n) && (CallAt(i).op.Prepare? || CallAt(i).op.Recur?) ==> CallAt(i).op.window < n
  {
    RecurAfterWait(w);
    PrepareAt(i);
  }

  /** The two halves are the whole ring. */
  lemma RingIsHalves(p: Positions, st: State, x: nat) returns (w: nat, t: nat)
    requires Fits(p, st) && x < |st.ring|
    ensures w < 2 && t < p.windowTiles && x == Half(p, w) + t
  {
    w, t := if x < p.windowTiles then 0 else 1, if x < p.windowTiles then x else x - p.windowTiles;
  }

  // ---- runs are finite ----

  /** The running prepare kernel publishes tiles of its window only. */
  predicate InWindow(p: Positions, st: State) {
    st.sideBusy ==> forall t :: t in st.written ==> t < p.windowTiles
  }

  /** The steps the first calls of the side stream may take. */
  function Wide(p: Positions, calls: nat): nat {
    (p.windowTiles + 2) * calls
  }

  lemma WideNext(p: Positions, calls: nat)
    ensures Wide(p, calls + 1) == Wide(p, calls) + p.windowTiles + 2
  {
  }

  /** What the calls issued and run so far amount to. */
  function Work(p: Positions, st: State): int {
    st.host + 2 * st.main + (if st.mainBusy then 1 else 0)
    + Wide(p, st.side) + (if st.sideBusy then 1 + |st.written| else 0)
  }

  function Under(n: nat): (s: set<nat>)
    ensures |s| == n && forall t: nat :: t in s <==> t < n
  {
    if n == 0 then {} else Under(n - 1) + {n - 1}
  }

  lemma {:induction false} Subset(a: set<nat>, b: set<nat>)
    requires a <= b
    ensures |a| <= |b|
    decreases |a|
  {
    if |a| > 0 {
      var x :| x in a;
      Subset(a - {x}, b - {x});
    }
  }

  lemma WrittenBound(p: Positions, st: State)
    requires InWindow(p, st) && st.sideBusy
    ensures |st.written| <= p.windowTiles
    ensures (forall t: nat :: t < p.windowTiles ==> t in st.written) ==> |st.written| == p.windowTiles
  {
    Subset(st.written, Under(p.windowTiles));
    if forall t: nat :: t < p.windowTiles ==> t in st.written { Subset(Under(p.windowTiles), st.written); }
  }

  lemma StepWork(p: Positions, n: nat, st: State, a: Action)
    requires Inv(p, n, st) && InWindow(p, st) && Enabled(p, n, st, a)
    ensures var after := Apply(p, n, st, a); InWindow(p, after) && Work(p, after) == Work(p, st) + WorkOf(p, a)
  {
    if st.sideBusy { WrittenBound(p, st); }
    WideNext(p, st.side);
    hide Inv, CallAt, Executed, HasTile, Prepares, LatestRecord, Wide, Half, Calls;
    match a
    case Issue =>
    case Pass(s) =>
    case Start(s) =>
    case Publish(t) => assert Apply(p, n, st, a).written == st.written + {t};
    case Finish(s) =>
  }

  /** What a step adds; a call of the side stream counts for all the tiles its kernel may publish. */
  function WorkOf(p: Positions, a: Action): nat {
    match a
    case Issue => 1
    case Pass(s) => if s.Main? then 2 else p.windowTiles + 2
    case _ => 1
  }

  lemma {:induction false} StepsAreWork(p: Positions, n: nat, states: seq<State>, steps: seq<Action>, k: nat)
    requires Run(p, n, states, steps) && k < |states|
    ensures InWindow(p, states[k]) && k <= Work(p, states[k])
  {
    hide Inv, Enabled, Apply, CallAt, Fits;
    if k == 0 {
      assert Work(p, states[0]) == 0 && InWindow(p, states[0]) by { Starts(p, states[0]); }
    } else {
      StepsAreWork(p, n, states, steps, k - 1);
      RunInvariant(p, n, states, steps, k - 1);
      StepWork(p, n, states[k - 1], steps[k - 1]);
    }
  }

  lemma Starts(p: Positions, st: State)
    requires Initial(p, st)
    ensures Work(p, st) == 0 && InWindow(p, st)
  {
  }

  lemma WorkBound(p: Positions, n: nat, st: State)
    requires Inv(p, n, st) && InWindow(p, st)
    ensures Work(p, st) <= Calls(n) * (p.windowTiles + 5)
  {
    var calls := Calls(n);
    if st.sideBusy { WrittenBound(p, st); }
    hide Filled, Waited, CallAt, Calls;
    assert st.main <= calls && st.side <= calls && st.host <= calls;
    assert st.mainBusy ==> st.main < calls;
    assert st.sideBusy ==> st.side < calls;
    WideNext(p, st.side);
    Times(p.windowTiles + 2, st.side, calls);
    if st.sideBusy { Times(p.windowTiles + 2, st.side + 1, calls); }
    assert calls * (p.windowTiles + 5) == (p.windowTiles + 2) * calls + 3 * calls;
  }

  lemma Times(a: nat, b: nat, c: nat)
    requires b <= c
    ensures a * b <= a * c
  {
  }

  /** Every run is finite. */
  lemma RunsAreFinite(p: Positions, n: nat, states: seq<State>, steps: seq<Action>)
    requires Run(p, n, states, steps)
    ensures |steps| <= Calls(n) * (p.windowTiles + 5)
  {
    StepsAreWork(p, n, states, steps, |steps|);
    RunInvariant(p, n, states, steps, |steps|);
    WorkBound(p, n, states[|steps|]);
  }

  // ---- and complete ----

  /** A cursor past a recurrence's call has seen that recurrence run. */
  lemma {:induction false} RecurrenceRuns(p: Positions, n: nat, states: seq<State>, steps: seq<Action>, k: nat, w: nat)
    returns (j: nat)
    requires Run(p, n, states, steps) && k < |states| && states[k].main > RecurCall(w)
    ensures j < k && states[j].mainBusy && CallAt(states[j].main).op == Recur(w)
  {
    if states[k - 1].main > RecurCall(w) {
      j := RecurrenceRuns(p, n, states, steps, k - 1, w);
    } else {
      j := k - 1;
      RecurAfterWait(w);
      hide CallAt, LatestRecord;
      assert states[k] == Apply(p, n, states[j], steps[j]);
    }
  }

  /** And one past a prepare kernel's call has seen each of its tiles published. */
  lemma {:induction false} PrepareRuns(p: Positions, n: nat, states: seq<State>, steps: seq<Action>, k: nat, w: nat)
    returns (j: nat)
    requires Run(p, n, states, steps) && k < |states| && states[k].side > PrepareCall(w)
    ensures j < k && states[j].sideBusy && CallAt(states[j].side).op == Prepare(w)
    ensures forall t: nat :: t < p.windowTiles ==> t in states[j].written
  {
    if states[k - 1].side > PrepareCall(w) {
      j := PrepareRuns(p, n, states, steps, k - 1, w);
    } else {
      j := k - 1;
      RecurAfterWait(w);
      hide CallAt, LatestRecord;
      assert states[k] == Apply(p, n, states[j], steps[j]);
    }
  }

  /** A run that cannot go on has run every call of the host, and so prepared and run every window. */
  lemma StoppedRunsAreComplete(p: Positions, n: nat, states: seq<State>, steps: seq<Action>, w: nat)
    returns (i: nat, j: nat)
    requires Run(p, n, states, steps) && w < n && forall a :: !Enabled(p, n, states[|steps|], a)
    ensures states[|steps|].main == states[|steps|].side == states[|steps|].host == Calls(n)
    ensures i < |steps| && states[i].sideBusy && CallAt(states[i].side).op == Prepare(w)
    ensures j < |steps| && states[j].mainBusy && CallAt(states[j].main).op == Recur(w)
  {
    var last := states[|steps|];
    RunInvariant(p, n, states, steps, |steps|);
    EveryWindowIsLaunched(n, w, 0);
    hide Filled, Waited, CallAt, Run, Enabled, Calls;
    if last.main < Calls(n) || last.side < Calls(n) { NeverStuck(p, n, states, steps, |steps|); }
    i := PrepareRuns(p, n, states, steps, |steps|, w);
    j := RecurrenceRuns(p, n, states, steps, |steps|, w);
  }

  // ---- and overlap ----

  /** While the recurrence of a window runs, nothing holds back the prepare kernel of the next one. */
  lemma NextPrepareIsFree(p: Positions, n: nat, states: seq<State>, steps: seq<Action>, k: nat, w: nat)
    requires Run(p, n, states, steps) && k < |states|
    requires states[k].mainBusy && CallAt(states[k].main).op == Recur(w)
    requires states[k].side <= PrepareCall(w + 1) < states[k].host && !states[k].sideBusy
    ensures Enabled(p, n, states[k], Pass(Side)) || Enabled(p, n, states[k], Start(Side))
  {
    var st := states[k];
    RunInvariant(p, n, states, steps, k);
    PrepareAt(st.main);
    var i := st.side;
    if CallAt(i).op.Wait? {
      WaitsAreRecorded(i);
      WaitIsEarlier(i);
    }
    hide CallAt, LatestRecord, Run, Inv;
  }

  lemma WaitIsEarlier(i: nat)
    requires CallAt(i).op.Wait?
    ensures CallAt(i).op.event.Consumed? ==> i == ReuseCall(CallAt(i).op.event.window)
    ensures CallAt(i).op.event.Prepared? ==> CallAt(i).stream.Main?
    ensures CallAt(0).stream.Main?
  {
    match CallAt(i).op.event
    case Fork =>
    case Prepared(w) => PreparedAt(i, w);
    case Consumed(w) => ConsumedAt(i, w);
  }
}
