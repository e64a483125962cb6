/** The two-stream pipeline of a prefill call: prepare kernels on a side stream fill one half of a record ring while the
    recurrence kernels on the main stream read the other, and events recorded and waited on by the host order them. */
module KdaPipeline {
  import opened KdaWindows

  datatype Stream = Main | Side
  datatype Event = Fork | Prepared(window: nat) | Consumed(window: nat)
  datatype Op = Record(event: Event) | Wait(event: Event) | Prepare(window: nat) | Recur(window: nat)
  datatype Issued = Issued(stream: Stream, op: Op)

  // ---- the host ----

  /** The i-th call the host makes. */
  function CallAt(i: nat): Issued {
    if i == 0 then Issued(Main, Record(Fork))
    else if i == 1 then Issued(Side, Wait(Fork))
    else if i == 2 then Issued(Side, Prepare(0))
    else if i == 3 then Issued(Side, Record(Prepared(0)))
    else if i == 4 then Issued(Main, Wait(Prepared(0)))
    else if i == 5 then Issued(Main, Recur(0))
    else if i == 6 then Issued(Main, Record(Consumed(0)))
    else if i == 7 then Issued(Side, Prepare(1))
    else if i == 8 then Issued(Side, Record(Prepared(1)))
    else
      var w: nat := (i - 3) / 6;
      match (i - 3) % 6
      case 0 => Issued(Main, Wait(Prepared(w)))
      case 1 => Issued(Main, Recur(w))
      case 2 => Issued(Main, Record(Consumed(w)))
      case 3 => Issued(Side, Wait(Consumed(w - 1)))
      case 4 => Issued(Side, Prepare(w + 1))
      case _ => Issued(Side, Record(Prepared(w + 1)))
  }

  /** Number of calls the host makes for n windows. */
  function Calls(n: nat): nat {
    if n <= 1 then 7 else 6 * n
  }

  method EnqueuePrepare(calls: seq<Issued>, window: nat) returns (more: seq<Issued>)
    requires |calls| == if window == 0 then 2 else Calls(window)
    requires forall i :: 0 <= i < |calls| ==> calls[i] == CallAt(i)
    ensures |more| == if window == 0 then 4 else if window == 1 then 9 else 6 * window + 3
    ensures forall i :: 0 <= i < |more| ==> more[i] == CallAt(i)
  {
    more := calls;
    if window >= 2 {
      more := more + [Issued(Side, Wait(Consumed(window - 2)))];
    }
    more := more + [Issued(Side, Prepare(window))];
    more := more + [Issued(Side, Record(Prepared(window)))];
  }

  /** The host's loop over the windows. */
  method RunPrefill(launched: nat) returns (calls: seq<Issued>)
    requires launched >= 1
    ensures |calls| == Calls(launched) && forall i :: 0 <= i < |calls| ==> calls[i] == CallAt(i)
  {
    calls := [Issued(Main, Record(Fork)), Issued(Side, Wait(Fork))];
    calls := EnqueuePrepare(calls, 0);
    var window := 0;
    while window < launched
      invariant 0 <= window <= launched
      invariant |calls| == if window == launched then Calls(launched) else if window == 0 then 4 else 6 * window + 3
      invariant forall i :: 0 <= i < |calls| ==> calls[i] == CallAt(i)
    {
      calls := calls + [Issued(Main, Wait(Prepared(window)))];
      calls := calls + [Issued(Main, Recur(window))];
      calls := calls + [Issued(Main, Record(Consumed(window)))];
      if window + 1 < launched {
        calls := EnqueuePrepare(calls, window + 1);
      }
      window := window + 1;
    }
  }

  function PrepareCall(w: nat): nat { if w == 0 then 2 else 6 * w + 1 }
  function RecurCall(w: nat): nat { if w == 0 then 5 else 6 * w + 4 }
  function ReuseCall(w: nat): nat { 6 * w + 12 }

  /** The record a wait issued as call i refers to: the latest one issued before it, or -1. */
  function LatestRecord(i: nat, e: Event): (j: int)
    ensures -1 <= j < i
  {
    if i == 0 then -1 else if CallAt(i - 1).op == Record(e) then i - 1 else LatestRecord(i - 1, e)
  }

  lemma {:induction false} LatestRecordIs(i: nat, j: nat, e: Event)
    requires j < i && CallAt(j).op == Record(e)
    requires forall k :: j < k < i ==> CallAt(k).op != Record(e)
    ensures LatestRecord(i, e) == j
  {
    if j < i - 1 { LatestRecordIs(i - 1, j, e); }
  }

  /** Every event the host makes a stream wait on was recorded before, and by the stream that produces it. */
  lemma WaitsAreRecorded(i: nat)
    requires CallAt(i).op.Wait?
    ensures var j, e := LatestRecord(i, CallAt(i).op.event), CallAt(i).op.event;
      && 0 <= j < i
      && (e.Fork? ==> j == 0)
      && (e.Prepared? ==> j == PrepareCall(e.window) + 1 && CallAt(j).stream.Side?)
      && (e.Consumed? ==> j == RecurCall(e.window) + 1 && CallAt(j).stream.Main?)
  {
    match CallAt(i).op.event
    case Fork => LatestRecordIs(i, 0, Fork);
    case Prepared(w) => PreparedRecord(i, w);
    case Consumed(w) => ConsumedRecord(i, w);
  }

  lemma PreparedRecord(i: nat, w: nat)
    requires CallAt(i).op == Wait(Prepared(w))
    ensures i == RecurCall(w) - 1 && LatestRecord(i, Prepared(w)) == PrepareCall(w) + 1
    ensures CallAt(PrepareCall(w) + 1) == Issued(Side, Record(Prepared(w)))
  {
    forall k: nat { PreparedAt(k, w); }
    hide CallAt;
    LatestRecordIs(i, PrepareCall(w) + 1, Prepared(w));
  }

  lemma PreparedAt(k: nat, w: nat)
    ensures CallAt(k).op == Record(Prepared(w)) <==> k == PrepareCall(w) + 1
    ensures CallAt(k).op == Wait(Prepared(w)) ==> k == RecurCall(w) - 1
    ensures k == PrepareCall(w) + 1 ==> CallAt(k).stream.Side?
  {
  }

  lemma ConsumedRecord(i: nat, w: nat)
    requires CallAt(i).op == Wait(Consumed(w))
    ensures i == ReuseCall(w) && LatestRecord(i, Consumed(w)) == RecurCall(w) + 1
    ensures CallAt(RecurCall(w) + 1) == Issued(Main, Record(Consumed(w)))
  {
    forall k: nat { ConsumedAt(k, w); }
    hide CallAt;
    LatestRecordIs(i, RecurCall(w) + 1, Consumed(w));
  }

  lemma ConsumedAt(k: nat, w: nat)
    ensures CallAt(k).op == Record(Consumed(w)) <==> k == RecurCall(w) + 1
    ensures CallAt(k).op == Wait(Consumed(w)) ==> k == ReuseCall(w)
    ensures k == RecurCall(w) + 1 ==> CallAt(k).stream.Main?
  {
  }

  // ---- the streams ----

  /** A record of the ring: the tile it was prepared from and the published flag. */
  datatype Cell = Cell(sequence: int, local: int, flag: int)

  /** The call's tables of what lies at each position. */
  datatype Positions = Positions(windowTiles: nat, posSeq: seq<int>, posLocal: seq<int>)

  /** How far the host and the two streams are; busy tells that the kernel under a stream's cursor is running, written
      which tiles the running prepare kernel has published. */
  datatype State = State(host: nat, main: nat, side: nat, mainBusy: bool, sideBusy: bool, written: set<nat>,
    ring: seq<Cell>)

  datatype Action = Issue | Pass(stream: Stream) | Start(stream: Stream) | Publish(tile: nat) | Finish(stream: Stream)

  function Cursor(st: State, s: Stream): nat {
    if s.Main? then st.main else st.side
  }

  function Busy(st: State, s: Stream): bool {
    if s.Main? then st.mainBusy else st.sideBusy
  }

  predicate Executed(st: State, j: int) {
    j < 0 || Cursor(st, CallAt(j).stream) > j
  }

  predicate Enabled(p: Positions, n: nat, st: State, a: Action) {
    match a
    case Issue => st.host < Calls(n)
    case Pass(s) =>
      var i := Cursor(st, s);
      && i < st.host && !Busy(st, s)
      && (CallAt(i).stream == s ==>
            CallAt(i).op.Record? || (CallAt(i).op.Wait? && Executed(st, LatestRecord(i, CallAt(i).op.event))))
    case Start(s) =>
      var i := Cursor(st, s);
      i < st.host && !Busy(st, s) && CallAt(i).stream == s && (CallAt(i).op.Prepare? || CallAt(i).op.Recur?)
    case Publish(t) => st.sideBusy && t < p.windowTiles && t !in st.written
    case Finish(s) => Busy(st, s) && (s.Side? ==> forall t: nat :: t < p.windowTiles ==> t in st.written)
  }

  function Half(p: Positions, w: nat): nat {
    if w % 2 == 0 then 0 else p.windowTiles
  }

  /** What the prepare kernel publishes for a tile of a window, when there is one at that position. */
  function Prepares(p: Positions, w: nat, t: nat): Cell
    requires HasTile(p, w, t)
  {
    var at := w * p.windowTiles + t;
    Cell(p.posSeq[at], p.posLocal[at], w + 1)
  }

  predicate HasTile(p: Positions, w: nat, t: nat) {
    var at := w * p.windowTiles + t;
    at < |p.posSeq| && at < |p.posLocal| && p.posSeq[at] >= 0
  }

  predicate Fits(p: Positions, st: State) {
    |st.ring| == 2 * p.windowTiles
  }

  function SideWindow(st: State): nat
    requires CallAt(st.side).op.Prepare?
  {
    CallAt(st.side).op.window
  }

  function Apply(p: Positions, n: nat, st: State, a: Action): State
    requires Enabled(p, n, st, a) && Fits(p, st) && (st.sideBusy ==> CallAt(st.side).op.Prepare?)
  {
    match a
    case Issue => st.(host := st.host + 1)
    case Pass(s) => if s.Main? then st.(main := st.main + 1) else st.(side := st.side + 1)
    case Start(s) => if s.Main? then st.(mainBusy := true) else st.(sideBusy := true, written := {})
    case Publish(t) =>
      var w := SideWindow(st);
      st.(written := st.written + {t}, ring := if HasTile(p, w, t) then st.ring[Half(p, w) + t := Prepares(p, w, t)]
        else st.ring)
    case Finish(s) =>
      if s.Main? then st.(main := st.main + 1, mainBusy := false) else st.(side := st.side + 1, sideBusy := false)
  }

  // ---- the invariant ----

  /** The prepare kernel of window w has published tile t. */
  predicate Published(st: State, w: nat, t: nat) {
    st.side > PrepareCall(w) || (st.side == PrepareCall(w) && st.sideBusy && t in st.written)
  }

  predicate Ordered(n: nat, st: State) {
    && st.main <= st.host && st.side <= st.host && st.host <= Calls(n)
    && (st.mainBusy ==> st.main < st.host && CallAt(st.main).stream.Main? && CallAt(st.main).op.Recur?)
    && (st.sideBusy ==> st.side < st.host && CallAt(st.side).stream.Side? && CallAt(st.side).op.Prepare?)
  }

  ghost predicate Waited(st: State) {
    && (forall w: nat {:trigger RecurCall(w)} :: st.main >= RecurCall(w) ==> st.side > PrepareCall(w))
    && (forall w: nat {:trigger ReuseCall(w)} :: st.side > ReuseCall(w) ==> st.main > RecurCall(w))
  }

  ghost predicate Filled(p: Positions, st: State)
    requires Fits(p, st)
  {
    forall w: nat, t: nat ::
      t < p.windowTiles && HasTile(p, w, t) && Published(st, w, t) && !Published(st, w + 2, t) ==>
      st.ring[Half(p, w) + t] == Prepares(p, w, t)
  }

  ghost predicate Inv(p: Positions, n: nat, st: State) {
    Fits(p, st) && Ordered(n, st) && Waited(st) && Filled(p, st)
  }

  ghost predicate Initial(p: Positions, st: State) {
    Fits(p, st) && st.host == st.main == st.side == 0 && !st.mainBusy && !st.sideBusy
  }

  lemma InitialInv(p: Positions, n: nat, st: State)
    requires Initial(p, st)
    ensures Inv(p, n, st)
  {
  }

  lemma StepWaited(p: Positions, n: nat, st: State, a: Action)
    requires Inv(p, n, st) && Enabled(p, n, st, a)
    ensures Waited(Apply(p, n, st, a)) && Ordered(n, Apply(p, n, st, a))
  {
    StepOrdered(p, n, st, a);
    var after := Apply(p, n, st, a);
    forall w: nat | after.main >= RecurCall(w)
      ensures after.side > PrepareCall(w)
    {
      StepPrepared(p, n, st, a, w);
    }
    forall w: nat | after.side > ReuseCall(w)
      ensures after.main > RecurCall(w)
    {
      StepConsumed(p, n, st, a, w);
    }
  }

  lemma StepOrdered(p: Positions, n: nat, st: State, a: Action)
    requires Inv(p, n, st) && Enabled(p, n, st, a)
    ensures Ordered(n, Apply(p, n, st, a)) && Apply(p, n, st, a).main >= st.main && Apply(p, n, st, a).side >= st.side
  {
    hide Filled, HasTile, LatestRecord, Waited;
    PrepareAt(st.main);
    PrepareAt(st.side);
    hide CallAt;
  }

  lemma StepPrepared(p: Positions, n: nat, st: State, a: Action, w: nat)
    requires Inv(p, n, st) && Enabled(p, n, st, a) && Apply(p, n, st, a).main >= RecurCall(w)
    ensures Apply(p, n, st, a).side > PrepareCall(w)
  {
    hide Filled, HasTile, LatestRecord;
    StepOrdered(p, n, st, a);
    RecurAfterWait(w);
    if st.main < RecurCall(w) {
      PreparedRecord(RecurCall(w) - 1, w);
    }
    hide CallAt;
  }

  lemma StepConsumed(p: Positions, n: nat, st: State, a: Action, w: nat)
    requires Inv(p, n, st) && Enabled(p, n, st, a) && Apply(p, n, st, a).side > ReuseCall(w)
    ensures Apply(p, n, st, a).main > RecurCall(w)
  {
    hide Filled, HasTile, LatestRecord;
    StepOrdered(p, n, st, a);
    hide CallAt;
    ReuseAt(w);
    if st.side <= ReuseCall(w) {
      ConsumedRecord(ReuseCall(w), w);
    }
  }

  lemma ReuseAt(w: nat)
    ensures CallAt(ReuseCall(w)) == Issued(Side, Wait(Consumed(w)))
  {
  }

  lemma RecurAfterWait(w: nat)
    ensures CallAt(RecurCall(w) - 1) == Issued(Main, Wait(Prepared(w)))
    ensures CallAt(RecurCall(w)) == Issued(Main, Recur(w)) && CallAt(PrepareCall(w)) == Issued(Side, Prepare(w))
  {
  }

  lemma PrepareAt(i: nat)
    ensures CallAt(i).op.Prepare? ==> i == PrepareCall(CallAt(i).op.window) && CallAt(i).stream.Side?
    ensures CallAt(i).op.Recur? ==> i == RecurCall(CallAt(i).op.window) && CallAt(i).stream.Main?
  {
  }

  lemma StepFilled(p: Positions, n: nat, st: State, a: Action)
    requires Inv(p, n, st) && Enabled(p, n, st, a)
    ensures Fits(p, Apply(p, n, st, a)) && Filled(p, Apply(p, n, st, a))
  {
    hide CallAt, LatestRecord, Waited, HasTile;
    PrepareAt(st.side);
    var after := Apply(p, n, st, a);
    if a.Publish? {
      PublishFills(p, n, st, a.tile);
    } else {
      forall w: nat, t: nat | t < p.windowTiles
        ensures Published(after, w, t) == Published(st, w, t)
      {
        RecurAfterWait(w);
      }
    }
  }

  lemma PublishFills(p: Positions, n: nat, st: State, t: nat)
    requires Inv(p, n, st) && Enabled(p, n, st, Publish(t))
    ensures Fits(p, Apply(p, n, st, Publish(t))) && Filled(p, Apply(p, n, st, Publish(t)))
  {
    hide CallAt, LatestRecord, Waited, HasTile, Prepares;
    PrepareAt(st.side);
    var after, w := Apply(p, n, st, Publish(t)), SideWindow(st);
    forall v: nat, u: nat | u < p.windowTiles && HasTile(p, v, u) && Published(after, v, u)
      && !Published(after, v + 2, u)
      ensures after.ring[Half(p, v) + u] == Prepares(p, v, u)
    {
      assert v <= w;
      assert v == w || v % 2 != w % 2 || u != t;
      assert (v == w && u == t) || (Published(st, v, u) && !Published(st, v + 2, u));
    }
  }

  lemma StepInv(p: Positions, n: nat, st: State, a: Action)
    requires Inv(p, n, st) && Enabled(p, n, st, a)
    ensures Inv(p, n, Apply(p, n, st, a))
  {
    StepWaited(p, n, st, a);
    StepFilled(p, n, st, a);
  }

  /** A run of the two streams. */
  ghost predicate Run(p: Positions, n: nat, states: seq<State>, steps: seq<Action>) {
    && |states| == |steps| + 1 && Initial(p, states[0])
    && (forall k :: 0 <= k < |steps| ==>
         && Fits(p, states[k]) && (states[k].sideBusy ==> CallAt(states[k].side).op.Prepare?)
         && Enabled(p, n, states[k], steps[k]) && states[k + 1] == Apply(p, n, states[k], steps[k]))
  }

  lemma {:induction false} RunInvariant(p: Positions, n: nat, states: seq<State>, steps: seq<Action>, k: nat)
    requires Run(p, n, states, steps) && k < |states|
    ensures Inv(p, n, states[k])
  {
    hide Inv, Enabled, Apply, CallAt;
    if k == 0 {
      InitialInv(p, n, states[0]);
    } else {
      RunInvariant(p, n, states, steps, k - 1);
      StepInv(p, n, states[k - 1], steps[k - 1]);
    }
  }

  /** In every interleaving, while the recurrence of a window runs its half of the ring holds exactly what the prepare
      kernel of that window made, for every tile of the window, whatever the side stream is doing. */
  lemma RecurrenceReadsItsWindow(p: Positions, n: nat, states: seq<State>, steps: seq<Action>, k: nat, w: nat, t: nat)
    requires Run(p, n, states, steps) && k < |states|
    requires states[k].mainBusy && CallAt(states[k].main).op == Recur(w) && t < p.windowTiles && HasTile(p, w, t)
    ensures Fits(p, states[k]) && states[k].ring[Half(p, w) + t] == Prepares(p, w, t)
  {
    RunInvariant(p, n, states, steps, k);
    var st := states[k];
    PrepareAt(st.main);
    hide CallAt, HasTile, Run;
    assert st.main == RecurCall(w) && st.side > PrepareCall(w);
    assert st.side > ReuseCall(w) ==> st.main > RecurCall(w);
    assert Published(st, w, t) && !Published(st, w + 2, t);
  }

  /** No half of the ring is written before the recurrence two windows back has finished with it. */
  lemma NoOverwrite(p: Positions, n: nat, states: seq<State>, steps: seq<Action>, k: nat, w: nat)
    requires Run(p, n, states, steps) && k < |states|
    requires states[k].sideBusy && CallAt(states[k].side).op == Prepare(w + 2)
    ensures states[k].main > RecurCall(w)
  {
    RunInvariant(p, n, states, steps, k);
    PrepareAt(states[k].side);
    hide CallAt, HasTile, Run;
    assert states[k].side > ReuseCall(w);
  }

  /** No deadlock: until both streams have run every call, some step is enabled. */
  lemma NeverStuck(p: Positions, n: nat, states: seq<State>, steps: seq<Action>, k: nat)
    requires Run(p, n, states, steps) && k < |states| && (states[k].main < Calls(n) || states[k].side < Calls(n))
    ensures exists a :: Enabled(p, n, states[k], a)
  {
    RunInvariant(p, n, states, steps, k);
    var st := states[k];
    hide HasTile, Run, Waited, Filled;
    if st.host < Calls(n) {
      assert Enabled(p, n, st, Issue);
    } else if st.sideBusy {
      if t: nat :| t < p.windowTiles && t !in st.written {
        assert Enabled(p, n, st, Publish(t));
      } else {
        assert Enabled(p, n, st, Finish(Side));
      }
    } else if st.mainBusy {
      assert Enabled(p, n, st, Finish(Main));
    } else {
      var s := if st.main <= st.side then Main else Side;
      LeastCursorMoves(p, n, st, s);
    }
  }

  /** The stream that is furthest behind never waits: what it waits for was recorded earlier still. */
  lemma LeastCursorMoves(p: Positions, n: nat, st: State, s: Stream)
    requires Ordered(n, st) && !st.mainBusy && !st.sideBusy && Cursor(st, s) < st.host
    requires Cursor(st, s) <= st.main && Cursor(st, s) <= st.side
    ensures Enabled(p, n, st, Pass(s)) || Enabled(p, n, st, Start(s))
  {
    var i := Cursor(st, s);
    if CallAt(i).op.Wait? {
      WaitsAreRecorded(i);
    }
    hide CallAt, LatestRecord;
  }

  // ---- the two sides of the ring meet ----

  /** The prologue's inverse tables: which tile lies at a position. */
  ghost predicate Locates<S, T>(c: Call<S, T>, p: Positions) {
    && Shaped(c) && p.windowTiles == c.windowTiles
    && |p.posSeq| == |p.posLocal| && Total(c) <= |p.posSeq|
    && (forall r, l :: 0 <= r < |c.sequences| && 0 <= l < Tau(c, r) && 0 <= Position(c, r, l) < |p.posSeq| ==>
          p.posSeq[Position(c, r, l)] == c.sortedSeq[r] && p.posLocal[Position(c, r, l)] == l)
  }

  /** The ring index the recurrence computes for a local tile of its sequence. */
  function RingIndex<S, T>(c: Call<S, T>, w: nat, r: nat, l: nat): int
    requires Shaped(c) && l <= c.tilesCapacity + 1
  {
    (w % 2) * c.windowTiles - WindowBegin(c, w) + r + c.bandBase[l]
  }

  /** For every tile a row runs in a window, the index the recurrence reads is the one the prepare kernel of that window
      writes, and the record it finds there was made from that very tile. */
  lemma RecurrenceReadsItsTile<S, T>(c: Call<S, T>, p: Positions, n: nat, states: seq<State>, steps: seq<Action>,
                                     k: nat,
                                     w: nat, r: nat, l: nat)
    requires Tables(c) && Locates(c, p) && r < |c.sequences| && Begin(c, w, r) <= l < Begin(c, w + 1, r)
      && l < Tau(c, r)
    requires Run(p, n, states, steps) && k < |states| && states[k].mainBusy && CallAt(states[k].main).op == Recur(w)
    ensures 0 <= RingIndex(c, w, r, l) < |states[k].ring|
    ensures states[k].ring[RingIndex(c, w, r, l)] == Cell(c.sortedSeq[r], l, w + 1)
  {
    hide Run, CallAt, Begin, HasTile, Prepares, Tables, Locates;
    var t := TileRecord(c, p, w, r, l);
    RecurrenceReadsItsWindow(p, n, states, steps, k, w, t);
  }

  /** Where the prepare kernel of the window puts the tile, and what it makes of it. */
  lemma TileRecord<S, T>(c: Call<S, T>, p: Positions, w: nat, r: nat, l: nat) returns (t: nat)
    requires Tables(c) && Locates(c, p) && r < |c.sequences| && Begin(c, w, r) <= l < Begin(c, w + 1, r)
      && l < Tau(c, r)
    ensures t < p.windowTiles && HasTile(p, w, t) && Prepares(p, w, t) == Cell(c.sortedSeq[r], l, w + 1)
    ensures RingIndex(c, w, r, l) == Half(p, w) + t
  {
    TileInWindow(c, w, r, l);
    t := Position(c, r, l) - WindowBegin(c, w);
    assert w * p.windowTiles + t == Position(c, r, l);
    hide Begin, Bands, WindowEntry, Tables, Locates;
    HalfOf(w, p.windowTiles);
  }

  lemma HalfOf(w: nat, n: nat)
    ensures (w % 2) * n == if w % 2 == 0 then 0 else n
  {
  }

  lemma TileInWindow<S, T>(c: Call<S, T>, w: nat, r: nat, l: nat)
    requires Tables(c) && r < |c.sequences| && Begin(c, w, r) <= l < Begin(c, w + 1, r) && l < Tau(c, r)
    ensures 0 <= Position(c, r, l) - WindowBegin(c, w) < c.windowTiles && Position(c, r, l) < Total(c)
  {
    CutAbove(c, r, WindowBegin(c, w), l);
    CutAbove(c, r, WindowBegin(c, w + 1), l);
    WindowEndsNext(c, w);
    assert r < Width(c, l);
    BasesAscend(c, l + 1, c.tilesCapacity + 1);
  }
}
