/** The scheduler bridge: the cadence decides the kind of a turn, the fair queue its grants. */
module Bridge {
  import C = Cadence
  import F = FairPrefill

  /** One turn of the scheduler. Running requests have no ready flag of their own: only waiting ones use it. */
  datatype View = View(
    running: seq<C.Request>,
    skippedWaiting: seq<F.Request>,
    waiting: seq<F.Request>,
    maxRunning: int,
    streaming: int,
    specTokens: nat,
    draftSlots: nat,
    maxBatched: int,
    maxScheduled: int)

  function ForCadence(v: View): C.View {
    C.View(v.running, |v.waiting| > 0 || |v.skippedWaiting| > 0)
  }

  function AsFair(r: C.Request): F.Request {
    F.Request(r.id, r.computed, r.prompt, r.tokens, r.prefilling, false)
  }

  function ForFair(v: View): F.View {
    F.View(seq(|v.running|, i requires 0 <= i < |v.running| => AsFair(v.running[i])), v.skippedWaiting, v.waiting,
           v.maxRunning, v.streaming, v.specTokens, v.draftSlots, v.maxBatched, v.maxScheduled)
  }

  datatype Turn = Turn(view: View, cap: int, counts: map<F.Id, int>)

  datatype Both = Both(cadence: C.State, fair: F.Fair)

  function Reserve(st: C.State, v: View): int {
    |st.decoders| * (v.specTokens + 1)
  }

  /** The turn the fair queue sees. */
  function FairTurn(c: C.Settings, st: Both, t: Turn): F.Turn {
    var begun := C.Begun(c, st.cadence, ForCadence(t.view), t.cap);
    if begun.phase.DecodeOnly? then F.DecodeOnly(Reserve(begun, t.view)) else F.Mixed(ForFair(t.view), t.cap, t.counts)
  }

  function Next(block: int, c: C.Settings, st: Both, t: Turn): Both
    requires block > 0 && F.CapOk(block, t.cap)
  {
    Both(C.Next(c, st.cadence, C.Turn(ForCadence(t.view), t.cap, t.counts)), F.Next(block, st.fair, FairTurn(c, st, t)))
  }

  function After(block: int, c: C.Settings, st: Both, turns: seq<Turn>): Both
    requires block > 0 && forall i :: 0 <= i < |turns| ==> F.CapOk(block, turns[i].cap)
    decreases |turns|
  {
    if |turns| == 0 then st else After(block, c, Next(block, c, st, turns[0]), turns[1..])
  }

  /** A decode-only turn leaves the fair queue and the debts exactly as they were and offers no prefill anything. */
  lemma DecodeTurnKeepsFair(block: int, c: C.Settings, st: Both, t: Turn)
    requires block > 0 && F.CapOk(block, t.cap) && C.Begun(c, st.cadence, ForCadence(t.view), t.cap).phase.DecodeOnly?
    ensures var next := Next(block, c, st, t);
      && next.fair.queue == st.fair.queue && next.fair.deferred == st.fair.deferred
      && forall id :: F.GrantOf(next.fair, id) == 0
  {
    hide C.Begun;
  }

  /** A run of decode-only turns leaves the fair queue and the debts exactly as they were and offers no prefill
      anything. */
  lemma {:induction false} DecodeRunKeepsFair(block: int, c: C.Settings, st: Both, turns: seq<Turn>)
    requires block > 0 && (forall i :: 0 <= i < |turns| ==> F.CapOk(block, turns[i].cap))
      && DecodeOnlyRun(block, c, st, turns)
    ensures var after := After(block, c, st, turns);
      && after.fair.queue == st.fair.queue && after.fair.deferred == st.fair.deferred
      && (|turns| > 0 ==> forall id :: F.GrantOf(after.fair, id) == 0)
    decreases |turns|
  {
    if |turns| > 0 {
      DecodeTurnKeepsFair(block, c, st, turns[0]);
      DecodeRunKeepsFair(block, c, Next(block, c, st, turns[0]), turns[1..]);
    }
  }

  ghost predicate DecodeOnlyRun(block: int, c: C.Settings, st: Both, turns: seq<Turn>)
    requires block > 0 && forall i :: 0 <= i < |turns| ==> F.CapOk(block, turns[i].cap)
    decreases |turns|
  {
    |turns| > 0 ==>
      && C.Begun(c, st.cadence, ForCadence(turns[0].view), turns[0].cap).phase.DecodeOnly?
      && DecodeOnlyRun(block, c, Next(block, c, st, turns[0]), turns[1..])
  }

  /** x waits through a run of bridged turns, as far as the fair queue sees them. */
  ghost predicate Starves(block: int, c: C.Settings, st: Both, turns: seq<Turn>, x: F.Id)
    requires block > 0 && forall i :: 0 <= i < |turns| ==> F.CapOk(block, turns[i].cap)
    decreases |turns|
  {
    |turns| > 0 ==>
      F.WaitsOn(block, st.fair, FairTurn(c, st, turns[0]), x)
        && Starves(block, c, Next(block, c, st, turns[0]), turns[1..], x)
  }

  /** Contended turns of a bridged run: neither decode-only nor with a single prefill and no decoder. */
  function Offers(block: int, c: C.Settings, st: Both, turns: seq<Turn>): nat
    requires block > 0 && forall i :: 0 <= i < |turns| ==> F.CapOk(block, turns[i].cap)
    decreases |turns|
  {
    if |turns| == 0 then 0
    else
      (if F.Contends(FairTurn(c, st, turns[0])) then 1 else 0)
      + Offers(block, c, Next(block, c, st, turns[0]), turns[1..])
  }

  /** The composition starves nobody: the cadence's decode-only turns cost a waiting long prefill none of its turns. */
  lemma {:induction false} NoStarvation(block: int, c: C.Settings, st: Both, turns: seq<Turn>, x: F.Id)
    requires block > 0 && forall i :: 0 <= i < |turns| ==> F.CapOk(block, turns[i].cap)
    requires F.Distinct(st.fair.queue) && x in st.fair.queue && Starves(block, c, st, turns, x)
    ensures Offers(block, c, st, turns) <= F.Ahead(st.fair.queue, x) + if x in st.fair.deferred then 0 else 1
    decreases |turns|
  {
    var fairs := FairTurns(block, c, st, turns);
    hide C.Begun, C.Observed, F.Planned, F.Observed, F.WaitsOn, FairTurn;
    SameRun(block, c, st, turns, x);
    F.NoStarvation(block, st.fair, fairs, x);
  }

  function FairTurns(block: int, c: C.Settings, st: Both, turns: seq<Turn>): seq<F.Turn>
    requires block > 0 && forall i :: 0 <= i < |turns| ==> F.CapOk(block, turns[i].cap)
    decreases |turns|
  {
    if |turns| == 0 then []
      else [FairTurn(c, st, turns[0])] + FairTurns(block, c, Next(block, c, st, turns[0]), turns[1..])
  }

  lemma {:induction false} SameRun(block: int, c: C.Settings, st: Both, turns: seq<Turn>, x: F.Id)
    requires block > 0 && forall i :: 0 <= i < |turns| ==> F.CapOk(block, turns[i].cap)
    requires Starves(block, c, st, turns, x)
    ensures F.Starves(block, st.fair, FairTurns(block, c, st, turns), x)
    ensures F.ContendedTurns(FairTurns(block, c, st, turns)) == Offers(block, c, st, turns)
    decreases |turns|
  {
    if |turns| > 0 {
      hide C.Begun, C.Observed, F.Planned, F.Observed, F.WaitsOn, FairTurn, F.Next, C.Next;
      SameRun(block, c, Next(block, c, st, turns[0]), turns[1..], x);
      assert FairTurns(block, c, st, turns)[1..] == FairTurns(block, c, Next(block, c, st, turns[0]), turns[1..]);
    }
  }

  // ---- the object ----

  class SchedulerBridge {
    const cadence: C.SplitCadence
    const fair: F.FairPrefill

    ghost predicate Valid()
      reads this, fair
    {
      fair.Valid()
    }

    ghost function State(): Both
      reads this, cadence, fair
    {
      Both(cadence.Now(), fair.State())
    }

    constructor (settings: C.Settings, block: int)
      requires block > 0
      ensures Valid() && fair.block == block && cadence.settings == settings && fresh(cadence) && fresh(fair)
    {
      cadence := new C.SplitCadence(settings);
      fair := new F.FairPrefill(block);
    }

    /** The start of a turn: begin the cadence, then defer or plan. */
    method OrderRunning(v: View, cap: int)
      requires Valid() && F.CapOk(fair.block, cap) && F.Distinct(F.Ids(F.Prefills(ForFair(v))))
      modifies cadence, fair
      ensures Valid() && cadence.Now() == C.Begun(cadence.settings, old(cadence.Now()), ForCadence(v), cap)
      ensures fair.State() == if cadence.phase.DecodeOnly?
        then F.DecodeTurn(old(fair.State()), Reserve(cadence.Now(), v))
                              else F.Planned(fair.block, old(fair.State()), ForFair(v), cap)
    {
      cadence.Begin(v := ForCadence(v), cap := cap);
      if cadence.phase.DecodeOnly? {
        fair.DeferForDecode(|cadence.decoderIds| * (v.specTokens + 1));
        return;
      }
      var ok := fair.Plan(ForFair(v), cap);
    }

    /** The end of a turn: the fair queue does not observe a decode-only turn. */
    method Select(counts: map<F.Id, int>)
      requires Valid()
      modifies cadence, fair
      ensures Valid() && cadence.Now() == C.Observed(cadence.settings, old(cadence.Now()), counts)
      ensures fair.State() == if old(cadence.phase).DecodeOnly? then old(fair.State())
        else F.Observed(old(fair.State()), counts)
    {
      cadence.Observe(counts);
      if !cadence.phase.DecodeOnly? {
        fair.Observe(counts);
      }
    }

    /** One whole turn. */
    method RunTurn(t: Turn)
      requires Valid() && F.CapOk(fair.block, t.cap) && F.Distinct(F.Ids(F.Prefills(ForFair(t.view))))
      modifies cadence, fair
      ensures Valid() && State() == Next(fair.block, cadence.settings, old(State()), t)
      ensures cadence.phase.DecodeOnly? ==>
        fair.queue == old(fair.queue) && fair.deferredLong == old(fair.deferredLong) && fair.grants == F.Some(map[])
    {
      OrderRunning(t.view, t.cap);
      Select(t.counts);
    }
  }
}
