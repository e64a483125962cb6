/** The cadence of prefill-only and decode-only turns, and the bridge that composes it with the fair prefill queue. */
module Cadence {
  type Id = nat

  const THINK_START := 154841
  const THINK_END := 154842

  datatype Option<T> = None | Some(value: T)

  /** A running request. clean: no encoder inputs, no placeholders and no stale output in flight. */
  datatype Request = Request(id: Id, prefilling: bool, runs: bool, clean: bool, tokens: int, prompt: int, computed: int,
                             promptIds: seq<int>, output: seq<int>)

  /** What a turn sees: the running requests, and whether any request waits. */
  datatype View = View(running: seq<Request>, waiters: bool)

  /** At most one of the two selectors is on. */
  datatype Settings = Settings(firstTokenRepay: bool, burst: nat)

  datatype Phase = Mixed | PrefillOnly | DecodeOnly
  datatype Reason = Initial | NoPair | RepayOffer | FirstToken | FirstContent | KnownPrefill

  datatype State = State(owed: set<Id>, allowed: Option<set<Id>>, phase: Phase, reason: Reason, decoders: set<Id>,
                         known: set<Id>, firstDebt: set<Id>, burstOwed: map<Id, nat>, burstRun: nat)

  predicate Thinking(r: Request) {
    |r.promptIds| > 0 && r.promptIds[|r.promptIds| - 1] == THINK_START
  }

  /** A token follows the first end-of-thinking token. */
  predicate HasContent(output: seq<int>) {
    |output| > 0 && if output[0] == THINK_END then |output| > 1 else HasContent(output[1..])
  }

  method ScanContent(output: seq<int>) returns (found: bool)
    ensures found == HasContent(output)
  {
    var i := 0;
    while i < |output|
      invariant 0 <= i <= |output| && HasContent(output[i..]) == HasContent(output)
    {
      if output[i] == THINK_END {
        return i < |output| - 1;
      }
      assert output[i..][1..] == output[i + 1..];
      i := i + 1;
    }
    found := false;
  }

  function DecoderIds(v: View): set<Id> {
    set r | r in v.running && !r.prefilling :: r.id
  }

  predicate PrefillRuns(v: View) {
    exists r :: r in v.running && r.prefilling
  }

  function Prefills(rs: seq<Request>): (ps: seq<Request>)
    ensures forall r :: r in ps <==> r in rs && r.prefilling
  {
    if |rs| == 0 then []
    else
      assert rs == [rs[0]] + rs[1..];
      (if rs[0].prefilling then [rs[0]] else []) + Prefills(rs[1..])
  }

  /** A decoder with this id shows content. */
  predicate Shows(v: View, id: Id) {
    exists r :: r in v.running && r.id == id && HasContent(r.output)
  }

  predicate Thinks(v: View, id: Id) {
    exists r :: r in v.running && r.id == id && Thinking(r) && !HasContent(r.output)
  }

  /** Newly started decoders join the debts; settled ones leave. */
  function Tracked(c: Settings, st: State, v: View): State {
    var decoders := DecoderIds(v);
    var started := decoders - st.known;
    st.(known := decoders,
        firstDebt := if c.firstTokenRepay then st.firstDebt * decoders + started else st.firstDebt,
        burstOwed := if c.burst == 0 then st.burstOwed
                     else
                       (map id | id in st.burstOwed && id in decoders && st.burstOwed[id] < c.burst && !Shows(v, id)
                          :: st.burstOwed[id])
                       + (map id | id in started && Thinks(v, id) :: 0),
        burstRun := if c.burst > 0 && !PrefillRuns(v) then 0 else st.burstRun)
  }

  /** The one running prefill is an admitted original prompt whose next chunk cannot be its last. */
  predicate KnownNonfinal(v: View, cap: int) {
    var ps := Prefills(v.running);
    && |ps| == 1
    && ps[0].runs && ps[0].tokens == ps[0].prompt && ps[0].computed > 0 && ps[0].computed + cap < ps[0].prompt
    && (forall r :: r in v.running ==> r.clean)
  }

  function Begun(c: Settings, st0: State, v: View, cap: int): State {
    var decoders := DecoderIds(v);
    var st1 := st0.(allowed := None, phase := Mixed, reason := NoPair, decoders := decoders,
      owed := st0.owed * decoders);
    var st := if c.firstTokenRepay || c.burst > 0 then Tracked(c, st1, v) else st1;
    if st.owed != {} then st.(phase := DecodeOnly, reason := RepayOffer, allowed := Some(decoders))
    else if decoders == {} || v.waiters || !KnownNonfinal(v, cap) then st
    else if st.firstDebt != {} then st.(phase := DecodeOnly, reason := FirstToken, allowed := Some(decoders))
    else if st.burstOwed != map[] && st.burstRun < c.burst
      then st.(phase := DecodeOnly, reason := FirstContent, allowed := Some(decoders))
    else st.(phase := PrefillOnly, reason := KnownPrefill, allowed := Some({Prefills(v.running)[0].id}))
  }

  predicate Got(counts: map<Id, int>, id: Id) {
    id in counts && counts[id] > 0
  }

  function Paid(counts: map<Id, int>, s: set<Id>): set<Id> {
    set id | id in s && Got(counts, id)
  }

  function Observed(c: Settings, st: State, counts: map<Id, int>): State {
    st.(owed := if st.phase.PrefillOnly? then st.decoders
      else if st.phase.DecodeOnly? then st.owed - Paid(counts, st.owed) else st.owed,
        firstDebt := if !c.firstTokenRepay then st.firstDebt
                     else if st.reason.FirstToken? then {}
                     else if !st.phase.PrefillOnly? then st.firstDebt - Paid(counts, st.firstDebt * st.decoders)
                     else st.firstDebt,
        burstRun := if c.burst == 0 then st.burstRun
                    else if st.reason.FirstContent? then st.burstRun + 1
                    else if st.phase.PrefillOnly? then 0 else st.burstRun,
        burstOwed := if c.burst > 0 && st.reason.FirstContent? then map id | id in st.burstOwed ::
          st.burstOwed[id] + 1 else st.burstOwed)
  }

  function LimitOf(st: State, id: Id, count: int): int {
    if st.allowed.None? || id in st.allowed.value then count else 0
  }

  // ---- runs ----

  datatype Turn = Turn(view: View, cap: int, counts: map<Id, int>)

  function Next(c: Settings, st: State, t: Turn): State {
    Observed(c, Begun(c, st, t.view, t.cap), t.counts)
  }

  ghost predicate Unpaid(c: Settings, st: State, turns: seq<Turn>, d: Id)
    decreases |turns|
  {
    |turns| > 0 ==>
      d in DecoderIds(turns[0].view) && !Got(turns[0].counts, d) && Unpaid(c, Next(c, st, turns[0]), turns[1..], d)
  }

  ghost predicate AllDecodeOnly(c: Settings, st: State, turns: seq<Turn>)
    decreases |turns|
  {
    |turns| > 0 ==>
      Begun(c, st, turns[0].view, turns[0].cap).phase.DecodeOnly? && AllDecodeOnly(c, Next(c, st, turns[0]), turns[1..])
  }

  lemma TrackedKeeps(c: Settings, st: State, v: View)
    ensures var t := Tracked(c, st, v);
      t.owed == st.owed && t.decoders == st.decoders && t.phase == st.phase && t.reason == st.reason
    ensures var t := Tracked(c, st, v);
      c.firstTokenRepay ==>
        t.known == DecoderIds(v) && t.firstDebt == st.firstDebt * DecoderIds(v) + (DecoderIds(v) - st.known)
    ensures PrefillRuns(v) ==> Tracked(c, st, v).burstRun == st.burstRun
  {
  }

  lemma OwedStep(c: Settings, st: State, t: Turn, d: Id)
    requires d in st.owed && d in DecoderIds(t.view) && !Got(t.counts, d)
    ensures Begun(c, st, t.view, t.cap).phase.DecodeOnly? && d in Next(c, st, t).owed
  {
    var decoders := DecoderIds(t.view);
    var st1 := st.(allowed := None, phase := Mixed, reason := NoPair, decoders := decoders, owed := st.owed * decoders);
    TrackedKeeps(c, st1, t.view);
    hide Tracked, DecoderIds, KnownNonfinal, Got;
    assert d in Begun(c, st, t.view, t.cap).owed;
  }

  /** A decoder that is owed a turn keeps the run decode-only as long as it is a decoder and gets nothing. */
  lemma {:induction false} OwedKeepsDecoding(c: Settings, st: State, turns: seq<Turn>, d: Id)
    requires d in st.owed && Unpaid(c, st, turns, d)
    ensures AllDecodeOnly(c, st, turns)
    decreases |turns|
  {
    if |turns| > 0 {
      OwedStep(c, st, turns[0], d);
      hide Begun, Next, DecoderIds, Got;
      OwedKeepsDecoding(c, Next(c, st, turns[0]), turns[1..], d);
    }
  }

  /** After a prefill-only turn every turn is decode-only until each decoder of that turn got tokens or stopped being
      one. */
  lemma PrefillIsRepaid(c: Settings, st: State, first: Turn, turns: seq<Turn>, d: Id)
    requires Begun(c, st, first.view, first.cap).phase.PrefillOnly? && d in DecoderIds(first.view)
    requires Unpaid(c, Next(c, st, first), turns, d)
    ensures AllDecodeOnly(c, Next(c, st, first), turns)
  {
    OwedKeepsDecoding(c, Next(c, st, first), turns, d);
  }

  /** No decoder appears during the turns that was not one the turn before. */
  ghost predicate NoNewDecoder(before: set<Id>, turns: seq<Turn>)
    decreases |turns|
  {
    |turns| > 0 ==> DecoderIds(turns[0].view) <= before && NoNewDecoder(DecoderIds(turns[0].view), turns[1..])
  }

  ghost predicate NoFirstToken(c: Settings, st: State, turns: seq<Turn>)
    decreases |turns|
  {
    |turns| > 0 ==>
      !Begun(c, st, turns[0].view, turns[0].cap).reason.FirstToken?
        && NoFirstToken(c, Next(c, st, turns[0]), turns[1..])
  }

  lemma DebtStep(c: Settings, st: State, t: Turn)
    requires c.firstTokenRepay && st.firstDebt == {} && DecoderIds(t.view) <= st.known
    ensures !Begun(c, st, t.view, t.cap).reason.FirstToken?
    ensures Next(c, st, t).firstDebt == {} && Next(c, st, t).known == DecoderIds(t.view)
  {
    var decoders := DecoderIds(t.view);
    var st1 := st.(allowed := None, phase := Mixed, reason := NoPair, decoders := decoders, owed := st.owed * decoders);
    TrackedKeeps(c, st1, t.view);
    hide Tracked, DecoderIds, KnownNonfinal, Got;
    assert Begun(c, st, t.view, t.cap).firstDebt == {};
  }

  lemma {:induction false} NoDebtNoRepay(c: Settings, st: State, turns: seq<Turn>)
    requires c.firstTokenRepay && st.firstDebt == {} && NoNewDecoder(st.known, turns)
    ensures NoFirstToken(c, st, turns)
    decreases |turns|
  {
    if |turns| > 0 {
      DebtStep(c, st, turns[0]);
      hide Begun, Next, DecoderIds;
      NoDebtNoRepay(c, Next(c, st, turns[0]), turns[1..]);
    }
  }

  /** Between two first-token turns a new decoder appeared: the debt costs one turn a wave. */
  lemma OneRepayPerWave(c: Settings, st: State, first: Turn, turns: seq<Turn>)
    requires c.firstTokenRepay && Begun(c, st, first.view, first.cap).reason.FirstToken?
    requires NoNewDecoder(DecoderIds(first.view), turns)
    ensures NoFirstToken(c, Next(c, st, first), turns)
  {
    hide KnownNonfinal, Shows, Thinks, PrefillRuns, DecoderIds;
    NoDebtNoRepay(c, Next(c, st, first), turns);
  }

  /** A prefill runs through all turns and none of them is prefill-only. */
  ghost predicate PrefillHeld(c: Settings, st: State, turns: seq<Turn>)
    decreases |turns|
  {
    |turns| > 0 ==>
      && PrefillRuns(turns[0].view) && !Begun(c, st, turns[0].view, turns[0].cap).phase.PrefillOnly?
      && PrefillHeld(c, Next(c, st, turns[0]), turns[1..])
  }

  ghost function Bursts(c: Settings, st: State, turns: seq<Turn>): nat
    decreases |turns|
  {
    if |turns| == 0 then 0
    else
      (if Begun(c, st, turns[0].view, turns[0].cap).reason.FirstContent? then 1 else 0)
      + Bursts(c, Next(c, st, turns[0]), turns[1..])
  }

  lemma BurstStep(c: Settings, st: State, t: Turn)
    requires c.burst > 0 && PrefillRuns(t.view) && !Begun(c, st, t.view, t.cap).phase.PrefillOnly?
      && st.burstRun <= c.burst
    ensures Next(c, st, t).burstRun
      == st.burstRun + (if Begun(c, st, t.view, t.cap).reason.FirstContent? then 1 else 0) <= c.burst
  {
    var decoders := DecoderIds(t.view);
    var st1 := st.(allowed := None, phase := Mixed, reason := NoPair, decoders := decoders, owed := st.owed * decoders);
    TrackedKeeps(c, st1, t.view);
    hide Tracked, DecoderIds, KnownNonfinal, Got, PrefillRuns;
  }

  /** While a prefill runs, at most N first-content turns fall between two prefill-only turns. */
  lemma {:induction false} BurstIsBounded(c: Settings, st: State, turns: seq<Turn>)
    requires c.burst > 0 && PrefillHeld(c, st, turns) && st.burstRun <= c.burst
    ensures Bursts(c, st, turns) <= c.burst - st.burstRun
    decreases |turns|
  {
    if |turns| > 0 {
      BurstStep(c, st, turns[0]);
      hide Begun, Next, PrefillRuns;
      BurstIsBounded(c, Next(c, st, turns[0]), turns[1..]);
    }
  }

  /** The run counter never passes the setting, and no decoder is counted past it. */
  ghost predicate Capped(c: Settings, st: State) {
    st.burstRun <= c.burst && forall id :: id in st.burstOwed ==> st.burstOwed[id] <= c.burst
  }

  lemma NextCapped(c: Settings, st: State, t: Turn)
    requires Capped(c, st) && (c.burst == 0 ==> st.burstOwed == map[])
    ensures Capped(c, Next(c, st, t)) && (c.burst == 0 ==> Next(c, st, t).burstOwed == map[])
  {
    hide KnownNonfinal, Thinks, DecoderIds, Shows, PrefillRuns, Got;
  }

  /** A turn the cadence makes decode-only schedules no prefill, and one it makes prefill-only no decoder. */
  lemma TurnsAreExclusive(c: Settings, st: State, v: View, cap: int, r: Request, count: int)
    requires r in v.running && forall x, y :: x in v.running && y in v.running && x.id == y.id ==> x == y
    ensures var b := Begun(c, st, v, cap);
      && (b.phase.DecodeOnly? ==> LimitOf(b, r.id, count) == if r.prefilling then 0 else count)
      && (b.phase.PrefillOnly? ==> LimitOf(b, r.id, count) == if r.prefilling then count else 0)
      && (b.phase.Mixed? ==> LimitOf(b, r.id, count) == count)
  {
    var b := Begun(c, st, v, cap);
    if b.phase.DecodeOnly? {
      assert b.allowed == Some(DecoderIds(v));
      assert r.id in DecoderIds(v) <==> !r.prefilling;
    } else if b.phase.PrefillOnly? {
      var ps := Prefills(v.running);
      assert ps[0] in v.running && (r.prefilling ==> r in ps);
    }
  }

  // ---- the object ----

  class SplitCadence {
    const settings: Settings
    var owedDecode: set<Id>
    var allowed: Option<set<Id>>
    var phase: Phase
    var reason: Reason
    var decoderIds: set<Id>
    var knownDecoders: set<Id>
    var firstDebt: set<Id>
    var burstOwed: map<Id, nat>
    var burstRun: nat

    function Now(): State
      reads this
    {
      State(owedDecode, allowed, phase, reason, decoderIds, knownDecoders, firstDebt, burstOwed, burstRun)
    }

    constructor (settings: Settings)
      ensures this.settings == settings && Now() == State({}, None, Mixed, Initial, {}, {}, {}, map[], 0)
    {
      this.settings := settings;
      owedDecode, allowed, phase, reason, decoderIds, knownDecoders, firstDebt, burstOwed, burstRun := {}, None, Mixed,
        Initial, {}, {}, {}, map[], 0;
    }

    method TrackNewDecoders(v: View)
      requires decoderIds == DecoderIds(v)
      modifies this`knownDecoders, this`firstDebt, this`burstOwed, this`burstRun
      ensures Now() == Tracked(settings, old(Now()), v)
    {
      var started := decoderIds - knownDecoders;
      knownDecoders := decoderIds;
      if settings.firstTokenRepay {
        firstDebt := firstDebt * decoderIds;
        firstDebt := firstDebt + started;
      }
      if settings.burst > 0 {
        burstOwed := map id | id in burstOwed && id in decoderIds && burstOwed[id] < settings.burst && !Shows(v, id) ::
          burstOwed[id];
        burstOwed := burstOwed + (map id | id in started && Thinks(v, id) :: 0);
        if !PrefillRuns(v) {
          burstRun := 0;
        }
      }
    }

    /** Chooses the phase of a turn. */
    method Begin(v: View, cap: int)
      modifies this
      ensures Now() == Begun(settings, old(Now()), v, cap)
    {
      allowed, phase, reason := None, Mixed, NoPair;
      decoderIds := DecoderIds(v);
      owedDecode := owedDecode * decoderIds;
      if settings.firstTokenRepay || settings.burst > 0 {
        TrackNewDecoders(v);
      }
      if owedDecode != {} {
        phase, reason, allowed := DecodeOnly, RepayOffer, Some(decoderIds);
        return;
      }
      if decoderIds == {} || v.waiters {
        return;
      }
      if !KnownNonfinal(v, cap) {
        return;
      }
      if firstDebt != {} {
        phase, reason, allowed := DecodeOnly, FirstToken, Some(decoderIds);
        return;
      }
      if burstOwed != map[] && burstRun < settings.burst {
        phase, reason, allowed := DecodeOnly, FirstContent, Some(decoderIds);
        return;
      }
      phase, reason, allowed := PrefillOnly, KnownPrefill, Some({Prefills(v.running)[0].id});
    }

    method Limit(id: Id, count: int) returns (limit: int)
      ensures limit == LimitOf(Now(), id, count)
    {
      limit := if allowed.None? || id in allowed.value then count else 0;
    }

    /** Settles the turn by what was scheduled. */
    method Observe(counts: map<Id, int>)
      modifies this`owedDecode, this`firstDebt, this`burstOwed, this`burstRun
      ensures Now() == Observed(settings, old(Now()), counts)
    {
      if phase.PrefillOnly? {
        owedDecode := decoderIds;
      } else if phase.DecodeOnly? {
        owedDecode := owedDecode - Paid(counts, owedDecode);
      }
      if settings.firstTokenRepay {
        if reason.FirstToken? {
          firstDebt := {};
        } else if !phase.PrefillOnly? {
          firstDebt := firstDebt - Paid(counts, firstDebt * decoderIds);
        }
      }
      if settings.burst > 0 {
        if reason.FirstContent? {
          burstRun := burstRun + 1;
          burstOwed := map id | id in burstOwed :: burstOwed[id] + 1;
        } else if phase.PrefillOnly? {
          burstRun := 0;
        }
      }
    }
  }
}
