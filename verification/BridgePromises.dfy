/** What a bridged turn promises of the tokens each request may get, cadence and fair grants together. */
module BridgePromises {
  import opened Bridge
  import C = Cadence
  import F = FairPrefill
  import P = CadencePromises
  import Q = FairPromises

  /** The fair queue as the turn's limits see it. */
  function FairNow(block: int, c: C.Settings, st: Both, v: View, cap: int): F.Fair
    requires block > 0 && F.CapOk(block, cap)
  {
    var b := C.Begun(c, st.cadence, ForCadence(v), cap);
    if b.phase.DecodeOnly? then F.DecodeTurn(st.fair, Reserve(b, v)) else F.Planned(block, st.fair, ForFair(v), cap)
  }

  /** How many of count tokens a request may get: the cadence's limit, and for a prefill under a cap its grant. */
  function Limit(b: C.State, fair: F.Fair, cap: int, r: C.Request, count: int): int {
    var n := C.LimitOf(b, r.id, count);
    if cap == 0 || !r.prefilling || fair.grants.None? then n else F.Min(n, F.GrantOf(fair, r.id))
  }

  /** Requests have their own ids, in the scheduler and in the queue. */
  ghost predicate Ids(st: Both, v: View) {
    && (forall x, y :: x in v.running && y in v.running && x.id == y.id ==> x == y)
    && F.Distinct(F.Ids(F.Prefills(ForFair(v)))) && F.Distinct(st.fair.queue)
  }

  /** The request at i is the one prefill of a turn without waiters: running beside a decoder, an original prompt that
      even a whole cap leaves unfinished, nothing unusual in flight. */
  ghost predicate Alone(v: View, cap: int, i: int) {
    && v.waiting == [] && v.skippedWaiting == [] && (exists d :: d in v.running && !d.prefilling)
    && 0 <= i < |v.running| && (forall j :: 0 <= j < |v.running| ==> (v.running[j].prefilling <==> j == i))
    && v.running[i].runs && v.running[i].tokens == v.running[i].prompt
    && 0 < v.running[i].computed < v.running[i].prompt - cap
    && (forall x :: x in v.running ==> x.clean)
  }

  lemma AloneIs(v: View, cap: int, i: int)
    ensures Alone(v, cap, i) <==> P.KnownPair(ForCadence(v), cap, i)
  {
  }

  /** Without debts a bridged turn is prefill-only exactly when it has such a prefill: any waiting request keeps it
      mixed. */
  lemma PrefillTurnIsAlone(c: C.Settings, st: Both, v: View, cap: int)
    requires st.cadence.owed == {} && st.cadence.firstDebt == {} && !c.firstTokenRepay && c.burst == 0
    ensures C.Begun(c, st.cadence, ForCadence(v), cap).phase.PrefillOnly? <==> exists i :: Alone(v, cap, i)
  {
    P.BegunIs(c, st.cadence, ForCadence(v), cap);
    hide C.Begun, P.KnownPair, Alone;
    forall i
      ensures Alone(v, cap, i) <==> P.KnownPair(ForCadence(v), cap, i)
    {
      AloneIs(v, cap, i);
    }
    assert (exists i :: Alone(v, cap, i)) <==> exists i :: P.KnownPair(ForCadence(v), cap, i);
  }

  lemma AnyAlone(c: C.Settings, st: Both, v: View, cap: int) returns (i: int)
    requires C.Begun(c, st.cadence, ForCadence(v), cap).phase.PrefillOnly?
    ensures Alone(v, cap, i)
    ensures C.Begun(c, st.cadence, ForCadence(v), cap).allowed == C.Some({v.running[i].id})
  {
    i := P.LastChunkIsNeverGated(c, st.cadence, ForCadence(v), cap, cap);
    AloneIs(v, cap, i);
  }

  // ---- the limits of a turn ----

  /** A decode-only turn gives no prefill anything and holds back a full reserve; a prefill-only turn gives no decoder
      anything; a mixed one leaves decoders alone. In the last two a prefill gets at most its grant. */
  lemma TurnLimits(block: int, c: C.Settings, st: Both, v: View, cap: int, r: C.Request, count: int)
    requires block > 0 && F.CapOk(block, cap) && Ids(st, v) && r in v.running
    ensures var b, fair := C.Begun(c, st.cadence, ForCadence(v), cap), FairNow(block, c, st, v, cap);
      var n := Limit(b, fair, cap, r, count);
      var grant := if cap > 0 && fair.grants.Some? then F.Min(count, F.GrantOf(fair, r.id)) else count;
      && (b.phase.DecodeOnly? ==> n == if r.prefilling then 0 else count)
      && (b.phase.DecodeOnly? ==>
            fair.reserved == |set x | x in v.running && !x.prefilling :: x.id| * (v.specTokens + 1))
      && (b.phase.PrefillOnly? ==> n == if r.prefilling then grant else 0)
      && (b.phase.Mixed? ==> n == if r.prefilling then grant else count)
  {
    var b := C.Begun(c, st.cadence, ForCadence(v), cap);
    C.TurnsAreExclusive(c, st.cadence, ForCadence(v), cap, r, count);
    if b.phase.DecodeOnly? {
      assert b.decoders == (set x | x in v.running && !x.prefilling :: x.id) by {
        forall id
          ensures id in b.decoders <==> id in (set x | x in v.running && !x.prefilling :: x.id)
        {
          P.BegunDebts(c, st.cadence, ForCadence(v), cap, id);
        }
      }
    }
    hide C.Begun, F.Planned, ForFair;
  }

  lemma {:induction false} MemberOfSum(g: seq<int>, i: nat)
    requires i < |g| && forall j :: 0 <= j < |g| ==> g[j] >= 0
    ensures g[i] <= F.Sum(g) && 0 <= F.Sum(g)
  {
    if i > 0 {
      MemberOfSum(g[1..], i - 1);
    } else if |g| > 1 {
      MemberOfSum(g[1..], 0);
    }
  }

  /** No request of a contended turn is granted more than the cap. */
  lemma GrantWithinCap(block: int, fair: F.Fair, v: F.View, cap: int, id: F.Id)
    requires F.TurnOk(block, v, cap) && F.Contended(v) && F.Distinct(fair.queue)
    ensures F.GrantOf(F.Planned(block, fair, v, cap), id) <= cap
  {
    var order, g := F.PlannedOrder(block, fair, v, cap), F.PlannedGrants(block, fair, v, cap);
    F.PlannedQueue(block, fair, v, cap);
    F.PlannedGrantsFit(block, fair, v, cap);
    hide F.Planned, F.PlannedOrder, F.PlannedGrants, F.Contended, F.Prefills, F.GrantEnds, F.Scratch, F.Inputs,
      F.Reserved;
    if id in order {
      var i :| 0 <= i < |order| && order[i] == id;
      F.PlannedTable(block, fair, v, cap, i);
      MemberOfSum(g, i);
    }
  }

  lemma {:induction false} SomeDecoder(rs: seq<F.Request>, r: F.Request)
    requires r in rs && !r.prefilling
    ensures Q.CountRunning(rs, false) > 0
  {
    if rs[|rs| - 1] != r { SomeDecoder(rs[..|rs| - 1], r); }
  }

  lemma DecoderContends(v: View)
    requires exists d :: d in v.running && !d.prefilling
    ensures F.Contended(ForFair(v))
  {
    var i :| 0 <= i < |v.running| && !v.running[i].prefilling;
    assert ForFair(v).running[i] == AsFair(v.running[i]);
    SomeDecoder(ForFair(v).running, AsFair(v.running[i]));
    Q.DecodersAreRunning(ForFair(v));
  }

  /** Together the two policies never run a prompt's last chunk in a prefill-only turn, however many tokens the
      scheduler would like to give it; without a cap they would. */
  lemma LastChunkIsNeverRun(block: int, c: C.Settings, st: Both, v: View, cap: int) returns (i: int)
    requires block > 0 && F.CapOk(block, cap) && Ids(st, v)
    requires C.Begun(c, st.cadence, ForCadence(v), cap).phase.PrefillOnly?
    ensures Alone(v, cap, i)
    ensures var b, fair, r := C.Begun(c, st.cadence, ForCadence(v), cap), FairNow(block, c, st, v, cap), v.running[i];
      (forall count :: r.computed + Limit(b, fair, cap, r, count) < r.prompt) <==> cap > 0
  {
    i := AnyAlone(c, st, v, cap);
    var b, fair, r := C.Begun(c, st.cadence, ForCadence(v), cap), FairNow(block, c, st, v, cap), v.running[i];
    hide C.Begun, F.Planned, ForCadence;
    if cap == 0 {
      assert Limit(b, fair, cap, r, r.prompt) == r.prompt;
    } else {
      DecoderContends(v);
      GrantWithinCap(block, st.fair, ForFair(v), cap, r.id);
      F.PlannedQueue(block, st.fair, ForFair(v), cap);
    }
  }
}
