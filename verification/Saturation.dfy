/** Growth of the proposal length from verified acceptances, and the decode shapes a policy may choose. */
module Saturation {
  type Id = nat

  const REQUIRED := 8

  datatype Reason = Ema4 | Hold | Fallback | Grow

  datatype Growth = Growth(cap: nat, members: seq<Id>, streaks: map<Id, nat>, pending: set<Id>, active: bool,
    rejected: bool)

  function Zeros(members: seq<Id>): (m: map<Id, nat>)
    ensures m.Keys == SetOf(members) && forall r :: r in m ==> m[r] == 0
  {
    map r | r in members :: 0
  }

  function SetOf(members: seq<Id>): (s: set<Id>)
    ensures forall r :: r in s <==> r in members
  {
    set r | r in members
  }

  function Reset(): Growth {
    Growth(4, [], map[], {}, false, false)
  }

  /** A reset that keeps watching the same batch. */
  function Restart(members: seq<Id>, rejected: bool): Growth {
    Growth(4, members, Zeros(members), {}, false, rejected)
  }

  function Streak(st: Growth, r: Id): nat {
    if r in st.streaks then st.streaks[r] else 0
  }

  /** Members observed in the last turn carry their streaks on; the others start over. */
  function Carried(st: Growth): map<Id, nat> {
    map r | r in st.streaks.Keys + st.pending :: if r in st.pending then 0 else st.streaks[r]
  }

  /** The state before growth is considered: a changed batch, a short baseline or missing feedback above 4 forgets
      all. */
  function Settled(st: Growth, members: seq<Id>, baseline: nat): Growth {
    var kept := if members != st.members || baseline < 4 then Restart(members, false) else st;
    var sure := if kept.pending != {} && kept.cap > 4 then Restart(members, false) else kept;
    sure.(streaks := Carried(sure), pending := {}, rejected := false)
  }

  predicate Ready(st: Growth, members: seq<Id>) {
    st.cap < 7 && members != [] && forall r :: r in members ==> Streak(st, r) >= REQUIRED
  }

  function Chosen(st: Growth, members: seq<Id>, baseline: nat): Growth {
    var s := Settled(st, members, baseline);
    if baseline < 4 then s
    else if Ready(s, members)
      then s.(cap := s.cap + 1, streaks := Zeros(members), active := true, pending := SetOf(members))
    else s.(active := true, pending := SetOf(members))
  }

  function ChosenK(st: Growth, members: seq<Id>, baseline: nat): nat {
    if baseline < 4 then baseline else Chosen(st, members, baseline).cap
  }

  datatype Observation = Observation(id: Id, proposed: int, accepted: int)

  function Failed(st: Growth, r: Id): Growth {
    if st.cap > 4 then Restart(st.members, true) else st.(streaks := st.streaks[r := 0])
  }

  function Observed(st: Growth, o: Observation): Growth {
    if !st.active || o.id !in st.members then st
    else if o.id !in st.pending then Failed(st, o.id)
    else
      var s := st.(pending := st.pending - {o.id});
      if o.proposed != s.cap || o.accepted != o.proposed then Failed(s, o.id)
      else s.(streaks := s.streaks[o.id := if REQUIRED < Streak(s, o.id) + 1 then REQUIRED else Streak(s, o.id) + 1])
  }

  // ---- runs ----

  /** A turn of the policy: a choice and the observations that follow it, or a reset from outside. */
  datatype Turn = Turn(members: seq<Id>, baseline: nat, seen: seq<Observation>) | Forget

  function AfterSeen(st: Growth, seen: seq<Observation>): Growth {
    if |seen| == 0 then st else Observed(AfterSeen(st, seen[..|seen| - 1]), seen[|seen| - 1])
  }

  function Next(st: Growth, t: Turn): Growth {
    match t
    case Forget => Reset()
    case Turn(members, baseline, seen) => AfterSeen(Chosen(st, members, baseline), seen)
  }

  function After(turns: seq<Turn>): Growth {
    if |turns| == 0 then Reset() else Next(After(turns[..|turns| - 1]), turns[|turns| - 1])
  }

  /** The state right after the choice of turn i. */
  function At(turns: seq<Turn>, i: nat): Growth
    requires i < |turns| && turns[i].Turn?
  {
    Chosen(After(turns[..i]), turns[i].members, turns[i].baseline)
  }

  function Times(seen: seq<Observation>, r: Id): nat {
    if |seen| == 0 then 0 else Times(seen[..|seen| - 1], r) + if seen[|seen| - 1].id == r then 1 else 0
  }

  /** r was observed exactly once, with everything proposed at this cap accepted. */
  predicate Clean(seen: seq<Observation>, r: Id, cap: nat) {
    Times(seen, r) == 1 && forall i :: 0 <= i < |seen| && seen[i].id == r ==>
      seen[i].proposed == cap && seen[i].accepted == cap
  }

  /** In each of the last k turns the same batch ran at this cap and r was clean. */
  predicate Earned(turns: seq<Turn>, members: seq<Id>, r: Id, k: nat, cap: nat) {
    k <= |turns| && forall i :: |turns| - k <= i < |turns| ==> EarnedAt(turns, members, r, i, cap)
  }

  predicate EarnedAt(turns: seq<Turn>, members: seq<Id>, r: Id, i: nat, cap: nat)
    requires i < |turns|
  {
    && turns[i].Turn? && turns[i].members == members && turns[i].baseline >= 4
    && At(turns, i).cap == cap && Clean(turns[i].seen, r, cap)
  }

  /** Only members have streaks or owe an observation. */
  ghost predicate Keyed(st: Growth) {
    (forall r :: r in st.streaks ==> r in st.members) && (forall r :: r in st.pending ==> r in st.members)
  }

  /** Streaks are earned; what is still pending has not been seen this turn. */
  ghost predicate During(before: seq<Turn>, t: Turn, seen: seq<Observation>, cap: nat, st: Growth)
    requires t.Turn?
  {
    && 4 <= st.cap <= 7
    && st.members == t.members && Keyed(st)
    && (!st.active ==> st.cap == 4 && forall r :: r in st.streaks ==> st.streaks[r] == 0)
    && (st.active ==> t.baseline >= 4 && st.cap == cap)
    && (st.active ==> forall r :: r in t.members ==> MemberFair(before, t.members, seen, cap, st, r))
  }

  ghost predicate MemberFair(before: seq<Turn>, members: seq<Id>, seen: seq<Observation>, cap: nat, st: Growth, r: Id) {
    if r in st.pending then Times(seen, r) == 0 && Earned(before, members, r, Streak(st, r), cap)
    else (st.cap > 4 || Streak(st, r) > 0) ==>
      Clean(seen, r, cap) && Earned(before, members, r, if Streak(st, r) == 0 then 0 else Streak(st, r) - 1, cap)
  }

  /** The invariant between turns. */
  ghost predicate Between(turns: seq<Turn>, st: Growth) {
    && 4 <= st.cap <= 7
    && Keyed(st)
    && (!st.active ==> st.cap == 4 && forall r :: r in st.streaks ==> st.streaks[r] == 0)
    && (st.active ==>
          && |turns| > 0 && turns[|turns| - 1].Turn? && turns[|turns| - 1].members == st.members
          && forall r :: r in st.members ==> MemberEarned(turns, st, r))
  }

  ghost predicate MemberEarned(turns: seq<Turn>, st: Growth, r: Id)
    requires |turns| > 0 && turns[|turns| - 1].Turn?
  {
    if r in st.pending then Times(turns[|turns| - 1].seen, r) == 0
    else
      && (st.cap > 4 ==> Clean(turns[|turns| - 1].seen, r, st.cap))
      && Earned(turns, st.members, r, Streak(st, r), st.cap)
  }

  lemma EarnedLess(turns: seq<Turn>, members: seq<Id>, r: Id, k: nat, k': nat, cap: nat)
    requires k' <= k && Earned(turns, members, r, k, cap)
    ensures Earned(turns, members, r, k', cap)
  {
  }

  lemma EarnedMore(turns: seq<Turn>, t: Turn, r: Id, k: nat, cap: nat)
    requires t.Turn? && t.baseline >= 4 && Earned(turns, t.members, r, k, cap) && Clean(t.seen, r, cap)
      && At(turns + [t], |turns|).cap == cap
    ensures Earned(turns + [t], t.members, r, k + 1, cap)
  {
    var all := turns + [t];
    forall i | |all| - (k + 1) <= i < |all|
      ensures EarnedAt(all, t.members, r, i, cap)
    {
      if i < |turns| {
        assert EarnedAt(turns, t.members, r, i, cap);
        assert all[..i] == turns[..i];
      }
    }
  }

  /** The choice keeps earned streaks, and drops the others. */
  lemma ChosenDuring(turns: seq<Turn>, st: Growth, t: Turn)
    requires Between(turns, st) && t.Turn?
    ensures var c := Chosen(st, t.members, t.baseline); During(turns, t, [], c.cap, c)
  {
    var s, c := Settled(st, t.members, t.baseline), Chosen(st, t.members, t.baseline);
    forall r | r in t.members && c.active
      ensures MemberFair(turns, t.members, [], c.cap, c, r)
    {
      if Streak(c, r) > 0 {
        assert s.streaks == Carried(st) && MemberEarned(turns, st, r);
      }
    }
  }

  lemma TimesMore(seen: seq<Observation>, o: Observation, r: Id, cap: nat)
    ensures Times(seen + [o], r) == Times(seen, r) + if o.id == r then 1 else 0
    ensures o.id != r ==> Clean(seen + [o], r, cap) == Clean(seen, r, cap)
    ensures Times(seen, r) == 0 && o.id == r ==> Clean(seen + [o], r, cap) == (o.proposed == cap && o.accepted == cap)
  {
    var all := seen + [o];
    assert all[..|all| - 1] == seen;
    assert forall i :: 0 <= i < |seen| ==> all[i] == seen[i];
    if Times(seen, r) == 0 { NeverSeen(seen, r); }
    if Clean(all, r, cap) && o.id != r { assert forall i :: 0 <= i < |seen| ==> seen[i] == all[i]; }
  }

  lemma {:induction false} NeverSeen(seen: seq<Observation>, r: Id)
    requires Times(seen, r) == 0
    ensures forall i :: 0 <= i < |seen| ==> seen[i].id != r
  {
    if |seen| > 0 { NeverSeen(seen[..|seen| - 1], r); }
  }

  /** One more observation keeps every streak earned. */
  lemma MemberObserved(turns: seq<Turn>, t: Turn, seen: seq<Observation>, cap: nat, st: Growth, o: Observation, r: Id)
    requires t.Turn? && During(turns, t, seen, cap, st) && Observed(st, o).active && r in t.members
    ensures MemberFair(turns, t.members, seen + [o], cap, Observed(st, o), r)
  {
    assert MemberFair(turns, t.members, seen, cap, st, r);
    TimesMore(seen, o, r, cap);
    hide Clean, Times, During, EarnedAt;
    if Streak(st, r) == REQUIRED && Earned(turns, t.members, r, REQUIRED, cap) {
      EarnedLess(turns, t.members, r, REQUIRED, REQUIRED - 1, cap);
    }
    EarnedNone(turns, t.members, r, cap);
    hide Earned;
  }

  lemma ObservedDuring(turns: seq<Turn>, t: Turn, seen: seq<Observation>, cap: nat, st: Growth, o: Observation)
    requires t.Turn? && During(turns, t, seen, cap, st)
    ensures During(turns, t, seen + [o], cap, Observed(st, o))
  {
    var after := Observed(st, o);
    if after.active {
      forall r | r in t.members
        ensures MemberFair(turns, t.members, seen + [o], cap, after, r)
      {
        MemberObserved(turns, t, seen, cap, st, o, r);
      }
    }
    hide MemberFair;
  }

  lemma EarnedNone(turns: seq<Turn>, members: seq<Id>, r: Id, cap: nat)
    ensures Earned(turns, members, r, 0, cap)
  {
  }

  lemma {:induction false} SeenDuring(turns: seq<Turn>, t: Turn, seen: seq<Observation>, st: Growth)
    requires t.Turn? && During(turns, t, [], st.cap, st)
    ensures During(turns, t, seen, st.cap, AfterSeen(st, seen))
  {
    hide During, Observed;
    if |seen| > 0 {
      var n := |seen| - 1;
      SeenDuring(turns, t, seen[..n], st);
      ObservedDuring(turns, t, seen[..n], st.cap, AfterSeen(st, seen[..n]), seen[n]);
      assert seen[..n] + [seen[n]] == seen;
    }
  }

  lemma TurnEnds(turns: seq<Turn>, t: Turn, cap: nat, st: Growth)
    requires t.Turn? && During(turns, t, t.seen, cap, st) && At(turns + [t], |turns|).cap == cap
    ensures Between(turns + [t], st)
  {
    var all := turns + [t];
    if st.active {
      forall r | r in st.members
        ensures MemberEarned(all, st, r)
      {
        assert MemberFair(turns, t.members, t.seen, cap, st, r);
        hide Clean, Times, At;
        if r !in st.pending {
          EarnedNone(all, t.members, r, cap);
          if Streak(st, r) > 0 { EarnedMore(turns, t, r, Streak(st, r) - 1, cap); }
          hide Earned;
        }
      }
    }
  }

  /** The invariant holds after any history. */
  lemma {:induction false} HistoryKept(turns: seq<Turn>)
    ensures Between(turns, After(turns))
  {
    if |turns| > 0 {
      var n := |turns| - 1;
      var before, t := turns[..n], turns[n];
      assert before + [t] == turns;
      HistoryKept(before);
      if t.Turn? {
        var c := Chosen(After(before), t.members, t.baseline);
        ChosenDuring(before, After(before), t);
        SeenDuring(before, t, t.seen, c);
        hide During, Between, Chosen;
        TurnEnds(before, t, c.cap, AfterSeen(c, t.seen));
      }
    }
  }

  lemma GrowthStep(turns: seq<Turn>, st: Growth, members: seq<Id>, baseline: nat)
    requires Between(turns, st)
    ensures var c := Chosen(st, members, baseline);
      && 4 <= c.cap <= 7
      && (c.cap > st.cap ==> c.cap == st.cap + 1 && forall r :: r in members ==>
        Earned(turns, members, r, 8, st.cap))
  {
    var s, c := Settled(st, members, baseline), Chosen(st, members, baseline);
    if c.cap > st.cap {
      forall r | r in members
        ensures Earned(turns, members, r, 8, st.cap)
      {
        assert Streak(s, r) >= REQUIRED && members == st.members && s.streaks == Carried(st);
        assert MemberEarned(turns, st, r);
        hide Clean, Times, Earned, EarnedAt;
        EarnedLess(turns, members, r, Streak(st, r), 8, st.cap);
      }
    }
  }

  /** The cap always lies between 4 and 7, and it grows only by one, and only when in each of the last eight turns the
      same batch ran at the cap to be left and every member was observed exactly once with all of it proposed and
      accepted. */
  lemma GrowthIsEarned(turns: seq<Turn>, i: nat)
    requires i < |turns| && turns[i].Turn?
    ensures var before, here := After(turns[..i]).cap, At(turns, i).cap;
      && 4 <= before <= 7 && 4 <= here <= 7
      && (here > before ==>
            here == before + 1 && forall r :: r in turns[i].members ==>
              Earned(turns[..i], turns[i].members, r, 8, before))
  {
    HistoryKept(turns[..i]);
    assert Between(turns[..i], After(turns[..i]));
    hide After, Chosen, Earned, MemberEarned;
    GrowthStep(turns[..i], After(turns[..i]), turns[i].members, turns[i].baseline);
  }

  /** Without any evidence, or with feedback missing above 4, a choice starts from 4. */
  lemma FreshChoice(st: Growth, members: seq<Id>, baseline: nat)
    requires Keyed(st)
    requires (st.cap == 4 && forall r :: r in st.streaks ==> st.streaks[r] == 0) || (st.cap > 4 && st.pending != {})
    ensures Chosen(st, members, baseline).cap == 4
  {
    var s := Settled(st, members, baseline);
    assert s.cap == 4 && forall r :: r in s.streaks ==> s.streaks[r] == 0;
    if members != [] { assert members[0] in members && Streak(s, members[0]) == 0; }
  }

  /** Above 4, a member that was not observed, was observed twice, or fell short in a turn costs the next turn the cap:
      it starts again from 4. */
  lemma FailureReturnsTo4(turns: seq<Turn>, i: nat, r: Id)
    requires i + 1 < |turns| && turns[i].Turn? && turns[i + 1].Turn?
    requires At(turns, i).cap > 4 && r in turns[i].members && !Clean(turns[i].seen, r, At(turns, i).cap)
    ensures At(turns, i + 1).cap == 4
  {
    var before := turns[..i + 1];
    HistoryKept(before);
    HistoryKept(turns[..i]);
    var st, t := After(before), turns[i];
    assert before[..|before| - 1] == turns[..i] && before[|before| - 1] == t;
    ChosenDuring(turns[..i], After(turns[..i]), t);
    SeenDuring(turns[..i], t, t.seen, At(turns, i));
    assert st == AfterSeen(At(turns, i), t.seen);
    hide Chosen, After, Clean, Times, AfterSeen, Earned;
    if st.active { assert MemberEarned(before, st, r); }
    FreshChoice(st, turns[i + 1].members, turns[i + 1].baseline);
  }

  lemma OnlyReadyGrows(st: Growth, members: seq<Id>, baseline: nat)
    requires st.cap >= 4
    ensures Chosen(st, members, baseline).cap > st.cap <==>
      baseline >= 4 && Ready(Settled(st, members, baseline), members)
  {
    var s := Settled(st, members, baseline);
    if s.cap != st.cap {
      assert s.cap == 4 && forall r :: r in s.streaks ==> s.streaks[r] == 0;
      if members != [] { assert members[0] in members && Streak(s, members[0]) == 0; }
    }
  }

  // ---- the object ----

  class SaturationGrowth {
    var cap: nat
    var members: seq<Id>
    var streaks: map<Id, nat>
    var pending: set<Id>
    var active: bool
    var rejected: bool

    function Now(): Growth
      reads this
    {
      Growth(cap, members, streaks, pending, active, rejected)
    }

    constructor ()
      ensures Now() == Reset()
    {
      cap, members, streaks, pending, active, rejected := 4, [], map[], {}, false, false;
    }

    method Clear()
      modifies this
      ensures Now() == Reset()
    {
      cap, members, streaks, pending, active, rejected := 4, [], map[], {}, false, false;
    }

    /** What is left of the evidence when a new choice is due; refused tells whether missing feedback withdrew the
        cap. */
    method Settle(batch: seq<Id>, baseline: nat) returns (refused: bool)
      modifies this
      ensures Now() == Settled(old(Now()), batch, baseline)
    {
      refused := rejected;
      if batch != members || baseline < 4 {
        Clear();
        members, streaks := batch, Zeros(batch);
      }
      if pending != {} && cap > 4 {
        Clear();
        members, streaks := batch, Zeros(batch);
        refused := true;
      }
      streaks := map r | r in streaks.Keys + pending :: if r in pending then 0 else streaks[r];
      pending, rejected := {}, false;
    }

    method Choose(batch: seq<Id>, baseline: nat) returns (k: nat, reason: Reason)
      modifies this
      ensures Now() == Chosen(old(Now()), batch, baseline) && k == ChosenK(old(Now()), batch, baseline)
      ensures old(cap) >= 4 ==> (reason.Grow? <==> cap > old(cap)) && (reason.Ema4? <==> baseline < 4)
    {
      if cap >= 4 { OnlyReadyGrows(Now(), batch, baseline); }
      var refused := Settle(batch, baseline);
      hide Settled;
      if baseline < 4 {
        return baseline, Ema4;
      }
      reason := if refused then Fallback else Hold;
      if Ready(Now(), batch) {
        cap := cap + 1;
        streaks := Zeros(batch);
        reason := Grow;
      }
      active, pending, k := true, SetOf(batch), cap;
    }

    /** A failed member loses its streak; above 4 the whole batch starts over. */
    method Fail(r: Id)
      modifies this
      ensures Now() == Failed(old(Now()), r)
    {
      streaks := streaks[r := 0];
      if cap > 4 {
        var batch := members;
        Clear();
        members, streaks, rejected := batch, Zeros(batch), true;
      }
    }

    method Observe(o: Observation)
      modifies this
      ensures Now() == Observed(old(Now()), o)
    {
      if !active || o.id !in members {
        return;
      }
      if o.id !in pending {
        Fail(o.id);
        return;
      }
      pending := pending - {o.id};
      if o.proposed != cap || o.accepted != o.proposed {
        Fail(o.id);
        return;
      }
      var streak := Streak(Now(), o.id) + 1;
      streaks := streaks[o.id := if REQUIRED < streak then REQUIRED else streak];
    }
  }
}
