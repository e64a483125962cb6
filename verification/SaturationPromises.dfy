/** The law of the cap over whole runs, told from what was proposed and accepted alone. */
module SaturationPromises {
  import opened Saturation

  /** r was observed exactly once, and everything of a proposal of c tokens was accepted. */
  ghost predicate Once(seen: seq<Observation>, r: Id, c: nat) {
    exists i :: 0 <= i < |seen| && Sole(seen, r, i) && seen[i] == Observation(r, c, c)
  }

  ghost predicate Sole(seen: seq<Observation>, r: Id, i: nat) {
    forall j :: 0 <= j < |seen| && seen[j].id == r ==> j == i
  }

  /** A turn of this batch at a baseline of at least 4 in which every member took all c tokens, once. */
  ghost predicate Full(t: Turn, batch: seq<Id>, c: nat) {
    t.Turn? && t.members == batch && t.baseline >= 4 && forall r :: r in batch ==> Once(t.seen, r, c)
  }

  lemma {:induction false} OnceIsClean(seen: seq<Observation>, r: Id, c: nat)
    ensures Clean(seen, r, c) <==> Once(seen, r, c)
    ensures Times(seen, r) == 0 <==> forall j :: 0 <= j < |seen| ==> seen[j].id != r
  {
    if |seen| > 0 {
      var n := |seen| - 1;
      var less, o := seen[..n], seen[n];
      assert less + [o] == seen;
      OnceIsClean(less, r, c);
      TimesMore(less, o, r, c);
      assert forall j :: 0 <= j < n ==> seen[j] == less[j];
      if o.id == r {
        if Clean(seen, r, c) { assert Sole(seen, r, n) && seen[n] == Observation(r, c, c); }
        if Once(seen, r, c) { assert forall j :: 0 <= j < n ==> seen[j].id != r; }
      } else {
        if Once(less, r, c) {
          var i :| 0 <= i < n && Sole(less, r, i) && less[i] == Observation(r, c, c);
          assert Sole(seen, r, i) && seen[i] == less[i];
        }
        if Once(seen, r, c) {
          var i :| 0 <= i <= n && Sole(seen, r, i) && seen[i] == Observation(r, c, c);
          assert i < n && Sole(less, r, i) && less[i] == seen[i];
        }
      }
    }
  }

  // ---- growth does happen ----

  /** Inside a full turn: a member already observed has k + 1 turns behind it, one not yet observed has k. */
  ghost predicate Counted(now: Growth, part: seq<Observation>, r: Id, k: nat) {
    (r in now.pending <==> Times(part, r) == 0) && Streak(now, r) >= if Times(part, r) == 0 then k else k + 1
  }

  ghost predicate Counting(now: Growth, batch: seq<Id>, c: nat, part: seq<Observation>, k: nat) {
    && now.active && now.members == batch && now.cap == c && (forall r :: r in now.pending ==> r in batch)
    && forall r :: r in batch ==> Counted(now, part, r, k)
  }

  lemma {:induction false} FullSeen(st: Growth, batch: seq<Id>, c: nat, seen: seq<Observation>, n: nat, k: nat)
    requires n <= |seen| && k < 8 && Counting(st, batch, c, [], k)
    requires forall r :: r in batch ==> Once(seen, r, c)
    ensures Counting(AfterSeen(st, seen[..n]), batch, c, seen[..n], k)
  {
    if n > 0 {
      FullSeen(st, batch, c, seen, n - 1, k);
      var part, o := seen[..n - 1], seen[n - 1];
      assert part + [o] == seen[..n] && seen[..n][..n - 1] == part;
      OnceIsClean(part, o.id, c);
      var now := AfterSeen(st, part);
      if o.id in batch {
        var i :| 0 <= i < |seen| && Sole(seen, o.id, i) && seen[i] == Observation(o.id, c, c);
        assert i == n - 1 && forall j :: 0 <= j < n - 1 ==> seen[j].id != o.id;
        assert Times(part, o.id) == 0 && Counted(now, part, o.id, k);
      }
      forall r | r in batch
        ensures Counted(Observed(now, o), part + [o], r, k)
      {
        TimesMore(part, o, r, c);
        assert Counted(now, part, r, k);
      }
    }
  }

  /** The batch stands at c with k full turns behind every member. */
  ghost predicate Stands(st: Growth, batch: seq<Id>, c: nat, k: nat) {
    && st.active && st.members == batch && st.cap == c && st.pending == {}
    && forall r :: r in batch ==> Streak(st, r) >= k
  }

  lemma FullTurnCounts(st: Growth, t: Turn, c: nat, k: nat)
    requires t.Turn? && Full(t, t.members, c) && Chosen(st, t.members, t.baseline).cap == c && k < 8
    requires k == 0 || Stands(st, t.members, c, k)
    ensures Stands(Next(st, t), t.members, c, k + 1)
  {
    var s, now := Settled(st, t.members, t.baseline), Chosen(st, t.members, t.baseline);
    assert forall r :: r in t.members ==> Counted(now, [], r, k);
    FullSeen(now, t.members, c, t.seen, |t.seen|, k);
    assert t.seen[..|t.seen|] == t.seen;
    forall r | r in t.members
      ensures Times(t.seen, r) != 0
    {
      OnceIsClean(t.seen, r, c);
    }
    var end := AfterSeen(now, t.seen);
    assert forall r :: r in t.members ==> Counted(end, t.seen, r, k);
  }

  lemma {:induction false} FullTurnsStand(turns: seq<Turn>, from: nat, k: nat, batch: seq<Id>, c: nat)
    requires from + k <= |turns| && 0 < k <= 8
    requires forall j :: from <= j < from + k ==> Full(turns[j], batch, c) && At(turns, j).cap == c
    ensures Stands(After(turns[..from + k]), batch, c, k)
  {
    var j := from + k - 1;
    if k > 1 { FullTurnsStand(turns, from, k - 1, batch, c); }
    assert turns[..j + 1][..j] == turns[..j];
    assert Full(turns[j], batch, c) && At(turns, j).cap == c;
    FullTurnCounts(After(turns[..j]), turns[j], c, k - 1);
  }

  /** Eight turns of the same batch, all full at the cap c. */
  ghost predicate EightFull(turns: seq<Turn>, i: nat, batch: seq<Id>, c: nat)
    requires i <= |turns|
  {
    i >= 8 && forall j :: i - 8 <= j < i ==> Full(turns[j], batch, c) && At(turns, j).cap == c
  }

  /** The cap grows by one exactly when it is below 7, the baseline is at least 4 and the last eight turns of this batch
      were full at the cap to be left. */
  lemma GrowthLaw(turns: seq<Turn>, i: nat)
    requires i < |turns| && turns[i].Turn? && turns[i].members != []
    ensures var c, here := After(turns[..i]).cap, At(turns, i).cap;
      && (here > c ==> here == c + 1)
      && (here > c <==> c < 7 && turns[i].baseline >= 4 && EightFull(turns, i, turns[i].members, c))
  {
    var batch, c := turns[i].members, After(turns[..i]).cap;
    GrowthIsEarned(turns, i);
    if At(turns, i).cap > c { GrowthNeedsFull(turns, i, batch, c); }
    if c < 7 && turns[i].baseline >= 4 && EightFull(turns, i, batch, c) { FullGrows(turns, i, batch, c); }
  }

  lemma GrowthNeedsFull(turns: seq<Turn>, i: nat, batch: seq<Id>, c: nat)
    requires i < |turns| && turns[i].Turn? && turns[i].members == batch != []
    requires After(turns[..i]).cap == c < At(turns, i).cap
    ensures c < 7 && turns[i].baseline >= 4 && EightFull(turns, i, batch, c)
  {
    GrowthIsEarned(turns, i);
    GrowthNeedsBaseline(After(turns[..i]), batch, turns[i].baseline);
    hide After, Chosen, AfterSeen, Earned, Full;
    assert batch[0] in batch && Earned(turns[..i], batch, batch[0], 8, c);
    EarnedIsLong(turns[..i], batch, batch[0], c);
    forall j | i - 8 <= j < i
      ensures Full(turns[j], batch, c) && At(turns, j).cap == c
    {
      EarnedIsFull(turns, i, batch, c, j);
    }
  }

  lemma GrowthNeedsBaseline(st: Growth, batch: seq<Id>, baseline: nat)
    requires Chosen(st, batch, baseline).cap > st.cap >= 4
    ensures baseline >= 4
  {
  }

  lemma FullGrows(turns: seq<Turn>, i: nat, batch: seq<Id>, c: nat)
    requires i < |turns| && turns[i].Turn? && turns[i].members == batch != [] && turns[i].baseline >= 4
    requires After(turns[..i]).cap == c < 7 && EightFull(turns, i, batch, c)
    ensures At(turns, i).cap == c + 1
  {
    hide After, AfterSeen, Full, Chosen;
    FullTurnsStand(turns, i - 8, 8, batch, c);
    StandingGrows(After(turns[..i]), batch, c, turns[i].baseline);
  }

  lemma StandingGrows(st: Growth, batch: seq<Id>, c: nat, baseline: nat)
    requires Stands(st, batch, c, 8) && c < 7 && baseline >= 4 && batch != []
    ensures Chosen(st, batch, baseline).cap == c + 1
  {
    assert forall r :: r in batch ==> Streak(st, r) >= 8;
  }

  lemma EarnedIsLong(before: seq<Turn>, batch: seq<Id>, r: Id, c: nat)
    requires Earned(before, batch, r, 8, c)
    ensures |before| >= 8
  {
  }

  lemma EarnedIsFull(turns: seq<Turn>, i: nat, batch: seq<Id>, c: nat, j: nat)
    requires 8 <= i <= |turns| && i - 8 <= j < i && batch != []
    requires forall r :: r in batch ==> Earned(turns[..i], batch, r, 8, c)
    ensures Full(turns[j], batch, c) && At(turns, j).cap == c
  {
    var before := turns[..i];
    assert before[..j] == turns[..j] && before[j] == turns[j];
    hide At, Clean;
    assert batch[0] in batch && EarnedAt(before, batch, batch[0], j, c);
    forall r | r in batch
      ensures Once(turns[j].seen, r, c)
    {
      assert EarnedAt(before, batch, r, j, c);
      OnceIsClean(turns[j].seen, r, c);
    }
  }

  // ---- the whole law ----

  /** What an observation can do to the cap: leave it, or return it to 4. */
  lemma {:induction false} SeenCap(st: Growth, seen: seq<Observation>)
    requires 4 <= st.cap
    ensures var now := AfterSeen(st, seen); now.members == st.members && (now.cap == st.cap || now.cap == 4)
  {
    if |seen| > 0 { SeenCap(st, seen[..|seen| - 1]); }
  }

  /** The cap of a turn that follows a turn: 4 when the batch changed, the baseline is short, or above 4 some member did
      not take all of the last proposal exactly once; one more after eight full turns below 7; unchanged otherwise. */
  lemma CapLaw(turns: seq<Turn>, i: nat)
    requires 0 < i < |turns| && turns[i - 1].Turn? && turns[i].Turn?
    ensures var c, batch := At(turns, i - 1).cap, turns[i].members;
      At(turns, i).cap ==
      if turns[i].baseline < 4 || batch != turns[i - 1].members then 4
      else if c > 4 && exists r :: r in batch && !Once(turns[i - 1].seen, r, c) then 4
      else if c < 7 && batch != [] && EightFull(turns, i, batch, c) then c + 1
      else c
  {
    var last, t := turns[i - 1], turns[i];
    var C, st := At(turns, i - 1), After(turns[..i]);
    assert turns[..i][..i - 1] == turns[..i - 1] && turns[..i][i - 1] == last;
    assert st == AfterSeen(C, last.seen);
    HistoryKept(turns[..i - 1]);
    ChosenDuring(turns[..i - 1], After(turns[..i - 1]), last);
    assert 4 <= C.cap <= 7 && C.members == last.members;
    SeenCap(C, last.seen);
    if t.baseline < 4 || t.members != last.members {
      assert st.members == last.members;
      NoGrowthWithoutBatch(st, t.members, t.baseline);
    } else if C.cap > 4 && exists r :: r in t.members && !Once(last.seen, r, C.cap) {
      var r :| r in t.members && !Once(last.seen, r, C.cap);
      OnceIsClean(last.seen, r, C.cap);
      FailureReturnsTo4(turns, i - 1, r);
    } else {
      CapIsKept(turns, i);
      assert st.cap == C.cap;
      Unfailing(st, t.members, t.baseline);
      if t.members == [] { EmptyStays(st, t.baseline); } else { GrowthLaw(turns, i); }
    }
  }

  lemma NoGrowthWithoutBatch(st: Growth, members: seq<Id>, baseline: nat)
    requires baseline < 4 || members != st.members
    ensures Chosen(st, members, baseline).cap == 4
  {
    var s := Settled(st, members, baseline);
    assert s.cap == 4 && forall r :: r in s.streaks ==> s.streaks[r] == 0;
    if members != [] { assert members[0] in members && Streak(s, members[0]) == 0; }
  }

  lemma EmptyStays(st: Growth, baseline: nat)
    requires st.members == [] && baseline >= 4 && (st.cap > 4 ==> st.pending == {})
    ensures Chosen(st, [], baseline).cap == st.cap
  {
  }

  lemma Unfailing(st: Growth, members: seq<Id>, baseline: nat)
    requires members == st.members && baseline >= 4 && (st.cap > 4 ==> st.pending == {})
    ensures st.cap <= Chosen(st, members, baseline).cap
  {
  }

  /** With no failure above 4 the observations leave the cap, and nothing stays owed there. */
  lemma CapIsKept(turns: seq<Turn>, i: nat)
    requires 0 < i < |turns| && turns[i - 1].Turn?
    requires var c, batch := At(turns, i - 1).cap, turns[i - 1].members;
      c > 4 ==> forall r :: r in batch ==> Once(turns[i - 1].seen, r, c)
    ensures var c, st := At(turns, i - 1).cap, After(turns[..i]);
      st.cap == c && (c > 4 ==> st.pending == {})
  {
    var last, C := turns[i - 1], At(turns, i - 1);
    assert turns[..i][..i - 1] == turns[..i - 1] && turns[..i][i - 1] == last;
    HistoryKept(turns[..i - 1]);
    ChosenDuring(turns[..i - 1], After(turns[..i - 1]), last);
    if C.cap > 4 {
      assert C.active && last.baseline >= 4;
      assert Full(last, last.members, C.cap);
      FullTurnCounts(After(turns[..i - 1]), last, C.cap, 0);
    } else {
      SeenCap(C, last.seen);
    }
  }

  /** A first turn, or one after a reset, runs at 4. */
  lemma FreshRunsAt4(turns: seq<Turn>, i: nat)
    requires i < |turns| && turns[i].Turn? && (i == 0 || turns[i - 1].Forget?)
    ensures At(turns, i).cap == 4
  {
    if i > 0 { assert turns[..i][..i - 1] == turns[..i - 1] && turns[..i][i - 1] == Forget; }
    assert After(turns[..i]) == Reset();
    FreshChoice(Reset(), turns[i].members, turns[i].baseline);
  }

  /** The length of a turn: a short baseline as it is, the cap otherwise. */
  lemma LengthLaw(turns: seq<Turn>, i: nat)
    requires i < |turns| && turns[i].Turn?
    ensures var k := ChosenK(After(turns[..i]), turns[i].members, turns[i].baseline);
      k == (if turns[i].baseline < 4 then turns[i].baseline else At(turns, i).cap) && k <= 7
  {
    GrowthIsEarned(turns, i);
  }

  // ---- one observation, one choice ----

  /** What an observation does, member by member. One that nobody awaits is a second one for its turn. */
  lemma ObservedIs(st: Growth, o: Observation, r: Id)
    ensures var now := Observed(st, o);
      var fails := o.id !in st.pending || o.proposed != st.cap || o.accepted != st.cap;
      if !st.active || o.id !in st.members then now == st
      else if fails && st.cap > 4 then
        && now.cap == 4 && now.members == st.members && now.pending == {} && !now.active && now.rejected
        && Streak(now, r) == 0
      else
        && now.cap == st.cap && now.members == st.members && now.pending == st.pending - {o.id} && now.active
        && now.rejected == st.rejected
        && Streak(now, r) ==
           if r != o.id then Streak(st, r) else if fails then 0 else if Streak(st, r) >= 8 then 8 else Streak(st, r) + 1
  {
  }

  /** What a choice starts from: nothing after a changed batch, a short baseline or, above 4, a missing observation;
      else the streaks, without those of the members that were not observed. It waits for every member when it grants
      at least 4, and growth starts the streaks over. */
  lemma ChosenIs(st: Growth, members: seq<Id>, baseline: nat, r: Id)
    ensures var now := Chosen(st, members, baseline);
      var forgets := members != st.members || baseline < 4 || (st.pending != {} && st.cap > 4);
      var grows := !forgets && st.cap < 7 && members != []
        && forall x :: x in members ==> x !in st.pending && Streak(st, x) >= 8;
      && now.members == members && !now.rejected
      && now.cap == (if forgets then 4 else if grows then st.cap + 1 else st.cap)
      && Streak(now, r) == (if forgets || grows || r in st.pending then 0 else Streak(st, r))
      && (baseline >= 4 ==> now.active && forall x :: x in now.pending <==> x in members)
      && (baseline < 4 ==> !now.active && now.pending == {})
  {
    var forgets := members != st.members || baseline < 4 || (st.pending != {} && st.cap > 4);
    var s := Settled(st, members, baseline);
    if forgets {
      assert s.cap == 4 && forall x :: x in s.streaks ==> s.streaks[x] == 0;
      if members != [] { assert members[0] in members && Streak(s, members[0]) == 0; }
    } else {
      assert s.streaks == Carried(st) && s.cap == st.cap;
      assert forall x :: Streak(s, x) == if x in st.pending then 0 else Streak(st, x);
    }
  }
}
