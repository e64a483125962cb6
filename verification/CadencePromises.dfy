/** What the cadence promises of a turn, told in the scheduler's terms: exactly when a turn is prefill-only, that such
    a turn never runs a prompt's last chunk, and what every debt becomes. */
module CadencePromises {
  import opened Cadence

  /** The request at i is the turn's one known nonfinal prefill: nobody waits, some decoder runs beside it, it is an
      admitted original prompt that has begun, even a whole cap leaves it unfinished, and nothing unusual is in
      flight. */
  ghost predicate KnownPair(v: View, cap: int, i: int) {
    && !v.waiters && (exists r :: r in v.running && !r.prefilling)
    && 0 <= i < |v.running| && v.running[i].prefilling
    && (forall j :: 0 <= j < |v.running| && j != i ==> !v.running[j].prefilling)
    && v.running[i].runs && v.running[i].tokens == v.running[i].prompt
    && v.running[i].computed > 0 && v.running[i].computed + cap < v.running[i].prompt
    && (forall r :: r in v.running ==> r.clean)
  }

  ghost predicate Decodes(v: View, id: Id) {
    exists r :: r in v.running && !r.prefilling && r.id == id
  }

  lemma DecoderIdsAre(v: View)
    ensures forall id :: id in DecoderIds(v) <==> Decodes(v, id)
  {
  }

  lemma {:induction false} NoPrefills(rs: seq<Request>)
    ensures Prefills(rs) == [] <==> forall j :: 0 <= j < |rs| ==> !rs[j].prefilling
  {
    if |rs| > 0 {
      NoPrefills(rs[1..]);
      assert rs == [rs[0]] + rs[1..];
    }
  }

  lemma {:induction false} OnePrefill(rs: seq<Request>, i: int)
    requires 0 <= i < |rs| && rs[i].prefilling && forall j :: 0 <= j < |rs| && j != i ==> !rs[j].prefilling
    ensures Prefills(rs) == [rs[i]]
  {
    if i == 0 {
      NoPrefills(rs[1..]);
    } else {
      OnePrefill(rs[1..], i - 1);
    }
  }

  lemma {:induction false} SinglePrefill(rs: seq<Request>) returns (i: int)
    requires |Prefills(rs)| == 1
    ensures 0 <= i < |rs| && rs[i].prefilling && Prefills(rs)[0] == rs[i]
    ensures forall j :: 0 <= j < |rs| && j != i ==> !rs[j].prefilling
  {
    if rs[0].prefilling {
      i := 0;
      NoPrefills(rs[1..]);
      assert forall j :: 0 < j < |rs| ==> rs[1..][j - 1] == rs[j];
    } else {
      var k := SinglePrefill(rs[1..]);
      i := k + 1;
      assert forall j :: 0 < j < |rs| ==> rs[1..][j - 1] == rs[j];
    }
  }

  lemma KnownPairIs(v: View, cap: int)
    ensures (exists i :: KnownPair(v, cap, i)) <==> DecoderIds(v) != {} && !v.waiters && KnownNonfinal(v, cap)
    ensures forall i :: KnownPair(v, cap, i) ==> Prefills(v.running)[..] == [v.running[i]]
  {
    if DecoderIds(v) != {} && !v.waiters && KnownNonfinal(v, cap) {
      var i := SinglePrefill(v.running);
      assert KnownPair(v, cap, i);
    }
    forall i | KnownPair(v, cap, i)
      ensures Prefills(v.running)[..] == [v.running[i]] && DecoderIds(v) != {} && KnownNonfinal(v, cap)
    {
      OnePrefill(v.running, i);
      var r :| r in v.running && !r.prefilling;
      assert r.id in DecoderIds(v);
    }
  }

  // ---- the debts a turn starts with ----

  ghost predicate Owed(st: State, v: View) {
    exists r :: r in v.running && !r.prefilling && r.id in st.owed
  }

  ghost predicate FirstDebtDue(c: Settings, st: State, v: View) {
    if c.firstTokenRepay then exists r :: r in v.running && !r.prefilling && (r.id in st.firstDebt || r.id !in st.known)
    else st.firstDebt != {}
  }

  /** A token follows the first end of thinking. */
  ghost predicate Content(output: seq<int>) {
    exists i :: 0 <= i < |output| - 1 && output[i] == 154842 && forall j :: 0 <= j < i ==> output[j] != 154842
  }

  lemma {:induction false} ContentIs(output: seq<int>)
    ensures HasContent(output) <==> Content(output)
  {
    if |output| > 0 && output[0] != 154842 {
      ContentIs(output[1..]);
      var rest := output[1..];
      if Content(rest) {
        var i :| 0 <= i < |rest| - 1 && rest[i] == 154842 && forall j :: 0 <= j < i ==> rest[j] != 154842;
        assert output[i + 1] == 154842;
        assert forall j :: 0 <= j < i + 1 ==> output[j] == if j == 0 then output[0] else rest[j - 1];
      }
      if Content(output) {
        var i :| 0 <= i < |output| - 1 && output[i] == 154842 && forall j :: 0 <= j < i ==> output[j] != 154842;
        assert rest[i - 1] == 154842 && forall j :: 0 <= j < i - 1 ==> rest[j] == output[j + 1];
      }
    }
  }

  ghost predicate ShowsContent(v: View, id: Id) {
    exists r :: r in v.running && r.id == id && Content(r.output)
  }

  ghost predicate StillThinks(v: View, id: Id) {
    exists r :: r in v.running && r.id == id
      && |r.promptIds| > 0 && r.promptIds[|r.promptIds| - 1] == 154841 && !Content(r.output)
  }

  lemma ThinkingIs(v: View, id: Id)
    ensures Shows(v, id) <==> ShowsContent(v, id)
    ensures Thinks(v, id) <==> StillThinks(v, id)
  {
    forall r | r in v.running
      ensures HasContent(r.output) <==> Content(r.output)
    {
      ContentIs(r.output);
    }
    hide HasContent, Content;
    if ShowsContent(v, id) {
      var r :| r in v.running && r.id == id && Content(r.output);
    }
    if Shows(v, id) {
      var r :| r in v.running && r.id == id && HasContent(r.output);
    }
    if StillThinks(v, id) {
      var r :| r in v.running && r.id == id
        && |r.promptIds| > 0 && r.promptIds[|r.promptIds| - 1] == 154841 && !Content(r.output);
      assert Thinking(r);
    }
    if Thinks(v, id) {
      var r :| r in v.running && r.id == id && Thinking(r) && !HasContent(r.output);
    }
  }

  /** A decoder still waits for its first content: it did before, below the cap and without content, or it has just
      started out thinking. */
  ghost predicate BurstDue(c: Settings, st: State, v: View, id: Id) {
    && Decodes(v, id)
    && ((id in st.burstOwed && st.burstOwed[id] < c.burst && !ShowsContent(v, id))
        || (id !in st.known && StillThinks(v, id)))
  }

  // ---- the choice of a turn ----

  /** The debts of the chosen turn. */
  lemma BegunDebts(c: Settings, st: State, v: View, cap: int, id: Id)
    ensures var b := Begun(c, st, v, cap);
      && (id in b.decoders <==> Decodes(v, id))
      && (id in b.owed <==> id in st.owed && Decodes(v, id))
      && (id in b.firstDebt <==>
            if c.firstTokenRepay then Decodes(v, id) && (id in st.firstDebt || id !in st.known) else id in st.firstDebt)
      && (if c.burst > 0 then id in b.burstOwed <==> BurstDue(c, st, v, id) else b.burstOwed == st.burstOwed)
      && (c.burst > 0 && id in b.burstOwed ==>
            b.burstOwed[id] == if id !in st.known && StillThinks(v, id) then 0 else st.burstOwed[id])
      && b.burstRun == (if c.burst > 0 && (forall r :: r in v.running ==> !r.prefilling) then 0 else st.burstRun)
      && (id in b.known <==> if c.firstTokenRepay || c.burst > 0 then Decodes(v, id) else id in st.known)
  {
    DecoderIdsAre(v);
    ThinkingIs(v, id);
    hide DecoderIds, Decodes, Shows, Thinks, ShowsContent, StillThinks, KnownNonfinal, Prefills;
  }

  /** Exactly when a turn is prefill-only, decode-only and mixed, and why. */
  lemma BegunIs(c: Settings, st: State, v: View, cap: int)
    ensures var b := Begun(c, st, v, cap);
      var pair := exists i :: KnownPair(v, cap, i);
      var burst := b.burstOwed != map[] && b.burstRun < c.burst;
      && (b.phase.PrefillOnly? <==> !Owed(st, v) && pair && !FirstDebtDue(c, st, v) && !burst)
      && (b.phase.DecodeOnly? <==> Owed(st, v) || (pair && (FirstDebtDue(c, st, v) || burst)))
      && b.reason == (if Owed(st, v) then RepayOffer else if !pair then NoPair
                      else if FirstDebtDue(c, st, v) then FirstToken else if burst then FirstContent else KnownPrefill)
  {
    KnownPairIs(v, cap);
    var b := Begun(c, st, v, cap);
    forall id {:trigger id in b.owed} {:trigger id in b.firstDebt}
      ensures (id in b.owed <==> id in st.owed && Decodes(v, id))
           && (id in b.firstDebt <==>
                 if c.firstTokenRepay then Decodes(v, id) && (id in st.firstDebt || id !in st.known)
                 else id in st.firstDebt)
    {
      BegunDebts(c, st, v, cap, id);
    }
    DebtsDue(c, st, v, b);
    TrackedKeeps(c, st.(allowed := None, phase := Mixed, reason := NoPair, decoders := DecoderIds(v),
                        owed := st.owed * DecoderIds(v)), v);
    hide KnownPair, KnownNonfinal, Prefills, Owed, FirstDebtDue, DecoderIds, Tracked, Decodes;
  }

  lemma DebtsDue(c: Settings, st: State, v: View, b: State)
    requires forall id :: id in b.owed <==> id in st.owed && Decodes(v, id)
    requires forall id :: id in b.firstDebt <==>
      if c.firstTokenRepay then Decodes(v, id) && (id in st.firstDebt || id !in st.known) else id in st.firstDebt
    ensures Owed(st, v) <==> b.owed != {}
    ensures FirstDebtDue(c, st, v) <==> b.firstDebt != {}
  {
    if b.owed != {} {
      var id :| id in b.owed;
      assert Decodes(v, id);
    }
    if b.firstDebt != {} {
      var id :| id in b.firstDebt;
      assert c.firstTokenRepay ==> Decodes(v, id);
    }
    if Owed(st, v) {
      var r :| r in v.running && !r.prefilling && r.id in st.owed;
      assert Decodes(v, r.id) && r.id in b.owed;
    }
    if c.firstTokenRepay && FirstDebtDue(c, st, v) {
      var r :| r in v.running && !r.prefilling && (r.id in st.firstDebt || r.id !in st.known);
      assert Decodes(v, r.id) && r.id in b.firstDebt;
    }
    if !c.firstTokenRepay && st.firstDebt != {} {
      var id :| id in st.firstDebt;
      assert id in b.firstDebt;
    }
  }

  /** A prefill-only turn offers one running original prompt, beside a decoder and with nobody waiting, and whatever it
      schedules within the cap leaves the prompt unfinished: a last chunk never runs behind this gate. */
  lemma LastChunkIsNeverGated(c: Settings, st: State, v: View, cap: int, count: int) returns (i: int)
    requires Begun(c, st, v, cap).phase.PrefillOnly? && count <= cap
    ensures KnownPair(v, cap, i)
    ensures var b, r := Begun(c, st, v, cap), v.running[i];
      b.allowed == Some({r.id}) && LimitOf(b, r.id, count) == count && r.computed + LimitOf(b, r.id, count) < r.prompt
  {
    BegunIs(c, st, v, cap);
    KnownPairIs(v, cap);
    i :| KnownPair(v, cap, i);
    hide KnownNonfinal, Tracked, Owed, FirstDebtDue, DecoderIds;
    assert Prefills(v.running)[..] == [v.running[i]];
  }

  // ---- what a turn leaves ----

  ghost predicate Scheduled(counts: map<Id, int>, id: Id) {
    id in counts && counts[id] > 0
  }

  /** The debts after a turn. */
  lemma ObservedDebts(c: Settings, st: State, counts: map<Id, int>, id: Id)
    ensures var after := Observed(c, st, counts);
      && (id in after.owed <==>
            if st.phase.PrefillOnly? then id in st.decoders
            else id in st.owed && !(st.phase.DecodeOnly? && Scheduled(counts, id)))
      && (id in after.firstDebt <==>
            && id in st.firstDebt
            && (c.firstTokenRepay ==>
                  !st.reason.FirstToken? && !(!st.phase.PrefillOnly? && id in st.decoders && Scheduled(counts, id))))
      && (id in after.burstOwed <==> id in st.burstOwed)
      && (id in st.burstOwed ==>
            after.burstOwed[id] == st.burstOwed[id] + if c.burst > 0 && st.reason.FirstContent? then 1 else 0)
      && after.burstRun == (if c.burst == 0 then st.burstRun else if st.reason.FirstContent? then st.burstRun + 1
                            else if st.phase.PrefillOnly? then 0 else st.burstRun)
      && after.phase == st.phase && after.reason == st.reason && after.allowed == st.allowed
      && after.decoders == st.decoders && after.known == st.known
  {
  }
}
