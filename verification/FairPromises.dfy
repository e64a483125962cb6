/** What the fair queue's plan and observation promise, told in the scheduler's terms: which requests are considered, in
    which order they are offered, that every grant is the greatest that still fits, and how offers and debts move on. */
module FairPromises {
  import opened FairPrefill
  import Arithmetic

  // ---- grants are as large as they can be ----

  /** x tokens of a request fit: they stay within both budgets, and end at the request's end or at a block boundary. */
  predicate Fits(block: int, draftSlots: int, r: Request, tokens: int, scratch: int, x: int)
    requires block > 0
  {
    var end := if r.prompt > r.tokens - 1 then r.prompt else r.tokens - 1;
    && 0 < x <= tokens && x + draftSlots <= scratch
    && r.computed + x <= end && (r.computed + x == end || (r.computed + x) % block == 0)
  }

  lemma BoundaryBelow(m: int, y: int, block: int)
    requires block > 0 && m % block == 0 && m <= y
    ensures m <= y / block * block
  {
    assert m == m / block * block;
    assert y == y / block * block + y % block;
    if m / block > y / block { TimesMore(y / block + 1, m / block, block); }
  }

  lemma TimesMore(a: int, b: int, k: int)
    requires a <= b && k > 0
    ensures a * k <= b * k
  {
  }

  /** The allowance is the greatest number of tokens that fits, and 0 if none does. */
  lemma AllowanceIsGreatest(block: int, draftSlots: int, r: Request, tokens: int, scratch: int)
    requires block > 0
    ensures var a := Allowance(block, draftSlots, r, tokens, scratch);
      && (a == 0 || Fits(block, draftSlots, r, tokens, scratch, a))
      && (forall x :: Fits(block, draftSlots, r, tokens, scratch, x) ==> x <= a)
  {
    AllowanceIsBounded(block, draftSlots, r, tokens, scratch);
    forall x | Fits(block, draftSlots, r, tokens, scratch, x)
      ensures x <= Allowance(block, draftSlots, r, tokens, scratch)
    {
      var a := Min(Min(tokens, scratch - draftSlots), Max(0, End(r) - r.computed));
      assert x <= a;
      if r.computed + a < End(r) { BoundaryBelow(r.computed + x, r.computed + a, block); }
    }
  }

  /** Tokens and scratch the first i grants use. */
  function Used(g: seq<int>, i: nat): int
    requires i <= |g|
  {
    if i == 0 then 0 else Used(g, i - 1) + g[i - 1]
  }

  function UsedScratch(g: seq<int>, draftSlots: int, i: nat): int
    requires i <= |g|
  {
    if i == 0 then 0 else UsedScratch(g, draftSlots, i - 1) + if g[i - 1] > 0 then g[i - 1] + draftSlots else 0
  }

  /** Each grant is the greatest that fits what the earlier ones left. */
  ghost predicate Greedy(block: int, draftSlots: int, rs: seq<Request>, tokens: int, scratch: int, g: seq<int>)
    requires block > 0 && |g| == |rs|
  {
    forall i :: 0 <= i < |g| ==>
      GreedyAt(block, draftSlots, rs[i], tokens - Used(g, i), scratch - UsedScratch(g, draftSlots, i), g[i])
  }

  ghost predicate GreedyAt(block: int, draftSlots: int, r: Request, tokens: int, scratch: int, a: int)
    requires block > 0
  {
    && (a == 0 || Fits(block, draftSlots, r, tokens, scratch, a))
    && (forall x :: Fits(block, draftSlots, r, tokens, scratch, x) ==> x <= a)
  }

  lemma {:induction false} UsedShift(g: seq<int>, a: int, draftSlots: int, i: nat)
    requires i <= |g|
    ensures Used([a] + g, i + 1) == a + Used(g, i)
    ensures UsedScratch([a] + g, draftSlots, i + 1)
         == (if a > 0 then a + draftSlots else 0) + UsedScratch(g, draftSlots, i)
  {
    if i > 0 { UsedShift(g, a, draftSlots, i - 1); }
  }

  lemma {:induction false} GrantsAreGreedy(block: int, draftSlots: int, rs: seq<Request>, tokens: int, scratch: int)
    requires block > 0
    ensures Greedy(block, draftSlots, rs, tokens, scratch, Grants(block, draftSlots, rs, tokens, scratch))
  {
    if |rs| > 0 {
      var a := Allowance(block, draftSlots, rs[0], tokens, scratch);
      AllowanceIsGreatest(block, draftSlots, rs[0], tokens, scratch);
      assert GreedyAt(block, draftSlots, rs[0], tokens, scratch, a);
      var left, room := if a <= 0 then tokens else tokens - a, if a <= 0 then scratch else scratch - (a + draftSlots);
      var rest := Grants(block, draftSlots, rs[1..], left, room);
      assert Grants(block, draftSlots, rs, tokens, scratch) == [a] + rest;
      GrantsAreGreedy(block, draftSlots, rs[1..], left, room);
      hide Grants, Allowance, Greedy, GreedyAt;
      GreedyCons(block, draftSlots, rs, tokens, scratch, a, rest);
    }
  }

  lemma GreedyCons(block: int, draftSlots: int, rs: seq<Request>, tokens: int, scratch: int, a: int, rest: seq<int>)
    requires block > 0 && |rs| == |rest| + 1 && a >= 0 && GreedyAt(block, draftSlots, rs[0], tokens, scratch, a)
    requires Greedy(block, draftSlots, rs[1..], tokens - a, scratch - (if a > 0 then a + draftSlots else 0), rest)
    ensures Greedy(block, draftSlots, rs, tokens, scratch, [a] + rest)
  {
    hide GreedyAt, Used, UsedScratch;
    var g := [a] + rest;
    forall i | 0 <= i < |g|
      ensures GreedyAt(block, draftSlots, rs[i], tokens - Used(g, i), scratch - UsedScratch(g, draftSlots, i), g[i])
    {
      if i > 0 { UsedShift(rest, a, draftSlots, i - 1); } else { UsedNone(g, draftSlots); }
      assert i > 0 ==> rs[1..][i - 1] == rs[i] && rest[i - 1] == g[i];
    }
  }

  lemma UsedNone(g: seq<int>, draftSlots: int)
    ensures Used(g, 0) == 0 && UsedScratch(g, draftSlots, 0) == 0
  {
  }

  // ---- which requests, and what is reserved ----

  function CountRunning(rs: seq<Request>, prefilling: bool): nat {
    if |rs| == 0 then 0
    else CountRunning(rs[..|rs| - 1], prefilling) + if rs[|rs| - 1].prefilling == prefilling then 1 else 0
  }

  lemma {:induction false} PickAppends(rs: seq<Request>, f: Request -> bool)
    requires |rs| > 0
    ensures Pick(rs, f) == Pick(rs[..|rs| - 1], f) + if f(rs[|rs| - 1]) then [rs[|rs| - 1]] else []
    decreases |rs|
  {
    if |rs| > 1 {
      PickAppends(rs[1..], f);
      assert rs[1..][..|rs| - 2] == rs[..|rs| - 1][1..];
    }
  }

  lemma {:induction false} RunningPicked(rs: seq<Request>, prefilling: bool)
    ensures |Pick(rs, (r: Request) => r.prefilling == prefilling)| == CountRunning(rs, prefilling)
  {
    if |rs| > 0 {
      PickAppends(rs, (r: Request) => r.prefilling == prefilling);
      RunningPicked(rs[..|rs| - 1], prefilling);
    }
  }

  lemma {:induction false} PickSame(rs: seq<Request>, f: Request -> bool, g: Request -> bool)
    requires forall r :: f(r) == g(r)
    ensures Pick(rs, f) == Pick(rs, g)
  {
    if |rs| > 0 { PickSame(rs[1..], f, g); }
  }

  /** The decoders are the running requests past their prompt. */
  lemma DecodersAreRunning(v: View)
    ensures |Decoders(v)| == CountRunning(v.running, false)
  {
    RunningPicked(v.running, false);
    PickSame(v.running, (r: Request) => !r.prefilling, (r: Request) => r.prefilling == false);
  }

  /** The picked requests are exactly those with the property, in their order. */
  lemma {:induction false} PickIs(rs: seq<Request>, f: Request -> bool)
    ensures forall r :: r in Pick(rs, f) <==> r in rs && f(r)
    ensures |Pick(rs, f)| <= |rs|
  {
    if |rs| > 0 {
      PickIs(rs[1..], f);
      assert rs == [rs[0]] + rs[1..];
    }
  }

  /** The prefills of a turn: every running request still in its prompt, and of the ready waiting ones, skipped ones
      first, as many as there are free running slots. */
  lemma PrefillsAre(v: View)
    ensures var n := CountRunning(v.running, true);
      var ready := Pick(v.skippedWaiting + v.waiting, (r: Request) => r.ready);
      var free := v.maxRunning - |v.running| - v.streaming;
      && n <= |Prefills(v)|
      && (forall r :: r in Prefills(v)[..n] <==> r in v.running && r.prefilling)
      && Prefills(v)[n..] == (if free <= 0 then [] else if |ready| <= free then ready else ready[..free])
  {
    var running := Pick(v.running, (r: Request) => r.prefilling);
    RunningPicked(v.running, true);
    PickSame(v.running, (r: Request) => r.prefilling, (r: Request) => r.prefilling == true);
    PickIs(v.running, (r: Request) => r.prefilling);
    assert Prefills(v)[..|running|] == running;
  }

  // ---- the order of the offers ----

  /** a stands before b. */
  ghost predicate Before(q: seq<Id>, a: Id, b: Id) {
    exists i, j :: 0 <= i < j < |q| && q[i] == a && q[j] == b
  }

  lemma BeforeSplits(q: seq<Id>, a: Id, b: Id)
    requires Before(q, a, b)
    ensures |q| > 0 && (if q[0] == a then b in q[1..] else Before(q[1..], a, b))
  {
    var i, j :| 0 <= i < j < |q| && q[i] == a && q[j] == b;
    assert q[1..][j - 1] == b;
    if i > 0 { assert q[1..][i - 1] == a; }
  }

  lemma BeforeJoins(x: Id, q: seq<Id>, a: Id, b: Id)
    requires Before(q, a, b) || (x == a && b in q)
    ensures Before([x] + q, a, b)
  {
    if Before(q, a, b) {
      var i, j :| 0 <= i < j < |q| && q[i] == a && q[j] == b;
      assert ([x] + q)[i + 1] == a && ([x] + q)[j + 1] == b;
    } else {
      var j :| 0 <= j < |q| && q[j] == b;
      assert ([x] + q)[0] == a && ([x] + q)[j + 1] == b;
    }
  }

  lemma {:induction false} KeepOrder(q: seq<Id>, s: set<Id>, a: Id, b: Id)
    requires Before(q, a, b) && a in s && b in s
    ensures Before(Keep(q, s), a, b)
  {
    BeforeSplits(q, a, b);
    hide Before;
    if q[0] != a { KeepOrder(q[1..], s, a, b); }
    if q[0] in s { BeforeJoins(q[0], Keep(q[1..], s), a, b); }
  }

  lemma {:induction false} DropOrder(q: seq<Id>, s: set<Id>, a: Id, b: Id)
    requires Before(q, a, b) && a !in s && b !in s
    ensures Before(Drop(q, s), a, b)
  {
    BeforeSplits(q, a, b);
    hide Before;
    if q[0] != a { DropOrder(q[1..], s, a, b); }
    if q[0] !in s { BeforeJoins(q[0], Drop(q[1..], s), a, b); }
  }

  lemma JoinOrder(p: seq<Id>, q: seq<Id>, a: Id, b: Id)
    requires Before(p, a, b) || Before(q, a, b) || (a in p && b in q)
    ensures Before(p + q, a, b)
  {
    if Before(p, a, b) {
      var i, j :| 0 <= i < j < |p| && p[i] == a && p[j] == b;
      assert (p + q)[i] == a && (p + q)[j] == b;
    } else if Before(q, a, b) {
      var i, j :| 0 <= i < j < |q| && q[i] == a && q[j] == b;
      assert (p + q)[|p| + i] == a && (p + q)[|p| + j] == b;
    } else {
      var i :| 0 <= i < |p| && p[i] == a;
      var j :| 0 <= j < |q| && q[j] == b;
      assert (p + q)[i] == a && (p + q)[|p| + j] == b;
    }
  }

  /** The planned queue holds the turn's prefills: those that waited before keep their order, new ones follow in
      theirs. */
  lemma QueueIsFirstCome(queue: seq<Id>, ids: seq<Id>, a: Id, b: Id)
    requires a in ids && b in ids && a != b
    requires Before(queue, a, b) || (a in queue && b !in queue) || (a !in queue && b !in queue && Before(ids, a, b))
    ensures Before(Queued(queue, ids), a, b)
  {
    var kept := Keep(queue, SetOf(ids));
    var added := Drop(ids, SetOf(kept));
    if Before(queue, a, b) {
      KeepOrder(queue, SetOf(ids), a, b);
    } else if a !in queue {
      DropOrder(ids, SetOf(kept), a, b);
    }
    JoinOrder(kept, added, a, b);
  }

  /** The greatest grant the whole budget of the turn has for a request. */
  function Whole(block: int, v: View, cap: int, r: Request): int
    requires block > 0
  {
    var decoders := CountRunning(v.running, false);
    var reserve := decoders * (v.specTokens + 1);
    Allowance(block, v.draftSlots, r, if cap < v.maxScheduled - reserve then cap else v.maxScheduled - reserve,
      v.maxBatched - reserve - decoders * v.draftSlots)
  }

  /** A short tail: what remains of the request is less than a block, and the whole budget of the turn covers it. */
  predicate ShortTail(block: int, v: View, cap: int, r: Request)
    requires block > 0
  {
    var remaining := (if r.prompt > r.tokens - 1 then r.prompt else r.tokens - 1) - r.computed;
    0 < remaining < block && Whole(block, v, cap, r) == remaining
  }

  /** The place of a request among the offers of a turn: aged long ones, then short tails, then the rest. */
  function Class(block: int, st: Fair, v: View, cap: int, r: Request): nat
    requires block > 0
  {
    if ShortTail(block, v, cap, r) then 1
    else if r.id in st.deferred && Whole(block, v, cap, r) > 0 then 0 else 2
  }

  lemma Classes(block: int, st: Fair, v: View, cap: int, r: Request)
    requires block > 0
    ensures Tail(block, v, cap, r) == ShortTail(block, v, cap, r)
    ensures Long(block, v, cap, r) == (!ShortTail(block, v, cap, r) && Whole(block, v, cap, r) > 0)
  {
    DecodersAreRunning(v);
    hide Allowance, Pick;
  }

  /** Offers go by class, and within a class in the order of the queue. */
  lemma OffersAreOrdered(block: int, st: Fair, v: View, cap: int, a: Id, b: Id)
    requires TurnOk(block, v, cap) && a in Ids(Prefills(v)) && b in Ids(Prefills(v))
    requires var rs := Prefills(v);
      var ca, cb := Class(block, st, v, cap, Of(rs, a)), Class(block, st, v, cap, Of(rs, b));
      ca < cb || (ca == cb && Before(Queued(st.queue, Ids(rs)), a, b))
    ensures Before(PlannedOrder(block, st, v, cap), a, b)
  {
    var rs := Prefills(v);
    var queue := Queued(st.queue, Ids(rs));
    var protected := st.deferred * SetOf(Ids(rs)) * LongIds(block, v, cap, rs, queue);
    var tails := TailIds(block, v, cap, rs, queue);
    Classes(block, st, v, cap, Of(rs, a));
    Classes(block, st, v, cap, Of(rs, b));
    hide Queued, Long, Tail, ShortTail, Whole, Distinct, Prefills;
    var p, q, r := Keep(queue, protected), Keep(queue, tails), Drop(queue, protected + tails);
    var ca, cb := Class(block, st, v, cap, Of(rs, a)), Class(block, st, v, cap, Of(rs, b));
    assert ca == 0 <==> a in protected;
    assert ca == 1 <==> a in tails;
    assert cb == 0 <==> b in protected;
    assert cb == 1 <==> b in tails;
    if ca == cb {
      if ca == 0 { KeepOrder(queue, protected, a, b); }
      else if ca == 1 { KeepOrder(queue, tails, a, b); }
      else { DropOrder(queue, protected + tails, a, b); }
    }
    if ca < 2 {
      if cb < 2 {
        JoinOrder(p, q, a, b);
        JoinOrder(p + q, r, a, b);
      } else {
        JoinOrder(p + q, r, a, b);
      }
    } else {
      JoinOrder(p + q, r, a, b);
    }
  }

  // ---- a whole plan ----

  /** Decode tokens and decode scratch are set aside; what the cap leaves of the step goes to the offers, in order, each
      grant the greatest that fits. */
  lemma PlannedGrantsAreGreedy(block: int, st: Fair, v: View, cap: int)
    requires block > 0
    ensures var decoders := CountRunning(v.running, false);
      var reserve := decoders * (v.specTokens + 1);
      Greedy(block, v.draftSlots, Requests(Prefills(v), PlannedOrder(block, st, v, cap)),
             if cap < v.maxScheduled - reserve then cap else v.maxScheduled - reserve,
             v.maxBatched - reserve - decoders * v.draftSlots, PlannedGrants(block, st, v, cap))
  {
    DecodersAreRunning(v);
    hide Grants, Greedy, PlannedOrder, Prefills, Requests, Decoders;
    var rs := Requests(Prefills(v), PlannedOrder(block, st, v, cap));
    GrantsAreGreedy(block, v.draftSlots, rs, Budget(v, cap), Inputs(v));
  }

  /** The rest of a plan: without a cap nothing is kept; alone, a request keeps the original budget; in contention every
      long request of the turn that gets no offer will age. */
  lemma PlannedIs(block: int, st: Fair, v: View, cap: int, id: Id)
    requires block > 0 && CapOk(block, cap) && Distinct(Ids(Prefills(v))) && Distinct(st.queue)
    ensures var next := Planned(block, st, v, cap);
      var contended := CountRunning(v.running, false) > 0 || |Prefills(v)| > 1;
      && (cap == 0 ==>
            && next.queue == [] && next.deferred == {} && next.eligible == {} && next.grants == None
            && next.reserved == 0 && next.reason == Off)
      && (cap > 0 ==> (id in next.queue <==> id in Ids(Prefills(v))))
      && (cap > 0 ==> (id in next.deferred <==> id in st.deferred && id in Ids(Prefills(v))))
      && (cap > 0 && !contended ==>
            next.grants == None && next.eligible == {} && next.reserved == 0 && next.reason == Solo)
      && (cap > 0 && contended ==>
            && next.grants.Some? && next.reserved == CountRunning(v.running, false) * (v.specTokens + 1)
            && (id in next.grants.value <==> id in Ids(Prefills(v)))
            && (id in next.eligible <==>
                  && id in Ids(Prefills(v)) && !ShortTail(block, v, cap, Of(Prefills(v), id))
                  && Whole(block, v, cap, Of(Prefills(v), id)) > 0))
  {
    DecodersAreRunning(v);
    hide Prefills, Grants, Tail, Long, Allowance, Decoders, Order, Table, ShortTail, Whole, Distinct, Queued, LongIds,
      TailIds, Keep;
    if cap > 0 && Contended(v) { ContendedIs(block, st, v, cap, id); }
  }

  /** A request of the turn is a short tail; one of them is long and was bypassed before. */
  ghost predicate SomeTail(block: int, v: View, cap: int)
    requires block > 0
  {
    exists id :: id in Ids(Prefills(v)) && ShortTail(block, v, cap, Of(Prefills(v), id))
  }

  ghost predicate SomeAged(block: int, st: Fair, v: View, cap: int)
    requires block > 0
  {
    exists id :: id in st.deferred && id in Ids(Prefills(v))
      && !ShortTail(block, v, cap, Of(Prefills(v), id)) && Whole(block, v, cap, Of(Prefills(v), id)) > 0
  }

  /** The reason a contended turn reports. */
  lemma ReasonIs(block: int, st: Fair, v: View, cap: int)
    requires TurnOk(block, v, cap) && Contended(v) && Distinct(st.queue)
    ensures Planned(block, st, v, cap).reason ==
      if !SomeTail(block, v, cap) then RoundRobin else if SomeAged(block, st, v, cap) then Aged else ShortTailFirst
  {
    var rs := Prefills(v);
    var queue := Queued(st.queue, Ids(rs));
    var long, tails := LongIds(block, v, cap, rs, queue), TailIds(block, v, cap, rs, queue);
    var aged := st.deferred * SetOf(Ids(rs)) * long;
    assert Planned(block, st, v, cap).reason ==
      if Keep(queue, tails) == [] then RoundRobin else if Keep(queue, aged) != [] then Aged else ShortTailFirst
    by { hide Prefills, Grants, Queued, LongIds, TailIds, Keep, Table, PlannedOrder, PlannedGrants; }
    forall id
      ensures id in tails <==> id in Ids(rs) && ShortTail(block, v, cap, Of(rs, id))
      ensures id in aged <==>
        && id in st.deferred && id in Ids(rs)
        && !ShortTail(block, v, cap, Of(rs, id)) && Whole(block, v, cap, Of(rs, id)) > 0
    {
      if id in Ids(rs) { Classes(block, st, v, cap, Of(rs, id)); }
      EligibleIs(block, st, v, cap, rs, queue, id);
      hide Prefills, Grants, Tail, Long, ShortTail, Whole;
    }
    hide Prefills, Planned, Tail, Long, ShortTail, Whole, LongIds, TailIds, Queued;
    KeptSome(queue, tails);
    KeptSome(queue, aged);
  }

  lemma KeptSome(q: seq<Id>, s: set<Id>)
    ensures Keep(q, s) != [] <==> exists id :: id in q && id in s
  {
    if Keep(q, s) != [] { assert Keep(q, s)[0] in Keep(q, s); }
  }

  lemma ContendedIs(block: int, st: Fair, v: View, cap: int, id: Id)
    requires TurnOk(block, v, cap) && Contended(v) && Distinct(st.queue)
    ensures var next := Planned(block, st, v, cap);
      && next.grants.Some? && next.reserved == CountRunning(v.running, false) * (v.specTokens + 1)
      && (id in next.grants.value <==> id in Ids(Prefills(v)))
      && (id in next.eligible <==>
            && id in Ids(Prefills(v)) && !ShortTail(block, v, cap, Of(Prefills(v), id))
            && Whole(block, v, cap, Of(Prefills(v), id)) > 0)
  {
    DecodersAreRunning(v);
    PlannedFields(block, st, v, cap);
    PlannedQueue(block, st, v, cap);
    var rs := Prefills(v);
    hide Planned, Prefills, Tail, Long, Decoders, Table, ShortTail, Whole, Distinct, PlannedOrder, PlannedGrants,
      Contended, Queued;
    EligibleIs(block, st, v, cap, rs, Queued(st.queue, Ids(rs)), id);
  }

  lemma PlannedFields(block: int, st: Fair, v: View, cap: int)
    requires TurnOk(block, v, cap) && Contended(v)
    ensures var next, rs := Planned(block, st, v, cap), Prefills(v);
      && next.eligible == LongIds(block, v, cap, rs, Queued(st.queue, Ids(rs))) && next.reserved == Reserved(v)
  {
    hide Prefills, Decoders, Table, PlannedOrder, PlannedGrants, LongIds, TailIds, Queued, Reserved, Keep;
  }

  lemma EligibleIs(block: int, st: Fair, v: View, cap: int, rs: seq<Request>, queue: seq<Id>, id: Id)
    requires block > 0 && rs == Prefills(v) && forall x :: x in queue <==> x in Ids(rs)
    ensures id in LongIds(block, v, cap, rs, queue) <==>
      && id in Ids(rs) && !ShortTail(block, v, cap, Of(rs, id)) && Whole(block, v, cap, Of(rs, id)) > 0
  {
    hide Prefills, Tail, Long, ShortTail, Whole;
    if id in Ids(rs) { Classes(block, st, v, cap, Of(rs, id)); }
  }

  // ---- what an observation makes of the offers ----

  predicate Served(st: Fair, counts: map<Id, int>, id: Id) {
    (id in counts && counts[id] > 0) || (st.grants.Some? && id in st.grants.value && st.grants.value[id] > 0)
  }

  /** Requests with an offer or with tokens go to the back, in their order, and lose their debt; the others keep their
      order, and those that could have used the whole budget gain one. */
  lemma ObservedIs(st: Fair, counts: map<Id, int>, id: Id)
    ensures var after := Observed(st, counts);
      && (id in after.queue <==> id in st.queue)
      && (id in st.queue ==>
            (id in after.deferred <==> !Served(st, counts, id) && (id in st.deferred || id in st.eligible)))
      && after.grants == st.grants && after.reserved == st.reserved && after.reason == st.reason
  {
  }

  lemma ObservedOrder(st: Fair, counts: map<Id, int>, a: Id, b: Id)
    requires a in st.queue && b in st.queue
    requires (!Served(st, counts, a) && Served(st, counts, b))
          || (Served(st, counts, a) == Served(st, counts, b) && Before(st.queue, a, b))
    ensures Before(Observed(st, counts).queue, a, b)
  {
    var offered := Offered(st, counts);
    if Served(st, counts, a) == Served(st, counts, b) {
      if Served(st, counts, a) { KeepOrder(st.queue, offered, a, b); } else { DropOrder(st.queue, offered, a, b); }
    }
    JoinOrder(Drop(st.queue, offered), Keep(st.queue, offered), a, b);
  }
}
