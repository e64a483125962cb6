/** Bounded mixed prefill: grants per turn, and the rotation and debts that keep long prefills from starving. */
module FairPrefill {
  import Arithmetic

  type Id = nat

  datatype Option<T> = None | Some(value: T)

  /** A request as the scheduler shows it. ready: it waits, or waits again after preemption. */
  datatype Request = Request(id: Id, computed: int, prompt: int, tokens: int, prefilling: bool, ready: bool)

  /** What one turn sees of the scheduler. */
  datatype View = View(
    running: seq<Request>,
    skippedWaiting: seq<Request>,
    waiting: seq<Request>,
    maxRunning: int,
    streaming: int,
    specTokens: nat,
    draftSlots: nat,
    maxBatched: int,
    maxScheduled: int)

  datatype Reason = Off | Solo | RoundRobin | ShortTailFirst | Aged | DecodeRepay

  datatype Fair = Fair(queue: seq<Id>, deferred: set<Id>, eligible: set<Id>, grants: Option<map<Id, int>>,
    reserved: int, reason: Reason)

  function Min(a: int, b: int): int {
    if a < b then a else b
  }

  function Max(a: int, b: int): int {
    if a < b then b else a
  }

  function Pick(rs: seq<Request>, f: Request -> bool): seq<Request> {
    if |rs| == 0 then [] else (if f(rs[0]) then [rs[0]] else []) + Pick(rs[1..], f)
  }

  function Decoders(v: View): seq<Request> {
    Pick(v.running, (r: Request) => !r.prefilling)
  }

  function Slots(v: View): nat {
    Max(0, v.maxRunning - |v.running| - v.streaming)
  }

  /** The running prefills, then as many waiting heads as there are free slots. */
  function Prefills(v: View): seq<Request> {
    var ready := Pick(v.skippedWaiting + v.waiting, (r: Request) => r.ready);
    Pick(v.running, (r: Request) => r.prefilling) + ready[..Min(Slots(v), |ready|)]
  }

  function Ids(rs: seq<Request>): (ids: seq<Id>)
    ensures |ids| == |rs|
  {
    seq(|rs|, i requires 0 <= i < |rs| => rs[i].id)
  }

  predicate Distinct(q: seq<Id>) {
    forall i, j :: 0 <= i < j < |q| ==> q[i] != q[j]
  }

  /** The request of an id. */
  function Of(rs: seq<Request>, id: Id): (r: Request)
    requires id in Ids(rs)
    ensures r in rs && r.id == id
  {
    assert Ids(rs) == [rs[0].id] + Ids(rs[1..]);
    if rs[0].id == id then rs[0] else Of(rs[1..], id)
  }

  function Keep(q: seq<Id>, s: set<Id>): (kept: seq<Id>)
    ensures |kept| <= |q|
    ensures forall id :: id in kept <==> id in q && id in s
    ensures Distinct(q) ==> Distinct(kept)
  {
    if |q| == 0 then []
    else
      var rest := Keep(q[1..], s);
      assert q == [q[0]] + q[1..];
      if q[0] in s then [q[0]] + rest else rest
  }

  function Drop(q: seq<Id>, s: set<Id>): (kept: seq<Id>)
    ensures |kept| <= |q|
    ensures forall id :: id in kept <==> id in q && id !in s
    ensures Distinct(q) ==> Distinct(kept)
  {
    if |q| == 0 then []
    else
      var rest := Drop(q[1..], s);
      assert q == [q[0]] + q[1..];
      if q[0] in s then rest else [q[0]] + rest
  }

  function SetOf(q: seq<Id>): (s: set<Id>)
    ensures forall id :: id in s <==> id in q
  {
    set id | id in q
  }

  // ---- one request's allowance ----

  function End(r: Request): int {
    Max(r.prompt, r.tokens - 1)
  }

  function Allowance(block: int, draftSlots: int, r: Request, tokens: int, scratch: int): int
    requires block > 0
  {
    var a := Min(Min(tokens, scratch - draftSlots), Max(0, End(r) - r.computed));
    var b := if r.computed + a < End(r) then (r.computed + a) / block * block - r.computed else a;
    Max(0, b)
  }

  /** A positive allowance fits both budgets and stops at a block boundary or at the request's end. */
  lemma AllowanceIsBounded(block: int, draftSlots: int, r: Request, tokens: int, scratch: int)
    requires block > 0
    ensures var a := Allowance(block, draftSlots, r, tokens, scratch);
      a > 0 ==> a <= tokens && a + draftSlots <= scratch && r.computed + a <= End(r)
                && (r.computed + a == End(r) || (r.computed + a) % block == 0)
  {
    var a := Min(Min(tokens, scratch - draftSlots), Max(0, End(r) - r.computed));
    var x := r.computed + a;
    assert x == x / block * block + x % block;
    if x < End(r) { BlockBoundary(x / block, block); }
  }

  lemma BlockBoundary(q: int, block: int)
    requires block > 0
    ensures (q * block) % block == 0
  {
    Arithmetic.DivModUnique(q * block, q, 0, block);
  }

  // ---- one turn ----

  function Budget(v: View, cap: int): int {
    Min(cap, v.maxScheduled - Reserved(v))
  }

  function Reserved(v: View): int {
    |Decoders(v)| * (v.specTokens + 1)
  }

  function Inputs(v: View): int {
    v.maxBatched - (Reserved(v) + |Decoders(v)| * v.draftSlots)
  }

  predicate Tail(block: int, v: View, cap: int, r: Request)
    requires block > 0
  {
    var remaining := End(r) - r.computed;
    0 < remaining < block && Allowance(block, v.draftSlots, r, Budget(v, cap), Inputs(v)) == remaining
  }

  /** A long request that the whole budget of this turn could serve. */
  predicate Long(block: int, v: View, cap: int, r: Request)
    requires block > 0
  {
    !Tail(block, v, cap, r) && Allowance(block, v.draftSlots, r, Budget(v, cap), Inputs(v)) > 0
  }

  function Queued(queue: seq<Id>, ids: seq<Id>): (q: seq<Id>)
    ensures forall id :: id in q <==> id in ids
  {
    Keep(queue, SetOf(ids)) + Drop(ids, SetOf(Keep(queue, SetOf(ids))))
  }

  function LongIds(block: int, v: View, cap: int, rs: seq<Request>, q: seq<Id>): (s: set<Id>)
    requires block > 0 && forall id :: id in q ==> id in Ids(rs)
  {
    set id | id in q && Long(block, v, cap, Of(rs, id))
  }

  function TailIds(block: int, v: View, cap: int, rs: seq<Request>, q: seq<Id>): (s: set<Id>)
    requires block > 0 && forall id :: id in q ==> id in Ids(rs)
  {
    set id | id in q && Tail(block, v, cap, Of(rs, id))
  }

  /** Aged long requests first, then short tails, then the rest, each in queue order. */
  function Order(queue: seq<Id>, protected: set<Id>, tails: set<Id>): seq<Id> {
    Keep(queue, protected) + Keep(queue, tails) + Drop(queue, protected + tails)
  }

  /** Grants in order while the budgets last; 0 where nothing fits. */
  function Grants(block: int, draftSlots: int, rs: seq<Request>, tokens: int, scratch: int): (g: seq<int>)
    requires block > 0
    ensures |g| == |rs|
  {
    if |rs| == 0 then []
    else
      var a := Allowance(block, draftSlots, rs[0], tokens, scratch);
      if a <= 0 then [0] + Grants(block, draftSlots, rs[1..], tokens, scratch)
      else [a] + Grants(block, draftSlots, rs[1..], tokens - a, scratch - (a + draftSlots))
  }

  predicate Known(q: seq<Id>, rs: seq<Request>) {
    forall i :: 0 <= i < |q| ==> q[i] in Ids(rs)
  }

  function Requests(rs: seq<Request>, q: seq<Id>): (of: seq<Request>)
    requires Known(q, rs)
    ensures |of| == |q|
  {
    seq(|q|, i requires 0 <= i < |q| => Of(rs, q[i]))
  }

  /** The table of grants. */
  function Table(order: seq<Id>, g: seq<int>): (m: map<Id, int>)
    requires |order| == |g|
    ensures forall id :: id in m <==> id in order
  {
    if |order| == 0 then map[]
    else
      assert order == order[..|order| - 1] + [order[|order| - 1]];
      Table(order[..|order| - 1], g[..|g| - 1])[order[|order| - 1] := g[|g| - 1]]
  }

  predicate CapOk(block: int, cap: int)
    requires block > 0
  {
    cap == 0 || (cap >= block && cap % block == 0)
  }

  /** The order in which a contended turn offers. */
  function PlannedOrder(block: int, st: Fair, v: View, cap: int): (order: seq<Id>)
    requires block > 0
    ensures Known(order, Prefills(v))
  {
    var rs := Prefills(v);
    var queue := Queued(st.queue, Ids(rs));
    Order(queue, st.deferred * SetOf(Ids(rs)) * LongIds(block, v, cap, rs, queue), TailIds(block, v, cap, rs, queue))
  }

  /** The grants of a contended turn, in that order. */
  function PlannedGrants(block: int, st: Fair, v: View, cap: int): (g: seq<int>)
    requires block > 0
    ensures |g| == |PlannedOrder(block, st, v, cap)|
  {
    Grants(block, v.draftSlots, Requests(Prefills(v), PlannedOrder(block, st, v, cap)), Budget(v, cap), Inputs(v))
  }

  /** What a turn's plan makes of the queue, the debts and the grants. */
  function Planned(block: int, st: Fair, v: View, cap: int): Fair
    requires block > 0 && CapOk(block, cap)
  {
    if cap == 0 then Fair([], {}, {}, None, 0, Off)
    else
      var rs := Prefills(v);
      var queue := Queued(st.queue, Ids(rs));
      var deferred := st.deferred * SetOf(Ids(rs));
      if |Decoders(v)| == 0 && |rs| <= 1 then Fair(queue, deferred, {}, None, 0, Solo)
      else
        var long := LongIds(block, v, cap, rs, queue);
        Fair(queue, deferred, long, Some(Table(PlannedOrder(block, st, v, cap), PlannedGrants(block, st, v, cap))),
          Reserved(v),
             if Keep(queue, TailIds(block, v, cap, rs, queue)) == [] then RoundRobin
             else if Keep(queue, deferred * long) != [] then Aged else ShortTailFirst)
  }

  function GrantOf(st: Fair, id: Id): int {
    if st.grants.Some? && id in st.grants.value then st.grants.value[id] else 0
  }

  function CountOf(counts: map<Id, int>, id: Id): int {
    if id in counts then counts[id] else 0
  }

  predicate Offer(st: Fair, counts: map<Id, int>, id: Id) {
    CountOf(counts, id) > 0 || GrantOf(st, id) > 0
  }

  function Offered(st: Fair, counts: map<Id, int>): set<Id> {
    set id | id in st.queue && Offer(st, counts, id)
  }

  /** What the scheduled counts make of the queue and the debts: every offer, used or not, goes to the back. */
  function Observed(st: Fair, counts: map<Id, int>): Fair {
    var offered := Offered(st, counts);
    st.(deferred := st.deferred + (st.eligible - offered) - offered,
        queue := Drop(st.queue, offered) + Keep(st.queue, offered))
  }

  /** A deliberate decode-only turn: no offers, and no observation follows. */
  function DecodeTurn(st: Fair, reserved: int): Fair {
    st.(grants := Some(map[]), reserved := reserved, reason := DecodeRepay, eligible := {})
  }

  // ---- grants ----

  /** Every queued id is offered to exactly once. */
  lemma OrderCovers(queue: seq<Id>, protected: set<Id>, tails: set<Id>)
    requires Distinct(queue) && protected !! tails
    ensures Distinct(Order(queue, protected, tails))
    ensures forall id :: id in Order(queue, protected, tails) <==> id in queue
  {
    var a, b, c := Keep(queue, protected), Keep(queue, tails), Drop(queue, protected + tails);
    forall i, j | 0 <= i < j < |a + b + c|
      ensures (a + b + c)[i] != (a + b + c)[j]
    {
      var x, y := (a + b + c)[i], (a + b + c)[j];
      if j < |a| {
      } else if i < |a| {
        assert x in a && (y in b || y in c);
      } else if j < |a| + |b| {
        assert b[i - |a|] == x && b[j - |a|] == y;
      } else if i < |a| + |b| {
        assert x in b && y in c;
      } else {
        assert c[i - |a| - |b|] == x && c[j - |a| - |b|] == y;
      }
    }
  }

  function Sum(g: seq<int>): int {
    if |g| == 0 then 0 else g[0] + Sum(g[1..])
  }

  /** Tokens plus draft slots of the granted requests. */
  function Scratch(g: seq<int>, draftSlots: nat): int {
    if |g| == 0 then 0 else (if g[0] > 0 then g[0] + draftSlots else 0) + Scratch(g[1..], draftSlots)
  }

  /** Together the grants fit the token budget and, with their draft slots, the scratch budget; each ends at a block
      boundary or at its request's end. */
  lemma {:induction false} GrantsFit(block: int, draftSlots: nat, rs: seq<Request>, tokens: int, scratch: int)
    requires block > 0
    ensures var g := Grants(block, draftSlots, rs, tokens, scratch);
      && Sum(g) <= Max(0, tokens) && Scratch(g, draftSlots) <= Max(0, scratch)
      && (forall i :: 0 <= i < |g| ==> g[i] >= 0 && (g[i] > 0 ==> GrantEnds(block, rs[i], g[i])))
  {
    if |rs| > 0 {
      var a := Allowance(block, draftSlots, rs[0], tokens, scratch);
      AllowanceIsBounded(block, draftSlots, rs[0], tokens, scratch);
      hide Allowance;
      if a <= 0 {
        GrantsFit(block, draftSlots, rs[1..], tokens, scratch);
      } else {
        GrantsFit(block, draftSlots, rs[1..], tokens - a, scratch - (a + draftSlots));
      }
    }
  }

  lemma {:induction false} TableAt(order: seq<Id>, g: seq<int>, i: nat)
    requires |order| == |g| && i < |order| && Distinct(order)
    ensures order[i] in Table(order, g) && Table(order, g)[order[i]] == g[i]
  {
    if i < |order| - 1 { TableAt(order[..|order| - 1], g[..|g| - 1], i); }
  }

  predicate GrantEnds(block: int, r: Request, grant: int)
    requires block > 0
  {
    r.computed + grant == End(r) || (r.computed + grant < End(r) && (r.computed + grant) % block == 0)
  }

  /** A turn the scheduler can present: a valid positive cap and requests with distinct ids. */
  predicate TurnOk(block: int, v: View, cap: int) {
    block > 0 && cap > 0 && CapOk(block, cap) && Distinct(Ids(Prefills(v)))
  }

  predicate Contended(v: View) {
    |Decoders(v)| > 0 || |Prefills(v)| > 1
  }

  lemma QueuedDistinct(queue: seq<Id>, ids: seq<Id>)
    requires Distinct(queue) && Distinct(ids)
    ensures Distinct(Queued(queue, ids))
  {
    var a := Keep(queue, SetOf(ids));
    var b := Drop(ids, SetOf(a));
    forall i, j | 0 <= i < j < |a + b|
      ensures (a + b)[i] != (a + b)[j]
    {
      if i < |a| <= j { assert (a + b)[i] in a && (a + b)[j] in b; }
    }
  }

  lemma PlannedQueue(block: int, st: Fair, v: View, cap: int)
    requires TurnOk(block, v, cap) && Contended(v) && Distinct(st.queue)
    ensures var next, order := Planned(block, st, v, cap), PlannedOrder(block, st, v, cap);
      && Distinct(next.queue) && (forall id :: id in next.queue <==> id in Ids(Prefills(v)))
      && Distinct(order) && (forall id :: id in order <==> id in next.queue)
      && next.grants == Some(Table(order, PlannedGrants(block, st, v, cap)))
  {
    var rs := Prefills(v);
    var queue := Queued(st.queue, Ids(rs));
    QueuedDistinct(st.queue, Ids(rs));
    hide Grants, Queued, Allowance, Table;
    OrderCovers(queue, st.deferred * SetOf(Ids(rs)) * LongIds(block, v, cap, rs, queue),
      TailIds(block, v, cap, rs, queue));
  }

  /** In contention every queued request has one grant. */
  lemma PlannedTable(block: int, st: Fair, v: View, cap: int, i: nat)
    requires TurnOk(block, v, cap) && Contended(v) && Distinct(st.queue) && i < |PlannedOrder(block, st, v, cap)|
    ensures GrantOf(Planned(block, st, v, cap), PlannedOrder(block, st, v, cap)[i])
      == PlannedGrants(block, st, v, cap)[i]
  {
    var order, g, next := PlannedOrder(block, st, v, cap), PlannedGrants(block, st, v, cap), Planned(block, st, v, cap);
    PlannedQueue(block, st, v, cap);
    hide Planned, PlannedOrder, PlannedGrants, Contended, TurnOk, Prefills, Table;
    TableAt(order, g, i);
  }

  /** Together the grants never exceed the cap nor the step's tokens beside the decode reserve, and with their drafts
      they fit the scratch; each ends at a block boundary or at its request's end. */
  lemma PlannedGrantsFit(block: int, st: Fair, v: View, cap: int)
    requires block > 0
    ensures var order, g := PlannedOrder(block, st, v, cap), PlannedGrants(block, st, v, cap);
      && Sum(g) <= Max(0, Min(cap, v.maxScheduled - Reserved(v)))
      && Scratch(g, v.draftSlots) <= Max(0, Inputs(v))
      && (forall i :: 0 <= i < |g| ==> g[i] >= 0 && (g[i] > 0 ==> GrantEnds(block, Of(Prefills(v), order[i]), g[i])))
  {
    var rs, order := Prefills(v), PlannedOrder(block, st, v, cap);
    hide PlannedOrder, GrantEnds, Prefills, Grants, Of, Sum, Scratch, Inputs, Reserved;
    GrantsFit(block, v.draftSlots, Requests(rs, order), Budget(v, cap), Inputs(v));
    assert forall i :: 0 <= i < |order| ==> Requests(rs, order)[i] == Of(rs, order[i]);
  }

  // ---- fairness ----

  /** Requests ahead of x in a queue. */
  function Ahead(q: seq<Id>, x: Id): (n: nat)
    requires x in q
    ensures n < |q| && q[n] == x && x !in q[..n]
  {
    assert q == [q[0]] + q[1..];
    if q[0] == x then 0 else
    assert q[..1 + Ahead(q[1..], x)] == [q[0]] + q[1..][..Ahead(q[1..], x)];
    1 + Ahead(q[1..], x)
  }

  lemma {:induction false} AheadKeep(q: seq<Id>, s: set<Id>, x: Id)
    requires x in q && x in s
    ensures Ahead(Keep(q, s), x) <= Ahead(q, x)
  {
    if q[0] != x { AheadKeep(q[1..], s, x); }
  }

  /** Dropping entries brings x forward, strictly if one of them was ahead of it. */
  lemma {:induction false} AheadDrop(q: seq<Id>, s: set<Id>, x: Id)
    requires x in q && x !in s
    ensures Ahead(Drop(q, s), x) <= Ahead(q, x)
    ensures (exists y :: y in s && y in q[..Ahead(q, x)]) ==> Ahead(Drop(q, s), x) < Ahead(q, x)
  {
    if q[0] != x {
      AheadDrop(q[1..], s, x);
      assert q[..Ahead(q, x)] == [q[0]] + q[1..][..Ahead(q[1..], x)];
    }
  }

  lemma {:induction false} AheadAppend(q: seq<Id>, more: seq<Id>, x: Id)
    requires x in q
    ensures Ahead(q + more, x) == Ahead(q, x)
  {
    assert (q + more)[0] == q[0];
    if q[0] != x {
      assert (q + more)[1..] == q[1..] + more;
      AheadAppend(q[1..], more, x);
    }
  }

  /** The first kept entry precedes every other one. */
  lemma {:induction false} FirstKept(q: seq<Id>, s: set<Id>, x: Id)
    requires x in q && x in s
    ensures Keep(q, s) != [] && Keep(q, s)[0] in q && Keep(q, s)[0] in s
    ensures Keep(q, s)[0] == x || Keep(q, s)[0] in q[..Ahead(q, x)]
  {
    if q[0] !in s {
      FirstKept(q[1..], s, x);
      assert q[..Ahead(q, x)] == [q[0]] + q[1..][..Ahead(q[1..], x)];
    }
  }

  /** The scheduler grants no request of the queue more than its offer. */
  predicate Obeys(st: Fair, counts: map<Id, int>) {
    forall id :: id in st.queue ==> CountOf(counts, id) <= GrantOf(st, id)
  }

  /** x is long in this contended turn: it stays eligible. */
  predicate StaysLong(block: int, v: View, cap: int, x: Id)
    requires block > 0
  {
    x in Ids(Prefills(v)) && Long(block, v, cap, Of(Prefills(v), x))
  }

  /** The aged long request that comes first is granted, whatever short tails have arrived. */
  lemma FirstAgedIsGranted(block: int, st: Fair, v: View, cap: int, x: Id)
    requires TurnOk(block, v, cap) && Contended(v) && Distinct(st.queue) && x in st.deferred
      && StaysLong(block, v, cap, x)
    ensures var next := Planned(block, st, v, cap);
      && x in next.queue && x in next.deferred
      && (GrantOf(next, x) > 0 || exists y :: y in next.queue[..Ahead(next.queue, x)] && GrantOf(next, y) > 0)
  {
    var rs := Prefills(v);
    var queue := Queued(st.queue, Ids(rs));
    var long, tails := LongIds(block, v, cap, rs, queue), TailIds(block, v, cap, rs, queue);
    var protected := st.deferred * SetOf(Ids(rs)) * long;
    FirstKept(queue, protected, x);
    var y := Keep(queue, protected)[0];
    var order := Order(queue, protected, tails);
    assert order[0] == y && order == PlannedOrder(block, st, v, cap);
    hide Allowance, Queued, Keep, Drop, Prefills, Order, Table, Distinct, SetOf, Tail;
    PlannedQueue(block, st, v, cap);
    assert PlannedGrants(block, st, v, cap)[0] > 0;
    PlannedTable(block, st, v, cap, 0);
  }

  /** A turn that does not grant x leaves it aged, with fewer requests ahead if it was aged before. */
  lemma UngrantedMovesUp(block: int, st: Fair, v: View, cap: int, counts: map<Id, int>, x: Id)
    requires TurnOk(block, v, cap) && Contended(v) && Distinct(st.queue) && StaysLong(block, v, cap, x)
    requires Obeys(Planned(block, st, v, cap), counts) && GrantOf(Planned(block, st, v, cap), x) <= 0
    ensures var next := Planned(block, st, v, cap);
      var after := Observed(next, counts);
      && x in next.queue && x in after.queue && x in after.deferred
      && Ahead(after.queue, x) <= Ahead(next.queue, x)
      && (x in st.deferred ==> Ahead(after.queue, x) < Ahead(next.queue, x))
      && (x in st.queue ==> Ahead(next.queue, x) <= Ahead(st.queue, x))
  {
    var next := Planned(block, st, v, cap);
    if x in st.deferred { FirstAgedIsGranted(block, st, v, cap, x); }
    if x in st.queue { QueuedKeepsPlace(st.queue, Ids(Prefills(v)), x); }
    assert next.eligible == LongIds(block, v, cap, Prefills(v), next.queue);
    assert x in next.eligible && x in next.queue;
    hide Planned, Long, Contended, TurnOk, Observed, Distinct, StaysLong;
    ObservedMovesUp(next, counts, x);
  }

  /** Offers go behind a request that was eligible and got none. */
  lemma ObservedMovesUp(st: Fair, counts: map<Id, int>, x: Id)
    requires x in st.queue && !Offer(st, counts, x)
    ensures var after := Observed(st, counts);
      && x in after.queue && Ahead(after.queue, x) <= Ahead(st.queue, x)
      && (x in st.eligible || x in st.deferred ==> x in after.deferred)
      && ((exists y :: y in st.queue[..Ahead(st.queue, x)] && GrantOf(st, y) > 0) ==>
        Ahead(after.queue, x) < Ahead(st.queue, x))
  {
    var offered := Offered(st, counts);
    AheadDrop(st.queue, offered, x);
    AheadAppend(Drop(st.queue, offered), Keep(st.queue, offered), x);
    if y :| y in st.queue[..Ahead(st.queue, x)] && GrantOf(st, y) > 0 {
      assert y in offered;
    }
  }

  lemma QueuedKeepsPlace(queue: seq<Id>, ids: seq<Id>, x: Id)
    requires x in queue && x in ids
    ensures Ahead(Queued(queue, ids), x) <= Ahead(queue, x)
  {
    AheadKeep(queue, SetOf(ids), x);
    AheadAppend(Keep(queue, SetOf(ids)), Drop(ids, SetOf(Keep(queue, SetOf(ids)))), x);
  }

  /** A request alone in a turn that schedules nothing of it keeps its place and its debt. */
  lemma SoloKeepsPlace(block: int, st: Fair, v: View, cap: int, counts: map<Id, int>, x: Id)
    requires TurnOk(block, v, cap) && !Contended(v) && x in st.queue && IdleSolo(v, counts, x)
    ensures var after := Observed(Planned(block, st, v, cap), counts);
      && x in after.queue && Ahead(after.queue, x) <= Ahead(st.queue, x) && (x in st.deferred ==> x in after.deferred)
  {
    QueuedKeepsPlace(st.queue, Ids(Prefills(v)), x);
    var next := Planned(block, st, v, cap);
    hide Prefills, Queued, Distinct;
    ObservedMovesUp(next, counts, x);
  }

  /** x is the turn's only prefill, and the turn schedules nothing of it. */
  predicate IdleSolo(v: View, counts: map<Id, int>, x: Id) {
    x in Ids(Prefills(v)) && CountOf(counts, x) <= 0
  }

  lemma PlannedDistinct(block: int, st: Fair, v: View, cap: int)
    requires TurnOk(block, v, cap) && Distinct(st.queue)
    ensures Distinct(Planned(block, st, v, cap).queue)
  {
    QueuedDistinct(st.queue, Ids(Prefills(v)));
    hide Queued, Distinct, Prefills, LongIds, TailIds, Table;
  }

  lemma NextDistinct(block: int, st: Fair, t: Turn)
    requires block > 0 && Distinct(st.queue) && (t.Mixed? ==> TurnOk(block, t.view, t.cap))
    ensures Distinct(Next(block, st, t).queue)
  {
    if t.Mixed? {
      PlannedDistinct(block, st, t.view, t.cap);
      var mid := Planned(block, st, t.view, t.cap);
      hide Planned, PlannedOrder, PlannedGrants;
      var a, b := Drop(mid.queue, Offered(mid, t.counts)), Keep(mid.queue, Offered(mid, t.counts));
      forall i, j | 0 <= i < j < |a + b|
        ensures (a + b)[i] != (a + b)[j]
      {
        if i < |a| <= j { assert (a + b)[i] in a && (a + b)[j] in b; }
      }
    }
  }

  datatype Turn = Mixed(view: View, cap: int, counts: map<Id, int>) | DecodeOnly(reserved: int)

  function Next(block: int, st: Fair, t: Turn): Fair
    requires block > 0 && (t.Mixed? ==> CapOk(block, t.cap))
  {
    match t
    case Mixed(v, cap, counts) => Observed(Planned(block, st, v, cap), counts)
    case DecodeOnly(reserved) => DecodeTurn(st, reserved)
  }

  /** x waits through all these turns: in every contended one it stays eligible and gets no grant, and where it is alone
      nothing of it is scheduled. */
  ghost predicate Starves(block: int, st: Fair, turns: seq<Turn>, x: Id)
    requires block > 0
    decreases |turns|
  {
    |turns| > 0 ==> WaitsOn(block, st, turns[0], x) && Starves(block, Next(block, st, turns[0]), turns[1..], x)
  }

  predicate WaitsOn(block: int, st: Fair, t: Turn, x: Id)
    requires block > 0
  {
    t.Mixed? ==>
      && TurnOk(block, t.view, t.cap)
      && if !Contended(t.view) then IdleSolo(t.view, t.counts, x)
         else StaysLong(block, t.view, t.cap, x) && Obeys(Planned(block, st, t.view, t.cap), t.counts)
              && GrantOf(Planned(block, st, t.view, t.cap), x) <= 0
  }

  predicate Contends(t: Turn) {
    t.Mixed? && Contended(t.view)
  }

  function ContendedTurns(turns: seq<Turn>): nat {
    if |turns| == 0 then 0 else (if Contends(turns[0]) then 1 else 0) + ContendedTurns(turns[1..])
  }

  /** No starvation: an eligible long request with q requests ahead of it goes without a grant for at most q + 1
      observed contended turns, so it is granted within q + 2, whatever arrives and however many decode-only turns, or
      turns in which it is alone, lie between. */
  lemma {:induction false} NoStarvation(block: int, st: Fair, turns: seq<Turn>, x: Id)
    requires block > 0 && Distinct(st.queue) && x in st.queue && Starves(block, st, turns, x)
    ensures ContendedTurns(turns) <= Ahead(st.queue, x) + if x in st.deferred then 0 else 1
    decreases |turns|
  {
    if |turns| > 0 {
      if turns[0].Mixed? && !Contended(turns[0].view) {
        SoloKeepsPlace(block, st, turns[0].view, turns[0].cap, turns[0].counts, x);
      } else if turns[0].Mixed? {
        UngrantedMovesUp(block, st, turns[0].view, turns[0].cap, turns[0].counts, x);
      }
      NextDistinct(block, st, turns[0]);
      hide Planned, Observed, Contended, StaysLong, Obeys, TurnOk, Distinct;
      NoStarvation(block, Next(block, st, turns[0]), turns[1..], x);
    }
  }

  // ---- the object ----

  class FairPrefill {
    const block: int
    var queue: seq<Id>
    var deferredLong: set<Id>
    var eligibleLong: set<Id>
    var grants: Option<map<Id, int>>
    var decodeReserved: int
    var reason: Reason

    ghost predicate Valid()
      reads this
    {
      block > 0 && Distinct(queue)
    }

    function State(): Fair
      reads this
    {
      Fair(queue, deferredLong, eligibleLong, grants, decodeReserved, reason)
    }

    constructor (blockSize: int)
      requires blockSize > 0
      ensures Valid() && block == blockSize && State() == Fair([], {}, {}, None, 0, Off)
    {
      block := blockSize;
      queue, deferredLong, eligibleLong, grants, decodeReserved, reason := [], {}, {}, None, 0, Off;
    }

    /** Plans one turn; a cap that is no multiple of the block is rejected and changes nothing. */
    method Plan(v: View, cap: int) returns (ok: bool)
      requires Valid() && Distinct(Ids(Prefills(v)))
      modifies this
      ensures Valid() && ok == (cap == 0 || (cap >= block && cap % block == 0))
      ensures State() == if ok then Planned(block, old(State()), v, cap) else old(State())
    {
      ok := CapOk(block, cap);
      if !ok {
        return;
      }
      grants, decodeReserved, reason, eligibleLong := None, 0, Off, {};
      if cap == 0 {
        queue, deferredLong := [], {};
        return;
      }
      ghost var before := old(State());
      var prefills := Prefills(v);
      QueuedDistinct(queue, Ids(prefills));
      queue := Queued(queue, Ids(prefills));
      deferredLong := deferredLong * SetOf(Ids(prefills));
      if |Decoders(v)| == 0 && |prefills| <= 1 {
        reason := Solo;
        return;
      }
      decodeReserved := Reserved(v);
      var budget, inputs := Budget(v, cap), Inputs(v);
      var tails: set<Id>;
      eligibleLong, tails := Classify(v, cap);
      var protected := deferredLong * eligibleLong;
      var order := Order(queue, protected, tails);
      reason := if Keep(queue, tails) == [] then RoundRobin else if Keep(queue, protected) != [] then Aged
        else ShortTailFirst;
      OrderCovers(queue, protected, tails);
      assert order == PlannedOrder(block, before, v, cap);
      var table := GrantAll(order, Requests(prefills, order), v.draftSlots, budget, inputs);
      grants := Some(table);
    }

    /** Which queued requests are long this turn and which are short tails. */
    method Classify(v: View, cap: int) returns (long: set<Id>, tails: set<Id>)
      requires block > 0 && Known(queue, Prefills(v))
      ensures long == LongIds(block, v, cap, Prefills(v), queue) && tails == TailIds(block, v, cap, Prefills(v), queue)
    {
      long, tails := {}, {};
      var i := 0;
      while i < |queue|
        invariant 0 <= i <= |queue|
        invariant long == set id | id in queue[..i] && Long(block, v, cap, Of(Prefills(v), id))
        invariant tails == set id | id in queue[..i] && Tail(block, v, cap, Of(Prefills(v), id))
      {
        hide Long, Tail, Allowance, Of;
        var request := Of(Prefills(v), queue[i]);
        if Tail(block, v, cap, request) {
          tails := tails + {queue[i]};
        } else if Allowance(block, v.draftSlots, request, Budget(v, cap), Inputs(v)) > 0 {
          long := long + {queue[i]};
        }
        LongOrTail(block, v, cap, request);
        assert queue[..i + 1] == queue[..i] + [queue[i]];
        i := i + 1;
      }
      assert queue[..i] == queue;
    }

    /** The loop over the order; requests are those of the ids in it. */
    method GrantAll(order: seq<Id>, requests: seq<Request>, draftSlots: int, budget0: int, inputs0: int)
      returns (table: map<Id, int>)
      requires block > 0 && Distinct(order) && |requests| == |order|
      ensures table == Table(order, Grants(block, draftSlots, requests, budget0, inputs0))
    {
      ghost var g := Grants(block, draftSlots, requests, budget0, inputs0);
      assert g[0..] == g && requests[0..] == requests;
      table := map id | id in order :: 0;
      var budget, inputs, i := budget0, inputs0, 0;
      while i < |order|
        invariant 0 <= i <= |order| && TableTo(table, order, g, i)
        invariant g[i..] == Grants(block, draftSlots, requests[i..], budget, inputs)
      {
        hide Allowance, TableTo, Distinct, Grants, Table, SetOf;
        var allowance := Allowance(block, draftSlots, requests[i], budget, inputs);
        GrantsNext(block, draftSlots, requests, g, i, budget, inputs);
        TableNext(table, order, g, i);
        if allowance > 0 {
          table := table[order[i] := allowance];
          budget := budget - allowance;
          inputs := inputs - (allowance + draftSlots);
        }
        i := i + 1;
      }
      TableIs(order, g, table);
    }

    /** The offers of a deliberate decode-only turn are empty; queue and debts stay. */
    method DeferForDecode(reserved: int)
      requires Valid()
      modifies this
      ensures Valid() && State() == DecodeTurn(old(State()), reserved)
    {
      grants, decodeReserved, reason, eligibleLong := Some(map[]), reserved, DecodeRepay, {};
    }

    /** What the turn lets a request schedule. */
    method Limit(id: Id, count: int) returns (limit: int)
      ensures limit == if grants.None? then count else Min(count, GrantOf(State(), id))
    {
      if grants.None? {
        return count;
      }
      limit := Min(count, if id in grants.value then grants.value[id] else 0);
    }

    method Observe(counts: map<Id, int>)
      requires Valid()
      modifies this
      ensures Valid() && State() == Observed(old(State()), counts)
    {
      var offered := Offered(State(), counts);
      deferredLong := deferredLong + (eligibleLong - offered) - offered;
      var rest, moved := Drop(queue, offered), Keep(queue, offered);
      forall i, j | 0 <= i < j < |rest + moved|
        ensures (rest + moved)[i] != (rest + moved)[j]
      {
        if i < |rest| <= j { assert (rest + moved)[i] in rest && (rest + moved)[j] in moved; }
      }
      queue := rest + moved;
    }
  }

  lemma LongOrTail(block: int, v: View, cap: int, r: Request)
    requires block > 0
    ensures Long(block, v, cap, r) <==>
      !Tail(block, v, cap, r) && Allowance(block, v.draftSlots, r, Budget(v, cap), Inputs(v)) > 0
  {
  }

  lemma GrantsNext(block: int, draftSlots: int, rs: seq<Request>, g: seq<int>, i: nat, tokens: int, scratch: int)
    requires block > 0 && i < |rs| == |g| && g[i..] == Grants(block, draftSlots, rs[i..], tokens, scratch)
    ensures var a := Allowance(block, draftSlots, rs[i], tokens, scratch);
      && g[i] == Max(0, a)
      && g[i + 1..] == if a > 0 then Grants(block, draftSlots, rs[i + 1..], tokens - a, scratch - (a + draftSlots))
                       else Grants(block, draftSlots, rs[i + 1..], tokens, scratch)
  {
    hide Allowance;
    assert rs[i..][1..] == rs[i + 1..] && g[i..][1..] == g[i + 1..] && g[i..][0] == g[i];
  }

  /** The table holds the first i grants; the others are still zero. */
  ghost predicate TableTo(table: map<Id, int>, order: seq<Id>, g: seq<int>, i: nat)
    requires |order| == |g|
  {
    && table.Keys == SetOf(order)
    && (forall j :: 0 <= j < |order| ==> table[order[j]] == if j < i then g[j] else 0)
  }

  lemma TableNext(table: map<Id, int>, order: seq<Id>, g: seq<int>, i: nat)
    requires |order| == |g| && i < |order| && Distinct(order) && TableTo(table, order, g, i) && g[i] >= 0
    ensures TableTo(if g[i] > 0 then table[order[i] := g[i]] else table, order, g, i + 1)
  {
    assert order[i] in SetOf(order);
  }

  lemma TableIs(order: seq<Id>, g: seq<int>, table: map<Id, int>)
    requires |order| == |g| && Distinct(order) && TableTo(table, order, g, |order|)
    ensures table == Table(order, g)
  {
    forall id | id in order
      ensures Table(order, g)[id] == table[id]
    {
      var j :| 0 <= j < |order| && order[j] == id;
      TableAt(order, g, j);
    }
    assert Table(order, g).Keys == table.Keys;
  }
}
