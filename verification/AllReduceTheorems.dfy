/** What the all-reduce promises, for every interleaving and every number of launches. */
module AllReduceTheorems {
  import opened AllReduce
  import opened AllReduceInvariant
  import opened AllReduceSteps
  import opened AllReduceSafety

  /** Every pack a rank has emitted, exactly: its own pair sum with the second neighbour's if the neighbour's owner
      block made that sum, and otherwise with what lies in the neighbour's slot. */
  lemma EmittedOutput<T>(c: Config<T>, cl: seq<Node<T>>, r: nat, s: nat, p: nat)
    requires Inv(c, cl) && r < WORLD && p < c.packs(s) && 1 <= s <= cl[r].rank.blocks[c.owner(s, p)].emitted
    ensures cl[r].rank.output(s, p)
      == Output(c, r, cl[Peer2(r)].second, s, p, cl[Peer2(r)].rank.blocks[c.owner(s, p)].summed)
  {
    hide NodeInv, Handed, Peer1, Peer2, Output;
    assert InvAt(c, cl, r);
  }

  /** Rank independence: whatever the interleaving and the timeouts, every pack of every launch a rank has finished is
      the canonical reduction of the four inputs, the same expression on all four ranks, if the owner block of the
      rank it exchanges pair sums with made that sum. */
  lemma FinishedOutputsAreCanonical<T>(c: Config<T>, states: seq<seq<Node<T>>>, steps: seq<(nat, Action)>, i: nat,
                                       r: nat, s: nat, p: nat)
    requires ValidConfig(c) && Run(c, states, steps) && i < |states| && r < WORLD && Shape(c, states[i])
    requires 1 <= s <= states[i][r].rank.epoch && p < c.packs(s)
    requires s <= states[i][Peer2(r)].rank.blocks[c.owner(s, p)].summed
    ensures states[i][r].rank.output(s, p)
         == c.round(c.add(c.round(c.add(c.input(0, s, p), c.input(1, s, p))),
           c.round(c.add(c.input(2, s, p), c.input(3, s, p)))))
  {
    RunInvariant(c, states, steps, i);
    var cl := states[i];
    var b := c.owner(s, p);
    assert InvAt(c, cl, r);
    EmittedToEpoch(c, r, cl[r], b);
    EmittedOutput(c, cl, r, s, p);
    SummedIsCanonical(c, r, cl[Peer2(r)].second, s, p, cl[Peer2(r)].rank.blocks[b].summed);
  }

  /** The other half: where that block skipped its sum, the output is the rank's own pair sum with what the neighbour's
      slot held at any earlier point of the neighbour's launch, before the skip as well as after it. */
  lemma SkippedOutputsAreStale<T>(c: Config<T>, states: seq<seq<Node<T>>>, steps: seq<(nat, Action)>, j: nat, i: nat,
                                  r: nat, s: nat, p: nat)
    requires ValidConfig(c) && Run(c, states, steps) && j <= i < |states| && r < WORLD && Shape(c, states[i])
      && Shape(c, states[j])
    requires 1 <= s <= states[i][r].rank.epoch && p < c.packs(s)
    requires s > states[i][Peer2(r)].rank.blocks[c.owner(s, p)].summed
    requires states[j][Peer2(r)].rank.launch == states[i][Peer2(r)].rank.launch
    ensures c.slots > 0
    ensures states[i][r].rank.output(s, p)
         == Combined(c, r, PairSum(c, r / 2, s, p), states[j][Peer2(r)].second.send(SlotOf(c, s), p))
  {
    RunInvariant(c, states, steps, i);
    hide Run, NodeInv, Handed, Outputs, ValidConfig, Peer1, Peer2, SlotOf, Top;
    var cl, q := states[i], Peer2(r);
    assert InvAt(c, cl, r) && InvAt(c, cl, q);
    EmittedToEpoch(c, r, cl[r], c.owner(s, p));
    EmittedIsRung(c, cl, r, c.owner(s, p));
    PostedIsPast(c, q, cl[q], true);
    SkippedOutput(c, cl, r, s, p);
    SlotUntouched(c, states, steps, j, i, q, s, p);
  }

  lemma SkippedOutput<T>(c: Config<T>, cl: seq<Node<T>>, r: nat, s: nat, p: nat)
    requires Inv(c, cl) && r < WORLD && p < c.packs(s) && 1 <= s <= cl[r].rank.blocks[c.owner(s, p)].emitted
    requires s > cl[Peer2(r)].rank.blocks[c.owner(s, p)].summed
    ensures cl[r].rank.output(s, p)
      == Combined(c, r, PairSum(c, r / 2, s, p), cl[Peer2(r)].second.send(SlotOf(c, s), p))
  {
    EmittedOutput(c, cl, r, s, p);
    hide InvAt, Peer1, Peer2, PairSum;
  }

  /** Without a round 3 timeout a rank has summed all it has rung for, so that its neighbour's finished outputs are
      canonical. */
  lemma NoRound3TimeoutIsEnough<T>(c: Config<T>, states: seq<seq<Node<T>>>, steps: seq<(nat, Action)>, i: nat, r: nat,
                                   s: nat, p: nat)
    requires ValidConfig(c) && Run(c, states, steps) && i < |states| && r < WORLD && Shape(c, states[i])
    requires 1 <= s <= states[i][r].rank.epoch && p < c.packs(s) && !states[i][Peer2(r)].rank.err2
    ensures states[i][r].rank.output(s, p) == CanonicalReduce(c, s, p)
  {
    RunInvariant(c, states, steps, i);
    var cl, q := states[i], Peer2(r);
    assert InvAt(c, cl, r) && InvAt(c, cl, q);
    EmittedToEpoch(c, r, cl[r], c.owner(s, p));
    EmittedIsRung(c, cl, r, c.owner(s, p));
    hide NodeInv, Handed, Outputs, Run, ValidConfig, Peer1, Peer2, InvAt;
    RungIsSummed(c, q, cl[q], c.owner(s, p));
    FinishedOutputsAreCanonical(c, states, steps, i, r, s, p);
  }

  lemma RungIsSummed<T>(c: Config<T>, q: nat, me: Node<T>, b: nat)
    requires c.slots > 0 && c.blocks >= 1 && NodeInv(c, q, me) && NodeShape(c, me) && b < c.blocks && !me.rank.err2
    ensures me.second.bell <= me.rank.blocks[b].summed
  {
    hide RankInv, FirstBell, LinkOrder, Contents;
  }

  lemma EmittedIsRung<T>(c: Config<T>, cl: seq<Node<T>>, r: nat, b: nat)
    requires Inv(c, cl) && r < WORLD && b < c.blocks
    ensures cl[r].rank.blocks[b].emitted <= cl[Peer2(r)].second.bell
  {
    hide NodeInv, Outputs, Base, Peer1, Peer2;
    assert InvAt(c, cl, r) && InvAt(c, cl, Peer2(r));
    NodeBounds(c, Peer2(r), cl[Peer2(r)]);
    assert cl[r].rank.blocks[b].emitted <= cl[Peer2(r)].second.flag[0] <= cl[Peer2(r)].second.bell;
  }

  /** A pack of the running launch that its owner block has not summed lies in the slot as it did before. */
  lemma UnsummedKept<T>(c: Config<T>, q: nat, me: Node<T>, in1: Link<T>, in2: Link<T>, a: Action, s: nat, p: nat)
    requires ValidConfig(c) && c.slots > 0 && c.blocks >= 1 && NodeInv(c, q, me) && NodeShape(c, me)
      && Enabled(c, me, in1, in2, a)
    requires NodeShape(c, Apply(c, q, me, in1, in2, a)) && p < c.packs(s) && s <= Top(c, me.rank)
    requires Apply(c, q, me, in1, in2, a).rank.launch == me.rank.launch
    requires Apply(c, q, me, in1, in2, a).rank.blocks[c.owner(s, p)].summed < s
    ensures me.rank.blocks[c.owner(s, p)].summed < s
    ensures Apply(c, q, me, in1, in2, a).second.send(SlotOf(c, s), p) == me.second.send(SlotOf(c, s), p)
  {
    hide NodeInv, Apply, SlotOf, Matched, PowerOfTwo;
    var b := c.owner(s, p);
    OwnerIn(c, s, p);
    hide ValidConfig;
    SummedEffect(c, q, me, in1, in2, a, b);
    LaunchSteps(c, q, me, in1, in2, a);
    BlockOrdered(c, q, me, b);
    if a.Sum? && !a.skip { SumApart(c, q, me, in1, in2, a.b, b, s); }
    SendKept(c, q, me, in1, in2, a, s, p);
  }

  lemma BlockOrdered<T>(c: Config<T>, q: nat, me: Node<T>, b: nat)
    requires ValidConfig(c) && c.slots > 0 && c.blocks >= 1 && NodeInv(c, q, me) && NodeShape(c, me) && b < c.blocks
    ensures me.rank.blocks[b].summed <= me.rank.blocks[b].w2
  {
    Orders(c, q, me);
    hide NodeInv;
  }

  lemma LaunchSteps<T>(c: Config<T>, q: nat, me: Node<T>, in1: Link<T>, in2: Link<T>, a: Action)
    requires c.slots > 0 && c.blocks >= 1 && NodeShape(c, me) && Enabled(c, me, in1, in2, a)
    ensures Apply(c, q, me, in1, in2, a).rank.launch == if a.Relaunch? then me.rank.launch + 1 else me.rank.launch
    ensures Apply(c, q, me, in1, in2, a).rank.launch == me.rank.launch ==>
      Apply(c, q, me, in1, in2, a).rank.base == me.rank.base
  {
    hide Matched, LastArrival, Write, EmitOutput, InputOf, SumOf;
  }

  lemma {:induction false} LaunchGrows<T>(c: Config<T>, states: seq<seq<Node<T>>>, steps: seq<(nat, Action)>, j: nat,
                                          i: nat, q: nat)
    requires ValidConfig(c) && Run(c, states, steps) && j <= i < |states| && q < WORLD && Shape(c, states[i])
      && Shape(c, states[j])
    ensures states[j][q].rank.launch <= states[i][q].rank.launch
    ensures states[j][q].rank.launch == states[i][q].rank.launch ==> states[j][q].rank.base == states[i][q].rank.base
    decreases i - j
  {
    hide Enabled, Apply, Init, NodeShape;
    if j < i {
      var cl, r, a := states[i - 1], steps[i - 1].0, steps[i - 1].1;
      LaunchGrows(c, states, steps, j, i - 1, q);
      if r == q { LaunchSteps(c, q, cl[q], In1(cl, q), In2(cl, q), a); }
    }
  }

  lemma RunFacts<T>(c: Config<T>, states: seq<seq<Node<T>>>, steps: seq<(nat, Action)>, i: nat)
    requires ValidConfig(c) && Run(c, states, steps) && i < |states|
    ensures c.slots > 0 && |states| == |steps| + 1 && Shape(c, states[i])
  {
    RunInvariant(c, states, steps, i);
    hide InvAt;
  }

  lemma SlotStep<T>(c: Config<T>, states: seq<seq<Node<T>>>, steps: seq<(nat, Action)>, i: nat, q: nat, s: nat, p: nat)
    requires ValidConfig(c) && Run(c, states, steps) && i < |steps| && q < WORLD && Shape(c, states[i])
      && Shape(c, states[i + 1])
    requires states[i][q].rank.launch == states[i + 1][q].rank.launch && p < c.packs(s)
      && s <= Top(c, states[i][q].rank)
    requires states[i + 1][q].rank.blocks[c.owner(s, p)].summed < s
    ensures c.slots > 0 && states[i][q].second.send(SlotOf(c, s), p) == states[i + 1][q].second.send(SlotOf(c, s), p)
    ensures states[i][q].rank.blocks[c.owner(s, p)].summed < s
  {
    hide Enabled, Apply, Init, NodeInv;
    var cl, r, a := states[i], steps[i].0, steps[i].1;
    if r == q {
      InvNode(c, states, steps, i, q);
      UnsummedKept(c, q, cl[q], In1(cl, q), In2(cl, q), a, s, p);
    }
  }

  lemma {:induction false} SlotUntouched<T>(c: Config<T>, states: seq<seq<Node<T>>>, steps: seq<(nat, Action)>, j: nat,
                                            i: nat, q: nat, s: nat, p: nat)
    requires ValidConfig(c) && Run(c, states, steps) && j <= i < |states| && q < WORLD && Shape(c, states[i])
      && Shape(c, states[j])
    requires states[j][q].rank.launch == states[i][q].rank.launch && p < c.packs(s)
    requires states[i][q].rank.blocks[c.owner(s, p)].summed < s <= Top(c, states[i][q].rank)
    ensures c.slots > 0 && states[j][q].second.send(SlotOf(c, s), p) == states[i][q].second.send(SlotOf(c, s), p)
    decreases i - j
  {
    hide Run, NodeShape, ValidConfig, SlotOf, Inv, RankShape, PowerOfTwo;
    RunFacts(c, states, steps, i);
    if j < i {
      RunFacts(c, states, steps, i - 1);
      LaunchGrows(c, states, steps, j, i - 1, q);
      LaunchGrows(c, states, steps, i - 1, i, q);
      SlotStep(c, states, steps, i - 1, q, s, p);
      SlotUntouched(c, states, steps, j, i - 1, q, s, p);
    }
  }

  lemma InvNode<T>(c: Config<T>, states: seq<seq<Node<T>>>, steps: seq<(nat, Action)>, i: nat, q: nat)
    requires ValidConfig(c) && Run(c, states, steps) && i < |states| && q < WORLD
    ensures c.slots > 0 && |states[i]| == WORLD && NodeInv(c, q, states[i][q])
  {
    RunInvariant(c, states, steps, i);
    hide NodeInv, Handed, Outputs;
    assert InvAt(c, states[i], q);
  }

  lemma EmittedToEpoch<T>(c: Config<T>, r: nat, me: Node<T>, b: nat)
    requires ValidConfig(c) && c.slots > 0 && NodeInv(c, r, me) && NodeShape(c, me) && b < c.blocks
    ensures me.rank.blocks[b].emitted >= me.rank.epoch
  {
    hide Contents, FirstBell, SecondBell, LinkOrder, Base;
    assert BlockOrder(c, me.rank, me.rank.blocks[b]);
    if AllDone(me.rank) && !me.rank.poison { FinishedLaunch(c, me.rank); }
  }

  /** The epoch moves only at the last block's tail, when every block has finished and neither exchange has timed
      out, and then by the launch's chunks. */
  lemma EpochNeedsSuccess<T>(c: Config<T>, r: nat, me: Node<T>, in1: Link<T>, in2: Link<T>, a: Action)
    requires ValidConfig(c) && c.slots > 0 && c.blocks >= 1 && NodeInv(c, r, me) && NodeShape(c, me)
      && Enabled(c, me, in1, in2, a)
    requires Apply(c, r, me, in1, in2, a).rank.epoch != me.rank.epoch
    ensures a.Tail? && !me.rank.err1 && !me.rank.err2
    ensures var rk := Apply(c, r, me, in1, in2, a).rank;
      AllDone(rk) && rk.epoch == me.rank.base + c.chunks(me.rank.launch)
  {
    EpochMovesAtTail(c, r, me, in1, in2, a);
    hide Contents, FirstBell, SecondBell, LinkOrder, Base, LastArrival;
    var rk' := Apply(c, r, me, in1, in2, a).rank;
    CountersTail(c, me.rank, a.b, rk'.epoch);
  }

  lemma EpochMovesAtTail<T>(c: Config<T>, r: nat, me: Node<T>, in1: Link<T>, in2: Link<T>, a: Action)
    requires c.slots > 0 && c.blocks >= 1 && NodeShape(c, me) && Enabled(c, me, in1, in2, a)
    ensures a.Tail? || Apply(c, r, me, in1, in2, a).rank.epoch == me.rank.epoch
  {
    hide Matched, LastArrival, Write, EmitOutput, InputOf, SumOf;
  }

  /** The entry barrier: a block hands out the first sum of a launch only after all four ranks have entered it, so that
      no rank finishes a launch before all have begun it. */
  lemma EntryBarrier<T>(c: Config<T>, cl: seq<Node<T>>, r: nat, b: nat, q: nat)
    requires Inv(c, cl) && r < WORLD && q < WORLD && b < c.blocks && cl[r].rank.blocks[b].emitted > cl[r].rank.base
    ensures cl[r].rank.launch <= cl[q].rank.launch
  {
    BellBound(c, cl, Peer1(Peer2(r)));
    hide NodeInv, Handed, Outputs, Base, ValidConfig, InvAt, Shape;
    var d, n := Peer2(r), cl[r].rank.launch;
    assert Peer1(d) == q || q == Peer1(r) || q == d || q == r;
    Rung(c, cl, r, b);
    Heard(c, cl, r); Heard(c, cl, d); Heard(c, cl, Peer1(r));
    EnteredFrom(c, n, cl[Peer1(r)].rank.launch, cl[Peer1(r)].first.bell);
    EnteredFrom(c, n, cl[d].rank.launch, cl[d].second.bell);
    EnteredFrom(c, n, cl[Peer1(d)].rank.launch, cl[Peer1(d)].first.bell);
  }

  lemma BellBound<T>(c: Config<T>, cl: seq<Node<T>>, r: nat)
    requires Inv(c, cl) && r < WORLD
    ensures cl[r].first.bell <= Base(c, cl[r].rank.launch + 1)
  {
    assert InvAt(c, cl, r);
    hide NodeInv, Base;
    NodeBounds(c, r, cl[r]);
  }

  /** Behind one emitted chunk stand both neighbours' doorbells. */
  lemma Rung<T>(c: Config<T>, cl: seq<Node<T>>, r: nat, b: nat)
    requires Inv(c, cl) && r < WORLD && b < c.blocks && cl[r].rank.blocks[b].emitted > cl[r].rank.base
    ensures cl[r].rank.base < cl[Peer1(r)].first.bell <= Base(c, cl[Peer1(r)].rank.launch + 1)
    ensures cl[r].rank.base < cl[Peer2(r)].second.bell <= Base(c, cl[Peer2(r)].rank.launch + 1)
  {
    hide NodeInv, Outputs, Base, Peer1, Peer2;
    assert InvAt(c, cl, r) && InvAt(c, cl, Peer1(r)) && InvAt(c, cl, Peer2(r));
    NodeBounds(c, Peer1(r), cl[Peer1(r)]);
    NodeBounds(c, Peer2(r), cl[Peer2(r)]);
    EmittedIsSummed(c, r, cl[r], b);
    assert cl[r].rank.blocks[b].summed <= cl[Peer1(r)].first.flag[0];
    assert cl[r].rank.blocks[b].emitted <= cl[Peer2(r)].second.flag[0];
    assert cl[Peer1(r)].first.flag[0] <= cl[Peer1(r)].first.bell
      && cl[Peer2(r)].second.flag[0] <= cl[Peer2(r)].second.bell;
  }

  lemma EmittedIsSummed<T>(c: Config<T>, r: nat, me: Node<T>, b: nat)
    requires ValidConfig(c) && c.slots > 0 && NodeInv(c, r, me) && b < c.blocks
      && me.rank.blocks[b].emitted > me.rank.base
    ensures me.rank.blocks[b].summed > me.rank.base
  {
    Orders(c, r, me);
    hide NodeInv;
  }

  lemma EnteredFrom<T>(c: Config<T>, n: nat, m: nat, bell: nat)
    requires ValidConfig(c) && Base(c, n) < bell <= Base(c, m + 1)
    ensures n <= m
  {
    BaseMonotone(c, m + 1, n);
  }

  /** No slot or flag word is reused early. When rank `r` writes sequence `s` of its running launch, or its proxy or a
      lane handles it, both lanes have delivered the slot's previous sequence, and every block of the receiver is past
      reading it. */
  lemma SlotIsFree<T>(c: Config<T>, cl: seq<Node<T>>, r: nat, s: nat)
    requires Inv(c, cl) && r < WORLD && c.slots < s <= Top(c, cl[r].rank)
    ensures SlotOf(c, s - c.slots) == SlotOf(c, s)
    ensures forall l :: 0 <= l < 2 ==> s - c.slots <= cl[r].first.flag[l] && s - c.slots <= cl[r].second.flag[l]
    ensures forall b :: 0 <= b < c.blocks ==>
      s - c.slots <= cl[Peer1(r)].rank.blocks[b].summed && s - c.slots <= cl[Peer2(r)].rank.blocks[b].emitted
  {
    hide NodeInv, Handed, Outputs, Base, Peer1, Peer2, SlotOf, U32;
    SlotReuse(c, s);
    Lap(c, cl, r);
    var q, d := Peer1(r), Peer2(r);
    assert InvAt(c, cl, q) && InvAt(c, cl, d);
    Orders(c, q, cl[q]);
    Orders(c, d, cl[d]);
    Heard(c, cl, r); Heard(c, cl, q); Heard(c, cl, d);
    Lag(c, cl, r, q); Lag(c, cl, r, d);
    LaunchPair(c, cl[r].rank.launch, cl[q].rank.launch);
    LaunchPair(c, cl[r].rank.launch, cl[d].rank.launch);
  }

  /** The proxy never finds more doorbells pending than there are slots, so that its catch-up never fails, and it posts
      every sequence with that sequence's own pack count. */
  lemma ProxyKeepsUp<T>(c: Config<T>, cl: seq<Node<T>>, r: nat, second: bool)
    requires Inv(c, cl) && r < WORLD
    ensures var lk := LinkOf(cl[r], second); lk.posted <= lk.bell <= lk.posted + c.slots
    ensures var lk := LinkOf(cl[r], second); forall s: nat :: 1 <= s <= lk.posted ==> lk.sizes(s) == c.packs(s)
  {
    assert InvAt(c, cl, r);
    NodeBounds(c, r, cl[r]);
    Lap(c, cl, r);
    hide RankInv, FirstBell, SecondBell, Sent, Received, Handed, Outputs, Base;
    assert Words(c, LinkOf(cl[r], second));
    assert cl[r].first.flag[0] <= cl[r].first.data[0] <= cl[r].first.posted;
    assert cl[r].second.flag[0] <= cl[r].second.data[0] <= cl[r].second.posted;
  }
}
