/** Safety of the all-reduce over every run: what is read is what was sent, nothing is overwritten early, and every
    finished output is the canonical reduction. */
module AllReduceSafety {
  import opened AllReduce
  import opened AllReduceInvariant
  import opened AllReduceSteps

  ghost predicate CanStep<T>(c: Config<T>, cl: seq<Node<T>>, r: nat, a: Action)
    requires c.slots > 0 && Shape(c, cl)
  {
    r < WORLD && Enabled(c, cl[r], In1(cl, r), In2(cl, r), a)
  }

  ghost function Next<T>(c: Config<T>, cl: seq<Node<T>>, r: nat, a: Action): seq<Node<T>>
    requires c.slots > 0 && c.blocks >= 1 && Shape(c, cl) && CanStep(c, cl, r, a)
  {
    cl[r := Apply(c, r, cl[r], In1(cl, r), In2(cl, r), a)]
  }

  // ---------------------------------------------------------------- reads

  /** A sequence whose flags are up is in the receive slot, every block's share of it, and not yet overwritten. */
  lemma FlaggedArrived<T>(c: Config<T>, second: bool, q: nat, rk: Rank<T>, lk: Link<T>, s: nat, b: nat)
    requires ValidConfig(c) && c.slots > 0 && RankShape(c, rk) && LinkOrder(lk) && Contents(c, second, q, rk, lk)
      && b < c.blocks
    requires s >= 1 && lk.flag[0] >= s && lk.flag[1] >= s && Top(c, rk) < s + c.slots
    ensures ShareArrived(c, second, q, lk, s, b, Good(rk.blocks[b], second))
  {
    hide Words, Sourced;
    forall p: nat | p < c.packs(s) && c.owner(s, p) == b
      ensures lk.recv(SlotOf(c, s), p) == Sourced(c, second, q, lk, s, p, Good(rk.blocks[b], second))
    {
      var l := c.lane(s, p);
      assert Received(c, second, q, lk, l, b, Good(rk.blocks[b], second), Top(c, rk));
      assert lk.flag[l] <= lk.data[l];
    }
  }

  /** A wait that passes passes on the sequence it waits for, and on nothing older or newer. */
  lemma WaitOn<T>(c: Config<T>, second: bool, q: nat, peer: Node<T>, s: nat)
    requires ValidConfig(c) && c.slots > 0 && NodeInv(c, q, peer) && NodeShape(c, peer) && s >= 1
    requires Top(c, peer.rank) < s + c.slots
    requires s <= LinkOf(peer, second).flag[0] + c.slots && s <= LinkOf(peer, second).flag[1] + c.slots
    ensures Matched(c, LinkOf(peer, second), s) <==>
      LinkOf(peer, second).flag[0] >= s && LinkOf(peer, second).flag[1] >= s
    ensures Matched(c, LinkOf(peer, second), s) ==> forall b :: 0 <= b < c.blocks ==>
      ShareArrived(c, second, q, LinkOf(peer, second), s, b, Good(peer.rank.blocks[b], second))
  {
    hide RankInv, FirstBell, SecondBell, Words, ShareArrived, Matched, Base, Sent, Received;
    NodeBounds(c, q, peer);
    var lk := LinkOf(peer, second);
    assert Contents(c, second, q, peer.rank, lk);
    MatchedIff(c, lk, s);
    if lk.flag[0] >= s && lk.flag[1] >= s {
      RankShapeOf(c, peer.rank);
      forall b: nat | b < c.blocks
        ensures ShareArrived(c, second, q, lk, s, b, Good(peer.rank.blocks[b], second))
      {
        FlaggedArrived(c, second, q, peer.rank, lk, s, b);
      }
    }
  }

  lemma RankShapeOf<T>(c: Config<T>, rk: Rank<T>)
    requires c.blocks >= 1 && RankInv(c, rk)
    ensures RankShape(c, rk)
  {
  }

  /** Round 2 proceeds exactly when both stripes of its chunk have arrived, and then reads the first neighbour's
      input. */
  lemma WaitFirst<T>(c: Config<T>, cl: seq<Node<T>>, r: nat, s: nat)
    requires Inv(c, cl) && r < WORLD && cl[r].rank.base < s <= Top(c, cl[r].rank)
    ensures Matched(c, In1(cl, r), s) <==> In1(cl, r).flag[0] >= s && In1(cl, r).flag[1] >= s
    ensures Matched(c, In1(cl, r), s) ==> Arrived(c, false, Peer1(r), In1(cl, r), s)
  {
    hide NodeInv, Handed, Outputs, Peer1, Peer2, Base, Matched, Arrived, ShareArrived;
    assert InvAt(c, cl, r) && InvAt(c, cl, Peer1(r));
    assert c.chunks(cl[r].rank.launch) in {1, 2, 4} && 2 * c.chunks(cl[r].rank.launch) <= c.slots;
    Lap(c, cl, r);
    Heard(c, cl, r);
    var peer := cl[Peer1(r)];
    WaitOn(c, false, Peer1(r), peer, s);
    if Matched(c, In1(cl, r), s) {
      PostedIsPast(c, Peer1(r), peer, false);
      NodeBounds(c, Peer1(r), peer);
      WholeArrived(c, Peer1(r), peer, s);
    }
  }

  /** The first exchange skips nothing. */
  lemma WholeArrived<T>(c: Config<T>, q: nat, peer: Node<T>, s: nat)
    requires ValidConfig(c) && c.slots > 0 && RankShape(c, peer.rank)
    requires forall b :: 0 <= b < c.blocks ==>
      s <= peer.rank.blocks[b].w1 && ShareArrived(c, false, q, peer.first, s, b, Good(peer.rank.blocks[b], false))
    ensures Arrived(c, false, q, peer.first, s)
  {
    hide PowerOfTwo, Value, SlotOf;
    forall p: nat | p < c.packs(s)
      ensures peer.first.recv(SlotOf(c, s), p) == Value(c, false, q, s, p)
    {
      var b := c.owner(s, p);
      assert ShareArrived(c, false, q, peer.first, s, b, Good(peer.rank.blocks[b], false));
    }
  }

  /** Round 3 likewise, on every pair sum the second neighbour made; where one of its blocks skipped its sum the wait
      passes on what lies in that neighbour's slot. */
  lemma WaitSecond<T>(c: Config<T>, cl: seq<Node<T>>, r: nat, s: nat)
    requires Inv(c, cl) && r < WORLD && cl[r].rank.base < s <= Top(c, cl[r].rank)
    ensures Matched(c, In2(cl, r), s) <==> In2(cl, r).flag[0] >= s && In2(cl, r).flag[1] >= s
    ensures Matched(c, In2(cl, r), s) ==> forall b :: 0 <= b < c.blocks ==>
      ShareArrived(c, true, Peer2(r), In2(cl, r), s, b, cl[Peer2(r)].rank.blocks[b].summed)
  {
    hide NodeInv, Handed, Outputs, Peer1, Peer2, Base, Matched, ShareArrived;
    assert InvAt(c, cl, r) && InvAt(c, cl, Peer2(r));
    assert c.chunks(cl[r].rank.launch) in {1, 2, 4} && 2 * c.chunks(cl[r].rank.launch) <= c.slots;
    Lap(c, cl, r);
    Heard(c, cl, r);
    WaitOn(c, true, Peer2(r), cl[Peer2(r)], s);
  }

  // ---------------------------------------------------------------- one step

  lemma NodeKept<T>(c: Config<T>, cl: seq<Node<T>>, r: nat, a: Action)
    requires Inv(c, cl) && CanStep(c, cl, r, a) && InvAt(c, cl, r) && RankOrder(c, cl[r].rank)
    ensures NodeInv(c, r, Apply(c, r, cl[r], In1(cl, r), In2(cl, r), a))
  {
    hide NodeInv, Handed, Outputs, Apply, Base, Matched, Arrived, Peer1, Peer2;
    var me, in1, in2 := cl[r], In1(cl, r), In2(cl, r);
    match a {
      case Stage(b) => StepStage(c, r, me, in1, in2, b);
      case Arrive1(b) => StepArrive1(c, r, me, in1, in2, b);
      case Sum(b, skip) =>
        assert BlockOrder(c, me.rank, me.rank.blocks[b]);
        WaitFirst(c, cl, r, me.rank.blocks[b].w2 + 1);
        StepSum(c, r, me, in1, in2, b, skip);
      case Timeout1(b) => StepTimeout1(c, r, me, in1, in2, b);
      case Arrive2(b) => StepArrive2(c, r, me, in1, in2, b);
      case Emit(b, skip) => StepEmit(c, r, me, in1, in2, b, skip);
      case Timeout2(b) => StepTimeout2(c, r, me, in1, in2, b);
      case Tail(b) => StepTail(c, r, me, in1, in2, b);
      case Relaunch => StepRelaunch(c, r, me, in1, in2);
      case Post(_) =>
        Lap(c, cl, r);
        StepLink(c, r, me, in1, in2, a, Top(c, cl[Peer1(r)].rank), Top(c, cl[Peer2(r)].rank));
      case Data(_, _) =>
        Lap(c, cl, r);
        StepLink(c, r, me, in1, in2, a, Top(c, cl[Peer1(r)].rank), Top(c, cl[Peer2(r)].rank));
      case Flag(_, _) =>
        Lap(c, cl, r);
        StepLink(c, r, me, in1, in2, a, Top(c, cl[Peer1(r)].rank), Top(c, cl[Peer2(r)].rank));
    }
  }

  /** The bookkeeping of a step: flags only rise, an error is never cleared, and a block step touches one block. */
  ghost predicate Effect<T>(c: Config<T>, me: Node<T>, a: Action, me': Node<T>)
    requires NodeShape(c, me)
  {
    && NodeShape(c, me')
    && (forall l :: 0 <= l < 2 ==> me.first.flag[l] <= me'.first.flag[l] && me.second.flag[l] <= me'.second.flag[l])
    && (me.rank.err1 ==> me'.rank.err1) && (me.rank.err2 ==> me'.rank.err2) && (a.Timeout1? ==> me'.rank.err1)
    && (!a.Arrive2? ==> me'.second.bell == me.second.bell)
    && ((a.Emit? && !a.skip) || me'.rank.output == me.rank.output)
    && (!BlockAction(a) && !a.Relaunch? ==> me'.rank == me.rank)
    && (BlockAction(a) ==>
          && a.b < c.blocks
          && var k, k' := me.rank.blocks[a.b], me'.rank.blocks[a.b];
          && me'.rank.blocks == me.rank.blocks[a.b := k']
          && k'.summed == (if a.Sum? && !a.skip then k.w2 + 1 else k.summed)
          && k'.w2 == (if a.Sum? || a.Timeout1? then k.w2 + 1 else k.w2)
          && k'.emitted == (if a.Emit? && !a.skip then k.w3 + 1 else k.emitted))
  }

  lemma StepEffect<T>(c: Config<T>, r: nat, me: Node<T>, in1: Link<T>, in2: Link<T>, a: Action)
    requires ValidConfig(c) && c.slots > 0 && c.blocks >= 1 && NodeShape(c, me) && Enabled(c, me, in1, in2, a)
      && RankOrder(c, me.rank)
    ensures Effect(c, me, a, Apply(c, r, me, in1, in2, a))
  {
    hide Base, Matched, LastArrival, Write, EmitOutput;
    WriteEffect(c, me.first);
    WriteEffect(c, me.second);
  }

  lemma WriteEffect<T>(c: Config<T>, lk: Link<T>)
    requires c.slots > 0
    ensures forall b, s, v :: Write(c, lk, b, s, v) == lk.(send := Write(c, lk, b, s, v).send)
  {
  }

  /** A block step: only the block and the doorbell have to be checked. */
  lemma HandedBlock<T>(c: Config<T>, me: Node<T>, me': Node<T>, in1: Link<T>, in2: Link<T>, b: nat)
    requires NodeShape(c, me) && NodeShape(c, me') && LinkShape(in1) && LinkShape(in2) && Handed(c, me, in1, in2)
      && b < c.blocks
    requires me'.rank.blocks == me.rank.blocks[b := me'.rank.blocks[b]] && (me.rank.err1 ==> me'.rank.err1)
    requires forall l :: 0 <= l < 2 ==> me'.second.bell <= in1.flag[l]
    requires var k := me'.rank.blocks[b];
      forall l :: 0 <= l < 2 ==>
        k.summed <= in1.flag[l] && (!me'.rank.err1 ==> k.w2 <= in1.flag[l]) && k.emitted <= in2.flag[l]
    ensures Handed(c, me', in1, in2)
  {
  }

  lemma HandedOwn<T>(c: Config<T>, r: nat, me: Node<T>, in1: Link<T>, in2: Link<T>, a: Action)
    requires ValidConfig(c) && c.slots > 0 && NodeInv(c, r, me) && NodeShape(c, me) && Enabled(c, me, in1, in2, a)
    requires LinkShape(in1) && LinkShape(in2) && Handed(c, me, in1, in2) && RankOrder(c, me.rank)
    requires a.Sum? ==> in1.flag[0] > me.rank.blocks[a.b].w2 && in1.flag[1] > me.rank.blocks[a.b].w2
    requires a.Emit? ==> in2.flag[0] > me.rank.blocks[a.b].w3 && in2.flag[1] > me.rank.blocks[a.b].w3
    requires NodeShape(c, Apply(c, r, me, in1, in2, a))
    ensures Handed(c, Apply(c, r, me, in1, in2, a), in1, in2)
  {
    hide Base, Matched, LastArrival, RankInv, FirstBell, SecondBell, LinkOrder, Contents, Apply;
    if a.Relaunch? {
      HandedRelaunch(c, r, me, in1, in2);
    } else {
      StepEffect(c, r, me, in1, in2, a);
      if BlockAction(a) {
        assert BlockOrder(c, me.rank, me.rank.blocks[a.b]);
        if a.Arrive2? { StepArrive2(c, r, me, in1, in2, a.b); }
        HandedBlock(c, me, Apply(c, r, me, in1, in2, a), in1, in2, a.b);
      }
    }
  }

  lemma HandedRelaunch<T>(c: Config<T>, r: nat, me: Node<T>, in1: Link<T>, in2: Link<T>)
    requires ValidConfig(c) && c.slots > 0 && NodeInv(c, r, me) && NodeShape(c, me)
      && Enabled(c, me, in1, in2, Relaunch)
    requires LinkShape(in1) && LinkShape(in2) && Handed(c, me, in1, in2) && RankOrder(c, me.rank)
    requires NodeShape(c, Apply(c, r, me, in1, in2, Relaunch))
    ensures Handed(c, Apply(c, r, me, in1, in2, Relaunch), in1, in2)
  {
    FinishedLaunch(c, me.rank);
    StepRelaunch(c, r, me, in1, in2);
    hide NodeInv, RankOrder, Base;
    var me' := Apply(c, r, me, in1, in2, Relaunch);
    forall b, l | 0 <= b < c.blocks && 0 <= l < 2
      ensures me'.rank.blocks[b] == Fresh(me.rank.epoch)
      ensures me.rank.epoch <= in1.flag[l] && me.rank.epoch <= in2.flag[l]
    {
      assert me.rank.blocks[b].summed == me.rank.epoch;
    }
  }

  /** A pack emitted without a skip: the rank's own pair sum with what the second neighbour had for it. */
  lemma EmitValue<T>(c: Config<T>, r: nat, me: Node<T>, in2: Link<T>, b: nat, s: nat, p: nat, summed: nat)
    requires ValidConfig(c) && c.slots > 0 && r < WORLD && RankShape(c, me.rank) && b < c.blocks
    requires Sent(c, true, r, me.second, b, s, Top(c, me.rank)) && 1 <= s && Top(c, me.rank) < s + c.slots
    requires ShareArrived(c, true, Peer2(r), in2, s, b, summed) && p < c.packs(s) && c.owner(s, p) == b
    ensures Round3Value(c, r, me.second, in2, s, p) == Output(c, r, in2, s, p, summed)
    ensures s <= summed ==> Round3Value(c, r, me.second, in2, s, p) == CanonicalReduce(c, s, p)
  {
    assert me.second.send(SlotOf(c, s), p) == Value(c, true, r, s, p);
    assert in2.recv(SlotOf(c, s), p) == Sourced(c, true, Peer2(r), in2, s, p, summed);
    if s <= summed { SummedIsCanonical(c, r, in2, s, p, summed); }
  }

  /** With both pair sums made the output is the canonical reduction, on every rank. */
  lemma SummedIsCanonical<T>(c: Config<T>, r: nat, two: Link<T>, s: nat, p: nat, summed: nat)
    requires c.slots > 0 && r < WORLD && s <= summed
    ensures Output(c, r, two, s, p, summed) == CanonicalReduce(c, s, p)
  {
    assert r / 2 == (if r < 2 then 0 else 1) && Peer2(r) / 2 == (if r < 2 then 1 else 0);
  }

  lemma EmitEffect<T>(c: Config<T>, r: nat, me: Node<T>, in1: Link<T>, in2: Link<T>, b: nat)
    requires ValidConfig(c) && c.slots > 0 && c.blocks >= 1 && NodeShape(c, me) && RankOrder(c, me.rank)
    requires Enabled(c, me, in1, in2, Emit(b, false))
    ensures Apply(c, r, me, in1, in2, Emit(b, false)).rank.output
      == EmitOutput(c, r, me, in2, b, me.rank.blocks[b].w3 + 1)
  {
    hide Base, Matched, EmitOutput;
  }

  lemma OutputsEmit<T>(c: Config<T>, r: nat, me: Node<T>, in1: Link<T>, two: Node<T>, b: nat)
    requires ValidConfig(c) && c.slots > 0 && NodeInv(c, r, me) && NodeShape(c, me) && r < WORLD
      && RankOrder(c, me.rank)
    requires RankShape(c, two.rank) && Enabled(c, me, in1, two.second, Emit(b, false)) && Outputs(c, r, me.rank, two)
    requires ShareArrived(c, true, Peer2(r), two.second, me.rank.blocks[b].w3 + 1, b, two.rank.blocks[b].summed)
    ensures Outputs(c, r, Apply(c, r, me, in1, two.second, Emit(b, false)).rank, two)
  {
    Orders(c, r, me);
    SecondSent(c, r, me, b);
    StepEffect(c, r, me, in1, two.second, Emit(b, false));
    EmitEffect(c, r, me, in1, two.second, b);
    hide NodeInv, RankOrder, Sent, Base, Matched, Output, Round3Value, ShareArrived, Apply;
    var rk, k := me.rank, me.rank.blocks[b];
    var s := k.w3 + 1;
    var rk' := Apply(c, r, me, in1, two.second, Emit(b, false)).rank;
    assert k.summed == Top(c, rk);
    SentPrefix(c, true, r, me.second, b, k.summed, s, Top(c, rk));
    forall j: nat, i: nat, p: nat {:trigger rk'.blocks[j], rk'.output(i, p)} |
      j < c.blocks && 1 <= i <= rk'.blocks[j].emitted && p < c.packs(i) && c.owner(i, p) == j
      ensures rk'.output(i, p) == Output(c, r, two.second, i, p, two.rank.blocks[j].summed)
    {
      if j == b && i == s {
        EmitValue(c, r, me, two.second, b, s, p, two.rank.blocks[b].summed);
      } else {
        assert rk.blocks[j].emitted >= i && rk'.output(i, p) == rk.output(i, p);
      }
    }
  }

  lemma SecondSent<T>(c: Config<T>, r: nat, me: Node<T>, b: nat)
    requires c.slots > 0 && c.blocks >= 1 && NodeInv(c, r, me) && NodeShape(c, me) && b < c.blocks
    ensures Sent(c, true, r, me.second, b, me.rank.blocks[b].summed, Top(c, me.rank))
  {
    hide RankInv, FirstBell, SecondBell, LinkOrder, Words, Sent, Received;
    assert Contents(c, true, r, me.rank, me.second);
    assert Sent(c, true, r, me.second, b, Good(me.rank.blocks[b], true), Top(c, me.rank));
  }

  lemma SentPrefix<T>(c: Config<T>, second: bool, r: nat, lk: Link<T>, b: nat, good: nat, s: nat, top: nat)
    requires c.slots > 0 && Sent(c, second, r, lk, b, good, top) && s <= good
    ensures Sent(c, second, r, lk, b, s, top)
  {
  }

  /** A step that emits nothing leaves the outputs and how far they go as they were. */
  lemma EmittedEffect<T>(c: Config<T>, r: nat, me: Node<T>, in1: Link<T>, in2: Link<T>, a: Action)
    requires ValidConfig(c) && c.slots > 0 && c.blocks >= 1 && NodeInv(c, r, me) && NodeShape(c, me)
      && Enabled(c, me, in1, in2, a)
    requires NodeShape(c, Apply(c, r, me, in1, in2, a)) && !(a.Emit? && !a.skip)
    ensures Apply(c, r, me, in1, in2, a).rank.output == me.rank.output
    ensures forall j :: 0 <= j < c.blocks ==>
      Apply(c, r, me, in1, in2, a).rank.blocks[j].emitted == me.rank.blocks[j].emitted
  {
    Orders(c, r, me);
    StepEffect(c, r, me, in1, in2, a);
    hide RankOrder, Contents, FirstBell, SecondBell, LinkOrder, Apply;
    if a.Relaunch? {
      FinishedLaunch(c, me.rank);
      StepRelaunch(c, r, me, in1, in2);
    }
  }

  lemma OutputsOwn<T>(c: Config<T>, r: nat, me: Node<T>, in1: Link<T>, two: Node<T>, a: Action)
    requires ValidConfig(c) && c.slots > 0 && NodeInv(c, r, me) && NodeShape(c, me) && r < WORLD
      && RankOrder(c, me.rank)
    requires RankShape(c, two.rank) && Enabled(c, me, in1, two.second, a) && Outputs(c, r, me.rank, two)
    requires a.Emit? ==>
      ShareArrived(c, true, Peer2(r), two.second, me.rank.blocks[a.b].w3 + 1, a.b, two.rank.blocks[a.b].summed)
    requires NodeShape(c, Apply(c, r, me, in1, two.second, a))
    ensures Outputs(c, r, Apply(c, r, me, in1, two.second, a).rank, two)
  {
    hide NodeInv, RankOrder, Base, Matched, LastArrival, Outputs, ShareArrived, Apply;
    if a.Emit? && !a.skip {
      OutputsEmit(c, r, me, in1, two, a.b);
    } else {
      OutputsSame(c, r, me, in1, two, a);
    }
  }

  lemma OutputsSame<T>(c: Config<T>, r: nat, me: Node<T>, in1: Link<T>, two: Node<T>, a: Action)
    requires ValidConfig(c) && c.slots > 0 && NodeInv(c, r, me) && NodeShape(c, me) && r < WORLD
      && RankOrder(c, me.rank)
    requires RankShape(c, two.rank) && Enabled(c, me, in1, two.second, a) && Outputs(c, r, me.rank, two)
      && !(a.Emit? && !a.skip)
    requires NodeShape(c, Apply(c, r, me, in1, two.second, a))
    ensures Outputs(c, r, Apply(c, r, me, in1, two.second, a).rank, two)
  {
    EmittedEffect(c, r, me, in1, two.second, a);
    hide NodeInv, RankOrder, Base, Matched, LastArrival, Output, Apply, Enabled, ValidConfig;
    var rk, rk' := me.rank, Apply(c, r, me, in1, two.second, a).rank;
    forall j: nat, i: nat, p: nat {:trigger rk'.blocks[j], rk'.output(i, p)} |
      j < c.blocks && 1 <= i <= rk'.blocks[j].emitted && p < c.packs(i) && c.owner(i, p) == j
      ensures rk'.output(i, p) == Output(c, r, two.second, i, p, two.rank.blocks[j].summed)
    {
      assert rk'.blocks[j].emitted == rk.blocks[j].emitted;
      assert rk.output(i, p) == Output(c, r, two.second, i, p, two.rank.blocks[j].summed);
    }
  }

  // ---------------------------------------------------------------- what a neighbour's step leaves alone

  /** A step writes the second exchange's slots only when it sums. */
  lemma SendEffect<T>(c: Config<T>, r: nat, me: Node<T>, in1: Link<T>, in2: Link<T>, a: Action)
    requires c.slots > 0 && c.blocks >= 1 && NodeShape(c, me) && Enabled(c, me, in1, in2, a)
    ensures var send := Apply(c, r, me, in1, in2, a).second.send;
      if a.Sum? && !a.skip
      then send == Write(c, me.second, a.b, me.rank.blocks[a.b].w2 + 1,
        SumOf(c, r, in1, me.rank.blocks[a.b].w2 + 1)).send
      else send == me.second.send
  {
    hide Base, Matched, LastArrival, Write, EmitOutput, SumOf, InputOf;
  }

  /** A step leaves a pack's place in the slots alone unless it sums that very pack or one of the same slot. */
  lemma SendKept<T>(c: Config<T>, r: nat, me: Node<T>, in1: Link<T>, in2: Link<T>, a: Action, s: nat, p: nat)
    requires c.slots > 0 && c.blocks >= 1 && NodeShape(c, me) && Enabled(c, me, in1, in2, a)
    requires a.Sum? && !a.skip ==>
      var s' := me.rank.blocks[a.b].w2 + 1; (s' == s && c.owner(s, p) != a.b) || SlotOf(c, s') != SlotOf(c, s)
    ensures Apply(c, r, me, in1, in2, a).second.send(SlotOf(c, s), p) == me.second.send(SlotOf(c, s), p)
  {
    SendEffect(c, r, me, in1, in2, a);
    hide Apply, Enabled, SlotOf, SumOf;
  }

  /** How far a block has summed, after a step: one more chunk if it sums, and otherwise as far as before. */
  lemma SummedEffect<T>(c: Config<T>, r: nat, me: Node<T>, in1: Link<T>, in2: Link<T>, a: Action, b: nat)
    requires ValidConfig(c) && c.slots > 0 && c.blocks >= 1 && NodeInv(c, r, me) && NodeShape(c, me)
      && Enabled(c, me, in1, in2, a)
    requires NodeShape(c, Apply(c, r, me, in1, in2, a)) && b < c.blocks
    ensures Apply(c, r, me, in1, in2, a).rank.blocks[b].summed
         == if a.Sum? && !a.skip && a.b == b then me.rank.blocks[b].w2 + 1 else me.rank.blocks[b].summed
  {
    Orders(c, r, me);
    hide RankOrder, Contents, FirstBell, SecondBell, LinkOrder, Apply;
    if a.Relaunch? {
      FinishedLaunch(c, me.rank);
      StepRelaunch(c, r, me, in1, in2);
    } else {
      StepEffect(c, r, me, in1, in2, a);
    }
  }

  /** A step does not change how far the block of a rung chunk's pack has summed, as seen from that chunk. */
  lemma SummedKept<T>(c: Config<T>, q: nat, me: Node<T>, in1: Link<T>, in2: Link<T>, a: Action, s: nat, b: nat)
    requires ValidConfig(c) && c.slots > 0 && NodeInv(c, q, me) && NodeShape(c, me) && Enabled(c, me, in1, in2, a)
    requires c.blocks >= 1 && NodeShape(c, Apply(c, q, me, in1, in2, a))
    requires 1 <= s <= me.second.bell && b < c.blocks
    ensures s <= Apply(c, q, me, in1, in2, a).rank.blocks[b].summed <==> s <= me.rank.blocks[b].summed
  {
    SummedEffect(c, q, me, in1, in2, a, b);
    PostedIsPast(c, q, me, true);
    hide Apply, Enabled, SlotOf;
  }

  lemma PackKept<T>(c: Config<T>, q: nat, me: Node<T>, in1: Link<T>, in2: Link<T>, a: Action, s: nat, p: nat)
    requires ValidConfig(c) && c.slots > 0 && NodeInv(c, q, me) && NodeShape(c, me) && Enabled(c, me, in1, in2, a)
    requires c.blocks >= 1 && NodeShape(c, Apply(c, q, me, in1, in2, a))
    requires 1 <= s <= me.second.bell && c.owner(s, p) < c.blocks && me.rank.blocks[c.owner(s, p)].summed < s
    ensures Apply(c, q, me, in1, in2, a).second.send(SlotOf(c, s), p) == me.second.send(SlotOf(c, s), p)
  {
    hide Apply, SlotOf, RankOrder, Contents, Matched, Base, Value;
    PostedIsPast(c, q, me, true);
    if a.Sum? && !a.skip { SumApart(c, q, me, in1, in2, a.b, c.owner(s, p), s); }
    hide NodeInv;
    SendKept(c, q, me, in1, in2, a, s, p);
  }

  /** What a rank has rung for, it no longer changes: no sum it still makes touches it. */
  lemma SourceKept<T>(c: Config<T>, q: nat, me: Node<T>, in1: Link<T>, in2: Link<T>, a: Action, s: nat, p: nat)
    requires ValidConfig(c) && c.slots > 0 && NodeInv(c, q, me) && NodeShape(c, me) && Enabled(c, me, in1, in2, a)
    requires c.blocks >= 1 && NodeShape(c, Apply(c, q, me, in1, in2, a))
    requires 1 <= s <= me.second.bell && p < c.packs(s)
    ensures var me' := Apply(c, q, me, in1, in2, a);
      Sourced(c, true, q, me'.second, s, p, me'.rank.blocks[c.owner(s, p)].summed)
      == Sourced(c, true, q, me.second, s, p, me.rank.blocks[c.owner(s, p)].summed)
  {
    OwnerIn(c, s, p);
    hide NodeInv, Apply, SlotOf, Enabled, Value;
    SummedKept(c, q, me, in1, in2, a, s, c.owner(s, p));
    if s > me.rank.blocks[c.owner(s, p)].summed { PackKept(c, q, me, in1, in2, a, s, p); }
  }

  lemma OwnerIn<T>(c: Config<T>, s: nat, p: nat)
    requires ValidConfig(c)
    ensures c.owner(s, p) < c.blocks
  {
    hide PowerOfTwo;
  }

  /** The next sum of a block never shares a slot with another sequence of the running launch. */
  lemma SumApart<T>(c: Config<T>, q: nat, me: Node<T>, in1: Link<T>, in2: Link<T>, x: nat, b: nat, s: nat)
    requires ValidConfig(c) && c.slots > 0 && NodeInv(c, q, me) && NodeShape(c, me)
      && Enabled(c, me, in1, in2, Sum(x, false))
    requires b < c.blocks && me.rank.blocks[b].summed < s <= Top(c, me.rank)
    ensures s != me.rank.blocks[x].w2 + 1 ==> SlotOf(c, me.rank.blocks[x].w2 + 1) != SlotOf(c, s)
  {
    Orders(c, q, me);
    ChunksFit(c, me.rank.launch);
    hide NodeInv, Base, RankOrder, SlotOf, ValidConfig, Matched;
    assert BlockOrder(c, me.rank, me.rank.blocks[b]) && BlockOrder(c, me.rank, me.rank.blocks[x]);
    var s' := me.rank.blocks[x].w2 + 1;
    if s < s' { SlotDistinct(c, s, s'); } else if s' < s { SlotDistinct(c, s', s); }
  }

  lemma OutputsPeer<T>(c: Config<T>, r: nat, rk: Rank<T>, two: Node<T>, in1: Link<T>, in2: Link<T>, a: Action)
    requires ValidConfig(c) && c.slots > 0 && c.blocks >= 1 && r < WORLD && RankShape(c, rk)
    requires NodeInv(c, Peer2(r), two) && NodeShape(c, two) && Enabled(c, two, in1, in2, a)
    requires NodeShape(c, Apply(c, Peer2(r), two, in1, in2, a))
    requires forall b :: 0 <= b < c.blocks ==> rk.blocks[b].emitted <= two.second.bell
    requires Outputs(c, r, rk, two)
    ensures Outputs(c, r, rk, Apply(c, Peer2(r), two, in1, in2, a))
  {
    hide NodeInv, Base, Apply, Enabled, Peer2, Sourced, Value, Combined, PowerOfTwo;
    var two' := Apply(c, Peer2(r), two, in1, in2, a);
    forall b: nat, s: nat, p: nat {:trigger rk.blocks[b], rk.output(s, p)} |
      b < c.blocks && 1 <= s <= rk.blocks[b].emitted && p < c.packs(s) && c.owner(s, p) == b
      ensures rk.output(s, p) == Output(c, r, two'.second, s, p, two'.rank.blocks[b].summed)
    {
      SourceKept(c, Peer2(r), two, in1, in2, a, s, p);
    }
  }

  lemma HandedGrows<T>(c: Config<T>, me: Node<T>, in1: Link<T>, in2: Link<T>, in1': Link<T>, in2': Link<T>)
    requires NodeShape(c, me) && LinkShape(in1) && LinkShape(in2) && LinkShape(in1') && LinkShape(in2')
    requires Handed(c, me, in1, in2)
    requires forall l :: 0 <= l < 2 ==> in1.flag[l] <= in1'.flag[l] && in2.flag[l] <= in2'.flag[l]
    ensures Handed(c, me, in1', in2')
  {
  }

  /** Every action of every rank, proxy and lane keeps the invariant. */
  lemma Preserved<T>(c: Config<T>, cl: seq<Node<T>>, r: nat, a: Action)
    requires Inv(c, cl) && CanStep(c, cl, r, a)
    ensures Inv(c, Next(c, cl, r, a))
  {
    hide NodeInv, Handed, Outputs, Apply, Enabled, Base;
    assert InvAt(c, cl, r);
    OrdersOf(c, r, cl[r]);
    var me, in1, in2 := cl[r], In1(cl, r), In2(cl, r);
    var me' := Apply(c, r, me, in1, in2, a);
    StepEffect(c, r, me, in1, in2, a);
    NodeKept(c, cl, r, a);
    OwnKept(c, cl, r, a);
    var cl' := Next(c, cl, r, a);
    forall q: nat | q < WORLD
      ensures InvAt(c, cl', q)
    {
      assert InvAt(c, cl, q);
      if q != r {
        HandedGrows(c, cl[q], In1(cl, q), In2(cl, q), In1(cl', q), In2(cl', q));
        if Peer2(q) == r { OutputsPeerOf(c, cl, q, a); }
      }
    }
  }

  lemma OutputsPeerOf<T>(c: Config<T>, cl: seq<Node<T>>, q: nat, a: Action)
    requires Inv(c, cl) && q < WORLD && CanStep(c, cl, Peer2(q), a) && c.blocks >= 1
    requires NodeShape(c, Apply(c, Peer2(q), cl[Peer2(q)], In1(cl, Peer2(q)), In2(cl, Peer2(q)), a))
    ensures Outputs(c, q, cl[q].rank, Apply(c, Peer2(q), cl[Peer2(q)], In1(cl, Peer2(q)), In2(cl, Peer2(q)), a))
  {
    hide NodeInv, Outputs, Apply, Enabled, Base, Peer1, Peer2;
    assert InvAt(c, cl, q) && InvAt(c, cl, Peer2(q));
    PostedIsPast(c, Peer2(q), cl[Peer2(q)], true);
    NodeBounds(c, Peer2(q), cl[Peer2(q)]);
    assert cl[Peer2(q)].second.flag[0] <= cl[Peer2(q)].second.bell;
    OutputsPeer(c, q, cl[q].rank, cl[Peer2(q)], In1(cl, Peer2(q)), In2(cl, Peer2(q)), a);
  }

  lemma OrdersOf<T>(c: Config<T>, r: nat, me: Node<T>)
    requires ValidConfig(c) && c.slots > 0 && NodeInv(c, r, me)
    ensures RankOrder(c, me.rank) && c.blocks >= 1
  {
  }

  lemma OwnKept<T>(c: Config<T>, cl: seq<Node<T>>, r: nat, a: Action)
    requires Inv(c, cl) && CanStep(c, cl, r, a) && InvAt(c, cl, r) && RankOrder(c, cl[r].rank)
    requires Effect(c, cl[r], a, Apply(c, r, cl[r], In1(cl, r), In2(cl, r), a))
    ensures Handed(c, Apply(c, r, cl[r], In1(cl, r), In2(cl, r), a), In1(cl, r), In2(cl, r))
    ensures Outputs(c, r, Apply(c, r, cl[r], In1(cl, r), In2(cl, r), a).rank, cl[Peer2(r)])
  {
    hide NodeInv, Handed, Outputs, Apply, Base, Matched, Arrived, ShareArrived, Peer1, Peer2, ValidConfig;
    var rk := cl[r].rank;
    if a.Sum? {
      assert BlockOrder(c, rk, rk.blocks[a.b]);
      WaitFirst(c, cl, r, rk.blocks[a.b].w2 + 1);
    } else if a.Emit? {
      assert BlockOrder(c, rk, rk.blocks[a.b]);
      WaitSecond(c, cl, r, rk.blocks[a.b].w3 + 1);
    }
    HandedOwn(c, r, cl[r], In1(cl, r), In2(cl, r), a);
    OutputsOwn(c, r, cl[r], In1(cl, r), cl[Peer2(r)], a);
  }

  lemma Initially<T>(c: Config<T>, cl: seq<Node<T>>)
    requires ValidConfig(c) && c.slots > 0 && Init(c, cl)
    ensures Inv(c, cl)
  {
    forall r: nat | r < WORLD
      ensures InvAt(c, cl, r)
    {
      NodeInitially(c, r, cl[r]);
      assert NodeInit(c, cl[Peer1(r)]) && NodeInit(c, cl[Peer2(r)]);
      hide NodeInv;
    }
  }

  lemma StagedInitially(blocks: seq<Block>, second: bool)
    requires |blocks| >= 1 && forall b :: 0 <= b < |blocks| ==> blocks[b] == Fresh(0)
    ensures Staged(|blocks|, 0, blocks, second, [0, 0, 0, 0]) && Tally(0, Count(blocks, Finished), |blocks|)
    ensures AllArrived(blocks, second, 0)
  {
    hide Tally;
    var stage: seq<nat> := [0, 0, 0, 0];
    forall i | 0 <= i < 4
      ensures Tally(stage[i], Count(blocks, Past(second, 0 + i + 1)), |blocks|)
    {
      CountNone(blocks, Past(second, 0 + i + 1));
      TallyZero(|blocks|);
    }
    CountNone(blocks, Finished);
    TallyZero(|blocks|);
    assert Arrivals(blocks[0], second) == 0;
  }

  lemma TallyZero(a: nat)
    requires a >= 1
    ensures Tally(0, 0, a)
  {
  }

  lemma NodeInitially<T>(c: Config<T>, r: nat, me: Node<T>)
    requires ValidConfig(c) && c.slots > 0 && NodeShape(c, me) && NodeInit(c, me)
    ensures NodeInv(c, r, me)
  {
    var rk := me.rank;
    hide Tally, Count, Staged, AllArrived, PairSum;
    StagedInitially(rk.blocks, false);
    StagedInitially(rk.blocks, true);
    assert c.chunks(0) in {1, 2, 4};
    assert !rk.blocks[0].done;
    assert RankInv(c, rk);
    hide RankInv;
    assert Words(c, me.first) && Words(c, me.second);
  }

  // ---------------------------------------------------------------- runs

  /** An interleaving of the four ranks, their proxies and the network lanes, from the initial state. */
  ghost predicate Run<T>(c: Config<T>, states: seq<seq<Node<T>>>, steps: seq<(nat, Action)>) {
    && c.slots > 0 && c.blocks >= 1
    && |states| == |steps| + 1
    && Init(c, states[0])
    && forall i :: 0 <= i < |steps| ==>
         && Shape(c, states[i]) && CanStep(c, states[i], steps[i].0, steps[i].1)
         && states[i + 1] == Next(c, states[i], steps[i].0, steps[i].1)
  }

  lemma {:induction false} RunInvariant<T>(c: Config<T>, states: seq<seq<Node<T>>>, steps: seq<(nat, Action)>, i: nat)
    requires ValidConfig(c) && Run(c, states, steps) && i < |states|
    ensures Inv(c, states[i])
  {
    hide Inv, Next, CanStep;
    if i == 0 {
      Initially(c, states[0]);
    } else {
      RunInvariant(c, states, steps, i - 1);
      Preserved(c, states[i - 1], steps[i - 1].0, steps[i - 1].1);
    }
  }
}
