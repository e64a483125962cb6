/** Why the canonical result asks that the rank the pair sums come from has made them: a run of one launch with
    one chunk, one pack and two blocks. Rank 0's first block finishes round 2 and times out in round 3; the second
    block, still in round 2, sees the poison word and skips the sum, but rings the second doorbell all the same. Rank
    3 then takes what lies in the slot, sees no error and advances its epoch over a wrong output. */
module AllReduceTimeout {
  import opened AllReduce
  import opened AllReduceSafety

  /** All inputs are 1 and the sum is exact, so that the canonical result is 4. Block 1 owns the pack. */
  function Small(): Config<int> {
    Config(2, 2, 1, (_: nat) => 1, (_: nat) => 1, (_: nat, _: nat) => 1, (_: nat, _: nat) => 0,
           (_: nat, _: nat, _: nat) => 1, (a: int, b: int) => a + b, (a: int) => a)
  }

  ghost predicate Reached<T(!new)>(c: Config<T>, cl: seq<Node<T>>) {
    exists states: seq<seq<Node<T>>>, steps: seq<(nat, Action)> ::
      |states| == |steps| + 1 && Run(c, states, steps) && states[|steps|] == cl
  }

  lemma ShapeKept<T>(c: Config<T>, r: nat, me: Node<T>, in1: Link<T>, in2: Link<T>, a: Action)
    requires c.slots > 0 && c.blocks >= 1 && NodeShape(c, me) && Enabled(c, me, in1, in2, a)
    ensures NodeShape(c, Apply(c, r, me, in1, in2, a))
  {
    hide Matched, EmitOutput, InputOf, SumOf, LastArrival, Round2Value;
  }

  lemma Extend<T(!new)>(c: Config<T>, states: seq<seq<Node<T>>>, steps: seq<(nat, Action)>, r: nat, a: Action)
    requires Run(c, states, steps) && Shape(c, states[|steps|]) && CanStep(c, states[|steps|], r, a)
    ensures Reached(c, Next(c, states[|steps|], r, a))
  {
    hide CanStep, Next, Init, Shape;
    var states', steps' := states + [Next(c, states[|steps|], r, a)], steps + [(r, a)];
    forall i | 0 <= i < |steps'|
      ensures Shape(c, states'[i]) && CanStep(c, states'[i], steps'[i].0, steps'[i].1)
           && states'[i + 1] == Next(c, states'[i], steps'[i].0, steps'[i].1)
    {
      assert i < |steps| ==> states'[i] == states[i] && steps'[i] == steps[i] && states'[i + 1] == states[i + 1];
    }
    assert states'[0] == states[0];
    assert Run(c, states', steps');
    assert states'[|steps'|] == Next(c, states[|steps|], r, a);
  }

  lemma NextShape<T>(c: Config<T>, cl: seq<Node<T>>, r: nat, a: Action)
    requires c.slots > 0 && c.blocks >= 1 && Shape(c, cl) && CanStep(c, cl, r, a)
    ensures Shape(c, Next(c, cl, r, a))
  {
    ShapeKept(c, r, cl[r], In1(cl, r), In2(cl, r), a);
    hide Apply, Enabled, NodeShape;
  }

  /** One more step of rank `r`. */
  lemma Take<T(!new)>(c: Config<T>, cl: seq<Node<T>>, r: nat, a: Action) returns (after: seq<Node<T>>)
    requires c.slots > 0 && c.blocks >= 1 && Shape(c, cl) && Reached(c, cl)
    requires r < WORLD && Enabled(c, cl[r], In1(cl, r), In2(cl, r), a)
    ensures Shape(c, after) && Reached(c, after)
    ensures after == cl[r := Apply(c, r, cl[r], In1(cl, r), In2(cl, r), a)]
  {
    hide Enabled, Apply, Run, NodeShape;
    var states: seq<seq<Node<T>>>, steps: seq<(nat, Action)> :| |states| == |steps| + 1 && Run(c, states, steps)
      && states[|steps|] == cl;
    Extend(c, states, steps, r, a);
    NextShape(c, cl, r, a);
    after := Next(c, cl, r, a);
  }

  // ---------------------------------------------------------------- the run

  /** A block between two steps: what it wrote in each round it has also arrived for. */
  function At(w1: nat, w2: nat, summed: nat, w3: nat, emitted: nat, done: bool): Block {
    Block(w1, w1, w2, w2, summed, w3, emitted, done)
  }

  function Started(output: (nat, nat) -> int): Rank<int> {
    var k := At(1, 0, 0, 0, 0, false);
    Rank(0, 0, 0, [k, k], [2, 0, 0, 0], [0, 0, 0, 0], 0, false, false, false, output)
  }

  ghost predicate Ready(cl: seq<Node<int>>) {
    |cl| == WORLD && Shape(Small(), cl) && Reached(Small(), cl)
  }

  ghost predicate Unstarted(me: Node<int>) {
    NodeShape(Small(), me) && NodeInit(Small(), me)
  }

  /** The rung link of a chunk: its count is in its slot and nothing is posted. */
  ghost predicate Rung(lk: Link<int>) {
    LinkShape(lk) && lk.bell == 1 && lk.counts(1) == 1 && lk.posted == 0 && lk.data == lk.flag == [0, 0]
  }

  ghost predicate Delivered(lk: Link<int>, v: int) {
    LinkShape(lk) && lk.flags(1, 0) == lk.flags(1, 1) == 1 && lk.recv(1, 0) == v
  }

  ghost predicate Entered(me: Node<int>, before: Node<int>) {
    && me.second == before.second && me.rank == Started(me.rank.output)
    && Rung(me.first) && me.first.send(1, 0) == 1
  }

  lemma Enter(cl: seq<Node<int>>, r: nat) returns (after: seq<Node<int>>)
    requires r < WORLD && Ready(cl) && Unstarted(cl[r])
    ensures Ready(after) && after == cl[r := after[r]]
    ensures Entered(after[r], cl[r])
  {
    var c := Small();
    hide Reached;
    after := Take(c, cl, r, Stage(0));
    after := Take(c, after, r, Stage(1));
    after := Take(c, after, r, Arrive1(0));
    after := Take(c, after, r, Arrive1(1));
  }

  /** The payload of both lanes is in the slot. */
  ghost predicate Landed(lk: Link<int>, v: int) {
    LinkShape(lk) && lk.data == [1, 1] && lk.flag == [0, 0] && lk.recv(1, 0) == v
  }

  ghost predicate OnlyLink(cl: seq<Node<int>>, after: seq<Node<int>>, r: nat, second: bool)
    requires |cl| == WORLD && r < WORLD
  {
    |after| == WORLD && after == cl[r := SetLink(cl[r], second, LinkOf(after[r], second))]
  }

  lemma Payload(cl: seq<Node<int>>, r: nat, second: bool) returns (after: seq<Node<int>>)
    requires r < WORLD && Ready(cl) && Rung(LinkOf(cl[r], second))
    ensures Ready(after) && OnlyLink(cl, after, r, second)
    ensures Landed(LinkOf(after[r], second), LinkOf(cl[r], second).send(1, 0))
  {
    var c := Small();
    hide Reached;
    after := Take(c, cl, r, Post(second));
    after := Take(c, after, r, Data(second, 0));
    after := Take(c, after, r, Data(second, 1));
  }

  lemma FlagWords(cl: seq<Node<int>>, r: nat, second: bool, v: int) returns (after: seq<Node<int>>)
    requires r < WORLD && Ready(cl) && Landed(LinkOf(cl[r], second), v)
    ensures Ready(after) && OnlyLink(cl, after, r, second)
    ensures Delivered(LinkOf(after[r], second), v)
  {
    var c := Small();
    hide Reached;
    assert SlotOf(c, 1) == 1;
    after := Take(c, cl, r, Flag(second, 0));
    assert LinkOf(after[r], second).flag == [1, 0] && LinkOf(after[r], second).flags(1, 0) == 1;
    after := Take(c, after, r, Flag(second, 1));
  }

  /** The proxy posts the rung chunk and both lanes deliver it. */
  lemma Carry(cl: seq<Node<int>>, r: nat, second: bool) returns (after: seq<Node<int>>)
    requires r < WORLD && Ready(cl) && Rung(LinkOf(cl[r], second))
    ensures Ready(after) && OnlyLink(cl, after, r, second)
    ensures Delivered(LinkOf(after[r], second), LinkOf(cl[r], second).send(1, 0))
  {
    hide Reached, Small, Rung, Landed, Delivered, Shape;
    after := Payload(cl, r, second);
    after := FlagWords(after, r, second, LinkOf(cl[r], second).send(1, 0));
  }

  /** Rank 0 with its first block through round 2 and its second still in it. */
  ghost predicate HalfSummed(rk: Rank<int>, timedOut: bool) {
    && |rk.blocks| == 2 && rk.blocks[1] == At(1, 0, 0, 0, 0, false)
    && rk.blocks[0] == (if timedOut then At(1, 1, 1, 1, 0, false) else At(1, 1, 1, 0, 0, false))
    && rk.launch == rk.base == rk.epoch == rk.tail == 0 && rk.stage2 == [1, 0, 0, 0]
    && !rk.err1 && rk.err2 == timedOut && rk.poison == timedOut
  }

  /** The second doorbell is silent, and the slot holds `v`. */
  ghost predicate Silent(lk: Link<int>, v: int) {
    LinkShape(lk) && lk.bell == lk.posted == 0 && lk.data == lk.flag == [0, 0] && lk.send(1, 0) == v
  }

  /** Rank 0's first block sums and goes on to round 3. */
  lemma SumFirst(cl: seq<Node<int>>, v: int) returns (after: seq<Node<int>>)
    requires Ready(cl) && cl[0].rank == Started(cl[0].rank.output) && QuietLink(cl[0].second)
      && Delivered(cl[1].first, v)
    ensures Ready(after) && after == cl[0 := after[0]]
    ensures HalfSummed(after[0].rank, false) && Silent(after[0].second, cl[0].second.send(1, 0))
  {
    var c := Small();
    hide Reached;
    after := Take(c, cl, 0, Sum(0, false));
    after := Take(c, after, 0, Arrive2(0));
  }

  /** There it times out. */
  lemma TimeOut(cl: seq<Node<int>>, v: int) returns (after: seq<Node<int>>)
    requires Ready(cl) && HalfSummed(cl[0].rank, false) && Silent(cl[0].second, v) && QuietLink(cl[3].second)
    ensures Ready(after) && after == cl[0 := after[0]]
    ensures HalfSummed(after[0].rank, true) && Silent(after[0].second, v)
  {
    var c := Small();
    hide Reached;
    after := Take(c, cl, 0, Timeout2(0));
  }

  /** The second block sees the poison word, skips its sum and rings. */
  lemma SkipAndRing(cl: seq<Node<int>>, v: int, w: int) returns (after: seq<Node<int>>)
    requires Ready(cl) && HalfSummed(cl[0].rank, true) && Silent(cl[0].second, v) && Delivered(cl[1].first, w)
    ensures Ready(after) && after == cl[0 := after[0]]
    ensures after[0].rank.err2 && !after[0].rank.err1
    ensures Rung(after[0].second) && after[0].second.send(1, 0) == v
  {
    var c := Small();
    hide Reached;
    after := Take(c, cl, 0, Sum(1, true));
    after := Take(c, after, 0, Arrive2(1));
  }

  /** Rank 0: the first block sums and goes on to round 3, where it times out; the second skips its sum and rings. */
  lemma Fail(cl: seq<Node<int>>, v: int) returns (after: seq<Node<int>>)
    requires Ready(cl) && cl[0].rank == Started(cl[0].rank.output) && QuietLink(cl[0].second) && QuietLink(cl[3].second)
    requires Delivered(cl[1].first, v)
    ensures Ready(after) && after == cl[0 := after[0]]
    ensures after[0].rank.err2 && !after[0].rank.err1
    ensures Rung(after[0].second) && after[0].second.send(1, 0) == cl[0].second.send(1, 0)
  {
    hide Reached, Small, Started, QuietLink, Delivered, HalfSummed, Silent, Rung, Shape;
    after := SumFirst(cl, v);
    after := TimeOut(after, cl[0].second.send(1, 0));
    after := SkipAndRing(after, cl[0].second.send(1, 0), v);
  }

  ghost predicate Summed(rk: Rank<int>) {
    && |rk.blocks| == 2 && rk.blocks[0] == rk.blocks[1] == At(1, 1, 1, 0, 0, false)
    && rk.launch == rk.base == rk.epoch == rk.tail == 0 && !rk.err1 && !rk.err2 && !rk.poison
  }

  /** Rank 3 sums its pair. */
  lemma SumPair(cl: seq<Node<int>>, v: int) returns (after: seq<Node<int>>)
    requires Ready(cl) && cl[3].rank == Started(cl[3].rank.output) && Delivered(cl[2].first, v)
    ensures Ready(after) && after == cl[3 := after[3]]
    ensures Summed(after[3].rank) && after[3].second.send(1, 0) == v + 1
  {
    var c := Small();
    hide Reached;
    after := Take(c, cl, 3, Sum(0, false));
    after := Take(c, after, 3, Sum(1, false));
    after := Take(c, after, 3, Arrive2(0));
    after := Take(c, after, 3, Arrive2(1));
  }

  /** Rank 3 finishes the launch without an error. */
  lemma Finish(cl: seq<Node<int>>, w: int) returns (after: seq<Node<int>>)
    requires Ready(cl) && Summed(cl[3].rank) && Delivered(cl[0].second, w)
    ensures Ready(after) && after == cl[3 := after[3]]
    ensures after[3].rank.epoch == 1 && !after[3].rank.err1 && !after[3].rank.err2
    ensures after[3].rank.output(1, 0) == w + cl[3].second.send(1, 0)
  {
    var c := Small();
    hide Reached;
    after := Take(c, cl, 3, Emit(0, false));
    after := Take(c, after, 3, Emit(1, false));
    after := Take(c, after, 3, Tail(0));
    after := Take(c, after, 3, Tail(1));
  }

  lemma EnteredRings(me: Node<int>, before: Node<int>)
    requires Entered(me, before)
    ensures Rung(me.first)
  {
  }

  /** All four ranks ring their first doorbells. */
  lemma EnterAll(cl: seq<Node<int>>) returns (after: seq<Node<int>>)
    requires Ready(cl) && Init(Small(), cl)
    ensures Ready(after) && forall r :: 0 <= r < WORLD ==> Entered(after[r], cl[r])
  {
    hide Reached, Small, NodeInit, Entered, NodeShape;
    after := Enter(cl, 0);
    after := Enter(after, 1);
    after := Enter(after, 2);
    after := Enter(after, 3);
  }

  lemma InitReady(cl: seq<Node<int>>)
    requires Init(Small(), cl)
    ensures Ready(cl) && Small().slots > 0
  {
    var states: seq<seq<Node<int>>>, steps: seq<(nat, Action)> := [cl], [];
    assert Run(Small(), states, steps) by { hide Init, Shape; assert Init(Small(), cl); }
    assert states[|steps|] == cl;
  }

  lemma InitQuiet(cl: seq<Node<int>>)
    requires Init(Small(), cl)
    ensures |cl| == WORLD && QuietLink(cl[0].second) && QuietLink(cl[3].second)
  {
    assert NodeInit(Small(), cl[0]) && NodeInit(Small(), cl[3]);
  }

  /** Rank 0 hands rank 3 what lay in its slot. */
  lemma Betray(cl: seq<Node<int>>, old0: Node<int>, old3: Node<int>) returns (after: seq<Node<int>>)
    requires Ready(cl) && Entered(cl[0], old0) && Rung(cl[1].first) && Entered(cl[3], old3)
    requires QuietLink(old0.second) && QuietLink(old3.second)
    ensures Ready(after) && after == cl[1 := after[1]][0 := after[0]]
    ensures after[0].rank.err2 && !after[0].rank.err1 && Delivered(after[0].second, old0.second.send(1, 0))
  {
    hide Reached, Small, Started, Rung, Delivered, QuietLink, Shape;
    after := Carry(cl, 1, false);
    assert Delivered(after[1].first, cl[1].first.send(1, 0));
    after := Fail(after, cl[1].first.send(1, 0));
    after := Carry(after, 0, true);
  }

  /** Rank 3 takes it. */
  lemma Accept(cl: seq<Node<int>>, old2: Node<int>, old3: Node<int>, w: int) returns (after: seq<Node<int>>)
    requires Ready(cl) && Entered(cl[2], old2) && Entered(cl[3], old3) && Delivered(cl[0].second, w)
    ensures Ready(after) && after == cl[2 := after[2]][3 := after[3]]
    ensures after[3].rank.epoch == 1 && !after[3].rank.err1 && !after[3].rank.err2
      && after[3].rank.output(1, 0) == w + 2
  {
    hide Reached, Small, Started, Rung, Delivered, Summed, Shape;
    after := Carry(cl, 2, false);
    assert Delivered(after[2].first, cl[2].first.send(1, 0));
    after := SumPair(after, 1);
    after := Finish(after, w);
  }

  /** A run of the protocol on whose last state rank 3 has finished its launch, with no error of its own, over an output
      that is not canonical; only its second neighbour has timed out, in round 3. Whatever lay in that neighbour's slot
      before takes the place of the pair sum. */
  lemma UnsummedChunkIsTaken(cl: seq<Node<int>>) returns (after: seq<Node<int>>)
    requires Init(Small(), cl)
    ensures |after| == WORLD && Shape(Small(), after) && Reached(Small(), after)
    ensures after[3].rank.epoch == 1 && !after[3].rank.err1 && !after[3].rank.err2
    ensures !after[0].rank.err1 && after[0].rank.err2
    ensures after[3].rank.output(1, 0) == cl[0].second.send(1, 0) + 2
  {
    InitReady(cl);
    InitQuiet(cl);
    hide Reached, Small, Init, Entered, QuietLink, Delivered, Shape;
    after := EnterAll(cl);
    assert Rung(after[1].first) by { EnteredRings(after[1], cl[1]); }
    after := Betray(after, cl[0], cl[3]);
    after := Accept(after, cl[2], cl[3], cl[0].second.send(1, 0));
  }

  /** All ranks before their first launch, their slots and outputs zero. */
  function Start(): seq<Node<int>> {
    var zeros: (nat, nat) -> int := (_: nat, _: nat) => 0;
    var none: nat -> int := (_: nat) => 0;
    var quiet := Link(zeros, none, 0, 0, none, [0, 0], [0, 0], zeros, zeros);
    var rank := Rank(0, 0, 0, [Fresh(0), Fresh(0)], [0, 0, 0, 0], [0, 0, 0, 0], 0, false, false, false, zeros);
    var me := Node(rank, quiet, quiet);
    [me, me, me, me]
  }

  lemma StartIsInit()
    ensures Init(Small(), Start()) && Start()[0].second.send(1, 0) == 0
  {
  }

  /** From zeroed slots rank 3 ends with 2 where the canonical reduction is 4. */
  lemma FinishedOutputCanBeWrong() returns (after: seq<Node<int>>)
    ensures |after| == WORLD && Reached(Small(), after)
    ensures after[3].rank.epoch == 1 && !after[3].rank.err1 && !after[3].rank.err2
    ensures !after[0].rank.err1 && after[0].rank.err2
    ensures after[3].rank.output(1, 0) == 2 && CanonicalReduce(Small(), 1, 0) == 4
  {
    StartIsInit();
    assert CanonicalReduce(Small(), 1, 0) == 4;
    hide Reached, Small, Init, Start, Shape;
    after := UnsummedChunkIsTaken(Start());
  }
}
