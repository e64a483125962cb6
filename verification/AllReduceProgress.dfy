/** Progress of the all-reduce: runs are finite, and without a timeout a run can only stop when every rank has finished
    every launch. */
module AllReduceProgress {
  import opened AllReduce
  import opened AllReduceInvariant
  import opened AllReduceSteps
  import opened AllReduceSafety

  // ---------------------------------------------------------------- some step stays enabled

  ghost predicate Timeout(a: Action) { a.Timeout1? || a.Timeout2? }

  /** No step but a timeout is possible. */
  ghost predicate Stuck<T>(c: Config<T>, cl: seq<Node<T>>)
    requires c.slots > 0 && Shape(c, cl)
  {
    forall r: nat, a: Action :: CanStep(c, cl, r, a) ==> Timeout(a)
  }

  ghost predicate Unpoisoned<T>(cl: seq<Node<T>>) {
    forall r :: 0 <= r < |cl| ==> !cl[r].rank.poison
  }

  /** A stuck link has delivered all it was rung for. */
  lemma StuckLink<T>(c: Config<T>, cl: seq<Node<T>>, r: nat, second: bool)
    requires Inv(c, cl) && Stuck(c, cl) && r < WORLD
    ensures var lk := LinkOf(cl[r], second); lk.flag[0] == lk.flag[1] == lk.bell
  {
    hide Contents, RankInv, FirstBell, SecondBell, Handed, Outputs, Base;
    assert InvAt(c, cl, r);
    var lk := LinkOf(cl[r], second);
    assert LinkOrder(lk);
    assert !CanStep(c, cl, r, Post(second));
    forall l: nat | l < 2
      ensures lk.flag[l] == lk.bell
    {
      assert !CanStep(c, cl, r, Data(second, l)) && !CanStep(c, cl, r, Flag(second, l));
    }
  }

  lemma StuckRound1<T>(c: Config<T>, cl: seq<Node<T>>, r: nat)
    requires Inv(c, cl) && Stuck(c, cl) && r < WORLD && cl[r].rank.launch < c.launches
    ensures cl[r].first.bell == Top(c, cl[r].rank)
    ensures forall b :: 0 <= b < c.blocks ==> cl[r].rank.blocks[b].a1 == Top(c, cl[r].rank)
  {
    hide Contents, LinkOrder, Handed, Outputs, Base, Counters, SecondBell;
    assert InvAt(c, cl, r);
    var rk := cl[r].rank;
    forall b: nat | b < c.blocks
      ensures rk.blocks[b].a1 == Top(c, rk)
    {
      assert BlockOrder(c, rk, rk.blocks[b]);
      assert !CanStep(c, cl, r, Stage(b)) && !CanStep(c, cl, r, Arrive1(b));
    }
  }

  lemma StuckRound2<T>(c: Config<T>, cl: seq<Node<T>>, r: nat)
    requires Inv(c, cl) && Stuck(c, cl) && Unpoisoned(cl) && r < WORLD && cl[r].rank.launch < c.launches
    requires forall b :: 0 <= b < c.blocks ==> cl[r].rank.blocks[b].a1 == Top(c, cl[r].rank)
    requires In1(cl, r).flag[0] >= Top(c, cl[r].rank) && In1(cl, r).flag[1] >= Top(c, cl[r].rank)
    ensures cl[r].second.bell == Top(c, cl[r].rank)
    ensures forall b :: 0 <= b < c.blocks ==> cl[r].rank.blocks[b].a2 == Top(c, cl[r].rank)
  {
    hide Contents, LinkOrder, Handed, Outputs, Base, Counters, FirstBell, Matched, Peer1, Peer2;
    assert InvAt(c, cl, r);
    var rk := cl[r].rank;
    forall b: nat | b < c.blocks
      ensures rk.blocks[b].a2 == Top(c, rk)
    {
      assert BlockOrder(c, rk, rk.blocks[b]);
      if rk.blocks[b].w2 < Top(c, rk) { WaitFirst(c, cl, r, rk.blocks[b].w2 + 1); }
      assert !CanStep(c, cl, r, Sum(b, false)) && !CanStep(c, cl, r, Arrive2(b));
    }
  }

  ghost predicate Round3Rests<T>(c: Config<T>, cl: seq<Node<T>>, r: nat)
    requires c.slots > 0 && Shape(c, cl)
  {
    forall b: nat :: b < c.blocks ==> !CanStep(c, cl, r, Emit(b, false)) && !CanStep(c, cl, r, Tail(b))
  }

  /** A rank with nothing left to emit can begin its next launch. */
  lemma Round3Finished<T>(c: Config<T>, cl: seq<Node<T>>, r: nat)
    requires Inv(c, cl) && Unpoisoned(cl) && r < WORLD && cl[r].rank.launch < c.launches && Round3Rests(c, cl, r)
    requires forall b :: 0 <= b < c.blocks ==> cl[r].rank.blocks[b].a2 == Top(c, cl[r].rank)
    requires In2(cl, r).flag[0] >= Top(c, cl[r].rank) && In2(cl, r).flag[1] >= Top(c, cl[r].rank)
    ensures CanStep(c, cl, r, Relaunch)
  {
    hide Contents, LinkOrder, Handed, Outputs, Base, Counters, FirstBell, SecondBell, Matched, Peer1, Peer2;
    assert InvAt(c, cl, r);
    var rk := cl[r].rank;
    forall b: nat | b < c.blocks
      ensures rk.blocks[b].done
    {
      assert BlockOrder(c, rk, rk.blocks[b]);
      if rk.blocks[b].w3 < Top(c, rk) { WaitSecond(c, cl, r, rk.blocks[b].w3 + 1); }
      assert !CanStep(c, cl, r, Emit(b, false)) && !CanStep(c, cl, r, Tail(b));
    }
  }

  /** While no wait has timed out and a launch is unfinished, some rank, proxy or lane can move. */
  lemma NeverStuck<T>(c: Config<T>, cl: seq<Node<T>>, r: nat)
    requires Inv(c, cl) && Unpoisoned(cl) && r < WORLD && cl[r].rank.launch < c.launches
    ensures exists q: nat, a: Action :: CanStep(c, cl, q, a) && !Timeout(a)
  {
    if Stuck(c, cl) {
      var m := Slowest(cl);
      StuckAt(c, cl, m);
    }
  }

  function Slowest<T>(cl: seq<Node<T>>): (m: nat)
    requires |cl| == WORLD
    ensures m < WORLD && forall q :: 0 <= q < WORLD ==> cl[m].rank.launch <= cl[q].rank.launch
  {
    var a := if cl[0].rank.launch <= cl[1].rank.launch then 0 else 1;
    var b := if cl[2].rank.launch <= cl[3].rank.launch then 2 else 3;
    if cl[a].rank.launch <= cl[b].rank.launch then a else b
  }

  /** Round by round, the slowest ranks of a stuck cluster would have finished. */
  lemma StuckAt<T>(c: Config<T>, cl: seq<Node<T>>, m: nat)
    requires Inv(c, cl) && Unpoisoned(cl) && Stuck(c, cl) && m < WORLD && cl[m].rank.launch < c.launches
    requires forall q :: 0 <= q < WORLD ==> cl[m].rank.launch <= cl[q].rank.launch
    ensures CanStep(c, cl, m, Relaunch)
  {
    assert Round3Rests(c, cl, m);
    hide Stuck, InvAt, Base, ValidConfig, Peer1, Peer2, Unpoisoned, Round3Rests, RankShape, CanStep;
    var top := Top(c, cl[m].rank);
    forall q: nat | q < WORLD
      ensures cl[q].first.flag[0] >= top && cl[q].first.flag[1] >= top
      ensures cl[q].rank.launch == cl[m].rank.launch ==>
        Top(c, cl[q].rank) == top && forall b :: 0 <= b < c.blocks ==> cl[q].rank.blocks[b].a1 == top
    {
      Ahead(c, cl, m, q);
      StuckLink(c, cl, q, false);
      if cl[q].rank.launch == cl[m].rank.launch { StuckRound1(c, cl, q); }
    }
    forall q: nat | q < WORLD
      ensures cl[q].second.flag[0] >= top && cl[q].second.flag[1] >= top
      ensures q == m ==> forall b :: 0 <= b < c.blocks ==> cl[m].rank.blocks[b].a2 == top
    {
      Ahead(c, cl, m, q);
      StuckLink(c, cl, q, true);
      if cl[q].rank.launch == cl[m].rank.launch { StuckRound2(c, cl, q); }
    }
    Round3Finished(c, cl, m);
  }

  /** A rank in a later launch has rung both doorbells for all of an earlier one. */
  lemma Ahead<T>(c: Config<T>, cl: seq<Node<T>>, m: nat, q: nat)
    requires Inv(c, cl) && m < WORLD && q < WORLD && cl[m].rank.launch <= cl[q].rank.launch
    ensures cl[q].rank.launch == cl[m].rank.launch ==> Top(c, cl[q].rank) == Top(c, cl[m].rank)
    ensures cl[q].rank.launch > cl[m].rank.launch ==>
      cl[q].first.bell >= Top(c, cl[m].rank) && cl[q].second.bell >= Top(c, cl[m].rank)
  {
    hide Contents, LinkOrder, Handed, Outputs, Counters, Base;
    assert InvAt(c, cl, m) && InvAt(c, cl, q);
    NodeBounds(c, m, cl[m]);
    BaseMonotone(c, cl[m].rank.launch + 1, cl[q].rank.launch);
  }

  // ---------------------------------------------------------------- runs are finite

  function Written(blocks: seq<Block>): nat {
    if blocks == [] then 0
    else var k := blocks[|blocks| - 1]; Written(blocks[..|blocks| - 1]) + k.w1 + k.a1 + k.w2 + k.a2 + k.w3
  }

  lemma WrittenUpdate(blocks: seq<Block>, b: nat, k: Block)
    requires b < |blocks|
    ensures Written(blocks[b := k]) + blocks[b].w1 + blocks[b].a1 + blocks[b].w2 + blocks[b].a2 + blocks[b].w3
         == Written(blocks) + k.w1 + k.a1 + k.w2 + k.a2 + k.w3
  {
    var n := |blocks| - 1;
    if b == n {
      assert blocks[b := k][..n] == blocks[..n];
    } else {
      WrittenUpdate(blocks[..n], b, k);
      assert blocks[b := k][..n] == blocks[..n][b := k];
    }
  }

  predicate Below(k: Block, top: nat) {
    k.w1 <= top && k.a1 <= top && k.w2 <= top && k.a2 <= top && k.w3 <= top
  }

  lemma {:induction false} WrittenBound(blocks: seq<Block>, top: nat)
    requires forall b :: 0 <= b < |blocks| ==> Below(blocks[b], top)
    ensures Written(blocks) <= |blocks| * (5 * top)
  {
    if blocks != [] {
      var n := |blocks| - 1;
      assert forall b :: 0 <= b < n ==> blocks[..n][b] == blocks[b];
      WrittenBound(blocks[..n], top);
      assert Below(blocks[n], top);
      OneMore(n, 5 * top);
    }
  }

  lemma OneMore(n: nat, x: nat)
    ensures (n + 1) * x == n * x + x
  {
  }

  lemma {:induction false} WrittenExact(blocks: seq<Block>, top: nat)
    requires forall b :: 0 <= b < |blocks| ==> var k := blocks[b]; k.w1 == k.a1 == k.w2 == k.a2 == k.w3 == top
    ensures Written(blocks) == |blocks| * (5 * top)
  {
    if blocks != [] {
      var n := |blocks| - 1;
      assert forall b :: 0 <= b < n ==> blocks[..n][b] == blocks[b];
      WrittenExact(blocks[..n], top);
      OneMore(n, 5 * top);
    }
  }

  function LinkWork<T>(lk: Link<T>): nat
    requires LinkShape(lk)
  {
    lk.posted + lk.data[0] + lk.data[1] + lk.flag[0] + lk.flag[1]
  }

  /** How many steps a node has taken: every step adds exactly one. */
  function Work<T>(c: Config<T>, me: Node<T>): nat
    requires NodeShape(c, me)
  {
    me.rank.launch * (c.blocks + 1) + Count(me.rank.blocks, Finished) + Written(me.rank.blocks)
      + LinkWork(me.first) + LinkWork(me.second)
  }

  lemma BlockWork<T>(c: Config<T>, r: nat, me: Node<T>, in1: Link<T>, in2: Link<T>, a: Action)
    requires c.slots > 0 && c.blocks >= 1 && NodeShape(c, me) && Enabled(c, me, in1, in2, a) && BlockAction(a)
    ensures NodeShape(c, Apply(c, r, me, in1, in2, a))
    ensures Work(c, Apply(c, r, me, in1, in2, a)) == Work(c, me) + 1
  {
    hide Base, Matched, LastArrival, EmitOutput, InputOf, SumOf;
    var me' := Apply(c, r, me, in1, in2, a);
    var k' := me'.rank.blocks[a.b];
    assert me'.rank.blocks == me.rank.blocks[a.b := k'];
    WrittenUpdate(me.rank.blocks, a.b, k');
    CountUpdate(me.rank.blocks, a.b, k', Finished);
    hide Count, Written;
    assert LinkWork(me'.first) == LinkWork(me.first) && LinkWork(me'.second) == LinkWork(me.second);
  }

  lemma RelaunchWork<T>(c: Config<T>, r: nat, me: Node<T>, in1: Link<T>, in2: Link<T>)
    requires ValidConfig(c) && c.slots > 0 && NodeInv(c, r, me) && NodeShape(c, me)
      && Enabled(c, me, in1, in2, Relaunch)
    ensures NodeShape(c, Apply(c, r, me, in1, in2, Relaunch))
    ensures Work(c, Apply(c, r, me, in1, in2, Relaunch)) == Work(c, me) + 1
  {
    hide Contents, FirstBell, SecondBell, LinkOrder, Counters, Base;
    FinishedLaunch(c, me.rank);
    StepRelaunch(c, r, me, in1, in2);
    var me' := Apply(c, r, me, in1, in2, Relaunch);
    hide NodeInv, RankInv, Count, Written;
    CountAll(me.rank.blocks, Finished);
    FreshWork(c.blocks, me.rank.epoch);
    WrittenExact(me.rank.blocks, me.rank.epoch);
    OneMore(me.rank.launch, c.blocks + 1);
  }

  lemma FreshWork(n: nat, base: nat)
    ensures Count(FreshBlocks(n, base), Finished) == 0 && Written(FreshBlocks(n, base)) == n * (5 * base)
  {
    CountNone(FreshBlocks(n, base), Finished);
    WrittenExact(FreshBlocks(n, base), base);
  }

  lemma StepWork<T>(c: Config<T>, r: nat, me: Node<T>, in1: Link<T>, in2: Link<T>, a: Action)
    requires ValidConfig(c) && c.slots > 0 && c.blocks >= 1 && NodeInv(c, r, me) && NodeShape(c, me)
      && Enabled(c, me, in1, in2, a)
    ensures NodeShape(c, Apply(c, r, me, in1, in2, a))
    ensures Work(c, Apply(c, r, me, in1, in2, a)) == Work(c, me) + 1
  {
    hide NodeInv, Base;
    if BlockAction(a) {
      BlockWork(c, r, me, in1, in2, a);
    } else if a.Relaunch? {
      RelaunchWork(c, r, me, in1, in2);
    } else {
      hide Matched, RankShape, Count, Written;
      assert Apply(c, r, me, in1, in2, a).rank == me.rank;
    }
  }

  function TotalWork<T>(c: Config<T>, cl: seq<Node<T>>): nat
    requires |cl| == WORLD && forall r :: 0 <= r < WORLD ==> NodeShape(c, cl[r])
  {
    Work(c, cl[0]) + Work(c, cl[1]) + Work(c, cl[2]) + Work(c, cl[3])
  }

  /** The most steps a rank with its proxies and lanes can take over all launches. */
  function WorkBound<T>(c: Config<T>): nat {
    c.launches * (c.blocks + 1) + c.blocks + c.blocks * (5 * Base(c, c.launches + 1)) + 10 * Base(c, c.launches + 1)
  }

  lemma NodeFacts<T>(c: Config<T>, r: nat, me: Node<T>)
    requires ValidConfig(c) && c.slots > 0 && c.blocks >= 1 && NodeInv(c, r, me) && NodeShape(c, me)
    ensures me.rank.launch <= c.launches && Top(c, me.rank) <= Base(c, c.launches + 1) && |me.rank.blocks| == c.blocks
    ensures LinkWork(me.first) + LinkWork(me.second) <= 10 * Top(c, me.rank)
    ensures Written(me.rank.blocks) <= c.blocks * (5 * Top(c, me.rank)) && Count(me.rank.blocks, Finished) <= c.blocks
  {
    Orders(c, r, me);
    NodeBounds(c, r, me);
    assert me.rank.launch <= c.launches;
    hide NodeInv, Base, Count, Written, ValidConfig;
    BaseMonotone(c, me.rank.launch + 1, c.launches + 1);
    BlocksBelow(c, me.rank);
    hide RankOrder, BlockOrder;
    WrittenBound(me.rank.blocks, Top(c, me.rank));
  }

  lemma BlocksBelow<T>(c: Config<T>, rk: Rank<T>)
    requires |rk.blocks| == c.blocks && forall b :: 0 <= b < c.blocks ==> BlockOrder(c, rk, rk.blocks[b])
    ensures forall b :: 0 <= b < c.blocks ==> Below(rk.blocks[b], Top(c, rk))
  {
    forall b | 0 <= b < c.blocks
      ensures Below(rk.blocks[b], Top(c, rk))
    {
      assert BlockOrder(c, rk, rk.blocks[b]);
    }
  }

  lemma NodeBound<T>(c: Config<T>, r: nat, me: Node<T>)
    requires ValidConfig(c) && c.slots > 0 && c.blocks >= 1 && NodeInv(c, r, me) && NodeShape(c, me)
    ensures Work(c, me) <= WorkBound(c)
  {
    NodeFacts(c, r, me);
    hide NodeInv, ValidConfig, NodeShape, Base, Count, Written, LinkWork, Top;
    MulMonotone(me.rank.launch, c.launches, c.blocks + 1);
    MulMonotone(5 * Top(c, me.rank), 5 * Base(c, c.launches + 1), c.blocks);
  }

  lemma MulMonotone(x: nat, y: nat, k: nat)
    requires x <= y
    ensures x * k <= y * k && k * x <= k * y
  {
  }

  lemma {:induction false} RunWork<T>(c: Config<T>, states: seq<seq<Node<T>>>, steps: seq<(nat, Action)>, i: nat)
    requires ValidConfig(c) && Run(c, states, steps) && i < |states|
    ensures Shape(c, states[i]) && TotalWork(c, states[i]) == i
  {
    hide Inv, TotalWork, Next, CanStep, Init;
    RunInvariant(c, states, steps, i);
    InvShape(c, states[i]);
    if i == 0 {
      InitialWork(c, states[0]);
    } else {
      RunWork(c, states, steps, i - 1);
      RunInvariant(c, states, steps, i - 1);
      ClusterWork(c, states[i - 1], steps[i - 1].0, steps[i - 1].1);
    }
  }

  lemma InvShape<T>(c: Config<T>, cl: seq<Node<T>>)
    requires Inv(c, cl)
    ensures Shape(c, cl)
  {
  }

  lemma InitialWork<T>(c: Config<T>, cl: seq<Node<T>>)
    requires Shape(c, cl) && Init(c, cl)
    ensures TotalWork(c, cl) == 0
  {
    forall r: nat | r < WORLD
      ensures Work(c, cl[r]) == 0
    {
      var rk := cl[r].rank;
      assert NodeInit(c, cl[r]);
      CountNone(rk.blocks, Finished);
      WrittenExact(rk.blocks, 0);
    }
  }

  lemma ClusterWork<T>(c: Config<T>, cl: seq<Node<T>>, r: nat, a: Action)
    requires Inv(c, cl) && c.blocks >= 1 && CanStep(c, cl, r, a) && Shape(c, Next(c, cl, r, a))
    ensures TotalWork(c, Next(c, cl, r, a)) == TotalWork(c, cl) + 1
  {
    hide NodeInv, Handed, Outputs, Base, Work, NodeShape, Peer1, Peer2, Apply, Enabled;
    assert InvAt(c, cl, r);
    StepWork(c, r, cl[r], In1(cl, r), In2(cl, r), a);
  }

  /** Every run is finite: no interleaving has more steps than the launches, chunks and blocks account for. */
  lemma RunsAreFinite<T>(c: Config<T>, states: seq<seq<Node<T>>>, steps: seq<(nat, Action)>)
    requires ValidConfig(c) && Run(c, states, steps)
    ensures |steps| <= 4 * WorkBound(c)
  {
    var cl := states[|steps|];
    RunWork(c, states, steps, |steps|);
    RunInvariant(c, states, steps, |steps|);
    hide NodeInv, Handed, Outputs, WorkBound, Work, Base, Run;
    forall r: nat | r < WORLD
      ensures Work(c, cl[r]) <= WorkBound(c)
    {
      assert InvAt(c, cl, r);
      NodeBound(c, r, cl[r]);
    }
  }

  /** A run without a timeout that cannot be extended has taken every rank through every launch. */
  lemma StoppedRunsAreComplete<T>(c: Config<T>, states: seq<seq<Node<T>>>, steps: seq<(nat, Action)>, r: nat)
    requires ValidConfig(c) && Run(c, states, steps) && r < WORLD
    requires Shape(c, states[|steps|]) && Unpoisoned(states[|steps|]) && Stuck(c, states[|steps|])
    ensures states[|steps|][r].rank.launch == c.launches
  {
    var cl := states[|steps|];
    RunInvariant(c, states, steps, |steps|);
    LaunchBound(c, cl, r);
    if cl[r].rank.launch < c.launches {
      NeverStuck(c, cl, r);
    }
  }

  lemma LaunchBound<T>(c: Config<T>, cl: seq<Node<T>>, r: nat)
    requires Inv(c, cl) && r < WORLD
    ensures cl[r].rank.launch <= c.launches
  {
    assert InvAt(c, cl, r);
  }
}
