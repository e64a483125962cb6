/** The invariant of the all-reduce is kept by every action, one lemma per action. */
module AllReduceSteps {
  import opened Arithmetic
  import opened AllReduce
  import opened AllReduceInvariant

  lemma CountUpdate(blocks: seq<Block>, b: nat, k: Block, key: Key)
    requires b < |blocks|
    ensures Count(blocks[b := k], key) == Count(blocks, key)
              - (if Holds(key, blocks[b]) then 1 else 0) + (if Holds(key, k) then 1 else 0)
  {
    var n := |blocks| - 1;
    if b == n {
      assert blocks[b := k][..n] == blocks[..n];
    } else {
      CountUpdate(blocks[..n], b, k, key);
      assert blocks[b := k][..n] == blocks[..n][b := k];
    }
  }

  lemma CountAll(blocks: seq<Block>, key: Key)
    ensures Count(blocks, key) == |blocks| <==> forall b :: 0 <= b < |blocks| ==> Holds(key, blocks[b])
  {
    if blocks != [] {
      var n := |blocks| - 1;
      CountAll(blocks[..n], key);
      assert forall b :: 0 <= b < n ==> blocks[..n][b] == blocks[b];
    }
  }

  lemma CountNone(blocks: seq<Block>, key: Key)
    requires forall b :: 0 <= b < |blocks| ==> !Holds(key, blocks[b])
    ensures Count(blocks, key) == 0
  {
  }

  /** A change of one block that is no arrival in an exchange keeps that exchange's counters. */
  lemma StagedKept(grid: nat, base: nat, blocks: seq<Block>, second: bool, stage: seq<nat>, b: nat, k: Block)
    requires grid >= 1 && |stage| == 4 && Staged(grid, base, blocks, second, stage)
    requires b < |blocks| && Arrivals(k, second) == Arrivals(blocks[b], second)
    ensures Staged(grid, base, blocks[b := k], second, stage)
  {
    hide Tally;
    forall i | 0 <= i < 4
      ensures Tally(stage[i], Count(blocks[b := k], Past(second, base + i + 1)), grid)
    {
      CountUpdate(blocks, b, k, Past(second, base + i + 1));
    }
  }

  lemma TallyNext(x: nat, n: nat, a: nat)
    requires a >= 1 && Tally(x, n, a)
    ensures Tally(x + 1, n + 1, a)
    ensures n + 1 <= a ==> (LastArrival(x + 1, a) <==> n + 1 == a)
  {
    DivModDefinition(x, a);
    DivModDefinition(n, a);
    AddMultiple(x % a + 1, x / a, a);
    AddMultiple(n % a + 1, n / a, a);
    if n + 1 <= a {
      DivModUnique(n, 0, n, a);
      if n + 1 == a { DivModUnique(a, 1, 0, a); } else { DivModUnique(n + 1, 0, n + 1, a); }
    }
  }

  lemma TallyFull(x: nat, a: nat)
    requires a >= 1 && Tally(x, a, a)
    ensures Tally(x, 0, a)
  {
    DivModUnique(a, 1, 0, a);
  }

  /** An arrival: the counter of that chunk alone moves with it, and its remainder tells the last block of the launch
      to arrive, and only that one. */
  lemma StagedArrive(grid: nat, base: nat, blocks: seq<Block>, second: bool, stage: seq<nat>, b: nat, k: Block, i: nat)
    requires grid == |blocks| && |stage| == 4 && i < 4 && b < |blocks| && Staged(grid, base, blocks, second, stage)
    requires Arrivals(blocks[b], second) == base + i && Arrivals(k, second) == base + i + 1
    ensures Staged(grid, base, blocks[b := k], second, stage[i := stage[i] + 1])
    ensures LastArrival(stage[i] + 1, grid) <==> forall j :: 0 <= j < |blocks| && j != b ==>
      Arrivals(blocks[j], second) > base + i
  {
    hide Tally, LastArrival;
    var key := Past(second, base + i + 1);
    forall x | 0 <= x < 4 && x != i
      ensures Tally(stage[x], Count(blocks[b := k], Past(second, base + x + 1)), grid)
    {
      CountUpdate(blocks, b, k, Past(second, base + x + 1));
    }
    CountUpdate(blocks, b, k, key);
    TallyNext(stage[i], Count(blocks, key), grid);
    CountAll(blocks[b := k], key);
    assert forall j :: 0 <= j < |blocks| && j != b ==> blocks[b := k][j] == blocks[j];
  }

  lemma AllDoneKept<T>(rk: Rank<T>, rk': Rank<T>, b: nat)
    requires b < |rk.blocks| == |rk'.blocks| && rk'.blocks == rk.blocks[b := rk'.blocks[b]]
    requires rk'.blocks[b].done == rk.blocks[b].done
    ensures AllDone(rk') == AllDone(rk)
  {
    assert forall j :: 0 <= j < |rk.blocks| ==> rk'.blocks[j].done == rk.blocks[j].done;
  }

  /** A step of one block that arrives nowhere leaves the counters in step with the blocks. */
  lemma CountersKept<T>(c: Config<T>, rk: Rank<T>, b: nat, k: Block)
    requires c.blocks >= 1 && RankShape(c, rk) && b < c.blocks && Counters(c, rk)
    requires k.a1 == rk.blocks[b].a1 && k.a2 == rk.blocks[b].a2 && k.done == rk.blocks[b].done
    ensures Counters(c, SetBlock(rk, b, k))
    ensures AllDone(SetBlock(rk, b, k)) == AllDone(rk)
  {
    hide Tally, Staged;
    StagedKept(c.blocks, rk.base, rk.blocks, false, rk.stage1, b, k);
    StagedKept(c.blocks, rk.base, rk.blocks, true, rk.stage2, b, k);
    CountUpdate(rk.blocks, b, k, Finished);
    AllDoneKept(rk, SetBlock(rk, b, k), b);
  }

  lemma OrderKept<T>(c: Config<T>, rk: Rank<T>, rk': Rank<T>, b: nat)
    requires RankOrder(c, rk) && RankShape(c, rk') && b < |rk.blocks| && BlockOrder(c, rk', rk'.blocks[b])
    requires rk'.base == rk.base && rk'.launch == rk.launch && (rk.poison ==> rk'.poison)
    requires rk'.blocks == rk.blocks[b := rk'.blocks[b]]
    ensures RankOrder(c, rk')
  {
    hide Base;
    forall j | 0 <= j < |rk'.blocks|
      ensures BlockOrder(c, rk', rk'.blocks[j])
    {
      assert BlockOrder(c, rk, rk.blocks[j]);
    }
  }

  /** A block step without an arrival: only the block's own order has to be checked. */
  lemma RankKept<T>(c: Config<T>, rk: Rank<T>, b: nat, k: Block)
    requires c.blocks >= 1 && RankInv(c, rk) && b < c.blocks && BlockOrder(c, rk, k)
    requires k.a1 == rk.blocks[b].a1 && k.a2 == rk.blocks[b].a2 && k.done == rk.blocks[b].done
    ensures RankInv(c, SetBlock(rk, b, k))
  {
    CountersKept(c, rk, b, k);
    OrderKept(c, rk, SetBlock(rk, b, k), b);
    hide Counters, RankOrder;
  }

  lemma AllArrivedKept(blocks: seq<Block>, blocks': seq<Block>, second: bool, b: nat, bell: nat)
    requires AllArrived(blocks, second, bell) && b < |blocks| && |blocks'| == |blocks|
    requires forall j :: 0 <= j < |blocks| && j != b ==> blocks'[j] == blocks[j]
    requires Arrivals(blocks'[b], second) == Arrivals(blocks[b], second)
    ensures AllArrived(blocks', second, bell)
  {
    var j :| 0 <= j < |blocks| && Arrivals(blocks[j], second) == bell;
    assert Arrivals(blocks'[j], second) == bell;
  }

  lemma AllArrivedMoves(blocks: seq<Block>, second: bool, b: nat, k: Block, bell: nat, last: bool)
    requires AllArrived(blocks, second, bell) && b < |blocks| && Arrivals(k, second) == Arrivals(blocks[b], second) + 1
    requires last <==> forall j :: 0 <= j < |blocks| && j != b ==>
      Arrivals(blocks[j], second) > Arrivals(blocks[b], second)
    ensures AllArrived(blocks[b := k], second, if last then bell + 1 else bell)
    ensures last ==> bell == Arrivals(blocks[b], second)
  {
    var w :| 0 <= w < |blocks| && Arrivals(blocks[w], second) == bell;
    if last {
      assert Arrivals(blocks[b := k][b], second) == bell + 1;
    } else {
      var j :| 0 <= j < |blocks| && j != b && Arrivals(blocks[j], second) <= Arrivals(blocks[b], second);
      assert Arrivals(blocks[b := k][if w == b then j else w], second) == bell;
    }
  }

  lemma SecondBellKept<T>(rk: Rank<T>, rk': Rank<T>, b: nat, bell: nat)
    requires SecondBell(rk, bell) && b < |rk.blocks| && |rk'.blocks| == |rk.blocks| && rk'.base == rk.base
    requires forall j :: 0 <= j < |rk.blocks| && j != b ==> rk'.blocks[j] == rk.blocks[j]
    requires rk'.blocks[b].a2 == rk.blocks[b].a2 && rk'.blocks[b].summed >= rk.blocks[b].summed
    requires (rk.err1 ==> rk'.err1) && (rk.err2 ==> rk'.err2)
    ensures SecondBell(rk', bell)
  {
    if !rk'.err1 {
      AllArrivedKept(rk.blocks, rk'.blocks, true, b, bell);
    }
  }

  lemma BellsKept<T>(rk: Rank<T>, rk': Rank<T>, b: nat, bell1: nat, bell2: nat)
    requires FirstBell(rk, bell1) && SecondBell(rk, bell2)
    requires b < |rk.blocks| && |rk'.blocks| == |rk.blocks| && rk'.base == rk.base
    requires forall j :: 0 <= j < |rk.blocks| && j != b ==> rk'.blocks[j] == rk.blocks[j]
    requires rk'.blocks[b].a1 == rk.blocks[b].a1 && rk'.blocks[b].a2 == rk.blocks[b].a2
    requires rk'.blocks[b].summed >= rk.blocks[b].summed
    requires (rk.err1 ==> rk'.err1) && (rk.err2 ==> rk'.err2)
    ensures FirstBell(rk', bell1) && SecondBell(rk', bell2)
  {
    AllArrivedKept(rk.blocks, rk'.blocks, false, b, bell1);
    SecondBellKept(rk, rk', b, bell2);
  }

  /** Slot contents survive a change of the rank that moves no block's good sequence and does not shorten the
      launch. */
  lemma ContentsKept<T>(c: Config<T>, second: bool, r: nat, rk: Rank<T>, rk': Rank<T>, lk: Link<T>)
    requires c.slots > 0 && RankShape(c, rk) && RankShape(c, rk') && LinkShape(lk) && Contents(c, second, r, rk, lk)
    requires Top(c, rk) <= Top(c, rk')
    requires forall b :: 0 <= b < c.blocks ==> Good(rk'.blocks[b], second) == Good(rk.blocks[b], second)
    ensures Contents(c, second, r, rk', lk)
  {
    hide Words, Value;
    forall b | 0 <= b < c.blocks
      ensures Sent(c, second, r, lk, b, Good(rk'.blocks[b], second), Top(c, rk'))
    {
      assert Sent(c, second, r, lk, b, Good(rk.blocks[b], second), Top(c, rk));
    }
    forall l: nat, b: nat | l < 2 && b < c.blocks
      ensures Received(c, second, r, lk, l, b, Good(rk'.blocks[b], second), Top(c, rk'))
    {
      assert Received(c, second, r, lk, l, b, Good(rk.blocks[b], second), Top(c, rk));
    }
  }

  lemma ShareReceived<T>(c: Config<T>, second: bool, r: nat, rk: Rank<T>, lk: Link<T>, b: nat, s: nat, v: nat -> T,
                         k: Block)
    requires ValidConfig(c) && c.slots > 0 && RankShape(c, rk) && LinkShape(lk) && Contents(c, second, r, rk, lk)
    requires b < c.blocks && s <= Top(c, rk) && lk.data[0] < s && lk.data[1] < s
    requires Good(k, second) == Good(rk.blocks[b], second) || Good(k, second) == s == Good(rk.blocks[b], second) + 1
    ensures forall l, j :: 0 <= l < 2 && 0 <= j < c.blocks ==>
      Received(c, second, r, Write(c, lk, b, s, v), l, j, Good(SetBlock(rk, b, k).blocks[j], second), Top(c, rk))
  {
    var blocks := SetBlock(rk, b, k).blocks;
    hide Words, Value, Received, Sent, Write;
    forall l: nat, j: nat | l < 2 && j < c.blocks
      ensures Received(c, second, r, Write(c, lk, b, s, v), l, j, Good(blocks[j], second), Top(c, rk))
    {
      assert Received(c, second, r, lk, l, j, Good(rk.blocks[j], second), Top(c, rk));
      WriteReceived(c, second, r, lk, b, s, v, l, j, Good(rk.blocks[j], second), Good(blocks[j], second), Top(c, rk));
    }
  }

  /** One block writes its share of the next sequence's slot. */
  lemma ContentsWritten<T>(c: Config<T>, second: bool, r: nat, rk: Rank<T>, lk: Link<T>, b: nat, s: nat, v: nat -> T,
                           k: Block)
    requires ValidConfig(c) && c.slots > 0 && RankShape(c, rk) && LinkShape(lk) && Contents(c, second, r, rk, lk)
    requires b < c.blocks && rk.base < s <= Top(c, rk)
    requires forall j :: 0 <= j < c.blocks ==> Good(rk.blocks[j], second) <= Top(c, rk)
    requires Good(rk.blocks[b], second) < s && lk.data[0] < s && lk.data[1] < s
    requires Good(k, second) == Good(rk.blocks[b], second)
          || (Good(k, second) == s == Good(rk.blocks[b], second) + 1
              && forall p: nat :: p < c.packs(s) && c.owner(s, p) == b ==> v(p) == Value(c, second, r, s, p))
    ensures Contents(c, second, r, SetBlock(rk, b, k), Write(c, lk, b, s, v))
  {
    var top := Top(c, rk);
    var lk' := Write(c, lk, b, s, v);
    assert c.chunks(rk.launch) in {1, 2, 4};
    assert Words(c, lk');
    hide Words, Value, Received;
    forall j | 0 <= j < c.blocks
      ensures Sent(c, second, r, lk', j, if j == b then Good(k, second) else Good(rk.blocks[j], second), top)
    {
      assert Sent(c, second, r, lk, j, Good(rk.blocks[j], second), top);
      if j == b && Good(k, second) == s {
        WriteSentOwn(c, second, r, lk, b, s, v, top);
      } else {
        WriteSent(c, second, r, lk, b, s, v, top, j, Good(rk.blocks[j], second));
      }
    }
    ShareReceived(c, second, r, rk, lk, b, s, v, k);
  }

  lemma Orders<T>(c: Config<T>, r: nat, me: Node<T>)
    requires ValidConfig(c) && c.slots > 0 && NodeInv(c, r, me)
    ensures NodeShape(c, me) && RankOrder(c, me.rank) && c.chunks(me.rank.launch) in {1, 2, 4}
    ensures forall b :: 0 <= b < c.blocks ==> BlockOrder(c, me.rank, me.rank.blocks[b])
  {
    hide Words, Sent, Received, Count, Counters;
  }

  /** What a proxy has posted, every block is past: it has staged it, or summed or skipped it. */
  lemma PostedIsPast<T>(c: Config<T>, r: nat, me: Node<T>, second: bool)
    requires ValidConfig(c) && c.slots > 0 && NodeInv(c, r, me)
    ensures LinkShape(LinkOf(me, second)) && LinkOf(me, second).posted <= LinkOf(me, second).bell <= Top(c, me.rank)
    ensures forall l :: 0 <= l < 2 ==> LinkOf(me, second).data[l] <= LinkOf(me, second).posted
    ensures forall b :: 0 <= b < c.blocks ==>
      LinkOf(me, second).bell <= if second then me.rank.blocks[b].w2 else me.rank.blocks[b].w1
  {
    hide Words, Sent, Received, Count, Counters, Base;
    assert LinkOrder(LinkOf(me, second));
    forall b | 0 <= b < c.blocks
      ensures BlockOrder(c, me.rank, me.rank.blocks[b])
        && LinkOf(me, second).bell <= Arrivals(me.rank.blocks[b], second)
    {
      assert BlockOrder(c, me.rank, me.rank.blocks[b]);
    }
    assert LinkOf(me, second).bell <= Arrivals(me.rank.blocks[0], second);
  }

  lemma StepStage<T>(c: Config<T>, r: nat, me: Node<T>, in1: Link<T>, in2: Link<T>, b: nat)
    requires ValidConfig(c) && c.slots > 0 && NodeInv(c, r, me) && NodeShape(c, me)
      && Enabled(c, me, in1, in2, Stage(b))
    ensures NodeInv(c, r, Apply(c, r, me, in1, in2, Stage(b)))
  {
    hide RankInv, Contents, FirstBell, SecondBell, LinkOrder, Base, Write;
    var rk, k := me.rank, me.rank.blocks[b];
    Orders(c, r, me);
    var me' := Apply(c, r, me, in1, in2, Stage(b));
    var k' := k.(w1 := k.w1 + 1);
    RankKept(c, rk, b, k');
    BellsKept(rk, me'.rank, b, me.first.bell, me.second.bell);
    StageValue(c, r, k.w1 + 1);
    PostedIsPast(c, r, me, false);
    ContentsWritten(c, false, r, rk, me.first, b, k.w1 + 1, InputOf(c, r, k.w1 + 1), k');
    ContentsKept(c, true, r, rk, me'.rank, me.second);
    WriteKeeps(c, me.first, b, k.w1 + 1, InputOf(c, r, k.w1 + 1));
  }

  lemma WriteKeeps<T>(c: Config<T>, lk: Link<T>, b: nat, s: nat, v: nat -> T)
    requires c.slots > 0 && LinkOrder(lk)
    ensures LinkOrder(Write(c, lk, b, s, v)) && Write(c, lk, b, s, v).bell == lk.bell
  {
  }

  lemma StageValue<T>(c: Config<T>, r: nat, s: nat)
    ensures forall p: nat :: InputOf(c, r, s)(p) == Value(c, false, r, s, p)
  {
  }

  // ---------------------------------------------------------------- rounds 2 and 3

  /** The slot of a sequence holds, for every pack, the value its sender has for it. */
  ghost predicate Arrived<T>(c: Config<T>, second: bool, from: nat, lk: Link<T>, s: nat)
    requires c.slots > 0
  {
    forall p: nat :: p < c.packs(s) ==> lk.recv(SlotOf(c, s), p) == Value(c, second, from, s, p)
  }

  /** The slot of a sequence holds what its sender had for one block's packs: the values if the block wrote them, and
      otherwise what lies in the sender's slot. */
  ghost predicate ShareArrived<T>(c: Config<T>, second: bool, from: nat, lk: Link<T>, s: nat, b: nat, good: nat)
    requires c.slots > 0
  {
    forall p: nat :: p < c.packs(s) && c.owner(s, p) == b ==>
      lk.recv(SlotOf(c, s), p) == Sourced(c, second, from, lk, s, p, good)
  }

  lemma SumValue<T>(c: Config<T>, r: nat, in1: Link<T>, s: nat)
    requires c.slots > 0 && r < WORLD && Arrived(c, false, Peer1(r), in1, s)
    ensures forall p: nat :: p < c.packs(s) ==> SumOf(c, r, in1, s)(p) == Value(c, true, r, s, p)
  {
  }

  lemma StepSum<T>(c: Config<T>, r: nat, me: Node<T>, in1: Link<T>, in2: Link<T>, b: nat, skip: bool)
    requires ValidConfig(c) && c.slots > 0 && NodeInv(c, r, me) && NodeShape(c, me) && r < WORLD
    requires Enabled(c, me, in1, in2, Sum(b, skip))
    requires Arrived(c, false, Peer1(r), in1, me.rank.blocks[b].w2 + 1)
    ensures NodeInv(c, r, Apply(c, r, me, in1, in2, Sum(b, skip)))
  {
    hide RankInv, Contents, FirstBell, SecondBell, LinkOrder, Base, Write, Arrived, SumOf, Matched;
    Orders(c, r, me);
    var rk, k := me.rank, me.rank.blocks[b];
    var me' := Apply(c, r, me, in1, in2, Sum(b, skip));
    var k' := SumBlock(k, skip);
    RankKept(c, rk, b, k');
    BellsKept(rk, me'.rank, b, me.first.bell, me.second.bell);
    ContentsKept(c, false, r, rk, me'.rank, me.first);
    if skip {
      ContentsKept(c, true, r, rk, me'.rank, me.second);
    } else {
      SumValue(c, r, in1, k.w2 + 1);
      PostedIsPast(c, r, me, true);
      ContentsWritten(c, true, r, rk, me.second, b, k.w2 + 1, SumOf(c, r, in1, k.w2 + 1), k');
      WriteKeeps(c, me.second, b, k.w2 + 1, SumOf(c, r, in1, k.w2 + 1));
    }
  }

  lemma OutputIrrelevant<T>(c: Config<T>, rk: Rank<T>, output: (nat, nat) -> T)
    requires c.blocks >= 1 && RankInv(c, rk)
    ensures RankInv(c, rk.(output := output))
  {
    hide Count;
    var rk' := rk.(output := output);
    forall j | 0 <= j < |rk'.blocks|
      ensures BlockOrder(c, rk', rk'.blocks[j])
    {
      assert BlockOrder(c, rk, rk.blocks[j]);
    }
    assert AllDone(rk') == AllDone(rk);
  }

  lemma StepEmit<T>(c: Config<T>, r: nat, me: Node<T>, in1: Link<T>, in2: Link<T>, b: nat, skip: bool)
    requires ValidConfig(c) && c.slots > 0 && NodeInv(c, r, me) && NodeShape(c, me)
    requires Enabled(c, me, in1, in2, Emit(b, skip))
    ensures NodeInv(c, r, Apply(c, r, me, in1, in2, Emit(b, skip)))
  {
    hide RankInv, Contents, FirstBell, SecondBell, LinkOrder, Base, EmitOutput, Matched;
    Orders(c, r, me);
    var rk, k := me.rank, me.rank.blocks[b];
    var me' := Apply(c, r, me, in1, in2, Emit(b, skip));
    RankKept(c, rk, b, EmitBlock(k, skip));
    OutputIrrelevant(c, SetBlock(rk, b, EmitBlock(k, skip)), me'.rank.output);
    BellsKept(rk, me'.rank, b, me.first.bell, me.second.bell);
    ContentsKept(c, false, r, rk, me'.rank, me.first);
    ContentsKept(c, true, r, rk, me'.rank, me.second);
  }

  // ---------------------------------------------------------------- timeouts

  /** A timeout marks the rank and moves one block on; the launch can no longer advance the epoch. */
  lemma RankPoisoned<T>(c: Config<T>, rk: Rank<T>, b: nat, k: Block, err1: bool, err2: bool)
    requires c.blocks >= 1 && RankInv(c, rk) && b < c.blocks && BlockOrder(c, rk.(poison := true), k)
    requires k.a1 == rk.blocks[b].a1 && k.a2 == rk.blocks[b].a2 && !k.done && !rk.blocks[b].done
    requires err1 || err2
    ensures RankInv(c, SetBlock(rk, b, k).(err1 := err1, err2 := err2, poison := true))
  {
    CountersKept(c, rk, b, k);
    var rk' := SetBlock(rk, b, k).(err1 := err1, err2 := err2, poison := true);
    OrderKept(c, rk, rk', b);
    hide Count, Staged, Base, RankOrder, Tally, LastArrival;
    assert !rk.blocks[b].done && !rk'.blocks[b].done;
  }

  lemma StepTimeout1<T>(c: Config<T>, r: nat, me: Node<T>, in1: Link<T>, in2: Link<T>, b: nat)
    requires ValidConfig(c) && c.slots > 0 && NodeInv(c, r, me) && NodeShape(c, me)
    requires Enabled(c, me, in1, in2, Timeout1(b))
    ensures NodeInv(c, r, Apply(c, r, me, in1, in2, Timeout1(b)))
  {
    hide RankInv, Contents, FirstBell, SecondBell, LinkOrder, Base, Matched;
    Orders(c, r, me);
    var rk := me.rank;
    var me' := Apply(c, r, me, in1, in2, Timeout1(b));
    RankPoisoned(c, rk, b, SumBlock(rk.blocks[b], true), true, rk.err2);
    BellsKept(rk, me'.rank, b, me.first.bell, me.second.bell);
    ContentsKept(c, false, r, rk, me'.rank, me.first);
    ContentsKept(c, true, r, rk, me'.rank, me.second);
  }

  lemma StepTimeout2<T>(c: Config<T>, r: nat, me: Node<T>, in1: Link<T>, in2: Link<T>, b: nat)
    requires ValidConfig(c) && c.slots > 0 && NodeInv(c, r, me) && NodeShape(c, me)
    requires Enabled(c, me, in1, in2, Timeout2(b))
    ensures NodeInv(c, r, Apply(c, r, me, in1, in2, Timeout2(b)))
  {
    hide RankInv, Contents, FirstBell, SecondBell, LinkOrder, Base, Matched;
    Orders(c, r, me);
    var rk := me.rank;
    var me' := Apply(c, r, me, in1, in2, Timeout2(b));
    RankPoisoned(c, rk, b, EmitBlock(rk.blocks[b], true), rk.err1, true);
    BellsKept(rk, me'.rank, b, me.first.bell, me.second.bell);
    ContentsKept(c, false, r, rk, me'.rank, me.first);
    ContentsKept(c, true, r, rk, me'.rank, me.second);
  }

  // ---------------------------------------------------------------- arrivals and doorbells

  lemma CountersArrived1<T>(c: Config<T>, rk: Rank<T>, b: nat, i: nat)
    requires c.blocks >= 1 && RankShape(c, rk) && Counters(c, rk) && b < c.blocks && i < 4
    requires rk.blocks[b].a1 == rk.base + i && rk.blocks[b].w1 == rk.base + i + 1
    ensures Counters(c, SetBlock(rk, b,
      rk.blocks[b].(a1 := rk.blocks[b].w1)).(stage1 := rk.stage1[i := rk.stage1[i] + 1]))
    ensures LastArrival(rk.stage1[i] + 1, c.blocks) <==>
            forall j :: 0 <= j < |rk.blocks| && j != b ==> Arrivals(rk.blocks[j], false) > Arrivals(rk.blocks[b], false)
  {
    hide Staged, Tally, LastArrival, Count;
    var k := rk.blocks[b].(a1 := rk.blocks[b].w1);
    StagedArrive(c.blocks, rk.base, rk.blocks, false, rk.stage1, b, k, i);
    StagedKept(c.blocks, rk.base, rk.blocks, true, rk.stage2, b, k);
    CountUpdate(rk.blocks, b, k, Finished);
  }

  lemma RankArrived1<T>(c: Config<T>, rk: Rank<T>, b: nat, i: nat)
    requires c.blocks >= 1 && RankInv(c, rk) && b < c.blocks && i < 4
    requires rk.blocks[b].a1 == rk.base + i && rk.blocks[b].w1 == rk.base + i + 1
    ensures RankInv(c, SetBlock(rk, b,
      rk.blocks[b].(a1 := rk.blocks[b].w1)).(stage1 := rk.stage1[i := rk.stage1[i] + 1]))
    ensures LastArrival(rk.stage1[i] + 1, c.blocks) <==>
            forall j :: 0 <= j < |rk.blocks| && j != b ==> Arrivals(rk.blocks[j], false) > Arrivals(rk.blocks[b], false)
  {
    hide Counters, LastArrival, Base;
    var rk' := SetBlock(rk, b, rk.blocks[b].(a1 := rk.blocks[b].w1)).(stage1 := rk.stage1[i := rk.stage1[i] + 1]);
    CountersArrived1(c, rk, b, i);
    AllDoneKept(rk, rk', b);
    assert BlockOrder(c, rk, rk.blocks[b]);
    OrderKept(c, rk, rk', b);
    hide RankOrder, AllDone;
  }

  lemma CountersArrived2<T>(c: Config<T>, rk: Rank<T>, b: nat, i: nat)
    requires c.blocks >= 1 && RankShape(c, rk) && Counters(c, rk) && b < c.blocks && i < 4
    requires rk.blocks[b].a2 == rk.base + i && rk.blocks[b].w2 == rk.base + i + 1
    ensures Counters(c, SetBlock(rk, b,
      rk.blocks[b].(a2 := rk.blocks[b].w2)).(stage2 := rk.stage2[i := rk.stage2[i] + 1]))
    ensures LastArrival(rk.stage2[i] + 1, c.blocks) <==>
            forall j :: 0 <= j < |rk.blocks| && j != b ==> Arrivals(rk.blocks[j], true) > Arrivals(rk.blocks[b], true)
  {
    hide Staged, Tally, LastArrival, Count;
    var k := rk.blocks[b].(a2 := rk.blocks[b].w2);
    StagedArrive(c.blocks, rk.base, rk.blocks, true, rk.stage2, b, k, i);
    StagedKept(c.blocks, rk.base, rk.blocks, false, rk.stage1, b, k);
    CountUpdate(rk.blocks, b, k, Finished);
  }

  lemma RankArrived2<T>(c: Config<T>, rk: Rank<T>, b: nat, i: nat)
    requires c.blocks >= 1 && RankInv(c, rk) && b < c.blocks && i < 4
    requires rk.blocks[b].a2 == rk.base + i && rk.blocks[b].w2 == rk.base + i + 1
    ensures RankInv(c, SetBlock(rk, b,
      rk.blocks[b].(a2 := rk.blocks[b].w2)).(stage2 := rk.stage2[i := rk.stage2[i] + 1]))
    ensures LastArrival(rk.stage2[i] + 1, c.blocks) <==>
            forall j :: 0 <= j < |rk.blocks| && j != b ==> Arrivals(rk.blocks[j], true) > Arrivals(rk.blocks[b], true)
  {
    hide Counters, LastArrival, Base;
    var rk' := SetBlock(rk, b, rk.blocks[b].(a2 := rk.blocks[b].w2)).(stage2 := rk.stage2[i := rk.stage2[i] + 1]);
    CountersArrived2(c, rk, b, i);
    AllDoneKept(rk, rk', b);
    assert BlockOrder(c, rk, rk.blocks[b]);
    OrderKept(c, rk, rk', b);
    hide RankOrder, AllDone;
  }

  lemma ContentsRung<T>(c: Config<T>, second: bool, r: nat, rk: Rank<T>, lk: Link<T>)
    requires ValidConfig(c) && c.slots > 0 && RankShape(c, rk) && LinkShape(lk) && Contents(c, second, r, rk, lk)
    ensures Contents(c, second, r, rk, Ring(c, lk, lk.bell + 1))
  {
    RingWords(c, lk);
    hide Words, Value;
    var lk' := Ring(c, lk, lk.bell + 1);
    forall b | 0 <= b < c.blocks
      ensures Sent(c, second, r, lk', b, Good(rk.blocks[b], second), Top(c, rk))
    {
      assert Sent(c, second, r, lk, b, Good(rk.blocks[b], second), Top(c, rk));
    }
    forall i: nat, b: nat | i < 2 && b < c.blocks
      ensures Received(c, second, r, lk', i, b, Good(rk.blocks[b], second), Top(c, rk))
    {
      assert Received(c, second, r, lk, i, b, Good(rk.blocks[b], second), Top(c, rk));
    }
  }

  lemma StepArrive1<T>(c: Config<T>, r: nat, me: Node<T>, in1: Link<T>, in2: Link<T>, b: nat)
    requires ValidConfig(c) && c.slots > 0 && NodeInv(c, r, me) && NodeShape(c, me)
    requires Enabled(c, me, in1, in2, Arrive1(b))
    ensures NodeInv(c, r, Apply(c, r, me, in1, in2, Arrive1(b)))
  {
    hide LastArrival, RankInv, Contents, Base, AllArrived, SecondBell;
    Orders(c, r, me);
    var rk, k := me.rank, me.rank.blocks[b];
    var i := k.w1 - rk.base - 1;
    var me' := Apply(c, r, me, in1, in2, Arrive1(b));
    RankArrived1(c, rk, b, i);
    ContentsKept(c, false, r, rk, me'.rank, me.first);
    ContentsKept(c, true, r, rk, me'.rank, me.second);
    AllArrivedMoves(rk.blocks, false, b, k.(a1 := k.w1), me.first.bell, LastArrival(rk.stage1[i] + 1, c.blocks));
    ContentsRung(c, false, r, me'.rank, me.first);
    SecondBellKept(rk, me'.rank, b, me.second.bell);
  }

  lemma StepArrive2<T>(c: Config<T>, r: nat, me: Node<T>, in1: Link<T>, in2: Link<T>, b: nat)
    requires ValidConfig(c) && c.slots > 0 && NodeInv(c, r, me) && NodeShape(c, me)
    requires Enabled(c, me, in1, in2, Arrive2(b))
    ensures NodeInv(c, r, Apply(c, r, me, in1, in2, Arrive2(b)))
    ensures Apply(c, r, me, in1, in2, Arrive2(b)).second.bell == me.second.bell
         || (!me.rank.err1 && Apply(c, r, me, in1, in2, Arrive2(b)).second.bell == me.rank.blocks[b].w2)
  {
    hide LastArrival, RankInv, Contents, Base, AllArrived, SecondBell;
    Orders(c, r, me);
    var rk, k := me.rank, me.rank.blocks[b];
    var i := k.w2 - rk.base - 1;
    var me' := Apply(c, r, me, in1, in2, Arrive2(b));
    var last := LastArrival(rk.stage2[i] + 1, c.blocks);
    RankArrived2(c, rk, b, i);
    ContentsKept(c, false, r, rk, me'.rank, me.first);
    ContentsKept(c, true, r, rk, me'.rank, me.second);
    ContentsRung(c, true, r, me'.rank, me.second);
    AllArrivedKept(rk.blocks, me'.rank.blocks, false, b, me.first.bell);
    SecondBellMoves(c, rk, me'.rank, b, me.second.bell, last);
  }

  /** Ringing the second doorbell needs every block at the sequence and no round 2 timeout, so that without a round 3
      timeout every block has summed it. */
  lemma SecondBellMoves<T>(c: Config<T>, rk: Rank<T>, rk': Rank<T>, b: nat, bell: nat, last: bool)
    requires c.blocks >= 1 && RankInv(c, rk) && SecondBell(rk, bell) && b < |rk.blocks|
    requires rk.blocks[b].w2 == rk.blocks[b].a2 + 1
    requires rk'.blocks == rk.blocks[b := rk.blocks[b].(a2 := rk.blocks[b].w2)]
    requires rk'.base == rk.base && rk'.err1 == rk.err1 && rk'.err2 == rk.err2
    requires last <==> forall j :: 0 <= j < |rk.blocks| && j != b ==>
      Arrivals(rk.blocks[j], true) > Arrivals(rk.blocks[b], true)
    ensures SecondBell(rk', if last && !rk.err1 then rk.blocks[b].w2 else bell)
    ensures last && !rk.err1 ==> rk.blocks[b].w2 == bell + 1
  {
    hide Counters, Base;
    assert BlockOrder(c, rk, rk.blocks[b]);
    if !rk.err1 {
      AllArrivedMoves(rk.blocks, true, b, rk'.blocks[b], bell, last);
    }
    forall j | 0 <= j < |rk'.blocks| && last && !rk.err1 && !rk.err2
      ensures rk.blocks[b].w2 <= rk'.blocks[j].summed
    {
      assert BlockOrder(c, rk, rk.blocks[j]);
    }
  }


  // ---------------------------------------------------------------- the end of a launch

  lemma CountersTail<T>(c: Config<T>, rk: Rank<T>, b: nat, epoch: nat)
    requires c.blocks >= 1 && RankShape(c, rk) && Counters(c, rk) && b < c.blocks && !rk.blocks[b].done
    ensures var rk' := SetBlock(rk, b, rk.blocks[b].(done := true)).(tail := rk.tail + 1, epoch := epoch);
      Counters(c, rk') && (LastArrival(rk.tail + 1, c.blocks) <==> AllDone(rk'))
  {
    hide Staged, Tally, LastArrival;
    var k := rk.blocks[b].(done := true);
    StagedKept(c.blocks, rk.base, rk.blocks, false, rk.stage1, b, k);
    StagedKept(c.blocks, rk.base, rk.blocks, true, rk.stage2, b, k);
    CountUpdate(rk.blocks, b, k, Finished);
    TallyNext(rk.tail, Count(rk.blocks, Finished), c.blocks);
    CountAll(rk.blocks[b := k], Finished);
  }

  lemma RankTail<T>(c: Config<T>, rk: Rank<T>, b: nat)
    requires c.blocks >= 1 && RankInv(c, rk) && b < c.blocks && !rk.blocks[b].done && rk.blocks[b].w3 == Top(c, rk)
    ensures RankInv(c, SetBlock(rk, b, rk.blocks[b].(done := true)).(tail := rk.tail + 1,
              epoch := if LastArrival(rk.tail + 1, c.blocks) && !rk.err1 && !rk.err2 then Top(c, rk) else rk.epoch))
  {
    hide Counters, LastArrival, Base;
    var rk' := SetBlock(rk, b, rk.blocks[b].(done := true)).(tail := rk.tail + 1,
              epoch := if LastArrival(rk.tail + 1, c.blocks) && !rk.err1 && !rk.err2 then Top(c, rk) else rk.epoch);
    CountersTail(c, rk, b, rk'.epoch);
    assert BlockOrder(c, rk, rk.blocks[b]);
    OrderKept(c, rk, rk', b);
    hide RankOrder;
    assert !AllDone(rk);
  }

  lemma StepTail<T>(c: Config<T>, r: nat, me: Node<T>, in1: Link<T>, in2: Link<T>, b: nat)
    requires ValidConfig(c) && c.slots > 0 && NodeInv(c, r, me) && NodeShape(c, me)
    requires Enabled(c, me, in1, in2, Tail(b))
    ensures NodeInv(c, r, Apply(c, r, me, in1, in2, Tail(b)))
  {
    hide LastArrival, RankInv, Contents, FirstBell, SecondBell, LinkOrder, Base;
    Orders(c, r, me);
    var me' := Apply(c, r, me, in1, in2, Tail(b));
    RankTail(c, me.rank, b);
    BellsKept(me.rank, me'.rank, b, me.first.bell, me.second.bell);
    ContentsKept(c, false, r, me.rank, me'.rank, me.first);
    ContentsKept(c, true, r, me.rank, me'.rank, me.second);
  }

  function FreshBlocks(n: nat, base: nat): seq<Block> {
    seq(n, (_: nat) => Fresh(base))
  }

  /** A finished, unpoisoned launch left every block at its last sequence and the epoch there too. */
  lemma FinishedLaunch<T>(c: Config<T>, rk: Rank<T>)
    requires ValidConfig(c) && RankInv(c, rk) && AllDone(rk) && !rk.poison
    ensures rk.epoch == Top(c, rk) == Base(c, rk.launch + 1)
    ensures forall b :: 0 <= b < c.blocks ==>
      var k := rk.blocks[b]; k.w1 == k.a1 == k.w2 == k.a2 == k.summed == k.w3 == k.emitted == Top(c, rk)
  {
    hide Counters;
    assert c.chunks(rk.launch) in {1, 2, 4};
    forall b | 0 <= b < c.blocks
      ensures var k := rk.blocks[b]; k.w1 == k.a1 == k.w2 == k.a2 == k.summed == k.w3 == k.emitted == Top(c, rk)
    {
      assert BlockOrder(c, rk, rk.blocks[b]);
    }
  }

  lemma StagedFresh(grid: nat, base: nat, base': nat, blocks: seq<Block>, second: bool, stage: seq<nat>)
    requires grid == |blocks| >= 1 && |stage| == 4 && base <= base' && Staged(grid, base, blocks, second, stage)
    requires forall b :: 0 <= b < |blocks| ==> Arrivals(blocks[b], second) == base'
    ensures Staged(grid, base', FreshBlocks(grid, base'), second, stage)
  {
    hide Tally;
    forall i | 0 <= i < 4
      ensures Tally(stage[i], Count(FreshBlocks(grid, base'), Past(second, base' + i + 1)), grid)
    {
      CountNone(FreshBlocks(grid, base'), Past(second, base' + i + 1));
      if base + i + 1 <= base' {
        CountAll(blocks, Past(second, base + i + 1));
        TallyFull(stage[i], grid);
      } else {
        CountNone(blocks, Past(second, base + i + 1));
      }
    }
  }

  lemma RankRelaunched<T>(c: Config<T>, rk: Rank<T>)
    requires ValidConfig(c) && RankInv(c, rk) && AllDone(rk) && !rk.poison && rk.launch < c.launches
    ensures RankInv(c, rk.(launch := rk.launch + 1, base := rk.epoch, blocks := FreshBlocks(c.blocks, rk.epoch)))
  {
    FinishedLaunch(c, rk);
    StagedFresh(c.blocks, rk.base, rk.epoch, rk.blocks, false, rk.stage1);
    StagedFresh(c.blocks, rk.base, rk.epoch, rk.blocks, true, rk.stage2);
    CountAll(rk.blocks, Finished);
    TallyFull(rk.tail, c.blocks);
    CountNone(FreshBlocks(c.blocks, rk.epoch), Finished);
    hide Count, Staged, Base, Tally;
    var rk' := rk.(launch := rk.launch + 1, base := rk.epoch, blocks := FreshBlocks(c.blocks, rk.epoch));
    assert c.chunks(rk'.launch) in {1, 2, 4};
    assert !rk'.blocks[0].done;
  }

  lemma BellsRelaunched<T>(c: Config<T>, rk: Rank<T>, rk': Rank<T>, bell1: nat, bell2: nat)
    requires c.blocks >= 1 && RankShape(c, rk) && !rk.err1 && !rk.err2 && FirstBell(rk, bell1) && SecondBell(rk, bell2)
    requires forall b :: 0 <= b < c.blocks ==> rk.blocks[b].a1 == rk.blocks[b].a2 == rk.epoch
    requires rk'.blocks == FreshBlocks(c.blocks, rk.epoch) && rk'.base == rk.epoch
    ensures FirstBell(rk', bell1) && SecondBell(rk', bell2)
  {
    assert bell1 == bell2 == rk.epoch;
    assert rk'.blocks[0] == Fresh(rk.epoch);
    assert Arrivals(rk'.blocks[0], false) == bell1 && Arrivals(rk'.blocks[0], true) == bell2;
  }

  lemma StepRelaunch<T>(c: Config<T>, r: nat, me: Node<T>, in1: Link<T>, in2: Link<T>)
    requires ValidConfig(c) && c.slots > 0 && NodeInv(c, r, me) && NodeShape(c, me)
    requires Enabled(c, me, in1, in2, Relaunch)
    ensures NodeInv(c, r, Apply(c, r, me, in1, in2, Relaunch))
    ensures Apply(c, r, me, in1, in2, Relaunch).rank.blocks == FreshBlocks(c.blocks, me.rank.epoch)
  {
    hide Contents, FirstBell, SecondBell, LinkOrder, Base, Counters;
    var rk := me.rank;
    FinishedLaunch(c, rk);
    var me' := Apply(c, r, me, in1, in2, Relaunch);
    assert me'.rank.blocks == FreshBlocks(c.blocks, rk.epoch);
    RankRelaunched(c, rk);
    BellsRelaunched(c, rk, me'.rank, me.first.bell, me.second.bell);
    ContentsKept(c, false, r, rk, me'.rank, me.first);
    ContentsKept(c, true, r, rk, me'.rank, me.second);
  }

  // ---------------------------------------------------------------- proxies and lanes

  lemma ContentsPosted<T>(c: Config<T>, second: bool, r: nat, rk: Rank<T>, lk: Link<T>)
    requires ValidConfig(c) && c.slots > 0 && RankShape(c, rk) && LinkShape(lk) && Contents(c, second, r, rk, lk)
    requires lk.posted < lk.bell <= lk.posted + c.slots
    ensures Contents(c, second, r, rk, PostNext(c, lk))
  {
    PostWords(c, lk);
    hide Words, Value;
    var lk' := PostNext(c, lk);
    forall b | 0 <= b < c.blocks
      ensures Sent(c, second, r, lk', b, Good(rk.blocks[b], second), Top(c, rk))
    {
      assert Sent(c, second, r, lk, b, Good(rk.blocks[b], second), Top(c, rk));
    }
    forall i: nat, b: nat | i < 2 && b < c.blocks
      ensures Received(c, second, r, lk', i, b, Good(rk.blocks[b], second), Top(c, rk))
    {
      assert Received(c, second, r, lk, i, b, Good(rk.blocks[b], second), Top(c, rk));
    }
  }

  lemma ContentsDelivered<T>(c: Config<T>, second: bool, r: nat, rk: Rank<T>, lk: Link<T>, l: nat)
    requires ValidConfig(c) && c.slots > 0 && RankShape(c, rk) && LinkShape(lk) && Contents(c, second, r, rk, lk)
      && l < 2
    requires lk.data[l] < lk.posted <= Top(c, rk) < lk.data[l] + 1 + c.slots && lk.data[1 - l] <= Top(c, rk)
    ensures Contents(c, second, r, rk, Deliver(c, lk, l))
  {
    var lk' := Deliver(c, lk, l);
    var top := Top(c, rk);
    assert Words(c, lk');
    hide Value;
    forall b | 0 <= b < c.blocks
      ensures Sent(c, second, r, lk', b, Good(rk.blocks[b], second), top)
    {
      assert Sent(c, second, r, lk, b, Good(rk.blocks[b], second), top);
    }
    forall l': nat, b: nat | l' < 2 && b < c.blocks
      ensures Received(c, second, r, lk', l', b, Good(rk.blocks[b], second), top)
    {
      assert Received(c, second, r, lk, l', b, Good(rk.blocks[b], second), top);
      assert Sent(c, second, r, lk, b, Good(rk.blocks[b], second), top);
      DeliverReceived(c, second, r, lk, l, top, l', b, Good(rk.blocks[b], second));
    }
  }

  lemma ContentsRaised<T>(c: Config<T>, second: bool, r: nat, rk: Rank<T>, lk: Link<T>, l: nat)
    requires ValidConfig(c) && c.slots > 0 && RankShape(c, rk) && LinkShape(lk) && Contents(c, second, r, rk, lk)
      && l < 2
    ensures Contents(c, second, r, rk, Raise(c, lk, l))
  {
    RaiseWords(c, lk, l);
    hide Words, Value;
    var lk' := Raise(c, lk, l);
    forall b | 0 <= b < c.blocks
      ensures Sent(c, second, r, lk', b, Good(rk.blocks[b], second), Top(c, rk))
    {
      assert Sent(c, second, r, lk, b, Good(rk.blocks[b], second), Top(c, rk));
    }
    forall i: nat, b: nat | i < 2 && b < c.blocks
      ensures Received(c, second, r, lk', i, b, Good(rk.blocks[b], second), Top(c, rk))
    {
      assert Received(c, second, r, lk, i, b, Good(rk.blocks[b], second), Top(c, rk));
    }
  }

  lemma StepLink<T>(c: Config<T>, r: nat, me: Node<T>, in1: Link<T>, in2: Link<T>, a: Action, top1: nat, top2: nat)
    requires ValidConfig(c) && c.slots > 0 && NodeInv(c, r, me) && NodeShape(c, me)
    requires (a.Post? || a.Data? || a.Flag?) && Enabled(c, me, in1, in2, a) && Lapped(c, me, top1, top2)
    ensures NodeInv(c, r, Apply(c, r, me, in1, in2, a))
  {
    hide RankInv, Contents, FirstBell, SecondBell, Base;
    Orders(c, r, me);
    PostedIsPast(c, r, me, a.second);
    var lk := LinkOf(me, a.second);
    assert LinkOrder(lk);
    match a {
      case Post(ph) =>
        assert lk.flag[0] <= lk.data[0] <= lk.posted;
        ContentsPosted(c, ph, r, me.rank, lk);
      case Data(ph, l) =>
        assert lk.data[1 - l] <= lk.posted;
        ContentsDelivered(c, ph, r, me.rank, lk, l);
      case Flag(ph, l) =>
        ContentsRaised(c, ph, r, me.rank, lk, l);
    }
  }
}
