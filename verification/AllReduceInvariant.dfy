/** Every action of the all-reduce keeps the invariant. */
module AllReduceInvariant {
  import opened AllReduce

  // ---------------------------------------------------------------- links

  lemma WriteSent<T>(c: Config<T>, second: bool, r: nat, lk: Link<T>, b: nat, s: nat, v: nat -> T, top: nat, b': nat,
                     good: nat)
    requires ValidConfig(c) && c.slots > 0 && s <= top < s + c.slots && good <= top
    requires Sent(c, second, r, lk, b', good, top) && (b' == b ==> good < s)
    ensures Sent(c, second, r, Write(c, lk, b, s, v), b', good, top)
  {
    forall i: nat | 1 <= i <= good && top < i + c.slots && i != s
      ensures SlotOf(c, i) != SlotOf(c, s)
    {
      if i < s { SlotDistinct(c, i, s); } else { SlotDistinct(c, s, i); }
    }
  }

  lemma WriteSentOwn<T>(c: Config<T>, second: bool, r: nat, lk: Link<T>, b: nat, s: nat, v: nat -> T, top: nat)
    requires ValidConfig(c) && c.slots > 0 && 1 <= s <= top < s + c.slots
    requires Sent(c, second, r, lk, b, s - 1, top)
    requires forall p: nat :: p < c.packs(s) && c.owner(s, p) == b ==> v(p) == Value(c, second, r, s, p)
    ensures Sent(c, second, r, Write(c, lk, b, s, v), b, s, top)
  {
    WriteSent(c, second, r, lk, b, s, v, top, b, s - 1);
  }

  lemma RingWords<T>(c: Config<T>, lk: Link<T>)
    requires ValidConfig(c) && c.slots > 0 && LinkShape(lk) && Words(c, lk)
    ensures Words(c, Ring(c, lk, lk.bell + 1))
  {
    forall i: nat | 1 <= i <= lk.bell && lk.bell + 1 < i + c.slots
      ensures SlotOf(c, i) != SlotOf(c, lk.bell + 1)
    {
      SlotDistinct(c, i, lk.bell + 1);
    }
  }

  lemma PostWords<T>(c: Config<T>, lk: Link<T>)
    requires ValidConfig(c) && c.slots > 0 && LinkShape(lk) && Words(c, lk)
    requires lk.posted < lk.bell <= lk.posted + c.slots
    ensures Words(c, PostNext(c, lk))
  {
  }

  lemma DeliverReceived<T>(c: Config<T>, second: bool, r: nat, lk: Link<T>, l: nat, top: nat, l': nat, b: nat,
                           good: nat)
    requires ValidConfig(c) && c.slots > 0 && LinkShape(lk) && l < 2 && l' < 2
    requires Words(c, lk) && lk.data[l] < lk.posted
    requires lk.data[l] + 1 <= top < lk.data[l] + 1 + c.slots && lk.data[l'] <= top
    requires Received(c, second, r, lk, l', b, good, top) && Sent(c, second, r, lk, b, good, top)
    ensures Received(c, second, r, Deliver(c, lk, l), l', b, good, top)
  {
    hide Value;
    var s := lk.data[l] + 1;
    forall i: nat | 1 <= i <= lk.data[l'] && top < i + c.slots && i != s
      ensures SlotOf(c, i) != SlotOf(c, s)
    {
      if i < s { SlotDistinct(c, i, s); } else { SlotDistinct(c, s, i); }
    }
    assert lk.sizes(s) == c.packs(s);
  }

  /** A block writes a sequence no lane has brought yet. */
  lemma WriteReceived<T>(c: Config<T>, second: bool, r: nat, lk: Link<T>, b: nat, s: nat, v: nat -> T, l: nat, b': nat,
                         good: nat, good': nat, top: nat)
    requires ValidConfig(c) && c.slots > 0 && LinkShape(lk) && l < 2
    requires lk.data[l] < s <= top && (good' == good || s == good' == good + 1)
    requires Received(c, second, r, lk, l, b', good, top)
    ensures Received(c, second, r, Write(c, lk, b, s, v), l, b', good', top)
  {
    hide Value;
    forall i: nat | 1 <= i <= lk.data[l] && top < i + c.slots
      ensures SlotOf(c, i) != SlotOf(c, s)
    {
      SlotDistinct(c, i, s);
    }
  }

  lemma RaiseWords<T>(c: Config<T>, lk: Link<T>, l: nat)
    requires ValidConfig(c) && c.slots > 0 && LinkShape(lk) && l < 2 && Words(c, lk)
    ensures Words(c, Raise(c, lk, l))
  {
    var s := lk.flag[l] + 1;
    forall i: nat | 1 <= i && i != s && i < s + c.slots && s < i + c.slots
      ensures SlotOf(c, i) != SlotOf(c, s)
    {
      if i < s { SlotDistinct(c, i, s); } else { SlotDistinct(c, s, i); }
    }
  }

  /** The wait of rounds 2 and 3 passes exactly when both lanes have delivered the sequence. */
  lemma MatchedIff<T>(c: Config<T>, lk: Link<T>, s: nat)
    requires ValidConfig(c) && c.slots > 0 && LinkShape(lk) && Words(c, lk) && s >= 1
    requires forall l :: 0 <= l < 2 ==> lk.flag[l] < s + c.slots && s <= lk.flag[l] + c.slots
    ensures Matched(c, lk, s) <==> lk.flag[0] >= s && lk.flag[1] >= s
  {
    SlotReuse(c, s);
    forall l: nat | l < 2
      ensures lk.flags(SlotOf(c, s), l) == U32(s) <==> lk.flag[l] >= s
    {
      if lk.flag[l] < s && s > c.slots {
        assert lk.flags(SlotOf(c, s - c.slots), l) == U32(s - c.slots);
      }
    }
  }

  // ---------------------------------------------------------------- how far apart the ranks can be

  /** A rank's doorbells and deliveries lie within its running launch. */
  lemma NodeBounds<T>(c: Config<T>, r: nat, me: Node<T>)
    requires ValidConfig(c) && c.slots > 0 && NodeInv(c, r, me)
    ensures me.rank.base == Base(c, me.rank.launch) && Top(c, me.rank) == Base(c, me.rank.launch + 1)
    ensures forall l :: 0 <= l < 2 ==>
      me.first.flag[l] <= me.first.data[l] <= me.first.posted <= me.first.bell <= Top(c, me.rank)
    ensures forall l :: 0 <= l < 2 ==>
      me.second.flag[l] <= me.second.data[l] <= me.second.posted <= me.second.bell <= Top(c, me.rank)
  {
    hide Words, Sent, Received, Count;
    assert BlockOrder(c, me.rank, me.rank.blocks[0]);
  }

  lemma HandedBounds<T>(c: Config<T>, r: nat, me: Node<T>, in1: Link<T>, in2: Link<T>)
    requires ValidConfig(c) && c.slots > 0 && NodeInv(c, r, me)
    requires NodeShape(c, me) && LinkShape(in1) && LinkShape(in2) && Handed(c, me, in1, in2)
    ensures forall l :: 0 <= l < 2 ==>
      me.rank.base <= in1.flag[l] && me.rank.base <= in2.flag[l] && me.second.bell <= in1.flag[l]
  {
    hide Words, Sent, Received, Count;
    assert BlockOrder(c, me.rank, me.rank.blocks[0]);
  }

  /** What a rank has heard, in launches: its neighbours rang for every launch it has finished, and the second
      doorbell of a rank is covered by the first doorbell of that rank's first neighbour. */
  lemma Heard<T>(c: Config<T>, cl: seq<Node<T>>, r: nat)
    requires Inv(c, cl) && r < WORLD
    ensures cl[r].rank.base == Base(c, cl[r].rank.launch) && Top(c, cl[r].rank) == Base(c, cl[r].rank.launch + 1)
    ensures cl[r].rank.base <= cl[Peer1(r)].first.bell <= Base(c, cl[Peer1(r)].rank.launch + 1)
    ensures cl[r].rank.base <= cl[Peer2(r)].second.bell <= Base(c, cl[Peer2(r)].rank.launch + 1)
    ensures cl[r].second.bell <= cl[Peer1(r)].first.bell
    ensures forall l :: 0 <= l < 2 ==>
      cl[r].rank.base <= cl[Peer1(r)].first.flag[l] && cl[r].rank.base <= cl[Peer2(r)].second.flag[l]
  {
    hide NodeInv, Handed, Outputs, Base, Peer1, Peer2;
    assert InvAt(c, cl, r) && InvAt(c, cl, Peer1(r)) && InvAt(c, cl, Peer2(r));
    HeardFrom(c, r, cl[r], Peer1(r), cl[Peer1(r)], Peer2(r), cl[Peer2(r)]);
  }

  lemma HeardFrom<T>(c: Config<T>, r: nat, me: Node<T>, q: nat, one: Node<T>, d: nat, two: Node<T>)
    requires ValidConfig(c) && c.slots > 0 && NodeInv(c, r, me) && NodeInv(c, q, one) && NodeInv(c, d, two)
    requires NodeShape(c, me) && NodeShape(c, one) && NodeShape(c, two) && Handed(c, me, one.first, two.second)
    ensures me.rank.base == Base(c, me.rank.launch) && Top(c, me.rank) == Base(c, me.rank.launch + 1)
    ensures me.rank.base <= one.first.bell <= Base(c, one.rank.launch + 1)
    ensures me.rank.base <= two.second.bell <= Base(c, two.rank.launch + 1)
    ensures me.second.bell <= one.first.bell
    ensures forall l :: 0 <= l < 2 ==> me.rank.base <= one.first.flag[l] && me.rank.base <= two.second.flag[l]
  {
    hide NodeInv, Handed, Base;
    NodeBounds(c, r, me);
    HandedBounds(c, r, me, one.first, two.second);
    NodeBounds(c, q, one);
    NodeBounds(c, d, two);
    assert one.first.flag[0] <= one.first.bell && two.second.flag[0] <= two.second.bell;
  }

  /** No rank is more than one launch ahead of another: a rank that finishes a launch has heard, directly or through
      its second neighbour, from all four in that launch. */
  lemma Lag<T>(c: Config<T>, cl: seq<Node<T>>, r: nat, q: nat)
    requires Inv(c, cl) && r < WORLD && q < WORLD
    ensures cl[r].rank.launch <= cl[q].rank.launch + 1
  {
    hide NodeInv, Handed, Outputs, Base, ValidConfig, InvAt;
    Heard(c, cl, r);
    Heard(c, cl, Peer2(r));
    if q != r {
      BaseOrder(c, cl[r].rank.launch, cl[q].rank.launch + 1);
    }
  }

  lemma LaunchPair<T>(c: Config<T>, m: nat, n: nat)
    requires ValidConfig(c) && m <= n + 1
    ensures Base(c, m) + c.chunks(m) <= Base(c, n) + c.slots
  {
    hide *;
    ChunksFit(c, m);
    ChunksFit(c, n);
    BaseNext(c, n);
    BaseMonotone(c, m, n);
  }

  lemma BaseNext<T>(c: Config<T>, n: nat)
    ensures Base(c, n + 1) == Base(c, n) + c.chunks(n)
  {
  }

  lemma ChunksFit<T>(c: Config<T>, n: nat)
    requires ValidConfig(c)
    ensures 1 <= c.chunks(n) && 2 * c.chunks(n) <= c.slots
  {
    hide PowerOfTwo;
    assert c.chunks(n) in {1, 2, 4};
  }

  /** The numeric consequences of the slot bound for one rank: its launch ends within one round of slots of what both
      receivers have been handed, and both senders' launches end within one round of where its own begins. */
  ghost predicate Lapped<T>(c: Config<T>, me: Node<T>, top1: nat, top2: nat)
    requires NodeShape(c, me)
  {
    && (forall l :: 0 <= l < 2 ==>
      Top(c, me.rank) <= me.first.flag[l] + c.slots && Top(c, me.rank) <= me.second.flag[l] + c.slots)
    && top1 <= me.rank.base + c.slots && top2 <= me.rank.base + c.slots
  }

  lemma Lap<T>(c: Config<T>, cl: seq<Node<T>>, r: nat)
    requires Inv(c, cl) && r < WORLD
    ensures Lapped(c, cl[r], Top(c, cl[Peer1(r)].rank), Top(c, cl[Peer2(r)].rank))
  {
    hide NodeInv, Handed, Outputs, Base, ValidConfig;
    var q, d := Peer1(r), Peer2(r);
    assert Peer1(q) == r && Peer2(d) == r;
    Heard(c, cl, r); Heard(c, cl, q); Heard(c, cl, d);
    Lag(c, cl, r, q); Lag(c, cl, q, r); Lag(c, cl, r, d); Lag(c, cl, d, r);
    LaunchPair(c, cl[r].rank.launch, cl[q].rank.launch);
    LaunchPair(c, cl[r].rank.launch, cl[d].rank.launch);
    LaunchPair(c, cl[q].rank.launch, cl[r].rank.launch);
    LaunchPair(c, cl[d].rank.launch, cl[r].rank.launch);
  }
}
