/** What the all-reduce leaves alone: packs past the end of a chunk, in the outputs and in every slot. */
module AllReduceFrame {
  import opened AllReduce
  import opened AllReduceSafety
  import opened AllReduceTheorems

  /** No sequence that uses the slot is so long. */
  ghost predicate Beyond<T>(c: Config<T>, k: nat, p: nat)
    requires c.slots > 0
  {
    forall s: nat :: s >= 1 && SlotOf(c, s) == k ==> c.packs(s) <= p
  }

  ghost predicate SlotsKept<T>(c: Config<T>, before: Link<T>, after: Link<T>)
    requires c.slots > 0
  {
    forall k: nat, p: nat :: Beyond(c, k, p) ==>
      after.send(k, p) == before.send(k, p) && after.recv(k, p) == before.recv(k, p)
  }

  ghost predicate OutputsKept<T>(c: Config<T>, before: Rank<T>, after: Rank<T>) {
    forall s: nat, p: nat :: s == 0 || c.packs(s) <= p ==> after.output(s, p) == before.output(s, p)
  }

  ghost predicate Kept<T>(c: Config<T>, before: Node<T>, after: Node<T>)
    requires c.slots > 0
  {
    && OutputsKept(c, before.rank, after.rank)
    && SlotsKept(c, before.first, after.first) && SlotsKept(c, before.second, after.second)
  }

  lemma WriteKept<T>(c: Config<T>, lk: Link<T>, b: nat, s: nat, v: nat -> T)
    requires c.slots > 0 && s >= 1
    ensures SlotsKept(c, lk, Write(c, lk, b, s, v))
  {
    hide SlotOf;
  }

  lemma DeliverKept<T>(c: Config<T>, lk: Link<T>, l: nat)
    requires c.slots > 0 && LinkShape(lk) && l < 2 && lk.data[l] < lk.posted
    requires forall s: nat :: 1 <= s <= lk.posted ==> lk.sizes(s) == c.packs(s)
    ensures SlotsKept(c, lk, Deliver(c, lk, l))
  {
    hide SlotOf;
    assert lk.sizes(lk.data[l] + 1) == c.packs(lk.data[l] + 1);
  }

  lemma EmitKept<T>(c: Config<T>, r: nat, me: Node<T>, in2: Link<T>, b: nat, s: nat)
    requires c.slots > 0 && s >= 1
    ensures OutputsKept(c, me.rank, me.rank.(output := EmitOutput(c, r, me, in2, b, s)))
  {
    hide SlotOf, Round3Value;
  }

  /** One step of a rank. */
  lemma StepKept<T>(c: Config<T>, r: nat, me: Node<T>, in1: Link<T>, in2: Link<T>, a: Action)
    requires c.slots > 0 && c.blocks >= 1 && NodeShape(c, me) && Enabled(c, me, in1, in2, a)
    requires forall second, s: nat :: 1 <= s <= LinkOf(me, second).posted ==> LinkOf(me, second).sizes(s) == c.packs(s)
    ensures Kept(c, me, Apply(c, r, me, in1, in2, a))
  {
    hide SlotOf, Beyond, Matched, Round2Value, Round3Value, LastArrival, Write, Deliver, EmitOutput, Round2, Round3,
      Top;
    match a
    case Stage(b) => WriteKept(c, me.first, b, me.rank.blocks[b].w1 + 1, InputOf(c, r, me.rank.blocks[b].w1 + 1));
    case Sum(b, skip) =>
      WriteKept(c, me.second, b, me.rank.blocks[b].w2 + 1, SumOf(c, r, in1, me.rank.blocks[b].w2 + 1));
    case Emit(b, skip) => EmitKept(c, r, me, in2, b, me.rank.blocks[b].w3 + 1);
    case Data(second, l) => DeliverKept(c, LinkOf(me, second), l);
    case _ =>
  }

  /** In every interleaving, with or without timeouts, no pack past the end of its chunk is ever written: not in an
      output, and in no slot past the longest of the chunks that use it. */
  lemma {:induction false} NothingBeyond<T>(c: Config<T>, states: seq<seq<Node<T>>>, steps: seq<(nat, Action)>, i: nat,
                                            r: nat)
    requires ValidConfig(c) && Run(c, states, steps) && i < |states| && r < WORLD
    ensures |states[0]| == |states[i]| == WORLD && Kept(c, states[0][r], states[i][r])
  {
    hide Enabled, Apply, Kept, Inv;
    RunInvariant(c, states, steps, i);
    Whole(c, states[0], states[i]);
    if i == 0 {
      KeptSame(c, states[0][r]);
    } else {
      NothingBeyond(c, states, steps, i - 1, r);
      RunInvariant(c, states, steps, i - 1);
      if steps[i - 1].0 == r {
        ProxyKeepsUp(c, states[i - 1], r, false);
        ProxyKeepsUp(c, states[i - 1], r, true);
        StepKept(c, r, states[i - 1][r], states[i - 1][Peer1(r)].first, states[i - 1][Peer2(r)].second, steps[i - 1].1);
        KeptTwice(c, states[0][r], states[i - 1][r], states[i][r]);
      }
    }
  }

  lemma Whole<T>(c: Config<T>, a: seq<Node<T>>, b: seq<Node<T>>)
    requires Init(c, a) && Inv(c, b)
    ensures |a| == |b| == WORLD
  {
  }

  lemma KeptSame<T>(c: Config<T>, a: Node<T>)
    requires c.slots > 0
    ensures Kept(c, a, a)
  {
  }

  lemma KeptTwice<T>(c: Config<T>, x: Node<T>, y: Node<T>, z: Node<T>)
    requires c.slots > 0 && Kept(c, x, y) && Kept(c, y, z)
    ensures Kept(c, x, z)
  {
    hide Beyond;
  }
}
