/** The lean four-rank all-reduce: one kernel launch per tensor and rank, two neighbour exchanges through
    sequence-numbered slots, one RDMA proxy per rank and exchange.

    A cluster state holds the four ranks and their eight directed links. An action is one step of one kernel
    block, one proxy or one network lane; a run is any interleaving of enabled actions. Sequence numbers are
    counted without bound and truncated to 32 bits wherever a word of memory holds or compares them. */
module AllReduce {
  import opened Arithmetic

  // ---------------------------------------------------------------- topology and reduction order

  const WORLD := 4

  /** The neighbour of the first exchange, rank XOR 1. */
  function Peer1(r: nat): (q: nat)
    requires r < WORLD
    ensures q < WORLD && q != r
  {
    if r % 2 == 0 then r + 1 else r - 1
  }

  /** The neighbour of the second exchange. */
  function Peer2(r: nat): (q: nat)
    requires r < WORLD
    ensures q < WORLD && q != r
  {
    3 - r
  }

  /** Everything a run does not change. `owner` and `lane` say which kernel block handles a pack of a chunk and
      which of the two paths carries it; both are arbitrary. `add` and `round` are uninterpreted. */
  datatype Config<!T> = Config(
    slots: nat, blocks: nat, launches: nat,
    chunks: nat -> nat, packs: nat -> nat,
    owner: (nat, nat) -> nat, lane: (nat, nat) -> nat,
    input: (nat, nat, nat) -> T,
    add: (T, T) -> T, round: T -> T)

  const WORD: nat := 0x1_0000_0000

  function U32(x: nat): nat { x % WORD }

  predicate PowerOfTwo(x: nat) {
    if x <= 1 then x == 1 else x % 2 == 0 && PowerOfTwo(x / 2)
  }

  /** The launcher's bound: 1, 2 or 4 chunks, a power-of-two number of slots, at least two per chunk. */
  ghost predicate ValidConfig<T>(c: Config<T>) {
    && PowerOfTwo(c.slots) && c.slots < WORD
    && c.blocks >= 1
    && (forall n :: c.chunks(n) in {1, 2, 4} && 2 * c.chunks(n) <= c.slots)
    && (forall s, p :: c.owner(s, p) < c.blocks)
    && (forall s, p :: c.lane(s, p) < 2)
  }

  /** The epoch before launch `n`: one sequence number per chunk of every earlier launch. */
  function Base<T>(c: Config<T>, n: nat): nat {
    if n == 0 then 0 else Base(c, n - 1) + c.chunks(n - 1)
  }

  function SlotOf<T>(c: Config<T>, s: nat): nat
    requires c.slots > 0
  {
    U32(s) % c.slots
  }

  /** The sum of one pair of ranks in rank order, rounded: pair 0 is ranks 0 and 1, pair 1 ranks 2 and 3. */
  function PairSum<T>(c: Config<T>, pair: nat, s: nat, p: nat): T {
    c.round(c.add(c.input(2 * pair, s, p), c.input(2 * pair + 1, s, p)))
  }

  /** `canonical_reduce` of the four inputs of one pack. */
  function CanonicalReduce<T>(c: Config<T>, s: nat, p: nat): T {
    c.round(c.add(PairSum(c, 0, s, p), PairSum(c, 1, s, p)))
  }

  // ---------------------------------------------------------------- state

  /** One kernel block of the running launch. Every field is the newest sequence for which the block has: written
      its share of the send slot (w1, w2), arrived at the staging counter (a1, a2), left round 3 (w3); `summed` and
      `emitted` count the chunks it handled without skipping one. */
  datatype Block = Block(w1: nat, a1: nat, w2: nat, a2: nat, summed: nat, w3: nat, emitted: nat, done: bool)

  datatype Rank<!T> = Rank(
    launch: nat, base: nat, epoch: nat, blocks: seq<Block>,
    stage1: seq<nat>, stage2: seq<nat>, tail: nat,
    err1: bool, err2: bool, poison: bool, output: (nat, nat) -> T)

  /** The link of one exchange out of one rank: the sender's slots, doorbell and proxy, and the receiver's slots and
      flag words. `data` and `flag` count, per lane, the payloads and flags that have arrived. */
  datatype Link<!T> = Link(
    send: (nat, nat) -> T, counts: nat -> int, bell: nat,
    posted: nat, sizes: nat -> int,
    data: seq<nat>, flag: seq<nat>, recv: (nat, nat) -> T, flags: (nat, nat) -> int)

  /** A rank with the links it sends on; every action changes one node. */
  datatype Node<!T> = Node(rank: Rank<T>, first: Link<T>, second: Link<T>)

  datatype Action =
    | Stage(b: nat)
    | Arrive1(b: nat)
    | Sum(b: nat, skip: bool)
    | Timeout1(b: nat)
    | Arrive2(b: nat)
    | Emit(b: nat, skip: bool)
    | Timeout2(b: nat)
    | Tail(b: nat)
    | Relaunch
    | Post(second: bool)
    | Data(second: bool, l: nat)
    | Flag(second: bool, l: nat)

  ghost predicate RankShape<T>(c: Config<T>, rk: Rank<T>) {
    |rk.blocks| == c.blocks && |rk.stage1| == |rk.stage2| == 4
  }

  ghost predicate LinkShape<T>(lk: Link<T>) {
    |lk.data| == |lk.flag| == 2
  }

  ghost predicate NodeShape<T>(c: Config<T>, me: Node<T>) {
    RankShape(c, me.rank) && LinkShape(me.first) && LinkShape(me.second)
  }

  ghost predicate Shape<T>(c: Config<T>, cl: seq<Node<T>>) {
    |cl| == WORLD && forall r :: 0 <= r < WORLD ==> NodeShape(c, cl[r])
  }

  function Fresh(base: nat): Block {
    Block(base, base, base, base, base, base, base, false)
  }

  ghost predicate Init<T>(c: Config<T>, cl: seq<Node<T>>) {
    Shape(c, cl) && forall r :: 0 <= r < WORLD ==> NodeInit(c, cl[r])
  }

  ghost predicate NodeInit<T>(c: Config<T>, me: Node<T>)
    requires NodeShape(c, me)
  {
    && var rk := me.rank;
    && rk.launch == rk.base == rk.epoch == rk.tail == 0 && !rk.err1 && !rk.err2 && !rk.poison
    && rk.stage1 == rk.stage2 == [0, 0, 0, 0]
    && (forall b :: 0 <= b < c.blocks ==> rk.blocks[b] == Fresh(0))
    && QuietLink(me.first) && QuietLink(me.second)
  }

  ghost predicate QuietLink<T>(lk: Link<T>) {
    && lk.bell == lk.posted == 0 && lk.data == lk.flag == [0, 0]
    && (forall k, l :: lk.flags(k, l) == 0)
  }

  // ---------------------------------------------------------------- steps

  function Top<T>(c: Config<T>, rk: Rank<T>): nat { rk.base + c.chunks(rk.launch) }

  /** Both flag words of the slot hold the sequence the block waits for. */
  predicate Matched<T>(c: Config<T>, lk: Link<T>, s: nat)
    requires c.slots > 0
  {
    lk.flags(SlotOf(c, s), 0) == U32(s) && lk.flags(SlotOf(c, s), 1) == U32(s)
  }

  ghost predicate Round2<T>(c: Config<T>, rk: Rank<T>, b: nat)
    requires b < |rk.blocks|
  {
    rk.blocks[b].a1 == Top(c, rk) && rk.blocks[b].w2 == rk.blocks[b].a2 < Top(c, rk)
  }

  ghost predicate Round3<T>(c: Config<T>, rk: Rank<T>, b: nat)
    requires b < |rk.blocks|
  {
    rk.blocks[b].a2 == Top(c, rk) && rk.blocks[b].w3 < Top(c, rk)
  }

  ghost predicate AllDone<T>(rk: Rank<T>) {
    forall b :: 0 <= b < |rk.blocks| ==> rk.blocks[b].done
  }

  function LinkOf<T>(me: Node<T>, second: bool): Link<T> {
    if second then me.second else me.first
  }

  function SetLink<T>(me: Node<T>, second: bool, lk: Link<T>): Node<T> {
    if second then me.(second := lk) else me.(first := lk)
  }

  function SetBlock<T>(rk: Rank<T>, b: nat, k: Block): Rank<T>
    requires b < |rk.blocks|
  {
    rk.(blocks := rk.blocks[b := k])
  }

  /** The block has not seen the poison word. */
  predicate Unskipped(k: Block) { k.summed == k.w2 && k.emitted == k.w3 }

  ghost predicate BlockAction(a: Action) {
    !a.Relaunch? && !a.Post? && !a.Data? && !a.Flag?
  }

  /** Whether rank `me` can take a step; `in1` and `in2` are the links it receives on. A launch begins only while no
      error has been posted (a poisoned launch does nothing). A block may see the poison word late, so that an
      unskipped sum stays possible after a timeout elsewhere; once it has seen the word it skips for good. */
  ghost predicate Enabled<T>(c: Config<T>, me: Node<T>, in1: Link<T>, in2: Link<T>, a: Action)
    requires NodeShape(c, me) && c.slots > 0
  {
    var rk := me.rank;
    && (BlockAction(a) ==> a.b < c.blocks && rk.launch < c.launches)
    && match a
       case Stage(b) => rk.blocks[b].w1 == rk.blocks[b].a1 && rk.blocks[b].w1 < Top(c, rk)
       case Arrive1(b) => rk.blocks[b].w1 == rk.blocks[b].a1 + 1
       case Sum(b, skip) => Round2(c, rk, b) && Matched(c, in1, rk.blocks[b].w2 + 1)
         && (if skip then rk.poison else Unskipped(rk.blocks[b]))
       case Timeout1(b) => Round2(c, rk, b) && !Matched(c, in1, rk.blocks[b].w2 + 1)
       case Arrive2(b) => rk.blocks[b].w2 == rk.blocks[b].a2 + 1
       case Emit(b, skip) => Round3(c, rk, b) && Matched(c, in2, rk.blocks[b].w3 + 1)
         && (if skip then rk.poison else Unskipped(rk.blocks[b]))
       case Timeout2(b) => Round3(c, rk, b) && !Matched(c, in2, rk.blocks[b].w3 + 1)
       case Tail(b) => rk.blocks[b].w3 == Top(c, rk) && !rk.blocks[b].done
       case Relaunch => rk.launch < c.launches && AllDone(rk) && !rk.poison
       case Post(ph) => LinkOf(me, ph).posted < LinkOf(me, ph).bell
       case Data(ph, l) => l < 2 && LinkOf(me, ph).data[l] == LinkOf(me, ph).flag[l] < LinkOf(me, ph).posted
       case Flag(ph, l) => l < 2 && LinkOf(me, ph).flag[l] < LinkOf(me, ph).data[l]
  }

  /** The block that brings a counter to a multiple of the grid is the last of its launch. */
  predicate LastArrival(n: nat, grid: nat)
    requires grid >= 1
  {
    n % grid == 0
  }

  /** The staging counter of chunk `i`. */
  function Counter(stage: seq<nat>, i: int): nat {
    if 0 <= i < |stage| then stage[i] else 0
  }

  function Bump(stage: seq<nat>, i: int): seq<nat> {
    if 0 <= i < |stage| then stage[i := stage[i] + 1] else stage
  }

  /** A block writes its packs of sequence `s` into the send slot. */
  function Write<T>(c: Config<T>, lk: Link<T>, b: nat, s: nat, v: nat -> T): Link<T>
    requires c.slots > 0
  {
    var send := lk.send;
    lk.(send := (k: nat, p: nat) =>
      if k == SlotOf(c, s) && p < c.packs(s) && c.owner(s, p) == b then v(p) else send(k, p))
  }

  /** The doorbell: the slot's pack count first, then the sequence. */
  function Ring<T>(c: Config<T>, lk: Link<T>, s: nat): Link<T>
    requires c.slots > 0
  {
    var counts := lk.counts;
    lk.(counts := (k: nat) => if k == SlotOf(c, s) then c.packs(s) else counts(k), bell := s)
  }

  /** The proxy posts the next sequence with the count it finds in the slot's word. */
  function PostNext<T>(c: Config<T>, lk: Link<T>): Link<T>
    requires c.slots > 0
  {
    var s := lk.posted + 1;
    var sizes := lk.sizes;
    var size := lk.counts(SlotOf(c, s));
    lk.(posted := s, sizes := (i: nat) => if i == s then size else sizes(i))
  }

  /** One lane's stripe of the next payload reaches the receiver's slot. */
  function Deliver<T>(c: Config<T>, lk: Link<T>, l: nat): Link<T>
    requires c.slots > 0 && LinkShape(lk) && l < 2
  {
    var s := lk.data[l] + 1;
    var send, recv, size := lk.send, lk.recv, lk.sizes(lk.data[l] + 1);
    lk.(data := lk.data[l := s],
        recv := (k: nat, p: nat) =>
          if k == SlotOf(c, s) && p < size && c.lane(s, p) == l then send(k, p) else recv(k, p))
  }

  /** The lane's flag word follows its stripe on the same queue pair. */
  function Raise<T>(c: Config<T>, lk: Link<T>, l: nat): Link<T>
    requires c.slots > 0 && LinkShape(lk) && l < 2
  {
    var s := lk.flag[l] + 1;
    var flags := lk.flags;
    lk.(flag := lk.flag[l := s], flags := (k: nat, i: nat) => if k == SlotOf(c, s) && i == l then U32(s)
      else flags(k, i))
  }

  /** What round 2 adds for one pack: the pair's inputs in rank order. */
  function Round2Value<T>(c: Config<T>, r: nat, in1: Link<T>, s: nat, p: nat): T
    requires c.slots > 0
  {
    var mine, theirs := c.input(r, s, p), in1.recv(SlotOf(c, s), p);
    if r % 2 == 0 then c.round(c.add(mine, theirs)) else c.round(c.add(theirs, mine))
  }

  function InputOf<T>(c: Config<T>, r: nat, s: nat): nat -> T {
    (p: nat) => c.input(r, s, p)
  }

  function SumOf<T>(c: Config<T>, r: nat, in1: Link<T>, s: nat): nat -> T
    requires c.slots > 0
  {
    (p: nat) => Round2Value(c, r, in1, s, p)
  }

  /** The rounded sum of what rank `r` has and what it took from its second neighbour, pair 0 first. */
  function Combined<T>(c: Config<T>, r: nat, mine: T, theirs: T): T {
    if r < 2 then c.round(c.add(mine, theirs)) else c.round(c.add(theirs, mine))
  }

  /** What round 3 adds for one pack. */
  function Round3Value<T>(c: Config<T>, r: nat, own: Link<T>, in2: Link<T>, s: nat, p: nat): T
    requires c.slots > 0
  {
    Combined(c, r, own.send(SlotOf(c, s), p), in2.recv(SlotOf(c, s), p))
  }

  function SumBlock(k: Block, skip: bool): Block {
    k.(w2 := k.w2 + 1, summed := if skip then k.summed else k.w2 + 1)
  }

  function EmitBlock(k: Block, skip: bool): Block {
    k.(w3 := k.w3 + 1, emitted := if skip then k.emitted else k.w3 + 1)
  }

  function EmitOutput<T>(c: Config<T>, r: nat, me: Node<T>, in2: Link<T>, b: nat, s: nat): (nat, nat) -> T
    requires c.slots > 0
  {
    var output, own := me.rank.output, me.second;
    (i: nat, p: nat) =>
      if i == s && p < c.packs(s) && c.owner(s, p) == b then Round3Value(c, r, own, in2, s, p) else output(i, p)
  }

  ghost function Apply<T>(c: Config<T>, r: nat, me: Node<T>, in1: Link<T>, in2: Link<T>, a: Action): Node<T>
    requires c.slots > 0 && c.blocks >= 1 && NodeShape(c, me) && Enabled(c, me, in1, in2, a)
  {
    var rk := me.rank;
    match a
    case Stage(b) =>
      var k := rk.blocks[b];
      me.(rank := SetBlock(rk, b, k.(w1 := k.w1 + 1)),
          first := Write(c, me.first, b, k.w1 + 1, InputOf(c, r, k.w1 + 1)))
    case Arrive1(b) =>
      var k := rk.blocks[b];
      var i := k.w1 - rk.base - 1;
      me.(rank := SetBlock(rk, b, k.(a1 := k.w1)).(stage1 := Bump(rk.stage1, i)),
          first := if LastArrival(Counter(rk.stage1, i) + 1, c.blocks) then Ring(c, me.first, k.w1) else me.first)
    case Sum(b, skip) =>
      var k := rk.blocks[b];
      me.(rank := SetBlock(rk, b, SumBlock(k, skip)),
          second := if skip then me.second
                    else Write(c, me.second, b, k.w2 + 1, SumOf(c, r, in1, k.w2 + 1)))
    case Timeout1(b) =>
      me.(rank := SetBlock(rk, b, SumBlock(rk.blocks[b], true)).(err1 := true, poison := true))
    case Arrive2(b) =>
      var k := rk.blocks[b];
      var i := k.w2 - rk.base - 1;
      me.(rank := SetBlock(rk, b, k.(a2 := k.w2)).(stage2 := Bump(rk.stage2, i)),
          second := if LastArrival(Counter(rk.stage2, i) + 1, c.blocks) && !rk.err1 then Ring(c, me.second, k.w2)
            else me.second)
    case Emit(b, skip) =>
      var k := rk.blocks[b];
      me.(rank := SetBlock(rk, b, EmitBlock(k, skip)).(output :=
            if skip then rk.output else EmitOutput(c, r, me, in2, b, k.w3 + 1)))
    case Timeout2(b) =>
      me.(rank := SetBlock(rk, b, EmitBlock(rk.blocks[b], true)).(err2 := true, poison := true))
    case Tail(b) =>
      var n := rk.tail + 1;
      me.(rank := SetBlock(rk, b, rk.blocks[b].(done := true)).(tail := n,
            epoch := if LastArrival(n, c.blocks) && !rk.err1 && !rk.err2 then Top(c, rk) else rk.epoch))
    case Relaunch =>
      me.(rank := rk.(launch := rk.launch + 1, base := rk.epoch,
                      blocks := seq(c.blocks, (_: nat) => Fresh(rk.epoch))))
    case Post(ph) => SetLink(me, ph, PostNext(c, LinkOf(me, ph)))
    case Data(ph, l) => SetLink(me, ph, Deliver(c, LinkOf(me, ph), l))
    case Flag(ph, l) => SetLink(me, ph, Raise(c, LinkOf(me, ph), l))
  }

  // ---------------------------------------------------------------- the invariant

  /** The order of a block's program: stage all chunks, then sum them, then emit them. */
  ghost predicate BlockOrder<T>(c: Config<T>, rk: Rank<T>, k: Block) {
    && rk.base <= k.a1 <= k.w1 <= k.a1 + 1 && k.w1 <= Top(c, rk)
    && rk.base <= k.a2 <= k.w2 <= k.a2 + 1 && k.w2 <= Top(c, rk)
    && (k.w2 > rk.base ==> k.a1 == Top(c, rk))
    && rk.base <= k.w3 <= Top(c, rk)
    && (k.w3 > rk.base ==> k.a2 == Top(c, rk))
    && (k.done ==> k.w3 == Top(c, rk))
    && rk.base <= k.summed <= k.w2 && rk.base <= k.emitted <= k.w3
    && (k.emitted > rk.base ==> k.summed == Top(c, rk))
    && (!rk.poison ==> k.summed == k.w2 && k.emitted == k.w3)
  }

  ghost predicate RankOrder<T>(c: Config<T>, rk: Rank<T>) {
    && RankShape(c, rk)
    && rk.base == Base(c, rk.launch)
    && (forall b :: 0 <= b < |rk.blocks| ==> BlockOrder(c, rk, rk.blocks[b]))
  }

  function Arrivals(k: Block, second: bool): nat {
    if second then k.a2 else k.a1
  }

  datatype Key = Past(second: bool, s: nat) | Finished

  predicate Holds(key: Key, k: Block) {
    match key
    case Past(second, s) => Arrivals(k, second) >= s
    case Finished => k.done
  }

  function Count(blocks: seq<Block>, key: Key): (n: nat)
    ensures n <= |blocks|
  {
    if blocks == [] then 0 else Count(blocks[..|blocks| - 1], key) + if Holds(key, blocks[|blocks| - 1]) then 1 else 0
  }

  ghost predicate Tally(counter: nat, arrived: nat, grid: nat)
    requires grid >= 1
  {
    counter % grid == arrived % grid
  }

  /** A staging counter per chunk, never reset, holds the arrivals of the running launch modulo the grid. */
  ghost predicate Staged(grid: nat, base: nat, blocks: seq<Block>, second: bool, stage: seq<nat>)
    requires grid >= 1 && |stage| == 4
  {
    forall i :: 0 <= i < 4 ==> Tally(stage[i], Count(blocks, Past(second, base + i + 1)), grid)
  }

  ghost predicate Counters<T>(c: Config<T>, rk: Rank<T>)
    requires RankShape(c, rk) && c.blocks >= 1
  {
    && Staged(c.blocks, rk.base, rk.blocks, false, rk.stage1)
    && Staged(c.blocks, rk.base, rk.blocks, true, rk.stage2)
    && Tally(rk.tail, Count(rk.blocks, Finished), c.blocks)
  }

  ghost predicate RankInv<T>(c: Config<T>, rk: Rank<T>)
    requires c.blocks >= 1
  {
    && RankOrder(c, rk) && Counters(c, rk)
    && rk.launch <= c.launches
    && (rk.poison <==> rk.err1 || rk.err2)
    && rk.epoch == (if AllDone(rk) && !rk.poison then Top(c, rk) else rk.base)
  }

  /** The newest sequence at which every block has arrived. */
  ghost predicate AllArrived(blocks: seq<Block>, second: bool, bell: nat) {
    && (forall b :: 0 <= b < |blocks| ==> bell <= Arrivals(blocks[b], second))
    && (exists b :: 0 <= b < |blocks| && Arrivals(blocks[b], second) == bell)
  }

  ghost predicate FirstBell<T>(rk: Rank<T>, bell: nat) {
    rk.base <= bell && AllArrived(rk.blocks, false, bell)
  }

  /** The second doorbell stops at a round 2 timeout, and never passes what the blocks have summed unless a round 3
      timeout made one of them skip. */
  ghost predicate SecondBell<T>(rk: Rank<T>, bell: nat) {
    && rk.base <= bell
    && (forall b :: 0 <= b < |rk.blocks| ==> bell <= Arrivals(rk.blocks[b], true))
    && (!rk.err1 ==> AllArrived(rk.blocks, true, bell))
    && (!rk.err2 ==> forall b :: 0 <= b < |rk.blocks| ==> bell <= rk.blocks[b].summed)
  }

  ghost predicate LinkOrder<T>(lk: Link<T>) {
    && LinkShape(lk)
    && (forall l :: 0 <= l < 2 ==> lk.flag[l] <= lk.data[l] <= lk.flag[l] + 1 && lk.data[l] <= lk.posted)
    && lk.posted <= lk.bell
  }

  /** The value rank `r` sends in an exchange. */
  function Value<T>(c: Config<T>, second: bool, r: nat, s: nat, p: nat): T {
    if second then PairSum(c, r / 2, s, p) else c.input(r, s, p)
  }

  /** Flag words and counts: the newest sequence of the slot, or zero before the slot's first use. */
  ghost predicate Words<T>(c: Config<T>, lk: Link<T>)
    requires c.slots > 0 && LinkShape(lk)
  {
    && (forall s: nat, l: nat {:trigger lk.flags(SlotOf(c, s), l)} ::
          l < 2 && 1 <= s <= lk.flag[l] < s + c.slots ==> lk.flags(SlotOf(c, s), l) == U32(s))
    && (forall s: nat, l: nat {:trigger lk.flags(SlotOf(c, s), l)} ::
          l < 2 && lk.flag[l] < s <= c.slots ==> lk.flags(SlotOf(c, s), l) == 0)
    && (forall s: nat {:trigger lk.counts(SlotOf(c, s))} ::
          1 <= s <= lk.bell < s + c.slots ==> lk.counts(SlotOf(c, s)) == c.packs(s))
    && (forall s: nat :: 1 <= s <= lk.posted ==> lk.sizes(s) == c.packs(s))
  }

  /** A block's share of the send slots holds every sequence it wrote up to `good` that the running launch, which
      ends at `top`, does not reuse the slot of. */
  ghost predicate Sent<T>(c: Config<T>, second: bool, r: nat, lk: Link<T>, b: nat, good: nat, top: nat)
    requires c.slots > 0
  {
    forall s: nat, p: nat {:trigger lk.send(SlotOf(c, s), p)} ::
      1 <= s <= good && top < s + c.slots && p < c.packs(s) && c.owner(s, p) == b
      ==> lk.send(SlotOf(c, s), p) == Value(c, second, r, s, p)
  }

  /** What a lane brought of a block's share: the value of every sequence up to `good`, and beyond it, where the block
      skipped its sum, what still lies in the send slot. */
  ghost predicate Received<T>(c: Config<T>, second: bool, r: nat, lk: Link<T>, l: nat, b: nat, good: nat, top: nat)
    requires c.slots > 0 && LinkShape(lk) && l < 2
  {
    forall s: nat, p: nat {:trigger lk.recv(SlotOf(c, s), p)} ::
      1 <= s <= lk.data[l] && top < s + c.slots && p < c.packs(s) && c.lane(s, p) == l && c.owner(s, p) == b
      ==> lk.recv(SlotOf(c, s), p) == Sourced(c, second, r, lk, s, p, good)
  }

  /** What a receiver gets of a pack: its value, or what lies in the send slot if the owner has not written it. */
  function Sourced<T>(c: Config<T>, second: bool, r: nat, lk: Link<T>, s: nat, p: nat, good: nat): T
    requires c.slots > 0
  {
    if s <= good then Value(c, second, r, s, p) else lk.send(SlotOf(c, s), p)
  }

  /** How far a block's share of an exchange's send slots is right. */
  function Good(k: Block, second: bool): nat {
    if second then k.summed else k.w1
  }

  /** The slots of one exchange out of a rank, each block's share as far as the block wrote it. */
  ghost predicate Contents<T>(c: Config<T>, second: bool, r: nat, rk: Rank<T>, lk: Link<T>)
    requires c.slots > 0 && RankShape(c, rk) && LinkShape(lk)
  {
    && Words(c, lk)
    && (forall b :: 0 <= b < c.blocks ==> Sent(c, second, r, lk, b, Good(rk.blocks[b], second), Top(c, rk)))
    && (forall l, b :: 0 <= l < 2 && 0 <= b < c.blocks ==>
      Received(c, second, r, lk, l, b, Good(rk.blocks[b], second), Top(c, rk)))
  }

  ghost predicate NodeInv<T>(c: Config<T>, r: nat, me: Node<T>)
    requires c.slots > 0 && c.blocks >= 1
  {
    && RankInv(c, me.rank)
    && FirstBell(me.rank, me.first.bell) && SecondBell(me.rank, me.second.bell)
    && LinkOrder(me.first) && LinkOrder(me.second)
    && Contents(c, false, r, me.rank, me.first) && Contents(c, true, r, me.rank, me.second)
  }

  /** What a rank has consumed has arrived. */
  ghost predicate Handed<T>(c: Config<T>, me: Node<T>, in1: Link<T>, in2: Link<T>)
    requires NodeShape(c, me) && LinkShape(in1) && LinkShape(in2)
  {
    && (forall l :: 0 <= l < 2 ==> me.second.bell <= in1.flag[l])
    && (forall b, l :: 0 <= b < c.blocks && 0 <= l < 2 ==>
          && me.rank.blocks[b].summed <= in1.flag[l]
          && (!me.rank.err1 ==> me.rank.blocks[b].w2 <= in1.flag[l])
          && me.rank.blocks[b].emitted <= in2.flag[l])
  }

  /** Rank `r`'s output of a pack: its own pair sum with the second neighbour's, or, if the neighbour's owner block
      skipped that sum, with what lies in the neighbour's slot. */
  function Output<T>(c: Config<T>, r: nat, two: Link<T>, s: nat, p: nat, summed: nat): T
    requires c.slots > 0 && r < WORLD
  {
    Combined(c, r, Value(c, true, r, s, p), Sourced(c, true, Peer2(r), two, s, p, summed))
  }

  /** Every pack a block emitted without skipping, as far as the same block of the second neighbour had summed it. */
  ghost predicate Outputs<T>(c: Config<T>, r: nat, rk: Rank<T>, two: Node<T>)
    requires c.slots > 0 && r < WORLD && RankShape(c, rk) && RankShape(c, two.rank)
  {
    forall b: nat, s: nat, p: nat {:trigger rk.blocks[b], rk.output(s, p)} ::
      b < c.blocks && 1 <= s <= rk.blocks[b].emitted && p < c.packs(s) && c.owner(s, p) == b
      ==> rk.output(s, p) == Output(c, r, two.second, s, p, two.rank.blocks[b].summed)
  }

  function In1<T>(cl: seq<Node<T>>, r: nat): Link<T>
    requires |cl| == WORLD && r < WORLD
  {
    cl[Peer1(r)].first
  }

  function In2<T>(cl: seq<Node<T>>, r: nat): Link<T>
    requires |cl| == WORLD && r < WORLD
  {
    cl[Peer2(r)].second
  }

  ghost predicate InvAt<T>(c: Config<T>, cl: seq<Node<T>>, r: nat)
    requires c.slots > 0 && c.blocks >= 1 && Shape(c, cl) && r < WORLD
  {
    && NodeInv(c, r, cl[r])
    && Handed(c, cl[r], In1(cl, r), In2(cl, r))
    && Outputs(c, r, cl[r].rank, cl[Peer2(r)])
  }

  ghost predicate Inv<T>(c: Config<T>, cl: seq<Node<T>>) {
    && ValidConfig(c) && c.slots > 0
    && Shape(c, cl)
    && forall r: nat :: r < WORLD ==> InvAt(c, cl, r)
  }

  // ---------------------------------------------------------------- arithmetic of slots and launches

  function Exp2(k: nat): (x: nat)
    ensures x >= 1
  {
    if k == 0 then 1 else 2 * Exp2(k - 1)
  }

  lemma ExpIsPower(k: nat)
    ensures PowerOfTwo(Exp2(k))
  {
  }

  lemma ExpAdd(a: nat, b: nat)
    ensures Exp2(a + b) == Exp2(a) * Exp2(b)
  {
    if a > 0 {
      ExpAdd(a - 1, b);
      assert Exp2(a) == 2 * Exp2(a - 1) && Exp2(a + b) == 2 * Exp2((a - 1) + b);
    }
  }

  lemma PowerDivides(a: nat, b: nat)
    requires PowerOfTwo(a) && PowerOfTwo(b) && a <= b
    ensures b % a == 0
  {
    if a > 1 {
      var h, g := a / 2, b / 2;
      assert a == 2 * h && b == 2 * g && h > 0;
      PowerDivides(h, g);
      hide PowerOfTwo;
      var q := g / h;
      DivModDefinition(g, h);
      Doubled(q, h);
      DivModUnique(b, q, 0, a);
    }
  }

  lemma Doubled(q: nat, h: nat)
    ensures 2 * (q * h) == q * (2 * h)
  {
  }

  lemma WordIsPower()
    ensures PowerOfTwo(WORD)
  {
    assert Exp2(2) == 4;
    ExpAdd(2, 2); ExpAdd(4, 4); ExpAdd(8, 8); ExpAdd(16, 16);
    ExpIsPower(32);
  }

  /** Truncating to 32 bits does not move a sequence to another slot. */
  lemma SlotIsModulo<T>(c: Config<T>, s: nat)
    requires ValidConfig(c)
    ensures c.slots > 0 && SlotOf(c, s) == s % c.slots
  {
    WordIsPower();
    PowerDivides(c.slots, WORD);
    assert c.slots > 0;
    hide PowerOfTwo;
    ModOfMod(s, WORD, c.slots);
  }

  lemma SlotDistinct<T>(c: Config<T>, s: nat, t: nat)
    requires ValidConfig(c) && s < t < s + c.slots
    ensures c.slots > 0 && SlotOf(c, s) != SlotOf(c, t)
  {
    SlotIsModulo(c, s);
    SlotIsModulo(c, t);
    ModDistinct(s, t, c.slots);
  }

  /** A slot's earlier sequence never reads as its next one, also across the 32-bit wrap. */
  lemma SlotReuse<T>(c: Config<T>, s: nat)
    requires ValidConfig(c) && s >= 1
    ensures c.slots > 0
    ensures s > c.slots ==> SlotOf(c, s - c.slots) == SlotOf(c, s) && U32(s - c.slots) != U32(s)
    ensures s <= c.slots ==> U32(s) != 0
  {
    SlotIsModulo(c, s);
    if s > c.slots {
      SlotIsModulo(c, s - c.slots);
      assert s == 1 * c.slots + (s - c.slots);
      AddMultiple(s - c.slots, 1, c.slots);
      WordDistinct(s, c.slots);
    }
  }

  lemma WordDistinct(s: nat, k: nat)
    requires 0 < k < WORD && k < s
    ensures U32(s - k) != U32(s)
  {
  }

  lemma BaseMonotone<T>(c: Config<T>, m: nat, n: nat)
    requires ValidConfig(c)
    ensures m <= n ==> Base(c, m) + (n - m) <= Base(c, n)
    decreases n
  {
    if m < n {
      BaseMonotone(c, m, n - 1);
    }
  }

  lemma BaseOrder<T>(c: Config<T>, m: nat, n: nat)
    requires ValidConfig(c) && Base(c, m) <= Base(c, n)
    ensures m <= n
  {
    BaseMonotone(c, n, m);
  }
}
