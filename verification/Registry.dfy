/** The registry of retained boundary states: a bounded, least-recently-used table of entries whose recorded blocks must
    agree with a block pool before a hit on them is used. */
module Registry {
  type Key = nat
  type BlockId = nat

  /** A pool key: the prefix hash with its cache group. */
  datatype Hash = Hash(key: Key, group: nat)

  /** A pool block; two equal values are the same object. */
  datatype Block = Block(id: BlockId, instance: nat, isNull: bool)

  datatype Rec = Rec(group: nat, block: Block, epoch: nat)
  datatype Tag = Tag(epoch: nat, key: Key, tokens: int)
  datatype Entry = Entry(key: Key, tokens: int, blocks: map<BlockId, Rec>)

  /** The last registration or move a block took part in; a move the registry declines moves something it does not
      know. */
  datatype Event = Own(key: Key, group: nat, epoch: nat) | Declined

  /** The ordered table of entries: order lists its keys from the least to the most recently used. last is history, told
      beside the program's own state. */
  datatype State = State(order: seq<Key>, entries: map<Key, Entry>, tags: map<BlockId, Tag>, epoch: nat,
    last: map<BlockId, Event>)

  /** The pool's map of hashes to blocks, each block's primary hash, and its further ones. */
  datatype Pool = Pool(cached: set<(Hash, BlockId)>, primary: map<BlockId, Hash>, further: map<BlockId, set<Hash>>)

  predicate Distinct(order: seq<Key>) {
    forall i, j :: 0 <= i < j < |order| ==> order[i] != order[j]
  }

  function Remove(order: seq<Key>, key: Key): (rest: seq<Key>)
    ensures forall k :: k in rest <==> k in order && k != key
    ensures key in order ==> |rest| < |order|
    ensures |rest| <= |order|
    ensures Distinct(order) ==> Distinct(rest) && |rest| == |order| - if key in order then 1 else 0
  {
    if |order| == 0 then []
    else
      assert order == [order[0]] + order[1..];
      var rest := Remove(order[1..], key);
      assert forall i :: 0 <= i < |rest| ==> rest[i] in rest;
      if order[0] == key then rest else [order[0]] + rest
  }

  // ---- the pool ----

  function HashOf(key: Key, rec: Rec): Hash {
    Hash(key, rec.group)
  }

  /** A recorded block the pool still maps under its hash. */
  predicate Mapped(pool: Pool, key: Key, rec: Rec, b: BlockId) {
    (HashOf(key, rec), b) in pool.cached
  }

  /** The hash is the block's primary one, so that losing it uncaches the block. */
  predicate Primary(pool: Pool, key: Key, rec: Rec, b: BlockId) {
    b in pool.primary && pool.primary[b] == HashOf(key, rec)
  }

  /** A pool entry that dropping a recorded block takes away. */
  predicate Loses(pool: Pool, key: Key, rec: Rec, h: Hash, b: BlockId) {
    Mapped(pool, key, rec, b) && (Primary(pool, key, rec, b) || h == HashOf(key, rec))
  }

  function UnmapOne(pool: Pool, key: Key, rec: Rec, b: BlockId): Pool {
    if !Mapped(pool, key, rec, b) then pool
    else if Primary(pool, key, rec, b) then
      Pool((set p | p in pool.cached && p.1 != b), pool.primary - {b}, pool.further - {b})
    else
      var left := if b in pool.further then pool.further[b] - {HashOf(key, rec)} else {};
      Pool(pool.cached - {(HashOf(key, rec), b)}, pool.primary,
           if b !in pool.further then pool.further else if left == {} then pool.further - {b}
             else pool.further[b := left])
  }

  /** A block's further hashes once its recorded one is gone. */
  function Left(pool: Pool, key: Key, rec: Rec, b: BlockId): set<Hash>
    requires b in pool.further
  {
    if Mapped(pool, key, rec, b) then (if Primary(pool, key, rec, b) then {} else pool.further[b] - {HashOf(key, rec)})
      else pool.further[b]
  }

  /** Whether a block's further hashes vanish. */
  predicate Emptied(pool: Pool, key: Key, rec: Rec, b: BlockId)
    requires b in pool.further
  {
    Mapped(pool, key, rec, b) && Left(pool, key, rec, b) == {}
  }

  /** What dropping an entry with these recorded blocks leaves of the pool. */
  function UnmapAll(pool: Pool, key: Key, blocks: map<BlockId, Rec>): Pool {
    Pool(set p | p in pool.cached && !(p.1 in blocks && Loses(pool, key, blocks[p.1], p.0, p.1)) :: p,
         map b | b in pool.primary
           && !(b in blocks && Mapped(pool, key, blocks[b], b) && Primary(pool, key, blocks[b], b)) :: pool.primary[b],
         map b | b in pool.further && !(b in blocks && Emptied(pool, key, blocks[b], b)) ::
           if b in blocks then Left(pool, key, blocks[b], b) else pool.further[b])
  }

  /** Dropping unmaps every recorded block, and leaves every other block, even under the same hash, exactly as it
      was. */
  lemma UnmappedIsGone(pool: Pool, key: Key, blocks: map<BlockId, Rec>, b: BlockId)
    ensures var after := UnmapAll(pool, key, blocks);
      && (b in blocks ==> !Mapped(after, key, blocks[b], b))
      && (b !in blocks ==>
            && (forall h :: (h, b) in after.cached <==> (h, b) in pool.cached)
            && (b in after.primary <==> b in pool.primary)
              && (b in pool.primary ==> after.primary[b] == pool.primary[b])
            && (b in after.further <==> b in pool.further)
              && (b in pool.further ==> after.further[b] == pool.further[b]))
  {
  }

  /** A recorded block whose primary hash is another one keeps all its other hashes. */
  lemma OtherHashesStay(pool: Pool, key: Key, blocks: map<BlockId, Rec>, b: BlockId, h: Hash)
    requires b in blocks && !Primary(pool, key, blocks[b], b) && h != HashOf(key, blocks[b])
    ensures (h, b) in UnmapAll(pool, key, blocks).cached <==> (h, b) in pool.cached
  {
  }

  /** One more block. */
  lemma UnmapStep(pool: Pool, key: Key, blocks: map<BlockId, Rec>, done: set<BlockId>, b: BlockId)
    requires b in blocks && b !in done && done <= blocks.Keys
    ensures UnmapAll(pool, key, Restrict(blocks, done + {b}))
      == UnmapOne(UnmapAll(pool, key, Restrict(blocks, done)), key, blocks[b], b)
  {
    var mid, after := UnmapAll(pool, key, Restrict(blocks, done)), UnmapAll(pool, key, Restrict(blocks, done + {b}));
    var one := UnmapOne(mid, key, blocks[b], b);
    UntouchedYet(pool, key, blocks, done, b);
    StepCached(pool, key, blocks, done, b);
    StepPrimary(pool, key, blocks, done, b);
    StepFurther(pool, key, blocks, done, b);
    hide UnmapAll, UnmapOne;
    assert after == one;
  }

  lemma UntouchedYet(pool: Pool, key: Key, blocks: map<BlockId, Rec>, done: set<BlockId>, b: BlockId)
    requires b in blocks && b !in done
    ensures var mid := UnmapAll(pool, key, Restrict(blocks, done));
      Mapped(mid, key, blocks[b], b) == Mapped(pool, key, blocks[b], b)
        && Primary(mid, key, blocks[b], b) == Primary(pool, key, blocks[b], b)
  {
  }

  lemma StepCached(pool: Pool, key: Key, blocks: map<BlockId, Rec>, done: set<BlockId>, b: BlockId)
    requires b in blocks && b !in done
    ensures UnmapAll(pool, key, Restrict(blocks, done + {b})).cached
      == UnmapOne(UnmapAll(pool, key, Restrict(blocks, done)), key, blocks[b], b).cached
  {
    UntouchedYet(pool, key, blocks, done, b);
    hide Mapped, Primary, HashOf;
    var left, right := UnmapAll(pool, key, Restrict(blocks, done + {b})).cached,
      UnmapOne(UnmapAll(pool, key, Restrict(blocks, done)), key, blocks[b], b).cached;
    forall p
      ensures p in left <==> p in right
    {
    }
  }

  lemma StepPrimary(pool: Pool, key: Key, blocks: map<BlockId, Rec>, done: set<BlockId>, b: BlockId)
    requires b in blocks && b !in done
    ensures UnmapAll(pool, key, Restrict(blocks, done + {b})).primary
      == UnmapOne(UnmapAll(pool, key, Restrict(blocks, done)), key, blocks[b], b).primary
  {
    UntouchedYet(pool, key, blocks, done, b);
    hide Mapped, Primary, HashOf, Loses, Left;
  }

  lemma StepFurther(pool: Pool, key: Key, blocks: map<BlockId, Rec>, done: set<BlockId>, b: BlockId)
    requires b in blocks && b !in done
    ensures UnmapAll(pool, key, Restrict(blocks, done + {b})).further
      == UnmapOne(UnmapAll(pool, key, Restrict(blocks, done)), key, blocks[b], b).further
  {
    UntouchedYet(pool, key, blocks, done, b);
    hide Mapped, Primary, HashOf, Loses;
  }

  function Restrict(blocks: map<BlockId, Rec>, ids: set<BlockId>): (part: map<BlockId, Rec>)
    ensures forall b :: b in part <==> b in blocks && b in ids
    ensures forall b :: b in part ==> part[b] == blocks[b]
  {
    map b | b in blocks && b in ids :: blocks[b]
  }

  // ---- the operations ----

  /** A tag that names this very record of the entry. */
  predicate Names(t: Tag, e: Entry, b: BlockId) {
    b in e.blocks && t == Tag(e.blocks[b].epoch, e.key, e.tokens)
  }

  /** The tags without those that name records of the entry for these blocks. */
  function Untagged(tags: map<BlockId, Tag>, e: Entry, ids: set<BlockId>): map<BlockId, Tag> {
    map b | b in tags && !(b in ids && Names(tags[b], e, b)) :: tags[b]
  }

  lemma UntagStep(tags: map<BlockId, Tag>, e: Entry, ids: set<BlockId>, b: BlockId)
    requires b !in ids
    ensures var mid := Untagged(tags, e, ids);
      Untagged(tags, e, ids + {b}) == if b in mid && Names(mid[b], e, b) then mid - {b} else mid
  {
  }

  function Dropped(st: State, e: Entry): State {
    st.(order := Remove(st.order, e.key), entries := st.entries - {e.key}, tags := Untagged(st.tags, e, e.blocks.Keys))
  }

  function Touched(st: State, key: Key): State {
    st.(order := Remove(st.order, key) + [key])
  }

  /** An entry under the key with another token count gives way. */
  function Cleared(st: State, key: Key, tokens: int): State {
    if key in st.entries && st.entries[key].tokens != tokens then Dropped(st, st.entries[key]) else st
  }

  /** A registration, before the cap is enforced. */
  function Recorded(st: State, key: Key, tokens: int, group: nat, block: Block): State {
    Stored(Cleared(st, key, tokens), key, tokens, group, block)
  }

  function Stored(st: State, key: Key, tokens: int, group: nat, block: Block): State {
    var e := if key in st.entries then st.entries[key] else Entry(key, tokens, map[]);
    var epoch := st.epoch + 1;
    var e' := e.(blocks := e.blocks[block.id := Rec(group, block, epoch)]);
    Touched(st.(entries := st.entries[key := e'], epoch := epoch, tags := st.tags[block.id := Tag(epoch, key, tokens)],
                last := st.last[block.id := Own(key, group, epoch)]), key)
  }

  /** The record a move takes with it, if the tag, the entry and the record agree. */
  predicate Moves(st: State, src: Block, group: nat) {
    && src.id in st.tags && st.tags[src.id].key in st.entries
    && var e := st.entries[st.tags[src.id].key];
      src.id in e.blocks && e.blocks[src.id] == Rec(group, src, st.tags[src.id].epoch)
  }

  function Moved(st: State, src: Block, dst: Block, group: nat): State {
    if !Moves(st, src, group) then st.(last := st.last[src.id := Declined][dst.id := Declined])
    else
      var tag := st.tags[src.id];
      var e := st.entries[tag.key];
      var e' := e.(blocks := (e.blocks - {src.id})[dst.id := Rec(group, dst, tag.epoch)]);
      st.(entries := st.entries[tag.key := e'], tags := st.tags[dst.id := tag] - {src.id},
          last := (st.last - {src.id})[dst.id := Own(tag.key, group, tag.epoch)])
  }

  predicate ValidHit(st: State, pool: Pool, e: Entry, group: nat, block: Block) {
    && block.id in e.blocks && e.blocks[block.id].group == group && e.blocks[block.id].block == block && !block.isNull
    && block.id in st.tags && st.tags[block.id] == Tag(e.blocks[block.id].epoch, e.key, e.tokens)
    && (Hash(e.key, group), block.id) in pool.cached
  }

  /** Some group has no valid block left. */
  predicate Dead(st: State, pool: Pool, e: Entry, groups: nat) {
    |LiveGroups(st, pool, e)| < groups
  }

  function LiveGroups(st: State, pool: Pool, e: Entry): set<nat> {
    set b | b in e.blocks && ValidHit(st, pool, e, e.blocks[b].group, e.blocks[b].block) :: e.blocks[b].group
  }

  // ---- the invariant ----

  predicate TagHeld(st: State, b: BlockId)
    requires b in st.tags
  {
    var t := st.tags[b];
    && t.epoch <= st.epoch && t.key in st.entries
    && var e := st.entries[t.key];
      && e.tokens == t.tokens && b in e.blocks && e.blocks[b].epoch == t.epoch
      && b in st.last && (st.last[b] == Own(t.key, e.blocks[b].group, t.epoch) || st.last[b].Declined?)
  }

  /** Every tag names a live entry that holds the block at the tag's epoch and agrees with the block's last event,
      unless that was a declined move; tag epochs are distinct; the order lists the entries' keys once each. */
  ghost predicate Inv(st: State) {
    Keyed(st) && Held(st) && Epochs(st)
  }

  ghost predicate Keyed(st: State) {
    && Distinct(st.order) && (forall k :: k in st.order <==> k in st.entries)
    && (forall k :: k in st.entries ==> st.entries[k].key == k)
  }

  ghost predicate Held(st: State) {
    forall b :: b in st.tags ==> TagHeld(st, b)
  }

  ghost predicate Epochs(st: State) {
    forall b, c :: b in st.tags && c in st.tags && b != c ==> st.tags[b].epoch != st.tags[c].epoch
  }

  lemma DroppedInv(st: State, key: Key)
    requires Inv(st) && key in st.entries
    ensures Inv(Dropped(st, st.entries[key])) && |Dropped(st, st.entries[key]).order| == |st.order| - 1
  {
    var after := Dropped(st, st.entries[key]);
    assert Keyed(after) && Epochs(after) && |after.order| == |st.order| - 1;
    forall b | b in after.tags
      ensures TagHeld(after, b)
    {
      assert TagHeld(st, b);
    }
  }

  lemma TouchedInv(st: State, key: Key)
    requires Inv(st) && key in st.entries
    ensures Inv(Touched(st, key)) && |Touched(st, key).order| == |st.order|
  {
    var after := Touched(st, key);
    forall b | b in after.tags
      ensures TagHeld(after, b)
    {
      assert TagHeld(st, b);
    }
  }

  lemma RecordedInv(st: State, key: Key, tokens: int, group: nat, block: Block)
    requires Inv(st)
    ensures var after := Recorded(st, key, tokens, group, block);
      Inv(after) && key in after.entries && |after.order| <= |st.order| + 1
  {
    if key in st.entries { DroppedInv(st, key); }
    var mid := Cleared(st, key, tokens);
    assert Inv(mid) && (key in mid.entries ==> mid.entries[key].tokens == tokens) && |mid.order| <= |st.order|;
    hide Inv, Stored;
    StoredInv(mid, key, tokens, group, block);
  }

  lemma StoredInv(st: State, key: Key, tokens: int, group: nat, block: Block)
    requires Inv(st) && (key in st.entries ==> st.entries[key].tokens == tokens)
    ensures var after := Stored(st, key, tokens, group, block);
      Inv(after) && key in after.entries && |after.order| <= |st.order| + 1
  {
    StoredHeld(st, key, tokens, group, block);
    StoredKeyed(st, key, tokens, group, block);
    StoredEpochs(st, key, tokens, group, block);
    hide Keyed, Held, Epochs, Stored;
  }

  lemma StoredEpochs(st: State, key: Key, tokens: int, group: nat, block: Block)
    requires Held(st) && Epochs(st)
    ensures Epochs(Stored(st, key, tokens, group, block))
  {
    var after := Stored(st, key, tokens, group, block);
    assert after.tags == st.tags[block.id := Tag(st.epoch + 1, key, tokens)];
    EpochsBounded(st);
    hide Stored, Held;
  }

  lemma StoredKeyed(st: State, key: Key, tokens: int, group: nat, block: Block)
    requires Keyed(st)
    ensures var after := Stored(st, key, tokens, group, block);
      Keyed(after) && key in after.entries && |after.order| <= |st.order| + 1
  {
    var after := Stored(st, key, tokens, group, block);
    assert after.order == Remove(st.order, key) + [key];
  }

  lemma EpochsBounded(st: State)
    requires Held(st)
    ensures forall b :: b in st.tags ==> st.tags[b].epoch <= st.epoch
  {
    forall b | b in st.tags
      ensures st.tags[b].epoch <= st.epoch
    {
      assert TagHeld(st, b);
    }
  }

  lemma StoredHeld(st: State, key: Key, tokens: int, group: nat, block: Block)
    requires Held(st) && (key in st.entries ==> st.entries[key].tokens == tokens)
    ensures Held(Stored(st, key, tokens, group, block))
  {
    var after := Stored(st, key, tokens, group, block);
    hide Remove;
    forall b | b in after.tags
      ensures TagHeld(after, b)
    {
      if b != block.id { assert TagHeld(st, b); }
    }
  }

  lemma MovedInv(st: State, src: Block, dst: Block, group: nat)
    requires Inv(st)
    ensures Inv(Moved(st, src, dst, group))
  {
    if Moves(st, src, group) {
      var after := Moved(st, src, dst, group);
      MovedHeld(st, src, dst, group);
      assert Keyed(after);
      hide Keyed, Held;
      assert forall b :: b in after.tags ==>
        b != src.id && (b != dst.id ==> b in st.tags && after.tags[b] == st.tags[b]);
      assert src.id != dst.id ==> after.tags[dst.id] == st.tags[src.id];
      hide Moved, TagHeld, Moves;
    } else {
      forall b | b in st.tags
        ensures TagHeld(Moved(st, src, dst, group), b)
      {
        assert TagHeld(st, b);
      }
    }
  }

  lemma MovedHeld(st: State, src: Block, dst: Block, group: nat)
    requires Keyed(st) && Held(st) && Moves(st, src, group)
    ensures Held(Moved(st, src, dst, group))
  {
    var after := Moved(st, src, dst, group);
    assert TagHeld(st, src.id);
    forall b | b in after.tags
      ensures TagHeld(after, b)
    {
      if b != dst.id { assert TagHeld(st, b); }
    }
  }

  /** A valid hit is one the pool still maps, and its last registration or move was for this very key and group if and
      only if that was none the registry declined. */
  lemma ValidHitIsLatest(st: State, pool: Pool, key: Key, group: nat, block: Block)
    requires Inv(st) && key in st.entries && ValidHit(st, pool, st.entries[key], group, block)
    ensures LastFor(st, key, group, block.id) <==> Undisturbed(st, block.id)
    ensures (Hash(key, group), block.id) in pool.cached && !block.isNull
  {
    assert TagHeld(st, block.id);
  }

  /** The block's last registration or move was for the key and the group. */
  predicate LastFor(st: State, key: Key, group: nat, b: BlockId) {
    b in st.last && st.last[b].Own? && st.last[b].key == key && st.last[b].group == group
  }

  /** No declined move has touched the block since it was last registered or moved. */
  predicate Undisturbed(st: State, b: BlockId) {
    b in st.last && !st.last[b].Declined?
  }

  // ---- registry and pool together ----

  datatype Both = Both(st: State, pool: Pool)

  /** Drops the entry under a key: its recorded blocks leave the pool's map, and it is forgotten. */
  function Evict(x: Both, key: Key): Both
    requires key in x.st.entries
  {
    var e := x.st.entries[key];
    Both(Dropped(x.st, e), UnmapAll(x.pool, e.key, e.blocks))
  }

  /** Dead entries go first, in order of use, until the cap is met. */
  function Sweep(x: Both, todo: seq<Key>, cap: int, keep: Key, groups: nat): Both
    decreases |todo|
  {
    if |todo| == 0 || |x.st.order| <= cap then x
    else
      var key := todo[0];
      var next := if key in x.st.entries && key != keep && Dead(x.st, x.pool, x.st.entries[key], groups)
        then Evict(x, key) else x;
      Sweep(next, todo[1..], cap, keep, groups)
  }

  /** Then the least recently used, but never the entry to keep. */
  function Trim(x: Both, cap: int, keep: Key): Both
    requires forall k :: k in x.st.order ==> k in x.st.entries && x.st.entries[k].key == k
    decreases |x.st.order|
  {
    if |x.st.order| <= cap || |x.st.order| == 0 then x
    else if x.st.order[0] != keep then Trim(Evict(x, x.st.order[0]), cap, keep)
    else if |x.st.order| == 1 then x
    else
      var turned := Both(Touched(x.st, keep), x.pool);
      if turned.st.order[0] == keep then x else Trim(Evict(turned, turned.st.order[0]), cap, keep)
  }

  ghost function Enforced(x: Both, cap: int, keep: Key, groups: nat): Both
    requires Inv(x.st)
  {
    if |x.st.order| <= cap then x
    else
      SweepInv(x, x.st.order, cap, keep, groups);
      Trim(Sweep(x, x.st.order, cap, keep, groups), cap, keep)
  }

  /** What evictions may do: drop entries other than the one to keep. */
  ghost predicate Shrunk(x: Both, after: Both, keep: Key) {
    && Inv(after.st) && (keep in x.st.entries ==> keep in after.st.entries)
    && (forall k :: k in after.st.entries ==> k in x.st.entries && after.st.entries[k] == x.st.entries[k])
    && (forall k :: k in x.st.entries && k !in after.st.entries ==> Released(x.st.entries[k], after.pool))
    && after.pool.cached <= x.pool.cached
  }

  /** No recorded block of an entry is mapped under the entry's hash any more. */
  ghost predicate Released(e: Entry, pool: Pool) {
    forall b :: b in e.blocks ==> !Mapped(pool, e.key, e.blocks[b], b)
  }

  lemma EvictShrinks(x: Both, key: Key, keep: Key)
    requires Inv(x.st) && key in x.st.entries && key != keep
    ensures Shrunk(x, Evict(x, key), keep) && |Evict(x, key).st.order| == |x.st.order| - 1
  {
    DroppedInv(x.st, key);
    var e, after := x.st.entries[key], Evict(x, key);
    assert e.key == key;
    assert after.st.entries == x.st.entries - {key};
    hide Dropped, Inv;
    forall b | b in e.blocks
      ensures !Mapped(after.pool, e.key, e.blocks[b], b)
    {
      UnmappedIsGone(x.pool, e.key, e.blocks, b);
    }
  }

  lemma ShrunkTwice(x: Both, y: Both, z: Both, keep: Key)
    requires Shrunk(x, y, keep) && Shrunk(y, z, keep)
    ensures Shrunk(x, z, keep)
  {
    hide Inv, Mapped;
    forall k | k in x.st.entries && k !in z.st.entries
      ensures Released(x.st.entries[k], z.pool)
    {
      if k !in y.st.entries {
        StaysReleased(x.st.entries[k], y.pool, z.pool);
      }
    }
  }

  lemma StaysReleased(e: Entry, pool: Pool, after: Pool)
    requires Released(e, pool) && after.cached <= pool.cached
    ensures Released(e, after)
  {
    forall b | b in e.blocks
      ensures !Mapped(after, e.key, e.blocks[b], b)
    {
      assert !Mapped(pool, e.key, e.blocks[b], b);
    }
  }

  lemma {:induction false} SweepInv(x: Both, todo: seq<Key>, cap: int, keep: Key, groups: nat)
    requires Inv(x.st)
    ensures Shrunk(x, Sweep(x, todo, cap, keep, groups), keep)
    ensures var y := Sweep(x, todo, cap, keep, groups);
      forall k :: k in y.st.order ==> k in y.st.entries && y.st.entries[k].key == k
    decreases |todo|
  {
    hide Dead, Evict;
    if |todo| > 0 && |x.st.order| > cap {
      var key := todo[0];
      var next := if key in x.st.entries && key != keep && Dead(x.st, x.pool, x.st.entries[key], groups)
        then Evict(x, key) else x;
      if next != x { EvictShrinks(x, key, keep); }
      SweepInv(next, todo[1..], cap, keep, groups);
      ShrunkTwice(x, next, Sweep(next, todo[1..], cap, keep, groups), keep);
    }
  }

  lemma {:induction false} TrimInv(x: Both, cap: int, keep: Key)
    requires Inv(x.st) && keep in x.st.entries
    ensures Shrunk(x, Trim(x, cap, keep), keep) && |Trim(x, cap, keep).st.order| <= if cap < 1 then 1 else cap
    decreases |x.st.order|, 0
  {
    if |x.st.order| > cap && |x.st.order| > 0 {
      if x.st.order[0] != keep {
        EvictShrinks(x, x.st.order[0], keep);
        TrimAgain(x, Evict(x, x.st.order[0]), cap, keep);
      } else if |x.st.order| > 1 {
        var turned := Both(Touched(x.st, keep), x.pool);
        TouchedInv(x.st, keep);
        assert turned.st.order[0] != keep by {
          assert keep !in Remove(x.st.order, keep) && turned.st.order[0] == Remove(x.st.order, keep)[0];
        }
        EvictShrinks(turned, turned.st.order[0], keep);
        assert Shrunk(x, turned, keep);
        ShrunkTwice(x, turned, Evict(turned, turned.st.order[0]), keep);
        TrimAgain(x, Evict(turned, turned.st.order[0]), cap, keep);
      }
    }
  }

  lemma {:induction false} TrimAgain(x: Both, y: Both, cap: int, keep: Key)
    requires Shrunk(x, y, keep) && keep in x.st.entries && |y.st.order| < |x.st.order|
    ensures keep in y.st.entries && (forall k :: k in y.st.order ==> k in y.st.entries && y.st.entries[k].key == k)
    ensures Shrunk(x, Trim(y, cap, keep), keep) && |Trim(y, cap, keep).st.order| <= if cap < 1 then 1 else cap
    decreases |y.st.order|, 1
  {
    TrimInv(y, cap, keep);
    ShrunkTwice(x, y, Trim(y, cap, keep), keep);
  }

  /** Enforcing the cap keeps the invariant and the entry just used, releases the blocks of what it drops, and leaves at
      most max(1, cap) entries. */
  lemma EnforcedInv(x: Both, cap: int, keep: Key, groups: nat)
    requires Inv(x.st) && keep in x.st.entries
    ensures Shrunk(x, Enforced(x, cap, keep, groups), keep)
    ensures |Enforced(x, cap, keep, groups).st.order| <= if cap < 1 then 1 else cap
  {
    if |x.st.order| > cap {
      SweepInv(x, x.st.order, cap, keep, groups);
      var y := Sweep(x, x.st.order, cap, keep, groups);
      hide Sweep, Inv;
      TrimInv(y, cap, keep);
      ShrunkTwice(x, y, Trim(y, cap, keep), keep);
    } else {
      assert Shrunk(x, x, keep);
    }
  }

  // ---- registration and admission ----

  /** A registration: a clashing entry is dropped, the block recorded, the cap enforced around the new entry. */
  ghost function RecordBoth(x: Both, key: Key, tokens: int, group: nat, block: Block, cap: int, groups: nat): Both
    requires Inv(x.st)
  {
    var y := if key in x.st.entries && x.st.entries[key].tokens != tokens then Evict(x, key) else x;
    RecordedInv(x.st, key, tokens, group, block);
    assert y.st == Cleared(x.st, key, tokens);
    Enforced(Both(Recorded(x.st, key, tokens, group, block), y.pool), cap, key, groups)
  }

  /** After a registration the invariant holds, the new key is kept, and at most max(1, cap) entries are left. */
  lemma RecordIsBounded(x: Both, key: Key, tokens: int, group: nat, block: Block, cap: int, groups: nat)
    requires Inv(x.st)
    ensures var after := RecordBoth(x, key, tokens, group, block, cap, groups);
      Inv(after.st) && key in after.st.entries && |after.st.order| <= if cap < 1 then 1 else cap
  {
    var y := if key in x.st.entries && x.st.entries[key].tokens != tokens then Evict(x, key) else x;
    RecordedInv(x.st, key, tokens, group, block);
    hide Inv, Recorded, Enforced;
    EnforcedInv(Both(Recorded(x.st, key, tokens, group, block), y.pool), cap, key, groups);
  }

  /** A block a lookup found, with its group. */
  datatype Hit = Hit(group: nat, block: Block)

  /** The hits the registry recorded for the entry; only these are its to judge. */
  function Judged(e: Entry, hits: seq<Hit>): (judged: seq<Hit>)
    ensures |judged| <= |hits|
    ensures forall h :: h in judged <==> h in hits && h.block.id in e.blocks
  {
    if |hits| == 0 then []
    else
      assert hits == hits[..|hits| - 1] + [hits[|hits| - 1]];
      Judged(e, hits[..|hits| - 1]) + if hits[|hits| - 1].block.id in e.blocks then [hits[|hits| - 1]] else []
  }

  predicate AllValid(x: Both, e: Entry, hits: seq<Hit>) {
    forall h :: h in hits ==> ValidHit(x.st, x.pool, e, h.group, h.block)
  }

  /** The answer to a lookup, and what it leaves. groups is how many groups the lookup asked for. */
  function Admitted(x: Both, key: Key, hits: seq<Hit>, groups: nat): (Both, bool) {
    if key !in x.st.entries then (x, true)
    else
      var e := x.st.entries[key];
      var judged := Judged(e, hits);
      if !AllValid(x, e, judged) then (Evict(x, key), false)
      else if |judged| < groups && |judged| == 0 then (x, true)
      else (Both(Touched(x.st, key), x.pool), true)
  }

  /** A lookup is admitted only if every returned block the registry recorded for the key is still mapped for this key
      and group; it was last registered or moved for them exactly if no declined move touched it since. A refusal
      unmaps every recorded block, forgets the entry, and leaves the blocks it never recorded as they were. */
  lemma AdmitIsSound(x: Both, key: Key, hits: seq<Hit>, groups: nat)
    requires Inv(x.st) && key in x.st.entries
    ensures var e, (after, ok) := x.st.entries[key], Admitted(x, key, hits, groups);
      && Inv(after.st)
      && (ok ==> after.pool == x.pool && after.st.entries == x.st.entries
                 && forall h :: h in hits && h.block.id in e.blocks ==> Current(x, key, h))
      && (ok ==> forall h :: h in hits && h.block.id in e.blocks ==>
                   (LastFor(x.st, key, h.group, h.block.id) <==> Undisturbed(x.st, h.block.id)))
      && (!ok ==> key !in after.st.entries && Released(e, after.pool)
                  && forall b, h :: b !in e.blocks ==> ((h, b) in after.pool.cached <==> (h, b) in x.pool.cached))
  {
    var e, judged := x.st.entries[key], Judged(x.st.entries[key], hits);
    if AllValid(x, e, judged) {
      TouchedInv(x.st, key);
      forall h | h in hits && h.block.id in e.blocks
        ensures Current(x, key, h) && (LastFor(x.st, key, h.group, h.block.id) <==> Undisturbed(x.st, h.block.id))
      {
        assert h in judged;
        ValidHitIsLatest(x.st, x.pool, key, h.group, h.block);
      }
    } else {
      EvictShrinks(x, key, key + 1);
      hide UnmapAll, Inv;
      forall b, h | b !in e.blocks
        ensures (h, b) in Evict(x, key).pool.cached <==> (h, b) in x.pool.cached
      {
        UnmappedIsGone(x.pool, e.key, e.blocks, b);
      }
    }
  }

  /** A declined move onto a registered block leaves the registry's answer as it was: while the pool still maps the
      block, a lookup is admitted although the last move was not for its key. */
  lemma DeclinedMoveIsAdmitted(x: Both, key: Key, h: Hit, src: Block)
    requires Inv(x.st) && key in x.st.entries && ValidHit(x.st, x.pool, x.st.entries[key], h.group, h.block)
    requires src.id !in x.st.tags
    ensures var y := Both(Moved(x.st, src, h.block, h.group), x.pool);
      Inv(y.st) && Admitted(y, key, [h], 1).1 && !LastFor(y.st, key, h.group, h.block.id)
  {
    MovedInv(x.st, src, h.block, h.group);
    var y := Both(Moved(x.st, src, h.block, h.group), x.pool);
    var e := y.st.entries[key];
    assert ValidHit(y.st, y.pool, e, h.group, h.block);
    hide Inv, Moved, ValidHit;
    assert forall i :: i in Judged(e, [h]) ==> i == h;
  }

  /** The hit's block is one the pool maps for this key and group. */
  ghost predicate Current(x: Both, key: Key, h: Hit) {
    && (Hash(key, h.group), h.block.id) in x.pool.cached && !h.block.isNull
  }

  // ---- every run ----

  datatype Op =
    | Record(key: Key, tokens: int, group: nat, block: Block)
    | Move(src: Block, dst: Block, group: nat)
    | Admit(key: Key, hits: seq<Hit>, groups: nat)
    | PoolActs(pool: Pool)

  ghost function Step(x: Both, op: Op, cap: int, groups: nat): Both
    requires Inv(x.st)
  {
    match op
    case Record(key, tokens, group, block) => RecordBoth(x, key, tokens, group, block, cap, groups)
    case Move(src, dst, group) => Both(Moved(x.st, src, dst, group), x.pool)
    case Admit(key, hits, asked) => Admitted(x, key, hits, asked).0
    case PoolActs(pool) => Both(x.st, pool)
  }

  lemma StepInv(x: Both, op: Op, cap: int, groups: nat)
    requires Inv(x.st)
    ensures Inv(Step(x, op, cap, groups).st)
  {
    match op
    case Record(key, tokens, group, block) => RecordIsBounded(x, key, tokens, group, block, cap, groups);
    case Move(src, dst, group) => MovedInv(x.st, src, dst, group);
    case Admit(key, hits, asked) => if key in x.st.entries { AdmitIsSound(x, key, hits, asked); }
    case PoolActs(pool) =>
  }

  /** In every run from an empty registry, whatever the pool does between the registry's own operations, the invariant
      holds in each state. */
  lemma {:induction false} RunInv(states: seq<Both>, ops: seq<Op>, cap: int, groups: nat, i: nat)
    requires |states| == |ops| + 1 && states[0].st == State([], map[], map[], 0, map[]) && i < |states|
    requires forall j :: 0 <= j < |ops| && Inv(states[j].st) ==> states[j + 1] == Step(states[j], ops[j], cap, groups)
    ensures Inv(states[i].st)
  {
    hide Step;
    if i > 0 {
      RunInv(states, ops, cap, groups, i - 1);
      hide Inv;
      StepInv(states[i - 1], ops[i - 1], cap, groups);
    }
  }

  lemma NextDone(all: set<BlockId>, todo: set<BlockId>, b: BlockId)
    requires todo <= all && b in todo
    ensures all - (todo - {b}) == (all - todo) + {b} && b !in all - todo
  {
  }

  // ---- the objects ----

  class BlockPool {
    var cached: set<(Hash, BlockId)>
    var primary: map<BlockId, Hash>
    var further: map<BlockId, set<Hash>>

    function Now(): Pool
      reads this
    {
      Pool(cached, primary, further)
    }

    constructor ()
      ensures Now() == Pool({}, map[], map[])
    {
      cached, primary, further := {}, map[], map[];
    }

    /** Uncaches a block entirely, as eviction would. */
    method RemoveCachedBlockHashes(b: BlockId)
      modifies this
      ensures Now() == Pool((set p | p in old(cached) && p.1 != b), old(primary) - {b}, old(further) - {b})
    {
      cached, primary, further := (set p | p in cached && p.1 != b), primary - {b}, further - {b};
    }

    /** Takes one recorded block out of the map under the entry's hash. */
    method Unmap(key: Key, rec: Rec, b: BlockId)
      modifies this
      ensures Now() == UnmapOne(old(Now()), key, rec, b)
    {
      var h := HashOf(key, rec);
      if (h, b) in cached {
        if b in primary && primary[b] == h {
          RemoveCachedBlockHashes(b);
        } else {
          cached := cached - {(h, b)};
          if b in further {
            var left := further[b] - {h};
            further := if left == {} then further - {b} else further[b := left];
          }
        }
      }
    }
  }

  class Registry {
    const cap: int
    const groups: nat
    const pool: BlockPool
    var order: seq<Key>
    var entries: map<Key, Entry>
    var tags: map<BlockId, Tag>
    var epoch: nat
    ghost var last: map<BlockId, Event>

    ghost function Now(): State
      reads this
    {
      State(order, entries, tags, epoch, last)
    }

    ghost function All(): Both
      reads this, pool
    {
      Both(Now(), pool.Now())
    }

    ghost predicate Valid()
      reads this
    {
      Inv(Now())
    }

    constructor (cap: int, groups: nat, pool: BlockPool)
      ensures Valid() && this.cap == cap && this.groups == groups && this.pool == pool
      ensures Now() == State([], map[], map[], 0, map[])
    {
      this.cap, this.groups, this.pool := cap, groups, pool;
      order, entries, tags, epoch, last := [], map[], map[], 0, map[];
    }

    /** One recorded block: out of the pool's map, and its tag with it. */
    method DropOne(e: Entry, b: BlockId) returns (mapped: bool)
      requires b in e.blocks
      modifies this`tags, pool
      ensures pool.Now() == UnmapOne(old(pool.Now()), e.key, e.blocks[b], b)
      ensures tags == if b in old(tags) && Names(old(tags)[b], e, b) then old(tags) - {b} else old(tags)
      ensures mapped == Mapped(pool.Now(), e.key, e.blocks[b], b)
    {
      pool.Unmap(e.key, e.blocks[b], b);
      mapped := (HashOf(e.key, e.blocks[b]), b) in pool.cached;
      if b in tags && Names(tags[b], e, b) {
        tags := tags - {b};
      }
    }

    /** Takes an entry's recorded blocks out of the pool, and the tags that name its records. failed stands for the
        error raised when a block is still mapped afterwards: it never is. */
    method DropBlocks(e: Entry) returns (failed: bool)
      modifies this`tags, pool
      ensures pool.Now() == UnmapAll(old(pool.Now()), e.key, e.blocks) && tags == Untagged(old(tags), e, e.blocks.Keys)
        && !failed
    {
      ghost var start, before := pool.Now(), tags;
      var todo := e.blocks.Keys;
      failed := false;
      assert UnmapAll(start, e.key, Restrict(e.blocks, {})) == start && Untagged(before, e, {}) == before;
      while todo != {}
        invariant todo <= e.blocks.Keys && !failed
        invariant pool.Now() == UnmapAll(start, e.key, Restrict(e.blocks, e.blocks.Keys - todo))
        invariant tags == Untagged(before, e, e.blocks.Keys - todo)
        decreases |todo|
      {
        hide UnmapAll, Untagged, UnmapOne, Names, Mapped;
        var b :| b in todo;
        ghost var done := e.blocks.Keys - todo;
        NextDone(e.blocks.Keys, todo, b);
        UnmapStep(start, e.key, e.blocks, done, b);
        UntagStep(before, e, done, b);
        UnmappedIsGone(start, e.key, Restrict(e.blocks, done + {b}), b);
        var mapped := DropOne(e, b);
        failed := failed || mapped;
        todo := todo - {b};
      }
      assert Restrict(e.blocks, e.blocks.Keys - todo) == e.blocks && e.blocks.Keys - todo == e.blocks.Keys;
    }

    /** Invalidates an entry and forgets it. */
    method Drop(key: Key) returns (failed: bool)
      requires Valid() && key in entries
      modifies this, pool
      ensures Valid() && All() == Evict(old(All()), key) && !failed
    {
      DroppedInv(Now(), key);
      var e := entries[key];
      assert e.key == key;
      hide Inv, UnmapAll, Untagged;
      failed := DropBlocks(e);
      order, entries := Remove(order, key), entries - {key};
    }

    method Touch(key: Key)
      requires Valid() && key in entries
      modifies this`order
      ensures Valid() && Now() == Touched(old(Now()), key)
    {
      TouchedInv(Now(), key);
      order := Remove(order, key) + [key];
    }

    /** A group's manager registered a block under a boundary's hash. */
    method RecordBlock(key: Key, tokens: int, group: nat, block: Block)
      requires Valid()
      modifies this, pool
      ensures Valid() && All() == RecordBoth(old(All()), key, tokens, group, block, cap, groups)
      ensures key in entries && |order| <= if cap < 1 then 1 else cap
    {
      RecordIsBounded(All(), key, tokens, group, block, cap, groups);
      RecordedInv(Now(), key, tokens, group, block);
      if key in entries && entries[key].tokens != tokens {
        var failed := Drop(key);
      }
      assert All() == Both(Cleared(old(Now()), key, tokens), if key in old(entries)
        && old(entries[key]).tokens != tokens then Evict(old(All()), key).pool else old(pool.Now()));
      hide Inv, Enforced, UnmapAll;
      Store(key, tokens, group, block);
      EnforceCap(key);
    }

    method Store(key: Key, tokens: int, group: nat, block: Block)
      modifies this
      ensures Now() == Stored(old(Now()), key, tokens, group, block)
    {
      var e := if key in entries then entries[key] else Entry(key, tokens, map[]);
      epoch := epoch + 1;
      entries := entries[key := e.(blocks := e.blocks[block.id := Rec(group, block, epoch)])];
      tags := tags[block.id := Tag(epoch, key, tokens)];
      last := last[block.id := Own(key, group, epoch)];
      order := Remove(order, key) + [key];
    }

    /** A partial entry moved from a producer's slot to another block. */
    method MoveBlock(src: Block, dst: Block, group: nat)
      requires Valid()
      modifies this
      ensures Valid() && Now() == Moved(old(Now()), src, dst, group)
    {
      MovedInv(Now(), src, dst, group);
      if src.id !in tags || tags[src.id].key !in entries {
        last := last[src.id := Declined][dst.id := Declined];
        return;
      }
      var tag := tags[src.id];
      var e := entries[tag.key];
      if src.id !in e.blocks || e.blocks[src.id] != Rec(group, src, tag.epoch) {
        last := last[src.id := Declined][dst.id := Declined];
        return;
      }
      entries := entries[tag.key := e.(blocks := (e.blocks - {src.id})[dst.id := Rec(group, dst, tag.epoch)])];
      tags := tags[dst.id := tag] - {src.id};
      last := (last - {src.id})[dst.id := Own(tag.key, group, tag.epoch)];
    }

    /** Before a hit is used: every returned block that was recorded for the key must still be valid. */
    method AdmitHits(key: Key, hits: seq<Hit>, asked: nat) returns (ok: bool)
      requires Valid()
      modifies this, pool
      ensures Valid() && (All(), ok) == Admitted(old(All()), key, hits, asked)
    {
      if key in entries { AdmitIsSound(All(), key, hits, asked); }
      if key !in entries {
        return true;
      }
      var e := entries[key];
      var judged := Judged(e, hits);
      var i := 0;
      while i < |judged|
        invariant 0 <= i <= |judged|
        invariant forall j :: 0 <= j < i ==> ValidHit(Now(), pool.Now(), e, judged[j].group, judged[j].block)
      {
        hide Inv, Admitted;
        if !IsValid(e, judged[i].group, judged[i].block) {
          assert !AllValid(All(), e, judged);
          var failed := Drop(key);
          assert All() == Evict(old(All()), key);
          return false;
        }
        i := i + 1;
      }
      assert AllValid(All(), e, judged);
      if |judged| < asked && |judged| == 0 {
        return true;
      }
      Touch(key);
      ok := true;
    }

    predicate IsValid(e: Entry, group: nat, block: Block)
      reads this, pool
      ensures IsValid(e, group, block) == ValidHit(Now(), pool.Now(), e, group, block)
    {
      && block.id in e.blocks && e.blocks[block.id].group == group && e.blocks[block.id].block == block && !block.isNull
      && block.id in tags && tags[block.id] == Tag(e.blocks[block.id].epoch, e.key, e.tokens)
      && (Hash(e.key, group), block.id) in pool.cached
    }

    predicate IsDead(e: Entry)
      reads this, pool
      ensures IsDead(e) == Dead(Now(), pool.Now(), e, groups)
    {
      var live := set b | b in e.blocks && IsValid(e, e.blocks[b].group, e.blocks[b].block) :: e.blocks[b].group;
      assert live == LiveGroups(Now(), pool.Now(), e);
      |live| < groups
    }

    /** Bounds the table: dead entries first, oldest first, then the least recently used; never the entry to keep. */
    method EnforceCap(keep: Key)
      requires Valid() && keep in entries
      modifies this, pool
      ensures Valid() && All() == Enforced(old(All()), cap, keep, groups)
    {
      EnforcedInv(All(), cap, keep, groups);
      if |order| <= cap {
        return;
      }
      SweepDead(keep);
      ghost var swept := All();
      SweepInv(old(All()), old(order), cap, keep, groups);
      while |order| > cap
        invariant Valid() && keep in entries && |order| >= 1
        invariant forall k :: k in order ==> k in entries && entries[k].key == k
        invariant forall k :: k in swept.st.order ==> k in swept.st.entries && swept.st.entries[k].key == k
        invariant Trim(All(), cap, keep) == Trim(swept, cap, keep)
        decreases |order|
      {
        if |order| == 1 && order[0] == keep {
          break;
        }
        DropOldest(keep);
      }
    }

    /** Drops the least recently used entry other than the one to keep. */
    method DropOldest(keep: Key)
      requires Valid() && keep in entries && |order| > cap && |order| >= 1 && !(|order| == 1 && order[0] == keep)
      modifies this, pool
      ensures Valid() && keep in entries && 1 <= |order| < old(|order|)
      ensures (forall k :: k in order ==> k in entries && entries[k].key == k)
        && (forall k :: k in old(order) ==> k in old(entries) && old(entries)[k].key == k)
      ensures Trim(All(), cap, keep) == Trim(old(All()), cap, keep)
    {
      ghost var here := All();
      var first := order[0];
      if first == keep {
        Touch(keep);
        first := order[0];
        assert keep !in Remove(here.st.order, keep) && first == Remove(here.st.order, keep)[0];
      }
      EvictShrinks(All(), first, keep);
      var failed := Drop(first);
      assert keep in order;
    }

    method SweepDead(keep: Key)
      requires Valid()
      modifies this, pool
      ensures Valid() && All() == Sweep(old(All()), old(order), cap, keep, groups)
    {
      var todo, i := order, 0;
      assert todo[0..] == todo;
      while i < |todo|
        invariant 0 <= i <= |todo| && Valid()
        invariant Sweep(All(), todo[i..], cap, keep, groups) == Sweep(old(All()), todo, cap, keep, groups)
      {
        hide Inv, Dead, Evict;
        assert todo[i..][1..] == todo[i + 1..];
        if |order| <= cap {
          return;
        }
        if todo[i] in entries && todo[i] != keep && IsDead(entries[todo[i]]) {
          var failed := Drop(todo[i]);
        }
        i := i + 1;
      }
    }
  }
}