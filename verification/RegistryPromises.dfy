/** Which entry the registry keeps: use makes an entry the most recent, and enforcing the cap drops dead entries first
    and then the least recently used. */
module RegistryPromises {
  import opened Registry

  // ---- order of use ----

  /** key has moved from where it stood to the end, everything else keeps its place in the order. */
  ghost predicate MovedToEnd(before: seq<Key>, after: seq<Key>, key: Key) {
    exists a: seq<Key>, b: seq<Key> :: before == a + [key] + b && after == a + b + [key]
  }

  lemma {:induction false} RemoveSplits(order: seq<Key>, key: Key) returns (a: seq<Key>, b: seq<Key>)
    requires key in order && Distinct(order)
    ensures order == a + [key] + b && Remove(order, key) == a + b && key !in a && key !in b
  {
    assert order == [order[0]] + order[1..];
    if order[0] == key {
      a, b := [], order[1..];
      RemoveNothing(b, key);
    } else {
      a, b := RemoveSplits(order[1..], key);
      a := [order[0]] + a;
    }
  }

  lemma {:induction false} RemoveNothing(order: seq<Key>, key: Key)
    requires key !in order
    ensures Remove(order, key) == order
  {
    if |order| > 0 { RemoveNothing(order[1..], key); }
  }

  /** A use makes an entry the most recent. */
  lemma TouchedIsMostRecent(st: State, key: Key)
    requires Inv(st) && key in st.entries
    ensures MovedToEnd(st.order, Touched(st, key).order, key)
  {
    var a, b := RemoveSplits(st.order, key);
    assert Touched(st, key).order == a + b + [key];
  }

  /** An admission that judged a block, or had none to find, makes its entry the most recent and changes nothing else
      of the entries; a lookup that found none of its own blocks changes nothing. */
  lemma AdmittedIsMostRecent(x: Both, key: Key, hits: seq<Hit>, groups: nat)
    requires Inv(x.st) && key in x.st.entries && Admitted(x, key, hits, groups).1
    ensures var after := Admitted(x, key, hits, groups).0;
      var mine := exists h :: h in hits && h.block.id in x.st.entries[key].blocks;
      && after.pool == x.pool && after.st.entries == x.st.entries && after.st.tags == x.st.tags
      && (mine || groups == 0 ==> MovedToEnd(x.st.order, after.st.order, key))
      && (!mine && groups > 0 ==> after.st.order == x.st.order)
  {
    TouchedIsMostRecent(x.st, key);
    var judged := Judged(x.st.entries[key], hits);
    if |judged| > 0 { assert judged[0] in judged; }
    hide MovedToEnd, Inv;
  }

  /** An unregistered key is not the registry's to judge. */
  lemma UnknownKeyIsAdmitted(x: Both, key: Key, hits: seq<Hit>, groups: nat)
    requires key !in x.st.entries
    ensures Admitted(x, key, hits, groups) == (x, true)
  {
  }

  /** A registration makes its entry the most recent, or appends a new one; the block is recorded and tagged under a new
      epoch. */
  lemma StoredIsMostRecent(st: State, key: Key, tokens: int, group: nat, block: Block)
    requires Inv(st) && (key in st.entries ==> st.entries[key].tokens == tokens)
    ensures var after := Stored(st, key, tokens, group, block);
      && (if key in st.entries then MovedToEnd(st.order, after.order, key) else after.order == st.order + [key])
      && after.epoch == st.epoch + 1 && after.entries.Keys == st.entries.Keys + {key}
      && (forall k :: k in st.entries && k != key ==> after.entries[k] == st.entries[k])
      && after.entries[key].key == key && after.entries[key].tokens == tokens
      && after.tags == st.tags[block.id := Tag(after.epoch, key, tokens)]
      && (forall b :: b in after.entries[key].blocks <==>
            b == block.id || (key in st.entries && b in st.entries[key].blocks))
      && after.entries[key].blocks[block.id] == Rec(group, block, after.epoch)
      && (forall b :: key in st.entries && b in st.entries[key].blocks && b != block.id ==>
            after.entries[key].blocks[b] == st.entries[key].blocks[b])
  {
    if key in st.entries {
      var a, b := RemoveSplits(st.order, key);
      assert Stored(st, key, tokens, group, block).order == a + b + [key];
    } else {
      RemoveNothing(st.order, key);
    }
  }

  // ---- the least recently used go ----

  function Most(cap: int): nat {
    if cap < 1 then 1 else cap
  }

  /** The keys that stay: the one to keep, and of the others the most recent that fit beside it. */
  ghost predicate Stays(order: seq<Key>, cap: int, keep: Key, k: Key) {
    var others := Remove(order, keep);
    k == keep || (k in others && (|others| < Most(cap) || k in others[|others| - (Most(cap) - 1)..]))
  }

  lemma EvictOrder(x: Both, key: Key)
    requires Inv(x.st) && key in x.st.entries
    ensures Evict(x, key).st.order == Remove(x.st.order, key) && Evict(x, key).st.entries == x.st.entries - {key}
  {
  }

  lemma {:induction false} RemoveCommutes(order: seq<Key>, a: Key, b: Key)
    ensures Remove(Remove(order, a), b) == Remove(Remove(order, b), a)
  {
    if |order| > 0 { RemoveCommutes(order[1..], a, b); }
  }

  lemma {:induction false} RemoveLast(order: seq<Key>, key: Key)
    ensures Remove(order + [key], key) == Remove(order, key)
    decreases |order|
  {
    if |order| > 0 {
      assert (order + [key])[1..] == order[1..] + [key];
      RemoveLast(order[1..], key);
    } else {
      assert ([key])[1..] == [];
      assert order + [key] == [key];
    }
  }

  /** Trimming evicts the least recently used entries other than the one to keep, as many as the cap asks, and no
      others. */
  lemma {:induction false} TrimKeepsRecent(x: Both, cap: int, keep: Key)
    requires Inv(x.st) && keep in x.st.entries
    ensures forall k :: k in Trim(x, cap, keep).st.entries <==> Stays(x.st.order, cap, keep, k)
    decreases |x.st.order|
  {
    var order, others := x.st.order, Remove(x.st.order, keep);
    if |order| > cap && |order| > 1 {
      if order[0] != keep {
        EvictFirst(x, cap, keep, x);
      } else {
        var turned := Both(Touched(x.st, keep), x.pool);
        TouchedInv(x.st, keep);
        RemoveNothing(others, keep);
        RemoveLast(others, keep);
        assert turned.st.order == others + [keep];
        assert turned.st.order[0] == others[0] != keep;
        EvictFirst(turned, cap, keep, x);
      }
    }
  }

  /** One eviction from the front: turned is x itself, or x with the entry to keep moved to the end. */
  lemma {:induction false} EvictFirst(turned: Both, cap: int, keep: Key, x: Both)
    requires Inv(turned.st) && keep in turned.st.entries && |turned.st.order| == |x.st.order| > 1 && |x.st.order| > cap
    requires turned.st.order[0] != keep && Remove(turned.st.order, keep) == Remove(x.st.order, keep)
    requires turned.st.order[0] in turned.st.entries
    ensures var next := Evict(turned, turned.st.order[0]);
      && Inv(next.st) && keep in next.st.entries
      && forall k :: k in Trim(next, cap, keep).st.entries <==> Stays(x.st.order, cap, keep, k)
    decreases |x.st.order|, 0
  {
    var first, others := turned.st.order[0], Remove(turned.st.order, keep);
    var next := Evict(turned, first);
    DroppedInv(turned.st, first);
    EvictOrder(turned, first);
    FirstRemoved(turned.st.order, keep);
    TrimKeepsRecent(next, cap, keep);
    assert next.st.order == turned.st.order[1..];
    assert Remove(next.st.order, keep) == others[1..];
    hide Inv, Trim, Evict, Remove;
    StaysShift(others, cap, keep);
  }

  lemma FirstRemoved(order: seq<Key>, keep: Key)
    requires |order| > 1 && Distinct(order) && order[0] != keep && keep in order
    ensures Remove(order, order[0]) == order[1..] && Remove(order, keep) == [order[0]] + Remove(order[1..], keep)
    ensures |Remove(order, keep)| == |order| - 1
  {
    assert order[0] !in order[1..];
    RemoveNothing(order[1..], order[0]);
  }

  lemma StaysShift(others: seq<Key>, cap: int, keep: Key)
    requires |others| >= Most(cap) && |others| >= 1
    ensures |others[1..]| < Most(cap) ==> others[1..] == others[|others| - (Most(cap) - 1)..]
    ensures |others[1..]| >= Most(cap) ==>
      others[1..][|others| - 1 - (Most(cap) - 1)..] == others[|others| - (Most(cap) - 1)..]
  {
  }

  /** Without dead entries enforcing the cap keeps the entry just used and the most recently used others. */
  lemma EnforcedKeepsRecent(x: Both, cap: int, keep: Key, groups: nat)
    requires Inv(x.st) && keep in x.st.entries
    requires forall k :: k in x.st.entries && k != keep ==> !Dead(x.st, x.pool, x.st.entries[k], groups)
    ensures forall k :: k in Enforced(x, cap, keep, groups).st.entries <==> Stays(x.st.order, cap, keep, k)
  {
    if |x.st.order| > cap {
      NothingSwept(x, x.st.order, cap, keep, groups);
      TrimKeepsRecent(x, cap, keep);
    }
  }

  lemma {:induction false} NothingSwept(x: Both, todo: seq<Key>, cap: int, keep: Key, groups: nat)
    requires forall k :: k in x.st.entries && k != keep ==> !Dead(x.st, x.pool, x.st.entries[k], groups)
    ensures Sweep(x, todo, cap, keep, groups) == x
    decreases |todo|
  {
    if |todo| > 0 { NothingSwept(x, todo[1..], cap, keep, groups); }
  }

  // ---- what a drop takes from the pool ----

  /** The recorded hash of a block is still mapped to it, or is its primary one. */
  predicate StillMapped(pool: Pool, key: Key, blocks: map<BlockId, Rec>, b: BlockId) {
    b in blocks && (Hash(key, blocks[b].group), b) in pool.cached
  }

  predicate Uncached(pool: Pool, key: Key, blocks: map<BlockId, Rec>, b: BlockId) {
    StillMapped(pool, key, blocks, b) && b in pool.primary && pool.primary[b] == Hash(key, blocks[b].group)
  }

  /** A drop takes all hashes of a recorded block whose primary hash is the recorded one, and the recorded hash alone of
      the other recorded blocks; a block that is no longer mapped under it keeps everything. */
  lemma UnmappedExactly(pool: Pool, key: Key, blocks: map<BlockId, Rec>, h: Hash, b: BlockId)
    ensures var after := UnmapAll(pool, key, blocks);
      && ((h, b) in after.cached <==>
            && (h, b) in pool.cached && !Uncached(pool, key, blocks, b)
            && !(b in blocks && h == Hash(key, blocks[b].group)))
      && (b in after.primary <==> b in pool.primary && !Uncached(pool, key, blocks, b))
      && (b in after.primary ==> after.primary[b] == pool.primary[b])
      && (b in after.further ==> b in pool.further && !Uncached(pool, key, blocks, b))
      && (b in pool.further && !StillMapped(pool, key, blocks, b) ==>
            b in after.further && after.further[b] == pool.further[b])
      && (b in pool.further && StillMapped(pool, key, blocks, b) && !Uncached(pool, key, blocks, b) ==>
            var left := pool.further[b] - {Hash(key, blocks[b].group)};
            if left == {} then b !in after.further else b in after.further && after.further[b] == left)
  {
  }

  // ---- moves ----

  /** A move is taken exactly if the source's tag names an entry that holds this very block object in this group at
      the tag's epoch. Then the record and the tag go over to the destination, whatever that held; otherwise entries
      and tags stay as they are. */
  lemma MovedIs(st: State, src: Block, dst: Block, group: nat)
    ensures var after := Moved(st, src, dst, group);
      var taken := src.id in st.tags && st.tags[src.id].key in st.entries
        && src.id in st.entries[st.tags[src.id].key].blocks
        && var r := st.entries[st.tags[src.id].key].blocks[src.id];
          r.group == group && r.block == src && r.epoch == st.tags[src.id].epoch;
      && after.order == st.order && after.epoch == st.epoch && after.entries.Keys == st.entries.Keys
      && (!taken ==> after.entries == st.entries && after.tags == st.tags)
      && (taken ==>
            var key, epoch := st.tags[src.id].key, st.tags[src.id].epoch;
            && (forall k :: k in st.entries && k != key ==> after.entries[k] == st.entries[k])
            && after.entries[key].key == st.entries[key].key && after.entries[key].tokens == st.entries[key].tokens
            && (forall b :: b in after.entries[key].blocks <==>
                  b == dst.id || (b in st.entries[key].blocks && b != src.id))
            && after.entries[key].blocks[dst.id] == Rec(group, dst, epoch)
            && (forall b :: b in st.entries[key].blocks && b != src.id && b != dst.id ==>
                  after.entries[key].blocks[b] == st.entries[key].blocks[b])
            && src.id !in after.tags
            && (dst.id != src.id ==> dst.id in after.tags && after.tags[dst.id] == st.tags[src.id])
            && (forall b :: b != src.id && b != dst.id ==>
                  (b in after.tags <==> b in st.tags) && (b in st.tags ==> after.tags[b] == st.tags[b])))
  {
  }

  // ---- lookups ----

  /** The recorded block stands: same object, same group, its tag is the record's, the pool maps it for this key. */
  predicate Stands(x: Both, e: Entry, h: Hit)
    requires h.block.id in e.blocks
  {
    var r := e.blocks[h.block.id];
    && r.block == h.block && r.group == h.group && !h.block.isNull
    && h.block.id in x.st.tags && x.st.tags[h.block.id] == Tag(r.epoch, e.key, e.tokens)
    && (Hash(e.key, h.group), h.block.id) in x.pool.cached
  }

  /** A lookup is admitted exactly if every returned block the entry recorded stands. */
  lemma AdmittedExactly(x: Both, key: Key, hits: seq<Hit>, groups: nat)
    requires key in x.st.entries
    ensures var e := x.st.entries[key];
      Admitted(x, key, hits, groups).1 <==> forall h :: h in hits && h.block.id in e.blocks ==> Stands(x, e, h)
  {
    var e := x.st.entries[key];
    if AllValid(x, e, Judged(e, hits)) {
      forall h | h in hits && h.block.id in e.blocks
        ensures Stands(x, e, h)
      {
        assert h in Judged(e, hits);
      }
    } else {
      var h :| h in Judged(e, hits) && !ValidHit(x.st, x.pool, e, h.group, h.block);
      assert h in hits && h.block.id in e.blocks && !Stands(x, e, h);
    }
  }

  // ---- dead entries go first ----

  /** No two entries record the same block. */
  ghost predicate Apart(st: State) {
    forall k, l :: k in st.entries && l in st.entries && k != l ==>
      st.entries[k].blocks.Keys !! st.entries[l].blocks.Keys
  }

  /** Dropping one entry makes no difference to whether another is dead. */
  lemma DeadStays(x: Both, j: Key, k: Key, groups: nat)
    requires Inv(x.st) && Apart(x.st) && j in x.st.entries && k in x.st.entries && j != k
    ensures var y := Evict(x, j);
      && k in y.st.entries && y.st.entries[k] == x.st.entries[k] && Apart(y.st)
      && (Dead(y.st, y.pool, y.st.entries[k], groups) <==> Dead(x.st, x.pool, x.st.entries[k], groups))
  {
    var y, e, f := Evict(x, j), x.st.entries[k], x.st.entries[j];
    assert y.st.entries == x.st.entries - {j};
    forall b | b in e.blocks
      ensures ValidHit(y.st, y.pool, e, e.blocks[b].group, e.blocks[b].block)
         <==> ValidHit(x.st, x.pool, e, e.blocks[b].group, e.blocks[b].block)
    {
      var id := e.blocks[b].block.id;
      if id in e.blocks {
        assert id !in f.blocks;
        UnmappedIsGone(x.pool, f.key, f.blocks, id);
      }
    }
    assert LiveGroups(y.st, y.pool, e) == LiveGroups(x.st, x.pool, e);
  }

  /** The sweep drops no live entry, and stops short of a dead one only once the cap is met. */
  lemma {:induction false} SweepIsFair(x: Both, todo: seq<Key>, cap: int, keep: Key, groups: nat, k: Key)
    requires Inv(x.st) && Apart(x.st) && k in x.st.entries && k != keep && Distinct(todo)
    ensures var y := Sweep(x, todo, cap, keep, groups);
      && (!Dead(x.st, x.pool, x.st.entries[k], groups) ==> k in y.st.entries)
      && (Dead(x.st, x.pool, x.st.entries[k], groups) && k in todo && k in y.st.entries ==> |y.st.order| <= cap)
    decreases |todo|
  {
    hide Dead, Evict, Inv;
    if |todo| > 0 && |x.st.order| > cap {
      var key := todo[0];
      if key in x.st.entries && key != keep && Dead(x.st, x.pool, x.st.entries[key], groups) {
        EvictShrinks(x, key, keep);
        if key == k {
          EvictedIsGone(x, k);
          SweepInv(Evict(x, k), todo[1..], cap, keep, groups);
        } else {
          DeadStays(x, key, k, groups);
          SweepIsFair(Evict(x, key), todo[1..], cap, keep, groups, k);
        }
      } else {
        SweepIsFair(x, todo[1..], cap, keep, groups, k);
      }
    }
  }

  lemma EvictedIsGone(x: Both, k: Key)
    requires Inv(x.st) && k in x.st.entries
    ensures k !in Evict(x, k).st.entries
  {
  }

  /** A dead entry outlives an enforcement of the cap only if no live one was dropped for it. */
  lemma DeadGoFirst(x: Both, cap: int, keep: Key, groups: nat, dead: Key, live: Key)
    requires Inv(x.st) && Apart(x.st) && keep in x.st.entries
    requires dead in x.st.entries && dead != keep && Dead(x.st, x.pool, x.st.entries[dead], groups)
    requires live in x.st.entries && live != keep && !Dead(x.st, x.pool, x.st.entries[live], groups)
    ensures dead in Enforced(x, cap, keep, groups).st.entries ==> live in Enforced(x, cap, keep, groups).st.entries
  {
    if |x.st.order| > cap {
      var y := Sweep(x, x.st.order, cap, keep, groups);
      SweepIsFair(x, x.st.order, cap, keep, groups, dead);
      SweepIsFair(x, x.st.order, cap, keep, groups, live);
      SweepInv(x, x.st.order, cap, keep, groups);
      TrimInv(y, cap, keep);
    }
  }
}
