/** Greedy speculative verification: a sharded, blocked argmax, and the acceptance of drafts against it. */
module GreedyVerify {
  datatype Logit = NaN | NegInf | Fin(v: real) | PosInf

  /** NaN counts as minus infinity. */
  function Clean(x: Logit): Logit {
    if x.NaN? then NegInf else x
  }

  /** Strictly greater, as the comparison sees cleaned values. */
  predicate Above(a: Logit, b: Logit) {
    match Clean(a)
    case PosInf => !Clean(b).PosInf?
    case Fin(v) => Clean(b).NegInf? || (b.Fin? && v > b.v)
    case _ => false
  }

  /** i is the lowest index of the row's maximum. */
  predicate IsArgmax(row: seq<Logit>, i: int) {
    && 0 <= i < |row|
    && (forall j :: 0 <= j < |row| ==> !Above(row[j], row[i]))
    && (forall j :: 0 <= j < i ==> Above(row[i], row[j]))
  }

  lemma ArgmaxIsUnique(row: seq<Logit>, i: int, j: int)
    requires IsArgmax(row, i) && IsArgmax(row, j)
    ensures i == j
  {
    assert !Above(row[j], row[i]) && !Above(row[i], row[j]);
  }

  /** Among equal maxima the first one counts; with nothing above minus infinity that is index 0. */
  lemma AllMasked(row: seq<Logit>)
    requires |row| > 0 && forall j :: 0 <= j < |row| ==> Clean(row[j]).NegInf?
    ensures IsArgmax(row, 0)
  {
  }

  /** What the argmax of a row is, case by case: the first plus infinity; else the first of the greatest numbers; else,
      with nothing but minus infinity and NaN, index 0. */
  lemma ArgmaxIs(row: seq<Logit>, i: int)
    requires |row| > 0
    ensures IsArgmax(row, i) <==>
      && 0 <= i < |row|
      && if PosInf in row then row[i] == PosInf && forall j :: 0 <= j < i ==> row[j] != PosInf
         else if exists j :: 0 <= j < |row| && row[j].Fin? then
           && row[i].Fin?
           && (forall j :: 0 <= j < |row| && row[j].Fin? ==> row[j].v <= row[i].v)
           && forall j :: 0 <= j < i && row[j].Fin? ==> row[j].v < row[i].v
         else i == 0
  {
    if 0 <= i < |row| {
      if PosInf in row {
        var j :| 0 <= j < |row| && row[j] == PosInf;
        assert Above(row[j], row[i]) <==> row[i] != PosInf;
      } else if j :| 0 <= j < |row| && row[j].Fin? {
        assert !row[i].Fin? ==> Above(row[j], row[i]);
      } else {
        assert forall j :: 0 <= j < |row| ==> Clean(row[j]).NegInf?;
        assert i > 0 ==> !Above(row[i], row[0]);
      }
    }
  }

  lemma AboveIsOrder(a: Logit, b: Logit, c: Logit)
    ensures Above(a, b) && !Above(c, b) ==> Above(a, c)
    ensures !Above(b, a) && Above(b, c) ==> Above(a, c)
    ensures !Above(a, b) && !Above(b, c) ==> !Above(a, c)
  {
  }

  const BLOCK := 4096

  function Min(a: int, b: int): int {
    if a < b then a else b
  }

  /** The reduction of one block; columns past the shard read as minus infinity, ties go left. */
  method BlockMax(shard: seq<Logit>, start: nat) returns (v: Logit, i: nat)
    requires start < |shard|
    ensures start + i < Min(|shard|, start + BLOCK) && v == Clean(shard[start + i])
    ensures forall j :: start <= j < Min(|shard|, start + BLOCK) ==> !Above(shard[j], v)
    ensures forall j :: start <= j < start + i ==> Above(v, shard[j])
  {
    v, i := Clean(shard[start]), 0;
    var c := 1;
    while c < BLOCK
      invariant 1 <= c <= BLOCK && i < c && start + i < |shard| && v == Clean(shard[start + i])
      invariant forall j :: start <= j < Min(|shard|, start + c) ==> !Above(shard[j], v)
      invariant forall j :: start <= j < start + i ==> Above(v, shard[j])
    {
      var x := if start + c < |shard| then Clean(shard[start + c]) else NegInf;
      if Above(x, v) {
        forall j | start <= j < start + c
          ensures Above(x, shard[j])
        {
          AboveIsOrder(x, v, shard[j]);
        }
        v, i := x, c;
      }
      c := c + 1;
    }
  }

  /** One rank's program: the maximum of its shard and its lowest index, block by block. */
  method LocalArgmax(shard: seq<Logit>) returns (bestV: Logit, bestI: nat)
    requires |shard| > 0
    ensures IsArgmax(shard, bestI) && bestV == Clean(shard[bestI])
  {
    bestV, bestI := NegInf, 0;
    var start := 0;
    while start < |shard|
      invariant 0 <= start && bestI < |shard| && (start > 0 || bestI == 0)
      invariant start == 0 ==> bestV == NegInf
      invariant start > 0 ==> bestI < Min(start, |shard|) && bestV == Clean(shard[bestI])
      invariant forall j :: 0 <= j < Min(start, |shard|) ==> !Above(shard[j], bestV)
      invariant forall j :: 0 <= j < bestI ==> Above(bestV, shard[j])
      decreases |shard| - start
    {
      var v, i := BlockMax(shard, start);
      if Above(v, bestV) {
        forall j | 0 <= j < start
          ensures Above(v, shard[j])
        {
          AboveIsOrder(v, bestV, shard[j]);
        }
        bestV, bestI := v, start + i;
      } else {
        forall j | start <= j < Min(|shard|, start + BLOCK)
          ensures !Above(shard[j], bestV)
        {
          AboveIsOrder(shard[j], v, bestV);
        }
      }
      start := start + BLOCK;
    }
  }

  /** The shards one after the other. */
  function Row(shards: seq<seq<Logit>>): seq<Logit> {
    if |shards| == 0 then [] else Row(shards[..|shards| - 1]) + shards[|shards| - 1]
  }

  /** What a rank publishes: its maximum and, as a 32-bit float, the global index of it. */
  datatype PairOf = PairOf(value: Logit, index: int)

  ghost predicate Publishes(shards: seq<seq<Logit>>, pairs: seq<PairOf>, toFloat: int -> int) {
    && |pairs| == |shards|
    && forall r :: 0 <= r < |shards| ==>
         exists i :: IsArgmax(shards[r], i) && pairs[r].value == Clean(shards[r][i])
           && pairs[r].index == toFloat(|Row(shards[..r])| + i)
  }

  /** A 32-bit float holds every integer up to 2^24. */
  ghost predicate ExactTo24Bits(toFloat: int -> int) {
    forall i :: 0 <= i <= 0x100_0000 ==> toFloat(i) == i
  }

  /** The combination over the ranks: the first rank with the greatest value. */
  method CombinePairs(pairs: seq<PairOf>) returns (index: int)
    requires |pairs| > 0
    ensures exists r :: 0 <= r < |pairs| && index == pairs[r].index && BestRank(pairs, r)
  {
    var best, r := 0, 1;
    while r < |pairs|
      invariant 1 <= r <= |pairs| && 0 <= best < r
      invariant forall q :: 0 <= q < r ==> !Above(pairs[q].value, pairs[best].value)
      invariant forall q :: 0 <= q < best ==> Above(pairs[best].value, pairs[q].value)
    {
      if Above(pairs[r].value, pairs[best].value) {
        forall q | 0 <= q < r
          ensures Above(pairs[r].value, pairs[q].value)
        {
          AboveIsOrder(pairs[r].value, pairs[best].value, pairs[q].value);
        }
        best := r;
      }
      r := r + 1;
    }
    index := pairs[best].index;
  }

  predicate BestRank(pairs: seq<PairOf>, r: int) {
    && 0 <= r < |pairs|
    && (forall q :: 0 <= q < |pairs| ==> !Above(pairs[q].value, pairs[r].value))
    && (forall q :: 0 <= q < r ==> Above(pairs[r].value, pairs[q].value))
  }

  lemma {:induction false} RowPrefix(shards: seq<seq<Logit>>, r: nat)
    requires r <= |shards|
    ensures |Row(shards[..r])| <= |Row(shards)| && Row(shards)[..|Row(shards[..r])|] == Row(shards[..r])
  {
    if r < |shards| {
      assert shards[..|shards| - 1][..r] == shards[..r];
      RowPrefix(shards[..|shards| - 1], r);
    } else {
      assert shards[..r] == shards;
    }
  }

  /** Where a shard's column lies in the row, and which shard a column of the row lies in. */
  lemma ColumnOf(shards: seq<seq<Logit>>, r: nat, i: nat)
    requires r < |shards| && i < |shards[r]|
    ensures |Row(shards[..r])| + i < |Row(shards)| && Row(shards)[|Row(shards[..r])| + i] == shards[r][i]
  {
    RowPrefix(shards, r + 1);
    assert shards[..r + 1][..r] == shards[..r];
    assert Row(shards[..r + 1]) == Row(shards[..r]) + shards[r];
    assert Row(shards)[..|Row(shards[..r + 1])|][|Row(shards[..r])| + i] == shards[r][i];
  }

  lemma {:induction false} ShardOf(shards: seq<seq<Logit>>, c: nat) returns (r: nat, i: nat)
    requires c < |Row(shards)|
    ensures r < |shards| && i < |shards[r]| && c == |Row(shards[..r])| + i && Row(shards)[c] == shards[r][i]
  {
    var n := |shards| - 1;
    if c < |Row(shards[..n])| {
      r, i := ShardOf(shards[..n], c);
      assert shards[..n][..r] == shards[..r];
    } else {
      r, i := n, c - |Row(shards[..n])|;
    }
  }

  lemma RowsAscend(shards: seq<seq<Logit>>, q: nat, r: nat, i: nat)
    requires q < r <= |shards| && i < |shards[q]|
    ensures |Row(shards[..q])| + i < |Row(shards[..r])|
  {
    ColumnOf(shards[..r], q, i);
    assert shards[..r][..q] == shards[..q];
  }

  /** For any sharding of a row shorter than 2^24 columns, the combination of the shards' maxima is the lowest index
      of the whole row's maximum, NaN and rows with nothing but minus infinity included. */
  lemma ShardedArgmax(shards: seq<seq<Logit>>, pairs: seq<PairOf>, toFloat: int -> int, r: nat)
    requires Publishes(shards, pairs, toFloat) && ExactTo24Bits(toFloat) && |Row(shards)| <= 0x100_0000
    requires BestRank(pairs, r)
    ensures IsArgmax(Row(shards), pairs[r].index)
  {
    var row := Row(shards);
    var i := BestColumn(shards, pairs, toFloat, r);
    ColumnOf(shards, r, i);
    var at := |Row(shards[..r])| + i;
    assert pairs[r].index == at;
    forall c | 0 <= c < |row|
      ensures !Above(row[c], row[at]) && (c < at ==> Above(row[at], row[c]))
    {
      var q, k := ShardOf(shards, c);
      var j := BestColumn(shards, pairs, toFloat, q);
      hide Row, Publishes, ExactTo24Bits;
      AboveIsOrder(shards[q][k], shards[q][j], row[at]);
      AboveIsOrder(row[at], shards[q][j], shards[q][k]);
      if c < at {
        if r < q { RowsAscend(shards, r, q, i); }
        assert q <= r;
      }
    }
  }

  /** How the row is split over the ranks makes no difference; a row with nothing above minus infinity yields index
      0. */
  lemma ShardingIrrelevant(shards: seq<seq<Logit>>, pairs: seq<PairOf>, r: nat, others: seq<seq<Logit>>,
                           pairs': seq<PairOf>, r': nat,
                           toFloat: int -> int)
    requires Publishes(shards, pairs, toFloat) && Publishes(others, pairs', toFloat) && ExactTo24Bits(toFloat)
    requires Row(shards) == Row(others) && |Row(shards)| <= 0x100_0000
    requires BestRank(pairs, r) && BestRank(pairs', r')
    ensures pairs[r].index == pairs'[r'].index
    ensures (forall j :: 0 <= j < |Row(shards)| ==> Clean(Row(shards)[j]).NegInf?) ==> pairs[r].index == 0
  {
    ShardedArgmax(shards, pairs, toFloat, r);
    ShardedArgmax(others, pairs', toFloat, r');
    var row := Row(shards);
    hide Row, Publishes, ExactTo24Bits, IsArgmax, BestRank;
    ArgmaxIsUnique(row, pairs[r].index, pairs'[r'].index);
    if forall j :: 0 <= j < |row| ==> Clean(row[j]).NegInf? {
      ArgmaxInRow(row, pairs[r].index);
      AllMasked(row);
      ArgmaxIsUnique(row, pairs[r].index, 0);
    }
  }

  lemma ArgmaxInRow(row: seq<Logit>, i: int)
    requires IsArgmax(row, i)
    ensures 0 <= i < |row|
  {
  }

  lemma BestColumn(shards: seq<seq<Logit>>, pairs: seq<PairOf>, toFloat: int -> int, r: nat) returns (i: nat)
    requires Publishes(shards, pairs, toFloat) && ExactTo24Bits(toFloat) && |Row(shards)| <= 0x100_0000 && r < |shards|
    ensures IsArgmax(shards[r], i) && pairs[r].value == Clean(shards[r][i]) && pairs[r].index == |Row(shards[..r])| + i
  {
    i :| IsArgmax(shards[r], i) && pairs[r].value == Clean(shards[r][i])
      && pairs[r].index == toFloat(|Row(shards[..r])| + i);
    ColumnOf(shards, r, i);
  }

  // ---- acceptance ----

  /** The longest prefix of valid drafts that agree with the target. */
  function Accepted(target: seq<int>, drafts: seq<int>): (n: nat)
    requires |target| == |drafts| + 1
    ensures n <= |drafts|
  {
    if |drafts| == 0 || drafts[0] < 0 || drafts[0] != target[0] then 0 else 1 + Accepted(target[1..], drafts[1..])
  }

  /** Every accepted draft is a token and the target's, and the first one not accepted is one or the other not. */
  lemma {:induction false} AcceptedIs(target: seq<int>, drafts: seq<int>)
    requires |target| == |drafts| + 1
    ensures var n := Accepted(target, drafts);
      && (forall i :: 0 <= i < n ==> 0 <= drafts[i] == target[i])
      && (n == |drafts| || drafts[n] < 0 || drafts[n] != target[n])
  {
    if |drafts| > 0 && drafts[0] >= 0 && drafts[0] == target[0] {
      AcceptedIs(target[1..], drafts[1..]);
      var n := Accepted(target[1..], drafts[1..]);
      assert forall i :: 1 <= i < n + 1 ==> drafts[i] == drafts[1..][i - 1] && target[i] == target[1..][i - 1];
    }
  }

  /** The tokens of one step: the accepted drafts, then the target's own token. */
  function Emitted(target: seq<int>, drafts: seq<int>): (out: seq<int>)
    requires |target| == |drafts| + 1
    ensures |out| == Accepted(target, drafts) + 1
  {
    drafts[..Accepted(target, drafts)] + [target[Accepted(target, drafts)]]
  }

  /** One request's program. Drafts start one past the request's first row. */
  method AcceptRequest(sampled: array2<int>, numSampled: array<int>, argmax: seq<int>, draft: seq<int>, cu: seq<nat>,
                       req: nat)
    requires req + 1 < |cu| && req < sampled.Length0 && req < numSampled.Length
    requires cu[req] < cu[req + 1] <= |argmax| && |draft| == |argmax| && cu[req + 1] - cu[req] <= sampled.Length1
    modifies sampled, numSampled
    ensures var out := Emitted(argmax[cu[req]..cu[req + 1]], draft[cu[req] + 1..cu[req + 1]]);
      && numSampled[req] == |out| && (forall i :: 0 <= i < |out| ==> sampled[req, i] == out[i])
    ensures forall q, i :: 0 <= q < sampled.Length0 && 0 <= i < sampled.Length1 && q != req ==>
      sampled[q, i] == old(sampled[q, i])
    ensures forall q :: 0 <= q < numSampled.Length && q != req ==> numSampled[q] == old(numSampled[q])
  {
    var start, end := cu[req], cu[req + 1];
    ghost var target, drafts := argmax[start..end], draft[start + 1..end];
    var accepted, verifying, i := 0, true, 0;
    while i < end - start - 1
      invariant 0 <= i <= |drafts| && 0 <= accepted <= i && (verifying ==> accepted == i)
      invariant Accepted(target, drafts) == accepted + if verifying then Accepted(target[i..], drafts[i..]) else 0
      invariant forall j :: 0 <= j < accepted ==> sampled[req, j] == drafts[j]
      invariant numSampled[..] == old(numSampled[..])
      invariant forall q, j :: 0 <= q < sampled.Length0 && 0 <= j < sampled.Length1 && q != req ==>
        sampled[q, j] == old(sampled[q, j])
    {
      var d := draft[start + i + 1];
      var valid := d >= 0;
      if verifying {
        var t := argmax[start + i];
        assert target[i..][0] == t && drafts[i..][0] == d;
        assert target[i..][1..] == target[i + 1..] && drafts[i..][1..] == drafts[i + 1..];
        verifying := t == (if d < 0 then 0 else d) && valid;
        sampled[req, i] := if verifying then d else t;
        accepted := accepted + if verifying then 1 else 0;
      }
      i := i + 1;
    }
    sampled[req, accepted] := argmax[start + accepted];
    numSampled[req] := accepted + 1;
  }

  /** What the target model, a function of the context, says at each row of a step. */
  function Targets(model: seq<int> -> int, context: seq<int>, drafts: seq<int>): (target: seq<int>)
    ensures |target| == |drafts| + 1
  {
    seq(|drafts| + 1, i requires 0 <= i <= |drafts| => model(context + drafts[..i]))
  }

  /** Plain greedy decoding. */
  function Greedy(model: seq<int> -> int, context: seq<int>, n: nat): (out: seq<int>)
    ensures |out| == n
    decreases n
  {
    if n == 0 then [] else [model(context)] + Greedy(model, context + [model(context)], n - 1)
  }

  lemma {:induction false} GreedyJoins(model: seq<int> -> int, context: seq<int>, n: nat, m: nat)
    ensures Greedy(model, context, n + m)
      == Greedy(model, context, n) + Greedy(model, context + Greedy(model, context, n), m)
    decreases n
  {
    if n == 0 {
      assert context + [] == context;
    } else {
      var t := model(context);
      var next := context + [t];
      assert Greedy(model, context, n) == [t] + Greedy(model, next, n - 1);
      assert Greedy(model, context, n + m) == [t] + Greedy(model, next, n - 1 + m);
      hide Greedy;
      GreedyJoins(model, next, n - 1, m);
      assert next + Greedy(model, next, n - 1) == context + ([t] + Greedy(model, next, n - 1));
    }
  }

  /** One step emits at least one token, and exactly those greedy decoding would emit next, whatever the drafts. */
  lemma {:induction false} StepIsGreedy(model: seq<int> -> int, context: seq<int>, drafts: seq<int>)
    ensures var out := Emitted(Targets(model, context, drafts), drafts);
      |out| >= 1 && out == Greedy(model, context, |out|)
    decreases |drafts|
  {
    var target := Targets(model, context, drafts);
    var n := Accepted(target, drafts);
    assert context + drafts[..0] == context && target[0] == model(context);
    if n > 0 {
      var d := drafts[0];
      var rest := Targets(model, context + [d], drafts[1..]);
      assert target[1..] == rest by {
        forall i | 0 <= i < |rest|
          ensures target[1..][i] == rest[i]
        {
          assert context + drafts[..i + 1] == context + [d] + drafts[1..][..i];
        }
      }
      StepIsGreedy(model, context + [d], drafts[1..]);
      assert Emitted(target, drafts) == [d] + Emitted(rest, drafts[1..]);
    } else {
      assert Emitted(target, drafts) == [model(context)];
      assert Greedy(model, context, 1) == [model(context)];
    }
  }

  /** A step accepts the longest run of drafts greedy decoding would emit: m drafts are accepted if and only if they are
      tokens and the next m greedy ones. */
  lemma StepIsLongest(model: seq<int> -> int, context: seq<int>, drafts: seq<int>, m: nat)
    requires m <= |drafts|
    ensures m < |Emitted(Targets(model, context, drafts), drafts)| <==>
      drafts[..m] == Greedy(model, context, m) && forall i :: 0 <= i < m ==> drafts[i] >= 0
  {
    var target := Targets(model, context, drafts);
    var out := Emitted(target, drafts);
    var n := |out| - 1;
    AcceptedIs(target, drafts);
    StepIsGreedy(model, context, drafts);
    hide Accepted, Targets;
    if m <= n {
      GreedyJoins(model, context, m, n + 1 - m);
      assert drafts[..m] == out[..m];
    } else {
      GreedyJoins(model, context, n + 1, m - n - 1);
      assert Greedy(model, context, m)[n] == out[n] == target[n];
      assert drafts[..m][n] == drafts[n];
    }
  }

  /** Steps one after the other, each with its own drafts. */
  function Decode(model: seq<int> -> int, context: seq<int>, steps: seq<seq<int>>): seq<int>
    decreases |steps|
  {
    if |steps| == 0 then []
    else
      var out := Emitted(Targets(model, context, steps[0]), steps[0]);
      out + Decode(model, context + out, steps[1..])
  }

  /** Lossless: any number of steps with any drafts emit exactly the greedy token stream, at least one token a step. */
  lemma {:induction false} DecodingIsGreedy(model: seq<int> -> int, context: seq<int>, steps: seq<seq<int>>)
    ensures var out := Decode(model, context, steps);
      |out| >= |steps| && out == Greedy(model, context, |out|)
    decreases |steps|
  {
    if |steps| > 0 {
      var first := Emitted(Targets(model, context, steps[0]), steps[0]);
      StepIsGreedy(model, context, steps[0]);
      DecodingIsGreedy(model, context + first, steps[1..]);
      var rest := Decode(model, context + first, steps[1..]);
      hide Emitted, Targets, Greedy;
      GreedyJoins(model, context, |first|, |rest|);
    }
  }
}
