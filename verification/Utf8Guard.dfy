/** The continuation guard over tokens: the table, the four-token window, masking and folding. */
module Utf8Guard {
  import opened Utf8

  /** A token's bytes, or none of its own (special and padding ids). */
  datatype Token = NoBytes | Bytes(data: seq<Byte>)

  /** Every token has a byte or is byte-less. */
  predicate Solid(vocab: seq<Token>) {
    forall v :: 0 <= v < |vocab| && vocab[v].Bytes? ==> |vocab[v].data| > 0
  }

  /** Whether a token may follow a state: a byte-less one only at a boundary. */
  predicate Allowed(s: State, t: Token) {
    if t.NoBytes? then s == 0 else Run(s, t.data).Some?
  }

  function After(s: State, t: Token): State {
    if t.NoBytes? then 0 else NextState(s, t.data)
  }

  /** An id outside the vocabulary resets the state, like a byte-less one. */
  function Lookup(vocab: seq<Token>, id: int): Token {
    if 0 <= id < |vocab| then vocab[id] else NoBytes
  }

  /** The state after a history of ids. */
  function StateOf(vocab: seq<Token>, s: State, ids: seq<int>): State
    decreases |ids|
  {
    if |ids| == 0 then s else StateOf(vocab, After(s, Lookup(vocab, ids[0])), ids[1..])
  }

  lemma {:induction false} StateJoins(vocab: seq<Token>, s: State, a: seq<int>, b: seq<int>)
    ensures StateOf(vocab, s, a + b) == StateOf(vocab, StateOf(vocab, s, a), b)
    decreases |a|
  {
    if |a| == 0 {
      assert a + b == b;
    } else {
      assert (a + b)[1..] == a[1..] + b;
      StateJoins(vocab, After(s, Lookup(vocab, a[0])), a[1..], b);
    }
  }

  lemma StateAppends(vocab: seq<Token>, ids: seq<int>, last: int)
    ensures StateOf(vocab, 0, ids + [last]) == After(StateOf(vocab, 0, ids), Lookup(vocab, last))
  {
    StateJoins(vocab, 0, ids, [last]);
    assert [last][1..] == [];
  }

  // ---- the window ----

  /** As many tokens as bytes are missing make the starting state irrelevant. */
  lemma {:induction false} TokensMeet(vocab: seq<Token>, s: State, ids: seq<int>)
    requires Solid(vocab) && Missing(s) <= |ids|
    ensures StateOf(vocab, s, ids) == StateOf(vocab, 0, ids)
    decreases |ids|
  {
    if s != 0 {
      var t := Lookup(vocab, ids[0]);
      if t.Bytes? { ReadingsMeet(s, t.data); }
      if After(s, t) != After(0, t) { TokensMeet(vocab, After(s, t), ids[1..]); }
    }
  }

  /** From a boundary over the last four committed tokens. */
  method WindowState(vocab: seq<Token>, committed: seq<int>) returns (s: State)
    ensures s == StateOf(vocab, 0, Window(committed))
  {
    s := 0;
    var total, i := |committed|, 0;
    ghost var seen: seq<int> := [];
    while i < 4
      invariant 0 <= i <= 4
      invariant seen == committed[From(total - 4)..From(total - 4 + i)]
      invariant s == StateOf(vocab, 0, seen)
    {
      hide StateOf, After, Lookup;
      var pos := total - 4 + i;
      if pos >= 0 {
        StateAppends(vocab, seen, committed[pos]);
        s := After(s, Lookup(vocab, committed[pos]));
        seen := seen + [committed[pos]];
      }
      i := i + 1;
    }
    assert seen == Window(committed);
  }

  function From(pos: int): nat {
    if pos < 0 then 0 else pos
  }

  /** The state the kernel computes for a row: over the window, then over the drafts before the row. It is the state
      of the whole history. */
  method RowState(vocab: seq<Token>, committed: seq<int>, drafts: seq<int>, j: nat) returns (s: State)
    requires Solid(vocab) && j <= |drafts|
    ensures s == KernelState(vocab, committed, drafts[..j]) == StateOf(vocab, 0, committed + drafts[..j])
  {
    s := WindowState(vocab, committed);
    WindowIsEnough(vocab, committed);
    KernelStateIs(vocab, committed, drafts[..j]);
    assert committed + drafts[..0] == committed;
    var i := 1;
    while i <= j
      invariant 1 <= i <= j + 1
      invariant s == StateOf(vocab, 0, committed + drafts[..i - 1])
    {
      hide StateOf, After, Lookup, Solid;
      StateAppends(vocab, committed + drafts[..i - 1], drafts[i - 1]);
      assert committed + drafts[..i - 1] + [drafts[i - 1]] == committed + drafts[..i];
      s := After(s, Lookup(vocab, drafts[i - 1]));
      i := i + 1;
    }
  }

  /** The last four ids, or all of them. */
  function Window(ids: seq<int>): seq<int> {
    if |ids| < 4 then ids else ids[|ids| - 4..]
  }

  /** The last four tokens decide the state of the whole history. */
  lemma WindowIsEnough(vocab: seq<Token>, ids: seq<int>)
    requires Solid(vocab)
    ensures StateOf(vocab, 0, Window(ids)) == StateOf(vocab, 0, ids)
  {
    hide StateOf, Solid;
    if |ids| >= 4 {
      FourAreEnough(vocab, ids[..|ids| - 4], ids[|ids| - 4..]);
      assert ids[..|ids| - 4] + ids[|ids| - 4..] == ids;
    }
  }

  lemma FourAreEnough(vocab: seq<Token>, a: seq<int>, b: seq<int>)
    requires Solid(vocab) && |b| >= 4
    ensures StateOf(vocab, 0, b) == StateOf(vocab, 0, a + b)
  {
    hide StateOf;
    StateJoins(vocab, 0, a, b);
    TokensMeet(vocab, StateOf(vocab, 0, a), b);
  }

  // ---- sampling only what is allowed ----

  function Text(vocab: seq<Token>, ids: seq<int>): seq<Byte> {
    if |ids| == 0 then []
    else Text(vocab, ids[..|ids| - 1]) + (var t := Lookup(vocab, ids[|ids| - 1]); if t.Bytes? then t.data else [])
  }

  /** A run from a boundary that samples only unmasked tokens. */
  predicate Guarded(vocab: seq<Token>, ids: seq<int>) {
    |ids| > 0 ==>
      && Guarded(vocab, ids[..|ids| - 1])
      && Allowed(StateOf(vocab, 0, ids[..|ids| - 1]), Lookup(vocab, ids[|ids| - 1]))
  }

  /** Its text never holds a malformed byte: it is always a prefix of a well-formed string, and well-formed whenever the
      state is a boundary. */
  lemma {:induction false} GuardedTextIsUtf8(vocab: seq<Token>, ids: seq<int>)
    requires Guarded(vocab, ids)
    ensures Run(0, Text(vocab, ids)) == Some(StateOf(vocab, 0, ids))
    ensures exists rest: seq<Byte> :: WellFormed(Text(vocab, ids) + rest)
    ensures StateOf(vocab, 0, ids) == 0 <==> WellFormed(Text(vocab, ids))
  {
    if |ids| > 0 {
      var before, last := ids[..|ids| - 1], ids[|ids| - 1];
      var t := Lookup(vocab, last);
      GuardedTextIsUtf8(vocab, before);
      StateAppends(vocab, before, last);
      assert before + [last] == ids;
      hide StateOf, Run, NextState, WellFormed;
      var s := StateOf(vocab, 0, before);
      if t.Bytes? {
        RunJoins(0, Text(vocab, before), t.data);
        StrictIsNext(s, t.data);
      } else {
        assert Text(vocab, ids) == Text(vocab, before);
      }
    }
    DecoderIsRfc3629(Text(vocab, ids));
  }

  // ---- folding ----

  /** How many leading bytes of a token are tail bytes. */
  function LeadingTails(data: seq<Byte>): (k: nat)
    ensures k <= |data| && (forall i :: 0 <= i < k ==> TailByte(data[i])) && (k < |data| ==> !TailByte(data[k]))
  {
    if |data| == 0 || !TailByte(data[0]) then 0 else 1 + LeadingTails(data[1..])
  }

  datatype Pair = Pair(mixed: nat, prefix: nat, state: State)

  /** A token that completes the character pending at s with its first bytes and opens another one. */
  predicate Mixed(s: State, t: Token) {
    && t.Bytes? && s != 0 && Allowed(s, t) && After(s, t) != 0
    && 0 < LeadingTails(t.data) < |t.data| && Missing(s) == LeadingTails(t.data)
  }

  predicate IsPair(vocab: seq<Token>, p: Pair) {
    && p.mixed < |vocab| && p.prefix < |vocab| && Mixed(p.state, vocab[p.mixed])
    && vocab[p.prefix] == Bytes(vocab[p.mixed].data[..LeadingTails(vocab[p.mixed].data)])
  }

  predicate AllPairs(vocab: seq<Token>, pairs: seq<Pair>) {
    forall i :: 0 <= i < |pairs| ==> IsPair(vocab, pairs[i])
  }

  predicate InRow(pairs: seq<Pair>, n: nat) {
    forall i :: 0 <= i < |pairs| ==> pairs[i].mixed < n && pairs[i].prefix < n
  }

  /** The completing bytes of every mixed token are a token of their own, and the list of pairs holds them all. */
  ghost predicate Foldable(vocab: seq<Token>, pairs: seq<Pair>) {
    && AllPairs(vocab, pairs) && InRow(pairs, |vocab|)
    && (forall v, s :: 0 <= v < |vocab| && Mixed(s, vocab[v]) ==>
      exists i :: 0 <= i < |pairs| && pairs[i].mixed == v && pairs[i].state == s)
  }

  lemma {:induction false} LeadingRun(s: State, data: seq<Byte>, k: nat)
    requires Run(s, data).Some? && k <= Missing(s) && k <= |data|
    ensures Run(s, data[..k]).Some? && Missing(Run(s, data[..k]).value) == Missing(s) - k
    ensures forall i :: 0 <= i < k ==> TailByte(data[i])
    decreases k
  {
    if k > 0 {
      LeadingRun(StrictStep(s, data[0]).value, data[1..], k - 1);
      assert data[..k][1..] == data[1..][..k - 1];
      assert forall i :: 1 <= i < k ==> data[i] == data[1..][i - 1];
    }
  }

  /** A pair's completing token is allowed where the mixed one is, and leads to a boundary. */
  lemma PrefixCompletes(vocab: seq<Token>, p: Pair)
    requires IsPair(vocab, p)
    ensures Allowed(p.state, vocab[p.prefix]) && After(p.state, vocab[p.prefix]) == 0 && p.prefix != p.mixed
  {
    var d, k := vocab[p.mixed].data, LeadingTails(vocab[p.mixed].data);
    LeadingRun(p.state, d, k);
    StrictIsNext(p.state, d[..k]);
  }

  /** An allowed token that leads from one pending state to another either leaves fewer bytes missing or is mixed. */
  lemma PendingFallsOrMixes(s: State, t: Token)
    requires s != 0 && Allowed(s, t) && t.Bytes? && |t.data| > 0 && After(s, t) != 0
    ensures Missing(After(s, t)) < Missing(s) || Mixed(s, t)
  {
    var d, k := t.data, Missing(s);
    StrictIsNext(s, d);
    if |d| <= k {
      LeadingRun(s, d, |d|);
      assert d[..|d|] == d;
    } else {
      LeadingRun(s, d, k);
      assert d == d[..k] + d[k..];
      RunJoins(s, d[..k], d[k..]);
      assert LeadState(d[k]).Some?;
      assert !TailByte(d[k]);
      TailsAre(d, k);
    }
  }

  lemma {:induction false} TailsAre(data: seq<Byte>, k: nat)
    requires k < |data| && (forall i :: 0 <= i < k ==> TailByte(data[i])) && !TailByte(data[k])
    ensures LeadingTails(data) == k
  {
    if k > 0 { TailsAre(data[1..], k - 1); }
  }

  // ---- one row of logits, as non-negative masses ----

  /** A row of masses: zero stands for a masked logit. */
  ghost predicate Masses(row: seq<real>) {
    forall v :: 0 <= v < |row| ==> row[v] >= 0.0
  }

  ghost function Total(row: seq<real>): real {
    if |row| == 0 then 0.0 else Total(row[..|row| - 1]) + row[|row| - 1]
  }

  /** Some allowed token has a mass. */
  predicate Supported(vocab: seq<Token>, s: State, row: seq<real>) {
    exists v :: 0 <= v < |row| && v < |vocab| && Allowed(s, vocab[v]) && row[v] > 0.0
  }

  /** One pair folded: the mixed token's mass moves to its completing token. */
  function Folded(row: seq<real>, p: Pair): seq<real>
    requires p.mixed < |row| && p.prefix < |row|
  {
    if row[p.mixed] > 0.0 then row[p.prefix := row[p.mixed] + row[p.prefix]][p.mixed := 0.0] else row
  }

  /** The pairs of a state, folded one after the other. */
  function FoldAll(row: seq<real>, pairs: seq<Pair>, s: State): (folded: seq<real>)
    requires InRow(pairs, |row|)
    ensures |folded| == |row|
  {
    if |pairs| == 0 then row
    else
      var before := FoldAll(row, pairs[..|pairs| - 1], s);
      if pairs[|pairs| - 1].state == s then Folded(before, pairs[|pairs| - 1]) else before
  }

  function Masked(vocab: seq<Token>, s: State, row: seq<real>): (masked: seq<real>)
    requires |vocab| == |row|
    ensures |masked| == |row|
  {
    seq(|row|, v requires 0 <= v < |row| => if Allowed(s, vocab[v]) then row[v] else 0.0)
  }

  /** The mask of a boundary row in mode 2 strikes a list of ids: the tokens that are not allowed there, or, if there
      are none, the one entry 0 the list is padded with. */
  predicate Struck(vocab: seq<Token>, v: nat) {
    v < |vocab| && (!Allowed(0, vocab[v]) || (v == 0 && forall u :: 0 <= u < |vocab| ==> Allowed(0, vocab[u])))
  }

  function BoundaryMasked(vocab: seq<Token>, row: seq<real>): (masked: seq<real>)
    requires |vocab| == |row|
    ensures |masked| == |row|
  {
    seq(|row|, v requires 0 <= v < |row| => if Struck(vocab, v) then 0.0 else row[v])
  }

  /** It is the mask of the boundary state if and only if some token is not allowed there, or token 0 has no mass. */
  lemma BoundaryMaskIs(vocab: seq<Token>, row: seq<real>)
    requires |vocab| == |row| > 0
    ensures BoundaryMasked(vocab, row) == Masked(vocab, 0, row) <==>
      row[0] == 0.0 || exists u :: 0 <= u < |vocab| && !Allowed(0, vocab[u])
  {
    if row[0] != 0.0 && forall u :: 0 <= u < |vocab| ==> Allowed(0, vocab[u]) {
      assert Struck(vocab, 0) && BoundaryMasked(vocab, row)[0] != Masked(vocab, 0, row)[0];
    }
  }

  /** What the guard makes of a row: a pending row without support, and in mode 1 a boundary row, is left alone. */
  function GuardedRow(vocab: seq<Token>, pairs: seq<Pair>, s: State, row: seq<real>, mode2: bool): (after: seq<real>)
    requires |vocab| == |row| && InRow(pairs, |row|)
    ensures |after| == |row|
  {
    if s == 0 then (if mode2 then BoundaryMasked(vocab, row) else row)
    else if Supported(vocab, s, row) then Masked(vocab, s, FoldAll(row, pairs, s))
    else row
  }

  lemma {:induction false} TotalUpdate(row: seq<real>, v: nat, x: real)
    requires v < |row|
    ensures Total(row[v := x]) == Total(row) - row[v] + x
  {
    var n := |row| - 1;
    if v < n {
      assert row[v := x][..n] == row[..n][v := x];
      TotalUpdate(row[..n], v, x);
    } else {
      assert row[v := x][..n] == row[..n];
    }
  }

  /** Folding a pair moves mass between two allowed tokens and creates or destroys none. */
  lemma FoldKeepsTotal(row: seq<real>, p: Pair)
    requires p.mixed < |row| && p.prefix < |row| && p.mixed != p.prefix && Masses(row)
    ensures Total(Folded(row, p)) == Total(row) && Masses(Folded(row, p)) && Folded(row, p)[p.mixed] == 0.0
  {
    hide Total;
    if row[p.mixed] > 0.0 {
      var sum := row[p.mixed] + row[p.prefix];
      var mid := row[p.prefix := sum];
      assert mid[p.mixed] == row[p.mixed];
      TotalUpdate(row, p.prefix, sum);
      TotalUpdate(mid, p.mixed, 0.0);
    }
  }

  lemma MaskedFold(vocab: seq<Token>, s: State, row: seq<real>, p: Pair)
    requires |vocab| == |row| && IsPair(vocab, p) && p.state == s
    ensures Masked(vocab, s, Folded(row, p)) == Folded(Masked(vocab, s, row), p)
  {
    PrefixCompletes(vocab, p);
    assert Masked(vocab, s, Folded(row, p)) == Folded(Masked(vocab, s, row), p);
  }

  /** Conservation: the masses after folding and masking sum to the masses the allowed tokens had before. */
  lemma {:induction false} FoldingConserves(vocab: seq<Token>, pairs: seq<Pair>, s: State, row: seq<real>)
    requires |vocab| == |row| && Masses(row) && AllPairs(vocab, pairs) && InRow(pairs, |row|)
    ensures Total(Masked(vocab, s, FoldAll(row, pairs, s))) == Total(Masked(vocab, s, row))
    ensures Masses(FoldAll(row, pairs, s))
  {
    if |pairs| > 0 {
      var p := pairs[|pairs| - 1];
      var before := FoldAll(row, pairs[..|pairs| - 1], s);
      FoldingConserves(vocab, pairs[..|pairs| - 1], s, row);
      if p.state == s {
        assert IsPair(vocab, p);
        PrefixCompletes(vocab, p);
        MaskedFold(vocab, s, before, p);
        FoldKeepsTotal(Masked(vocab, s, before), p);
        FoldKeepsTotal(before, p);
      }
    }
  }

  lemma {:induction false} SomeMass(row: seq<real>)
    requires Masses(row)
    ensures Total(row) >= 0.0
    ensures Total(row) > 0.0 <==> exists v :: 0 <= v < |row| && row[v] > 0.0
  {
    if |row| > 0 {
      var rest := row[..|row| - 1];
      SomeMass(rest);
      assert forall v :: 0 <= v < |rest| ==> rest[v] == row[v];
      assert row[|row| - 1] >= 0.0;
      if row[|row| - 1] > 0.0 { assert exists v :: 0 <= v < |row| && row[v] > 0.0; }
    }
  }

  /** Folding and masking never empty a supported row, and leave mass on allowed tokens only. */
  lemma SupportStays(vocab: seq<Token>, pairs: seq<Pair>, s: State, row: seq<real>)
    requires |vocab| == |row| && Masses(row) && s != 0 && Supported(vocab, s, row)
    requires AllPairs(vocab, pairs) && InRow(pairs, |row|)
    ensures var after := GuardedRow(vocab, pairs, s, row, true);
      && Supported(vocab, s, after) && Total(after) == Total(Masked(vocab, s, row))
      && (forall v :: 0 <= v < |after| && after[v] > 0.0 ==> Allowed(s, vocab[v]))
  {
    FoldingConserves(vocab, pairs, s, row);
    var before, after := Masked(vocab, s, row), GuardedRow(vocab, pairs, s, row, true);
    var v :| 0 <= v < |row| && Allowed(s, vocab[v]) && row[v] > 0.0;
    assert before[v] > 0.0;
    hide FoldAll, Total, Allowed;
    assert Masses(before) && Masses(after);
    SomeMass(before);
    SomeMass(after);
    var u :| 0 <= u < |after| && after[u] > 0.0;
  }

  // ---- a whole run of the two kernels ----

  /** The state the kernel computes: over the window of the committed ids, then over the drafts. */
  function KernelState(vocab: seq<Token>, committed: seq<int>, drafts: seq<int>): State {
    StateOf(vocab, StateOf(vocab, 0, Window(committed)), drafts)
  }

  lemma KernelStateIs(vocab: seq<Token>, committed: seq<int>, drafts: seq<int>)
    requires Solid(vocab)
    ensures KernelState(vocab, committed, drafts) == StateOf(vocab, 0, committed + drafts)
  {
    WindowIsEnough(vocab, committed);
    StateJoins(vocab, 0, committed, drafts);
  }

  /** One sampled token: how many of the ids before it were committed when its row was guarded, the rest being drafts
      that were accepted, and the row's masses. */
  datatype Draw = Draw(committed: nat, row: seq<real>, id: nat)

  function Drawn(draws: seq<Draw>): (ids: seq<int>)
    ensures |ids| == |draws|
  {
    seq(|draws|, i requires 0 <= i < |draws| => draws[i].id)
  }

  /** The id has a mass in its row once the kernels have guarded it in mode 2; a pending row has support. */
  ghost predicate DrawOk(vocab: seq<Token>, pairs: seq<Pair>, before: seq<int>, d: Draw)
    requires InRow(pairs, |vocab|)
  {
    && d.committed <= |before| && |d.row| == |vocab| && Masses(d.row) && d.id < |vocab|
    && var s := KernelState(vocab, before[..d.committed], before[d.committed..]);
      (s != 0 ==> Supported(vocab, s, d.row)) && GuardedRow(vocab, pairs, s, d.row, true)[d.id] > 0.0
  }

  ghost predicate SampledRun(vocab: seq<Token>, pairs: seq<Pair>, draws: seq<Draw>)
    requires InRow(pairs, |vocab|)
  {
    |draws| > 0 ==>
      && SampledRun(vocab, pairs, draws[..|draws| - 1])
      && DrawOk(vocab, pairs, Drawn(draws[..|draws| - 1]), draws[|draws| - 1])
  }

  lemma DrawIsAllowed(vocab: seq<Token>, pairs: seq<Pair>, before: seq<int>, d: Draw)
    requires Solid(vocab) && AllPairs(vocab, pairs) && InRow(pairs, |vocab|) && DrawOk(vocab, pairs, before, d)
    ensures Allowed(StateOf(vocab, 0, before), Lookup(vocab, d.id))
  {
    KernelStateIs(vocab, before[..d.committed], before[d.committed..]);
    assert before[..d.committed] + before[d.committed..] == before;
    var s := StateOf(vocab, 0, before);
    hide StateOf, Allowed, FoldAll, Solid, Total;
    if s != 0 { SupportStays(vocab, pairs, s, d.row); }
  }

  lemma {:induction false} SampledIsGuarded(vocab: seq<Token>, pairs: seq<Pair>, draws: seq<Draw>)
    requires Solid(vocab) && AllPairs(vocab, pairs) && InRow(pairs, |vocab|) && SampledRun(vocab, pairs, draws)
    ensures Guarded(vocab, Drawn(draws))
  {
    if |draws| > 0 {
      var front := draws[..|draws| - 1];
      SampledIsGuarded(vocab, pairs, front);
      hide DrawOk, Solid, AllPairs, StateOf, Allowed;
      DrawIsAllowed(vocab, pairs, Drawn(front), draws[|draws| - 1]);
      assert Drawn(draws)[..|draws| - 1] == Drawn(front);
    }
  }

  /** A mode 2 run from a boundary that samples only ids with a mass in their guarded rows: its text is always a
      prefix of a well-formed string, and well-formed whenever the state is a boundary. */
  lemma SampledTextIsUtf8(vocab: seq<Token>, pairs: seq<Pair>, draws: seq<Draw>)
    requires Solid(vocab) && AllPairs(vocab, pairs) && InRow(pairs, |vocab|) && SampledRun(vocab, pairs, draws)
    ensures exists rest: seq<Byte> :: WellFormed(Text(vocab, Drawn(draws)) + rest)
    ensures StateOf(vocab, 0, Drawn(draws)) == 0 <==> WellFormed(Text(vocab, Drawn(draws)))
  {
    SampledIsGuarded(vocab, pairs, draws);
    GuardedTextIsUtf8(vocab, Drawn(draws));
  }

  // ---- pending runs end ----

  /** A folded mixed token keeps no mass, whatever pairs are folded after it. */
  lemma {:induction false} MixedEmptied(vocab: seq<Token>, pairs: seq<Pair>, s: State, row: seq<real>, i: nat)
    requires |vocab| == |row| && Masses(row) && i < |pairs| && pairs[i].state == s
    requires AllPairs(vocab, pairs) && InRow(pairs, |row|)
    ensures FoldAll(row, pairs, s)[pairs[i].mixed] == 0.0
  {
    hide FoldAll, Total, Masked, IsPair, Folded, Masses;
    var n := |pairs| - 1;
    var front, last, pair := pairs[..n], pairs[n], pairs[i];
    FoldAllStep(vocab, row, pairs, s);
    if i < n {
      assert front[i] == pair;
      MixedEmptied(vocab, front, s, row, i);
    }
    assert IsPair(vocab, pair) && IsPair(vocab, last);
    if last.state == s { FoldedEmpties(vocab, FoldAll(row, front, s), last, pair); }
  }

  lemma FoldAllStep(vocab: seq<Token>, row: seq<real>, pairs: seq<Pair>, s: State)
    requires |vocab| == |row| && |pairs| > 0 && Masses(row) && AllPairs(vocab, pairs) && InRow(pairs, |row|)
    ensures var front, last := pairs[..|pairs| - 1], pairs[|pairs| - 1];
      && Masses(FoldAll(row, front, s))
      && FoldAll(row, pairs, s) == if last.state == s then Folded(FoldAll(row, front, s), last)
        else FoldAll(row, front, s)
  {
    FoldingConserves(vocab, pairs[..|pairs| - 1], s, row);
  }

  lemma FoldedEmpties(vocab: seq<Token>, row: seq<real>, p: Pair, q: Pair)
    requires |vocab| == |row| && Masses(row) && IsPair(vocab, p) && IsPair(vocab, q) && p.state == q.state
    requires p == q || row[q.mixed] == 0.0
    ensures Folded(row, p)[q.mixed] == 0.0
  {
    PrefixCompletes(vocab, p);
  }

  /** With every mixed token foldable, whatever is sampled from a guarded pending row lowers the missing count or
      reaches a boundary. */
  lemma PendingStepFalls(vocab: seq<Token>, pairs: seq<Pair>, s: State, row: seq<real>, v: nat)
    requires Solid(vocab) && |vocab| == |row| && Masses(row) && s != 0 && Supported(vocab, s, row)
      && Foldable(vocab, pairs)
    requires v < |row| && GuardedRow(vocab, pairs, s, row, true)[v] > 0.0
    ensures Missing(After(s, vocab[v])) < Missing(s)
  {
    if After(s, vocab[v]) != 0 {
      PendingFallsOrMixes(s, vocab[v]);
      if Mixed(s, vocab[v]) {
        var i :| 0 <= i < |pairs| && pairs[i].mixed == v && pairs[i].state == s;
        MixedEmptied(vocab, pairs, s, row, i);
      }
    }
  }

  /** One sampled token of a pending run: the guarded row it came from gave it mass. */
  datatype Sample = Sample(row: seq<real>, id: nat)

  /** A run that starts at state s and is pending before each of its samples. */
  ghost predicate PendingRun(vocab: seq<Token>, pairs: seq<Pair>, s: State, run: seq<Sample>)
    requires InRow(pairs, |vocab|)
    decreases |run|
  {
    |run| > 0 ==>
      && s != 0 && |run[0].row| == |vocab| && Masses(run[0].row) && Supported(vocab, s, run[0].row)
      && run[0].id < |vocab| && GuardedRow(vocab, pairs, s, run[0].row, true)[run[0].id] > 0.0
      && PendingRun(vocab, pairs, After(s, vocab[run[0].id]), run[1..])
  }

  /** If every mixed token's completing bytes are a token, a pending run ends within three tokens. */
  lemma {:induction false} PendingRunEnds(vocab: seq<Token>, pairs: seq<Pair>, s: State, run: seq<Sample>)
    requires Solid(vocab) && Foldable(vocab, pairs) && PendingRun(vocab, pairs, s, run)
    ensures |run| <= Missing(s) <= 3
    decreases |run|
  {
    if |run| > 0 {
      PendingStepFalls(vocab, pairs, s, run[0].row, run[0].id);
      hide GuardedRow, Foldable, Solid;
      PendingRunEnds(vocab, pairs, After(s, vocab[run[0].id]), run[1..]);
    }
  }

  // ---- the kernels on one row ----

  /** The support check: a gather over the tokens allowed at the state. */
  method HasSupport(vocab: seq<Token>, s: State, row: array<real>) returns (ok: bool)
    requires row.Length == |vocab|
    ensures ok == Supported(vocab, s, row[..])
  {
    var v := 0;
    while v < row.Length
      invariant 0 <= v <= row.Length
      invariant forall u :: 0 <= u < v ==> !(Allowed(s, vocab[u]) && row[u] > 0.0)
    {
      if Allowed(s, vocab[v]) && row[v] > 0.0 {
        assert row[..][v] > 0.0;
        return true;
      }
      v := v + 1;
    }
    ok := false;
  }

  /** The folding loop. */
  method Fold(pairs: seq<Pair>, s: State, row: array<real>)
    requires InRow(pairs, row.Length)
    modifies row
    ensures row[..] == FoldAll(old(row[..]), pairs, s)
  {
    ghost var start := row[..];
    var f := 0;
    while f < |pairs|
      invariant 0 <= f <= |pairs|
      invariant row[..] == FoldAll(start, pairs[..f], s)
    {
      assert pairs[..f + 1][..f] == pairs[..f];
      var p := pairs[f];
      ghost var before := row[..];
      if p.state == s {
        if row[p.mixed] > 0.0 {
          row[p.prefix] := row[p.mixed] + row[p.prefix];
          row[p.mixed] := 0.0;
        }
        assert row[..] == Folded(before, p);
      }
      f := f + 1;
    }
    assert pairs[..f] == pairs;
  }

  /** The mask, block by block: a token that is not allowed loses its mass, allowed ones are not written. */
  method Mask(vocab: seq<Token>, s: State, row: array<real>)
    requires row.Length == |vocab|
    modifies row
    ensures row[..] == Masked(vocab, s, old(row[..]))
  {
    var v := 0;
    while v < row.Length
      invariant 0 <= v <= row.Length
      invariant forall u :: 0 <= u < v ==> row[u] == if Allowed(s, vocab[u]) then old(row[u]) else 0.0
      invariant forall u :: v <= u < row.Length ==> row[u] == old(row[u])
    {
      if !Allowed(s, vocab[v]) {
        row[v] := 0.0;
      }
      v := v + 1;
    }
  }

  /** The ids a boundary row is struck at. */
  method BoundaryIds(vocab: seq<Token>) returns (ids: seq<nat>)
    requires |vocab| > 0
    ensures forall v :: v in ids <==> Struck(vocab, v)
  {
    ids := [];
    var v := 0;
    while v < |vocab|
      invariant 0 <= v <= |vocab|
      invariant forall u :: u in ids <==> 0 <= u < v && !Allowed(0, vocab[u])
    {
      if !Allowed(0, vocab[v]) {
        ids := ids + [v];
      }
      v := v + 1;
    }
    assert forall u :: 0 <= u < |vocab| && !Allowed(0, vocab[u]) ==> u in ids;
    if ids == [] {
      ids := [0];
    } else {
      assert ids[0] in ids && !Allowed(0, vocab[ids[0]]);
    }
  }

  /** The scatter of a boundary row. */
  method Strike(vocab: seq<Token>, ids: seq<nat>, row: array<real>)
    requires row.Length == |vocab| && forall v :: v in ids <==> Struck(vocab, v)
    modifies row
    ensures row[..] == BoundaryMasked(vocab, old(row[..]))
  {
    var i := 0;
    while i < |ids|
      invariant 0 <= i <= |ids|
      invariant forall v :: 0 <= v < row.Length ==> row[v] == if v in ids[..i] then 0.0 else old(row[v])
    {
      assert ids[i] in ids && ids[..i + 1] == ids[..i] + [ids[i]];
      row[ids[i]] := 0.0;
      i := i + 1;
    }
    assert ids[..i] == ids;
  }

  /** Both kernels on one row of a sampled request. conflict tells of a pending row no allowed token has mass in. */
  method Guard(vocab: seq<Token>, pairs: seq<Pair>, s: State, row: array<real>, mode2: bool) returns (conflict: bool)
    requires row.Length == |vocab| > 0 && InRow(pairs, row.Length)
    modifies row
    ensures row[..] == GuardedRow(vocab, pairs, s, old(row[..]), mode2)
    ensures conflict == (s != 0 && !Supported(vocab, s, old(row[..])))
  {
    conflict := false;
    if s != 0 {
      var ok := HasSupport(vocab, s, row);
      if ok {
        Fold(pairs, s, row);
        Mask(vocab, s, row);
      } else {
        conflict := true;
      }
    } else if mode2 {
      var ids := BoundaryIds(vocab);
      Strike(vocab, ids, row);
    }
  }

  /** An id of a token with these bytes. */
  function IdOf(vocab: seq<Token>, data: seq<Byte>): (id: Option<nat>)
    ensures id.Some? ==> id.value < |vocab| && vocab[id.value] == Bytes(data)
    ensures id.None? ==> forall v :: 0 <= v < |vocab| ==> vocab[v] != Bytes(data)
  {
    if |vocab| == 0 then None
    else
      var before := IdOf(vocab[..|vocab| - 1], data);
      if before.Some? then before else if vocab[|vocab| - 1] == Bytes(data) then Some(|vocab| - 1) else None
  }

  /** The completing bytes of a token mixed at s. */
  function Completing(t: Token): seq<Byte>
    requires t.Bytes?
  {
    t.data[..LeadingTails(t.data)]
  }

  /** The pairs of a vocabulary: exactly the mixed tokens whose completing bytes are a token. */
  method FoldPairs(vocab: seq<Token>) returns (pairs: seq<Pair>)
    ensures AllPairs(vocab, pairs) && InRow(pairs, |vocab|)
    ensures forall v, s :: 0 <= v < |vocab| && Mixed(s, vocab[v]) && IdOf(vocab, Completing(vocab[v])).Some? ==>
      HasPair(pairs, v, s)
    ensures Foldable(vocab, pairs) <==> forall v, s :: 0 <= v < |vocab| && Mixed(s, vocab[v]) ==>
      IdOf(vocab, Completing(vocab[v])).Some?
  {
    pairs := [];
    var v := 0;
    while v < |vocab|
      invariant 0 <= v <= |vocab| && AllPairs(vocab, pairs) && InRow(pairs, |vocab|)
      invariant forall u, s :: 0 <= u < v && Mixed(s, vocab[u]) && IdOf(vocab, Completing(vocab[u])).Some? ==>
        HasPair(pairs, u, s)
    {
      hide Mixed;
      pairs := PairsOf(vocab, v, pairs);
      v := v + 1;
    }
    FoldableIff(vocab, pairs);
  }

  predicate HasPair(pairs: seq<Pair>, v: nat, s: State) {
    exists i :: 0 <= i < |pairs| && pairs[i].mixed == v && pairs[i].state == s
  }

  /** The states of one token. */
  method PairsOf(vocab: seq<Token>, v: nat, before: seq<Pair>) returns (pairs: seq<Pair>)
    requires v < |vocab| && AllPairs(vocab, before) && InRow(before, |vocab|)
    ensures AllPairs(vocab, pairs) && InRow(pairs, |vocab|) && before <= pairs
    ensures forall s :: Mixed(s, vocab[v]) && IdOf(vocab, Completing(vocab[v])).Some? ==> HasPair(pairs, v, s)
    ensures forall u, s :: HasPair(before, u, s) ==> HasPair(pairs, u, s)
  {
    pairs := before;
    if vocab[v].NoBytes? {
      return;
    }
    var id := IdOf(vocab, Completing(vocab[v]));
    var s := 1;
    while s < 8
      invariant 1 <= s <= 8 && AllPairs(vocab, pairs) && InRow(pairs, |vocab|) && before <= pairs
      invariant forall r: State :: r < s && Mixed(r, vocab[v]) && id.Some? ==> HasPair(pairs, v, r)
    {
      if Mixed(s, vocab[v]) && id.Some? {
        var grown := pairs + [Pair(v, id.value, s)];
        assert grown[|pairs|] == Pair(v, id.value, s);
        forall r: State | HasPair(pairs, v, r)
          ensures HasPair(grown, v, r)
        {
          var i :| 0 <= i < |pairs| && pairs[i].mixed == v && pairs[i].state == r;
          assert grown[i] == pairs[i];
        }
        pairs := grown;
      }
      s := s + 1;
    }
    forall u, r | HasPair(before, u, r)
      ensures HasPair(pairs, u, r)
    {
      var i :| 0 <= i < |before| && before[i].mixed == u && before[i].state == r;
      assert pairs[i] == before[i];
    }
  }

  lemma FoldableIff(vocab: seq<Token>, pairs: seq<Pair>)
    requires AllPairs(vocab, pairs) && InRow(pairs, |vocab|)
    requires forall v, s :: 0 <= v < |vocab| && Mixed(s, vocab[v]) && IdOf(vocab, Completing(vocab[v])).Some? ==>
      HasPair(pairs, v, s)
    ensures Foldable(vocab, pairs) <==> forall v, s :: 0 <= v < |vocab| && Mixed(s, vocab[v]) ==>
      IdOf(vocab, Completing(vocab[v])).Some?
  {
    if Foldable(vocab, pairs) {
      forall v, s | 0 <= v < |vocab| && Mixed(s, vocab[v])
        ensures IdOf(vocab, Completing(vocab[v])).Some?
      {
        var i :| 0 <= i < |pairs| && pairs[i].mixed == v && pairs[i].state == s;
        assert IsPair(vocab, pairs[i]);
      }
    }
  }
}
