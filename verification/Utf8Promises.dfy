/** What the guard's mask keeps and takes away, told in terms of the text alone: a token keeps its mass exactly if the
    text can still become well-formed UTF-8 after it. */
module Utf8Promises {
  import opened Utf8
  import opened Utf8Guard

  // ---- the state of a history ----

  /** Whatever came before, reading bytes that run without an error from a boundary ends where that run ends. */
  lemma LastRunDecides(s: State, data: seq<Byte>)
    requires |data| > 0 && Run(0, data).Some?
    ensures NextState(s, data) == Run(0, data).value
  {
    assert Feed(s, data[0]) == LeadState(data[0]).value;
    StrictIsNext(0, data);
  }

  lemma {:induction false} NextJoins(s: State, a: seq<Byte>, b: seq<Byte>)
    ensures NextState(s, a + b) == NextState(NextState(s, a), b)
    decreases |a|
  {
    if |a| == 0 {
      assert a + b == b;
    } else {
      assert (a + b)[1..] == a[1..] + b;
      NextJoins(Feed(s, a[0]), a[1..], b);
    }
  }

  /** The resynchronising state of any bytes, malformed ones included: r is pending exactly if some tail of them runs
      from a boundary to r, and otherwise the state is a boundary. */
  lemma PendingIsTail(data: seq<Byte>, r: State)
    requires r != 0
    ensures NextState(0, data) == r <==> exists k :: 0 <= k < |data| && Run(0, data[k..]) == Some(r)
  {
    if k :| 0 <= k < |data| && Run(0, data[k..]) == Some(r) {
      assert data == data[..k] + data[k..];
      NextJoins(0, data[..k], data[k..]);
      LastRunDecides(NextState(0, data[..k]), data[k..]);
    }
    if NextState(0, data) == r {
      var k := PendingTail(data, r);
    }
  }

  lemma {:induction false} PendingTail(data: seq<Byte>, r: State) returns (k: nat)
    requires r != 0 && NextState(0, data) == r
    ensures k < |data| && Run(0, data[k..]) == Some(r)
    decreases |data|
  {
    var n := |data| - 1;
    assert data == data[..n] + [data[n]];
    NextJoins(0, data[..n], [data[n]]);
    var q := NextState(0, data[..n]);
    assert [data[n]][1..] == [];
    assert Feed(q, data[n]) == r;
    if q != 0 && StrictStep(q, data[n]) == Some(r) {
      k := PendingTail(data[..n], q);
      assert data[k..] == data[..n][k..] + [data[n]];
      RunJoins(0, data[..n][k..], [data[n]]);
    } else {
      k := n;
      assert data[k..] == [data[n]];
    }
  }

  // ---- which tokens may follow ----

  ghost predicate CanBecomeWellFormed(data: seq<Byte>) {
    exists rest: seq<Byte> :: WellFormed(data + rest)
  }

  /** A token may follow a text: one with bytes if the text can still become well-formed after them, one without any
      of its own if the text is well-formed as it stands. */
  ghost predicate MayFollow(text: seq<Byte>, t: Token) {
    match t
    case Bytes(data) => CanBecomeWellFormed(text + data)
    case NoBytes => WellFormed(text)
  }

  /** Every token of the history could follow the text before it. */
  ghost predicate Proper(vocab: seq<Token>, ids: seq<int>) {
    |ids| > 0 ==>
      Proper(vocab, ids[..|ids| - 1]) && MayFollow(Text(vocab, ids[..|ids| - 1]), Lookup(vocab, ids[|ids| - 1]))
  }

  lemma AllowedIs(vocab: seq<Token>, ids: seq<int>, t: Token)
    requires Guarded(vocab, ids)
    ensures Allowed(StateOf(vocab, 0, ids), t) <==> MayFollow(Text(vocab, ids), t)
  {
    GuardedTextIsUtf8(vocab, ids);
    var text, s := Text(vocab, ids), StateOf(vocab, 0, ids);
    match t
    case Bytes(data) =>
      RunJoins(0, text, data);
      DecoderIsRfc3629(text + data);
    case NoBytes =>
  }

  /** A guarded history is a proper one. */
  lemma {:induction false} GuardedIsProper(vocab: seq<Token>, ids: seq<int>)
    ensures Guarded(vocab, ids) <==> Proper(vocab, ids)
  {
    if |ids| > 0 {
      var before, last := ids[..|ids| - 1], ids[|ids| - 1];
      GuardedIsProper(vocab, before);
      if Guarded(vocab, before) { AllowedIs(vocab, before, Lookup(vocab, last)); }
    }
  }

  // ---- what the mask keeps ----

  /** Some token that may follow has mass. */
  ghost predicate HasChoice(vocab: seq<Token>, text: seq<Byte>, row: seq<real>) {
    exists v :: 0 <= v < |row| && v < |vocab| && MayFollow(text, vocab[v]) && row[v] > 0.0
  }

  lemma ChoiceIsSupport(vocab: seq<Token>, ids: seq<int>, row: seq<real>)
    requires Guarded(vocab, ids)
    ensures Supported(vocab, StateOf(vocab, 0, ids), row) <==> HasChoice(vocab, Text(vocab, ids), row)
  {
    forall v | 0 <= v < |vocab|
      ensures Allowed(StateOf(vocab, 0, ids), vocab[v]) <==> MayFollow(Text(vocab, ids), vocab[v])
    {
      AllowedIs(vocab, ids, vocab[v]);
    }
    hide Allowed, MayFollow, StateOf, Guarded, Text;
    if HasChoice(vocab, Text(vocab, ids), row) {
      var v :| 0 <= v < |row| && v < |vocab| && MayFollow(Text(vocab, ids), vocab[v]) && row[v] > 0.0;
      assert Allowed(StateOf(vocab, 0, ids), vocab[v]);
    }
    if Supported(vocab, StateOf(vocab, 0, ids), row) {
      var v :| 0 <= v < |row| && v < |vocab| && Allowed(StateOf(vocab, 0, ids), vocab[v]) && row[v] > 0.0;
      assert MayFollow(Text(vocab, ids), vocab[v]);
    }
  }

  /** The mask alone: a token keeps its mass if and only if it may follow the text, and loses it otherwise. */
  lemma MaskKeeps(vocab: seq<Token>, ids: seq<int>, row: seq<real>, v: nat)
    requires Proper(vocab, ids) && |vocab| == |row| && v < |row|
    ensures Masked(vocab, StateOf(vocab, 0, ids), row)[v]
         == if MayFollow(Text(vocab, ids), vocab[v]) then row[v] else 0.0
  {
    GuardedIsProper(vocab, ids);
    AllowedIs(vocab, ids, vocab[v]);
  }

  /** A pair of this state has the token as its mixed or its completing one. */
  predicate Paired(pairs: seq<Pair>, s: State, v: nat) {
    exists i :: 0 <= i < |pairs| && pairs[i].state == s && (pairs[i].mixed == v || pairs[i].prefix == v)
  }

  lemma {:induction false} UnpairedKept(row: seq<real>, pairs: seq<Pair>, s: State, v: nat)
    requires InRow(pairs, |row|) && v < |row| && !Paired(pairs, s, v)
    ensures FoldAll(row, pairs, s)[v] == row[v]
  {
    if |pairs| > 0 {
      var front, last := pairs[..|pairs| - 1], pairs[|pairs| - 1];
      forall i | 0 <= i < |front|
        ensures !(front[i].state == s && (front[i].mixed == v || front[i].prefix == v))
      {
        assert front[i] == pairs[i];
      }
      UnpairedKept(row, front, s, v);
      assert !(last.state == s && (last.mixed == v || last.prefix == v));
    }
  }

  /** The token a boundary row in mode 2 loses although it may follow: id 0, if every token may. */
  ghost predicate PaddedOut(vocab: seq<Token>, text: seq<Byte>, v: nat) {
    v == 0 && forall u :: 0 <= u < |vocab| ==> MayFollow(text, vocab[u])
  }

  lemma BoundaryAllows(vocab: seq<Token>, ids: seq<int>, v: nat)
    requires Proper(vocab, ids) && WellFormed(Text(vocab, ids)) && v < |vocab|
    ensures StateOf(vocab, 0, ids) == 0
    ensures Struck(vocab, v) <==> !MayFollow(Text(vocab, ids), vocab[v]) || PaddedOut(vocab, Text(vocab, ids), v)
  {
    GuardedIsProper(vocab, ids);
    GuardedTextIsUtf8(vocab, ids);
    forall u | 0 <= u < |vocab|
      ensures Allowed(0, vocab[u]) <==> MayFollow(Text(vocab, ids), vocab[u])
    {
      AllowedIs(vocab, ids, vocab[u]);
    }
  }

  /** The case happens: with the one token A, a boundary row in mode 2 loses its only mass. */
  lemma OnlyTokenIsStruck()
    ensures var vocab := [Bytes([0x41])];
      MayFollow([], vocab[0]) && GuardedRow(vocab, [], 0, [1.0], true) == [0.0]
  {
    var vocab := [Bytes([0x41])];
    assert Run(0, [0x41]) == Some(0);
    assert Text(vocab, []) == [];
    AllowedIs(vocab, [], vocab[0]);
    assert Struck(vocab, 0);
  }

  /** A guarded row after a proper history. At a boundary mode 2 keeps exactly the tokens that may follow, the end of
      the text among them and a padded-out id 0 excepted, and mode 1 keeps all. A pending row with a choice keeps
      exactly the tokens that may follow, up to the folding of pairs; one without is left alone. */
  lemma GuardKeeps(vocab: seq<Token>, pairs: seq<Pair>, ids: seq<int>, row: seq<real>, mode2: bool, v: nat)
    requires Proper(vocab, ids) && |vocab| == |row| && v < |row| && InRow(pairs, |row|)
    ensures var text, s, after := Text(vocab, ids), StateOf(vocab, 0, ids),
        GuardedRow(vocab, pairs, StateOf(vocab, 0, ids), row, mode2);
      && (WellFormed(text) ==>
            after[v] == if !mode2 || (MayFollow(text, vocab[v]) && !PaddedOut(vocab, text, v)) then row[v] else 0.0)
      && (!WellFormed(text) && !HasChoice(vocab, text, row) ==> after == row)
      && (!WellFormed(text) && HasChoice(vocab, text, row) && !MayFollow(text, vocab[v]) ==> after[v] == 0.0)
      && (!WellFormed(text) && HasChoice(vocab, text, row) && MayFollow(text, vocab[v]) && !Paired(pairs, s, v) ==>
            after[v] == row[v])
  {
    GuardedIsProper(vocab, ids);
    GuardedTextIsUtf8(vocab, ids);
    AllowedIs(vocab, ids, vocab[v]);
    ChoiceIsSupport(vocab, ids, row);
    var s := StateOf(vocab, 0, ids);
    if !Paired(pairs, s, v) { UnpairedKept(row, pairs, s, v); }
    if WellFormed(Text(vocab, ids)) { BoundaryAllows(vocab, ids, v); }
    hide Struck, PaddedOut, StateOf, Text, Allowed, MayFollow, Supported, HasChoice, FoldAll, Paired, Guarded, Proper,
      WellFormed;
  }

  /** The guard of a row: what it does to each token, and that it reports exactly a pending row without a choice. */
  method GuardAfter(vocab: seq<Token>, pairs: seq<Pair>, committed: seq<int>, drafts: seq<int>, j: nat,
                    row: array<real>, mode2: bool)
    returns (conflict: bool)
    requires Solid(vocab) && row.Length == |vocab| > 0 && InRow(pairs, row.Length) && j <= |drafts|
    requires Proper(vocab, committed + drafts[..j])
    modifies row
    ensures var text := Text(vocab, committed + drafts[..j]);
      && conflict == (!WellFormed(text) && !HasChoice(vocab, text, old(row[..])))
      && (WellFormed(text) && mode2 ==>
            forall v :: 0 <= v < row.Length ==>
              row[v] == if MayFollow(text, vocab[v]) && !PaddedOut(vocab, text, v) then old(row[v]) else 0.0)
      && (conflict || (WellFormed(text) && !mode2) ==> row[..] == old(row[..]))
      && (!WellFormed(text) && !conflict ==>
            forall v :: 0 <= v < row.Length && !MayFollow(text, vocab[v]) ==> row[v] == 0.0)
  {
    ghost var ids, before := committed + drafts[..j], row[..];
    var s := RowState(vocab, committed, drafts, j);
    conflict := Guard(vocab, pairs, s, row, mode2);
    GuardedIsProper(vocab, ids);
    GuardedTextIsUtf8(vocab, ids);
    ChoiceIsSupport(vocab, ids, before);
    hide StateOf, Text, Allowed, MayFollow, Supported, HasChoice, FoldAll, Paired, Guarded, Proper, WellFormed,
      GuardedRow,
      PaddedOut;
    forall v: nat | v < row.Length
      ensures !WellFormed(Text(vocab, ids)) && !conflict && !MayFollow(Text(vocab, ids), vocab[v]) ==> row[v] == 0.0
      ensures WellFormed(Text(vocab, ids)) ==>
        var kept := !mode2 || (MayFollow(Text(vocab, ids), vocab[v]) && !PaddedOut(vocab, Text(vocab, ids), v));
        row[v] == if kept then before[v] else 0.0
      ensures conflict ==> row[v] == before[v]
    {
      GuardKeeps(vocab, pairs, ids, before, mode2, v);
      assert row[v] == row[..][v];
    }
  }
}
