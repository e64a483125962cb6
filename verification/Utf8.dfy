/** The strict UTF-8 decoder as an eight-state automaton, and section 4 of RFC 3629. */
module Utf8 {
  type Byte = b: int | 0 <= b < 256

  type State = s: int | 0 <= s < 8

  datatype Option<T> = None | Some(value: T)

  predicate In(b: Byte, lo: int, hi: int) {
    lo <= b <= hi
  }

  /** The state after a byte that starts a character. */
  function LeadState(b: Byte): Option<State> {
    if b < 0x80 then Some(0)
    else if In(b, 0xC2, 0xDF) then Some(1)
    else if b == 0xE0 then Some(3)
    else if b == 0xED then Some(4)
    else if In(b, 0xE1, 0xEF) then Some(2)
    else if b == 0xF0 then Some(6)
    else if In(b, 0xF1, 0xF3) then Some(5)
    else if b == 0xF4 then Some(7)
    else None
  }

  function Low(s: State): int {
    if s == 3 then 0xA0 else if s == 6 then 0x90 else 0x80
  }

  function High(s: State): int {
    if s == 4 then 0x9F else if s == 7 then 0x8F else 0xBF
  }

  /** Bytes missing in a pending state. */
  function Missing(s: State): nat {
    if s == 0 then 0 else if s == 1 then 1 else if s <= 4 then 2 else 3
  }

  function StrictStep(s: State, b: Byte): Option<State> {
    if s == 0 then LeadState(b) else if In(b, Low(s), High(s)) then Some(Missing(s) - 1) else None
  }

  /** One byte with resynchronisation: after an error the byte is read again from a boundary. */
  function Feed(s: State, b: Byte): State {
    match StrictStep(s, b)
    case Some(r) => r
    case None => if s != 0 && StrictStep(0, b).Some? then StrictStep(0, b).value else 0
  }

  function Run(s: State, data: seq<Byte>): Option<State>
    decreases |data|
  {
    if |data| == 0 then Some(s)
    else match StrictStep(s, data[0])
      case Some(r) => Run(r, data[1..])
      case None => None
  }

  function NextState(s: State, data: seq<Byte>): State
    decreases |data|
  {
    if |data| == 0 then s else NextState(Feed(s, data[0]), data[1..])
  }

  /** The loop that checks a token. */
  method ValidFrom(s0: State, data: seq<Byte>) returns (ok: bool)
    ensures ok == Run(s0, data).Some?
  {
    var s, i := s0, 0;
    while i < |data|
      invariant 0 <= i <= |data| && Run(s, data[i..]) == Run(s0, data)
    {
      assert data[i..][1..] == data[i + 1..];
      match StrictStep(s, data[i]) {
        case Some(r) => s := r;
        case None => return false;
      }
      i := i + 1;
    }
    ok := true;
  }

  /** The loop that advances a state. */
  method Advance(s0: State, data: seq<Byte>) returns (s: State)
    ensures s == NextState(s0, data)
  {
    s := s0;
    var i := 0;
    while i < |data|
      invariant 0 <= i <= |data| && NextState(s, data[i..]) == NextState(s0, data)
    {
      assert data[i..][1..] == data[i + 1..];
      s := Feed(s, data[i]);
      i := i + 1;
    }
  }

  // ---- section 4 of RFC 3629 ----

  predicate TailByte(b: Byte) {
    In(b, 0x80, 0xBF)
  }

  predicate Utf8One(c: seq<Byte>) {
    |c| == 1 && In(c[0], 0x00, 0x7F)
  }

  predicate Utf8Two(c: seq<Byte>) {
    |c| == 2 && In(c[0], 0xC2, 0xDF) && TailByte(c[1])
  }

  predicate Utf8Three(c: seq<Byte>) {
    |c| == 3 && TailByte(c[2])
    && ((c[0] == 0xE0 && In(c[1], 0xA0, 0xBF)) || (In(c[0], 0xE1, 0xEC) && TailByte(c[1]))
        || (c[0] == 0xED && In(c[1], 0x80, 0x9F)) || (In(c[0], 0xEE, 0xEF) && TailByte(c[1])))
  }

  predicate Utf8Four(c: seq<Byte>) {
    |c| == 4 && TailByte(c[2]) && TailByte(c[3])
    && ((c[0] == 0xF0 && In(c[1], 0x90, 0xBF)) || (In(c[0], 0xF1, 0xF3) && TailByte(c[1]))
        || (c[0] == 0xF4 && In(c[1], 0x80, 0x8F)))
  }

  predicate Utf8Char(c: seq<Byte>) {
    Utf8One(c) || Utf8Two(c) || Utf8Three(c) || Utf8Four(c)
  }

  /** A sequence of characters. */
  predicate WellFormed(data: seq<Byte>)
    decreases |data|
  {
    |data| == 0 || exists n :: 1 <= n <= |data| && Utf8Char(data[..n]) && WellFormed(data[n..])
  }

  // ---- the decoder accepts exactly that ----

  lemma {:induction false} RunJoins(s: State, a: seq<Byte>, b: seq<Byte>)
    ensures Run(s, a + b) == if Run(s, a).Some? then Run(Run(s, a).value, b) else None
    decreases |a|
  {
    if |a| == 0 {
      assert a + b == b;
    } else {
      assert (a + b)[1..] == a[1..] + b;
      if StrictStep(s, a[0]).Some? { RunJoins(StrictStep(s, a[0]).value, a[1..], b); }
    }
  }

  /** Pending bytes: exactly as many tail bytes as are missing, the first in the state's own range. */
  predicate Closes(s: State, rest: seq<Byte>) {
    && |rest| == Missing(s)
    && (|rest| > 0 ==> In(rest[0], Low(s), High(s)))
    && (forall i :: 1 <= i < |rest| ==> TailByte(rest[i]))
  }

  lemma {:induction false} ClosingRuns(s: State, rest: seq<Byte>)
    requires Closes(s, rest)
    ensures Run(s, rest) == Some(0)
    decreases |rest|
  {
    if |rest| > 0 { ClosingRuns(StrictStep(s, rest[0]).value, rest[1..]); }
  }

  /** A run back to a boundary begins by closing what is pending. */
  lemma {:induction false} RunsClose(s: State, data: seq<Byte>)
    requires Run(s, data) == Some(0)
    ensures Missing(s) <= |data| && Closes(s, data[..Missing(s)]) && Run(0, data[Missing(s)..]) == Some(0)
    decreases Missing(s)
  {
    if s != 0 {
      var r := StrictStep(s, data[0]).value;
      RunsClose(r, data[1..]);
      assert data[1..][..Missing(r)] == data[..Missing(s)][1..];
      assert data[1..][Missing(r)..] == data[Missing(s)..];
    }
  }

  /** A character is a lead byte and the bytes that close it. */
  lemma CharSplits(c: seq<Byte>)
    ensures Utf8Char(c) <==> |c| > 0 && LeadState(c[0]).Some? && Closes(LeadState(c[0]).value, c[1..])
  {
  }

  lemma {:induction false} WellFormedRuns(data: seq<Byte>)
    requires WellFormed(data)
    ensures Run(0, data) == Some(0)
    decreases |data|
  {
    if |data| > 0 {
      var n :| 1 <= n <= |data| && Utf8Char(data[..n]) && WellFormed(data[n..]);
      var c := data[..n];
      CharSplits(c);
      ClosingRuns(LeadState(c[0]).value, c[1..]);
      WellFormedRuns(data[n..]);
      RunJoins(0, c, data[n..]);
      assert c + data[n..] == data;
    }
  }

  lemma {:induction false} RunsWellFormed(data: seq<Byte>)
    requires Run(0, data) == Some(0)
    ensures WellFormed(data)
    decreases |data|
  {
    if |data| > 0 {
      var s := LeadState(data[0]).value;
      RunsClose(s, data[1..]);
      var n := 1 + Missing(s);
      assert data[..n][1..] == data[1..][..Missing(s)];
      CharSplits(data[..n]);
      assert data[n..] == data[1..][Missing(s)..];
      RunsWellFormed(data[n..]);
    }
  }

  /** Bytes that close a pending state. */
  function Closing(s: State): (rest: seq<Byte>)
    ensures Closes(s, rest)
  {
    if Missing(s) == 0 then [] else if Missing(s) == 1 then [0x80] else if Missing(s) == 2 then [Low(s), 0x80]
      else [Low(s), 0x80, 0x80]
  }

  /** The decoder stands at a boundary after exactly the byte strings of section 4 of RFC 3629, and runs without an
      error on exactly their prefixes. */
  lemma DecoderIsRfc3629(data: seq<Byte>)
    ensures Run(0, data) == Some(0) <==> WellFormed(data)
    ensures Run(0, data).Some? <==> exists rest: seq<Byte> :: WellFormed(data + rest)
  {
    if WellFormed(data) { WellFormedRuns(data); }
    if Run(0, data) == Some(0) { RunsWellFormed(data); }
    if Run(0, data).Some? {
      var s := Run(0, data).value;
      ClosingRuns(s, Closing(s));
      RunJoins(0, data, Closing(s));
      RunsWellFormed(data + Closing(s));
    }
    if rest: seq<Byte> :| WellFormed(data + rest) {
      WellFormedRuns(data + rest);
      RunJoins(0, data, rest);
    }
  }

  // ---- resynchronisation ----

  /** Without an error both readings agree. */
  lemma {:induction false} StrictIsNext(s: State, data: seq<Byte>)
    requires Run(s, data).Some?
    ensures Run(s, data) == Some(NextState(s, data))
    decreases |data|
  {
    if |data| > 0 { StrictIsNext(StrictStep(s, data[0]).value, data[1..]); }
  }

  /** Reading from a pending state and from a boundary meet, or the pending reading has consumed a missing byte for each
      byte read while the other still stands at the boundary. */
  lemma {:induction false} ReadingsMeet(s: State, data: seq<Byte>)
    ensures NextState(s, data) == NextState(0, data)
         || (NextState(0, data) == 0 && Missing(NextState(s, data)) + |data| == Missing(s))
    decreases |data|
  {
    if |data| > 0 && s != 0 {
      var b := data[0];
      if In(b, Low(s), High(s)) {
        assert LeadState(b).None? && Feed(0, b) == 0;
        ReadingsMeet(Feed(s, b), data[1..]);
      } else {
        assert Feed(s, b) == Feed(0, b);
      }
    }
  }
}
