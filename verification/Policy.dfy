/** The decode policy: which proposal length a turn uses, and why every shape it names was captured. */
module Policy {
  import S = Saturation

  type Id = nat

  datatype Mode = ModeOff | Forced | Ema | Cost | Ema4 | Saturating
  datatype Scope = ScopeOff | C1C2 | All

  /** The two capture axes are sorted, unique and within the geometry, and the native proposal length is captured. */
  datatype Settings = Settings(mode: Mode, forcedK: nat, scope: Scope, maxRequests: nat, maxK: nat, requests: seq<nat>,
    ks: seq<nat>)

  predicate Axis(values: seq<nat>, limit: nat) {
    && |values| > 0
    && (forall i :: 0 <= i < |values| ==> 1 <= values[i] <= limit)
    && (forall i, j :: 0 <= i < j < |values| ==> values[i] < values[j])
  }

  predicate UpTo(values: seq<nat>, n: nat) {
    |values| == n && forall i :: 0 <= i < n ==> values[i] == i + 1
  }

  /** What the settings' own validation lets through. */
  predicate ValidSettings(s: Settings) {
    && s.maxRequests >= 1 && s.maxK >= 1
    && Axis(s.requests, s.maxRequests) && Axis(s.ks, s.maxK) && s.maxK in s.ks
    && 1 <= s.forcedK <= s.maxK
    && (s.mode.Forced? ==> s.forcedK in s.ks)
    && (s.mode.Ema4? || s.mode.Saturating? ==>
          s.maxK == 7 && s.scope.All? && s.forcedK == 7 && UpTo(s.requests, s.maxRequests) && UpTo(s.ks, 7))
    && (s.mode.Cost? ==> s.maxK == 4 && s.maxRequests <= 6 && UpTo(s.ks, 4))
    && (!s.mode.ModeOff? ==> !s.scope.ScopeOff?)
  }

  datatype Shape = Shape(concurrency: nat, k: nat)

  /** The lengths captured at a concurrency. */
  function CapturedKs(s: Settings, c: nat): seq<nat> {
    if c in s.requests && (s.scope.All? || (s.scope.C1C2? && c <= 2)) then s.ks else [s.maxK]
  }

  function ShapesAt(s: Settings, c: nat, ks: seq<nat>): (shapes: seq<Shape>)
    ensures forall x :: x in shapes <==> x.concurrency == c && x.k in ks
  {
    if |ks| == 0 then []
    else
      assert ks == ks[..|ks| - 1] + [ks[|ks| - 1]];
      ShapesAt(s, c, ks[..|ks| - 1]) + [Shape(c, ks[|ks| - 1])]
  }

  function ShapesTo(s: Settings, n: nat): (shapes: seq<Shape>)
    ensures forall x :: x in shapes <==> 1 <= x.concurrency <= n && x.k in CapturedKs(s, x.concurrency)
  {
    if n == 0 then [] else ShapesTo(s, n - 1) + ShapesAt(s, n, CapturedKs(s, n))
  }

  /** Everything that is captured. */
  function DecodeShapes(s: Settings): seq<Shape> {
    ShapesTo(s, s.maxRequests)
  }

  datatype Option<T> = None | Some(value: T)

  datatype Decision = Decision(k: nat, shape: Option<Shape>)

  function Result(s: Settings, c: nat, k: nat): Decision {
    Decision(k, if 1 <= c <= s.maxRequests then Some(Shape(c, k)) else None)
  }

  predicate Captured(s: Settings, d: Decision) {
    d.shape.Some? ==> d.shape.value in DecodeShapes(s)
  }

  /** The native length is captured at every concurrency. */
  lemma NativeIsCaptured(s: Settings, c: nat)
    requires ValidSettings(s)
    ensures Captured(s, Result(s, c, s.maxK))
  {
  }

  /** What is captured, shape by shape: the native length everywhere, the others where the scope reaches. */
  lemma ShapesAre(s: Settings, c: nat, k: nat)
    requires ValidSettings(s)
    ensures Shape(c, k) in DecodeShapes(s) <==>
      && 1 <= c <= s.maxRequests
      && (k == s.maxK || (k in s.ks && c in s.requests && (s.scope.All? || (s.scope.C1C2? && c <= 2))))
  {
    assert Shape(c, k) in DecodeShapes(s) <==> 1 <= c <= s.maxRequests && k in CapturedKs(s, c);
  }

  function OneTo(n: nat): (values: seq<nat>)
    ensures UpTo(values, n) && (n > 0 ==> n in values && Axis(values, n))
  {
    var values := seq(n, (i: nat) => i + 1);
    assert n > 0 ==> values[n - 1] == n;
    values
  }

  /** The settings each mode is meant for pass the validation: growth and its baseline over seven tokens, a forced
      length among the captured ones, costs over four tokens and at most six requests. */
  lemma GrowthIsValid(maxRequests: nat, growing: bool)
    requires maxRequests >= 1
    ensures ValidSettings(
              Settings(if growing then Saturating else Ema4, 7, All, maxRequests, 7, OneTo(maxRequests), OneTo(7)))
  {
  }

  lemma ForcedIsValid(maxRequests: nat, maxK: nat, forcedK: nat, few: bool)
    requires maxRequests >= 1 && 1 <= forcedK <= maxK
    ensures ValidSettings(
              Settings(Forced, forcedK, if few then C1C2 else All, maxRequests, maxK, OneTo(maxRequests), OneTo(maxK)))
  {
    assert OneTo(maxK)[forcedK - 1] == forcedK;
  }

  lemma CostIsValid(maxRequests: nat)
    requires 1 <= maxRequests <= 6
    ensures ValidSettings(Settings(Cost, 4, All, maxRequests, 4, OneTo(maxRequests), OneTo(4)))
  {
  }

  datatype History = History(steps: nat, ema: real)

  function Ceil(x: real): int {
    -((-x).Floor)
  }

  function Clamp(k: int, maxK: nat): nat
    requires maxK >= 1
  {
    if k < 1 then 1 else if k > maxK then maxK else k
  }

  /** The least captured length that is long enough. */
  method Round(ks: seq<nat>, desired: nat) returns (k: nat)
    requires exists i :: 0 <= i < |ks| && ks[i] >= desired
    ensures k in ks && k >= desired
    ensures exists i :: 0 <= i < |ks| && ks[i] == k && forall j :: 0 <= j < i ==> ks[j] < desired
  {
    var i := 0;
    while ks[i] < desired
      invariant 0 <= i < |ks| && forall j :: 0 <= j < i ==> ks[j] < desired
      decreases |ks| - i
    {
      i := i + 1;
    }
    k := ks[i];
  }

  // ---- hysteresis ----

  /** The length in use, the other length last asked for, and how often in a row. */
  datatype Band = Band(current: nat, pending: nat, count: nat)

  function Fresh(maxK: nat): Band {
    Band(maxK, maxK, 0)
  }

  function Turned(b: Band, want: nat): Band {
    if want == b.current then b.(count := 0)
    else
      var count := if want == b.pending then b.count + 1 else 1;
      if count >= 4 then Band(want, want, 0) else Band(b.current, want, count)
  }

  function Asked(maxK: nat, wants: seq<nat>): Band {
    if |wants| == 0 then Fresh(maxK) else Turned(Asked(maxK, wants[..|wants| - 1]), wants[|wants| - 1])
  }

  /** The last n lengths asked for are all w. */
  predicate Lately(wants: seq<nat>, w: nat, n: nat) {
    n <= |wants| && forall i :: |wants| - n <= i < |wants| ==> wants[i] == w
  }

  /** The count is the length of the run of equal requests for a length not in use, never as much as four. */
  lemma {:induction false} CountIsRun(maxK: nat, wants: seq<nat>)
    ensures var b := Asked(maxK, wants);
      && b.count < 4 && Lately(wants, b.pending, b.count) && (b.count > 0 ==> b.pending != b.current)
      && forall w, n :: w != b.current && n > 0 && Lately(wants, w, n) ==> w == b.pending && n <= b.count
  {
    if |wants| > 0 {
      var before := wants[..|wants| - 1];
      CountIsRun(maxK, before);
      forall w, n | w != Asked(maxK, wants).current && n > 0 && Lately(wants, w, n)
        ensures w == Asked(maxK, wants).pending && n <= Asked(maxK, wants).count
      {
        assert Lately(before, w, n - 1);
      }
    }
  }

  /** The length in use moves to another one exactly when the last four turns asked for that one. */
  lemma {:induction false} FourTurnsMove(maxK: nat, wants: seq<nat>, want: nat)
    ensures var was, now := Asked(maxK, wants).current, Asked(maxK, wants + [want]).current;
      now == if Lately(wants + [want], want, 4) then want else was
  {
    var all := wants + [want];
    assert all[..|all| - 1] == wants;
    CountIsRun(maxK, wants);
    CountIsRun(maxK, all);
    if Lately(all, want, 4) { assert Lately(wants, want, 3); }
  }

  /** One more than the acceptance of the member with the longest, rounded up, between 1 and the native length. */
  ghost predicate IsLongest(s: Settings, requests: map<Id, History>, batch: seq<Id>, desired: nat)
  {
    && 1 <= desired <= s.maxK
    && (desired < s.maxK ==> forall r :: r in batch && r in requests ==> requests[r].ema + 1.0 <= desired as real)
    && (desired > 1 ==> exists r :: r in batch && r in requests && requests[r].ema + 1.0 > (desired - 1) as real)
  }

  /** k is the least captured length of at least the desired one. */
  predicate RoundsTo(ks: seq<nat>, desired: nat, k: nat) {
    k in ks && k >= desired && forall x :: x in ks && x >= desired ==> x >= k
  }

  lemma FirstIsLeast(ks: seq<nat>, limit: nat, desired: nat, k: nat)
    requires Axis(ks, limit)
    requires exists i :: 0 <= i < |ks| && ks[i] == k >= desired && forall j :: 0 <= j < i ==> ks[j] < desired
    ensures RoundsTo(ks, desired, k)
  {
  }

  /** The hysteresis after a length was asked for. */
  ghost predicate Steered(ks: seq<nat>, was: Band, desired: nat, now: Band) {
    exists want :: RoundsTo(ks, desired, want) && now == Turned(was, want)
  }

  /** The hysteresis after the length the members' acceptance asks for. */
  ghost predicate Followed(s: Settings, requests: map<Id, History>, batch: seq<Id>, was: Band, now: Band) {
    exists desired: nat :: IsLongest(s, requests, batch, desired) && Steered(s.ks, was, desired, now)
  }

  /** Members without a history get one that assumes full acceptance; the others keep theirs. */
  ghost predicate Joined(was: map<Id, History>, now: map<Id, History>, batch: seq<Id>, maxK: nat) {
    && (forall r :: r in now <==> r in was || r in batch)
    && forall r :: r in now ==> now[r] == if r in was then was[r] else History(0, maxK as real)
  }

  /** The policy without extension. */
  class Base {
    const settings: Settings
    var requests: map<Id, History>
    var currentK: nat
    var pendingK: nat
    var pendingCount: nat
    var steps: nat
    var members: seq<Id>

    predicate Valid()
      reads this
    {
      ValidSettings(settings) && currentK in settings.ks
    }

    /** The state of the hysteresis. */
    function Now(): Band
      reads this
    {
      Band(currentK, pendingK, pendingCount)
    }

    constructor (settings: Settings)
      requires ValidSettings(settings)
      ensures Valid() && this.settings == settings
      ensures requests == map[] && Now() == Fresh(settings.maxK) && steps == 0 && members == []
    {
      this.settings := settings;
      requests, currentK, pendingK, pendingCount, steps, members := map[], settings.maxK, settings.maxK, 0, 0, [];
    }

    /** The longest length any history asks for. */
    method Longest(batch: seq<Id>) returns (desired: nat)
      requires Valid() && |batch| > 0 && forall r :: r in batch ==> r in requests
      ensures IsLongest(settings, requests, batch, desired)
    {
      desired := Clamp(Ceil(requests[batch[0]].ema + 1.0), settings.maxK);
      var i := 1;
      while i < |batch|
        invariant 1 <= i <= |batch| && 1 <= desired <= settings.maxK
        invariant forall j :: 0 <= j < i ==> Clamp(Ceil(requests[batch[j]].ema + 1.0), settings.maxK) <= desired
        invariant exists j :: 0 <= j < i && Clamp(Ceil(requests[batch[j]].ema + 1.0), settings.maxK) == desired
      {
        var k := Clamp(Ceil(requests[batch[i]].ema + 1.0), settings.maxK);
        if k > desired { desired := k; }
        i := i + 1;
      }
      var j :| 0 <= j < i && Clamp(Ceil(requests[batch[j]].ema + 1.0), settings.maxK) == desired;
      assert batch[j] in batch;
    }

    /** A changed batch starts the hysteresis over. */
    method Enter(batch: seq<Id>)
      requires Valid()
      modifies this`members, this`currentK, this`pendingK, this`pendingCount
      ensures Valid() && members == batch && Now() == if batch == old(members) then old(Now()) else Fresh(settings.maxK)
    {
      if batch != members {
        members, currentK, pendingK, pendingCount := batch, settings.maxK, settings.maxK, 0;
      }
    }

    /** Rounds a length up to a captured one and lets the hysteresis see it. */
    method Steer(desired: nat)
      requires Valid() && desired <= settings.maxK
      modifies this`currentK, this`pendingK, this`pendingCount
      ensures Valid() && Steered(settings.ks, old(Now()), desired, Now())
    {
      var n :| 0 <= n < |settings.ks| && settings.ks[n] == settings.maxK;
      var want := Round(settings.ks, desired);
      FirstIsLeast(settings.ks, settings.maxK, desired, want);
      if want == currentK {
        pendingCount := 0;
      } else {
        pendingCount := if want == pendingK then pendingCount + 1 else 1;
        pendingK := want;
        if pendingCount >= 4 {
          currentK, pendingCount := want, 0;
        }
      }
      assert Now() == Turned(old(Now()), want);
    }

    /** A turn that counts: the native length while a history is short and in every 16th turn, else the length in use
        once the hysteresis has seen the one asked for. */
    method Track(batch: seq<Id>, costLength: Option<nat>) returns (k: nat)
      requires Valid() && (settings.mode.Ema? || settings.mode.Cost?) && |batch| > 0
      requires costLength.Some? ==> 1 <= costLength.value <= 4
      modifies this`requests, this`steps, this`currentK, this`pendingK, this`pendingCount
      ensures Valid() && k in settings.ks
      ensures steps == old(steps) + 1 && Joined(old(requests), requests, batch, settings.maxK)
      ensures (exists r :: r in batch && requests[r].steps < 8) || steps % 16 == 0 ==>
        k == settings.maxK && Now() == old(Now())
      ensures (forall r :: r in batch ==> requests[r].steps >= 8) && steps % 16 != 0 ==>
        if settings.mode.Ema? then k == currentK && Followed(settings, requests, batch, old(Now()), Now())
        else if costLength.None? then k == settings.maxK && Now() == old(Now())
        else k == currentK && Steered(settings.ks, old(Now()), costLength.value, Now())
    {
      requests := requests + (map r | r in batch && r !in requests :: History(0, settings.maxK as real));
      steps := steps + 1;
      if (exists r :: r in batch && requests[r].steps < 8) || steps % 16 == 0 {
        return settings.maxK;
      }
      var desired;
      if settings.mode.Ema? {
        desired := Longest(batch);
      } else {
        if costLength.None? {
          return settings.maxK;
        }
        desired := costLength.value;
      }
      Steer(desired);
      k := currentK;
    }

    /** The length for a batch of sorted request ids. costLength is the length the cost curve prefers, if there is a
        curve for this batch; it is one of 1..4. */
    method Choose(batch: seq<Id>, mixed: bool, costLength: Option<nat>) returns (d: Decision)
      requires Valid() && settings.mode in {ModeOff, Forced, Ema, Cost}
      requires costLength.Some? ==> 1 <= costLength.value <= 4
      modifies this
      ensures Valid() && Captured(settings, d) && d.k in settings.ks
      ensures d.shape == if 1 <= |batch| <= settings.maxRequests then Some(Shape(|batch|, d.k)) else None
      // out of scope: the native length, and nothing learned
      ensures (settings.mode.ModeOff? || mixed || !(1 <= |batch| <= settings.maxRequests)
               || |batch| !in settings.requests || (settings.scope.C1C2? && |batch| > 2)) ==>
        d.k == settings.maxK && unchanged(this)
      // in scope: a changed batch starts the hysteresis over; then a forced length, or a turn that counts
      ensures (!settings.mode.ModeOff? && !mixed && 1 <= |batch| <= settings.maxRequests
               && |batch| in settings.requests && (settings.scope.C1C2? ==> |batch| <= 2)) ==>
          var entered := if batch == old(members) then old(Now()) else Band(settings.maxK, settings.maxK, 0);
          && members == batch
          && if settings.mode.Forced? then
               d.k == settings.forcedK && requests == old(requests) && steps == old(steps) && Now() == entered
             else
               && steps == old(steps) + 1 && Joined(old(requests), requests, batch, settings.maxK)
               && if (exists r :: r in batch && requests[r].steps < 8) || steps % 16 == 0 then
                    d.k == settings.maxK && Now() == entered
                  else if settings.mode.Ema? then
                    d.k == currentK && Followed(settings, requests, batch, entered, Now())
                  else if costLength.None? then d.k == settings.maxK && Now() == entered
                  else d.k == currentK && Steered(settings.ks, entered, costLength.value, Now())
    {
      hide Turned, Followed, Steered;
      var c := |batch|;
      NativeIsCaptured(settings, c);
      if settings.mode.ModeOff? || !(1 <= c <= settings.maxRequests) || mixed {
        return Result(settings, c, settings.maxK);
      }
      if c !in settings.requests || (settings.scope.C1C2? && c > 2) {
        return Result(settings, c, settings.maxK);
      }
      Enter(batch);
      if settings.mode.Forced? {
        return Result(settings, c, settings.forcedK);
      }
      var k := Track(batch, costLength);
      d := Result(settings, c, k);
    }
  }

  /** The settings of the baseline an extended policy runs. */
  function BaselineSettings(s: Settings): Settings {
    Settings(Ema, 4, All, s.maxRequests, 4, seq(s.maxRequests, (i: nat) => i + 1), [1, 2, 3, 4])
  }

  /** The policy with its four-token baseline and the growth beyond it. */
  class Extended {
    const settings: Settings
    const baseline: Base
    const growth: S.SaturationGrowth

    ghost predicate Valid()
      reads this, baseline, growth
    {
      && ValidSettings(settings) && (settings.mode.Ema4? || settings.mode.Saturating?)
      && baseline.Valid() && baseline.settings == BaselineSettings(settings)
      && 4 <= growth.Now().cap <= 7
    }

    constructor (settings: Settings)
      requires ValidSettings(settings) && (settings.mode.Ema4? || settings.mode.Saturating?)
      ensures Valid() && this.settings == settings && fresh(baseline) && fresh(growth)
    {
      this.settings := settings;
      baseline := new Base(BaselineSettings(settings));
      growth := new S.SaturationGrowth();
    }

    /** The length of the four-token baseline. */
    method BaseLength(batch: seq<Id>) returns (k: nat)
      requires Valid() && 1 <= |batch| <= settings.maxRequests
      modifies baseline
      ensures Valid() && 1 <= k <= 4 && baseline.steps == old(baseline.steps) + 1
      ensures forall r :: r in batch ==> r in baseline.requests
      ensures k == if (exists r :: r in batch && baseline.requests[r].steps < 8) || baseline.steps % 16 == 0 then 4
        else baseline.currentK
    {
      assert baseline.settings.requests[|batch| - 1] == |batch|;
      var d := baseline.Choose(batch, false, None);
      k := d.k;
    }

    /** Every shape it names was captured, and its length is the baseline's below 4 and the grown cap from there. */
    method Choose(batch: seq<Id>, mixed: bool) returns (d: Decision)
      requires Valid()
      modifies baseline, growth
      ensures Valid() && Captured(settings, d)
      ensures !(1 <= |batch| <= settings.maxRequests) || mixed ==> d.k == settings.maxK && growth.Now() == S.Reset()
      ensures d.shape == if 1 <= |batch| <= settings.maxRequests then Some(Shape(|batch|, d.k)) else None
      ensures 1 <= |batch| <= settings.maxRequests && !mixed ==>
        && (forall r :: r in batch ==> r in baseline.requests)
        && var base := if (exists r :: r in batch && baseline.requests[r].steps < 8) || baseline.steps % 16 == 0 then 4
          else baseline.currentK;
        && 1 <= base <= 4 && baseline.steps == old(baseline.steps) + 1
        && (settings.mode.Ema4? ==> d.k == base && growth.Now() == old(growth.Now()))
        && (settings.mode.Saturating? ==>
              growth.Now() == S.Chosen(old(growth.Now()), batch, base)
                && d.k == if base < 4 then base else growth.cap)
    {
      var c := |batch|;
      NativeIsCaptured(settings, c);
      if !(1 <= c <= settings.maxRequests) || mixed {
        growth.Clear();
        return Result(settings, c, settings.maxK);
      }
      var base := BaseLength(batch);
      assert settings.requests[c - 1] == c;
      AllLengths(settings, base);
      if settings.mode.Ema4? {
        return Result(settings, c, base);
      }
      var k, reason := growth.Choose(batch, base);
      AllLengths(settings, k);
      d := Result(settings, c, k);
    }
  }

  lemma AllLengths(s: Settings, k: nat)
    requires UpTo(s.ks, 7)
    ensures k in s.ks <==> 1 <= k <= 7
  {
    if 1 <= k <= 7 { assert s.ks[k - 1] == k; }
  }
}
