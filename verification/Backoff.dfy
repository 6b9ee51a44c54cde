/**
  Heal pacing: `healBackoff` under int64 arithmetic (internal/reconciler/reconcile.go:18-21, 377-386) and
  the attempt bookkeeping of `tryHealWith` (reconcile.go:335-397) over whole runs.  Times are nanoseconds.
*/
module Backoff {
  import opened Prelude
  import opened Model

  // ---------------------------------------------------------------- the delay

  const BACKOFF_BASE: int := 15_000_000_000
  const BACKOFF_MAX: int := 300_000_000_000
  const TWO_39: int := 0x80_0000_0000
  const TWO_63: int := 0x8000_0000_0000_0000
  const TWO_64: int := 0x1_0000_0000_0000_0000

  function Pow2(k: nat): (r: nat)
    ensures r >= 1
  {
    if k == 0 then 1 else 2 * Pow2(k - 1)
  }

  /** What is left of `x` in a signed 64-bit register. */
  function Wrap64(x: int): (r: int)
    ensures -TWO_63 <= r < TWO_63
    ensures exists q: int :: r == x - q * TWO_64
  {
    var q := (x + TWO_63) / TWO_64;
    x - q * TWO_64
  }

  /** Go's `x << k` on an int64: whatever leaves the register is lost, and from 64 on nothing is left. */
  function Shl64(x: int, k: nat): int {
    Wrap64(x * Pow2(k))
  }

  /** `healBackoff`. */
  function HealBackoff(attempts: int): int {
    var n: nat := if attempts < 1 then 1 else attempts;
    var d := Shl64(BACKOFF_BASE, n - 1);
    if d > BACKOFF_MAX || d <= 0 then BACKOFF_MAX else d
  }

  lemma {:induction false} Pow2Grows(a: nat, b: nat)
    requires a <= b
    ensures Pow2(a) <= Pow2(b)
  {
    if a < b { Pow2Grows(a, b - 1); }
  }

  lemma {:induction false} Pow2Splits(a: nat, b: nat)
    ensures Pow2(a + b) == Pow2(a) * Pow2(b)
  {
    if b > 0 { Pow2Splits(a, b - 1); }
  }

  lemma WrapIsId(x: int)
    requires -TWO_63 <= x < TWO_63
    ensures Wrap64(x) == x
  {
  }

  /** A wrapped multiple of 2^39 is one still, so it is never both positive and below the cap. */
  lemma WrappedShiftIsNoDelay(k: nat)
    requires k >= 30
    ensures Shl64(BACKOFF_BASE, k) <= 0 || Shl64(BACKOFF_BASE, k) > BACKOFF_MAX
  {
    Pow2Splits(30, k - 30);
    assert Pow2(30) == 0x4000_0000 by { Pow2Thirty(); }
    var x := BACKOFF_BASE * Pow2(k);
    var m := 29296875 * Pow2(k - 30);
    assert x == m * TWO_39;
    var q :| Wrap64(x) == x - q * TWO_64;
    assert Wrap64(x) == (m - q * 0x200_0000) * TWO_39;
  }

  lemma Pow2Thirty()
    ensures Pow2(4) == 16 && Pow2(5) == 32 && Pow2(29) == 0x2000_0000 && Pow2(30) == 0x4000_0000
  {
    assert Pow2(5) == 32;
    Pow2Splits(5, 5);
    Pow2Splits(10, 10);
    Pow2Splits(20, 5);
    Pow2Splits(25, 4);
  }

  /** The delay is min(15s * 2^(n-1), 5min) for every n, wrap-around or not. */
  lemma HealBackoffIs(n: int)
    requires n >= 1
    ensures HealBackoff(n) ==
      if 15_000_000_000 * Pow2(n - 1) < 300_000_000_000 then 15_000_000_000 * Pow2(n - 1) else 300_000_000_000
  {
    Pow2Thirty();
    if n - 1 >= 30 {
      WrappedShiftIsNoDelay(n - 1);
      Pow2Grows(5, n - 1);
    } else {
      Pow2Grows(n - 1, 29);
      WrapIsId(BACKOFF_BASE * Pow2(n - 1));
    }
  }

  lemma HealBackoffGrows(m: int, n: int)
    requires 1 <= m <= n
    ensures BACKOFF_BASE <= HealBackoff(m) <= HealBackoff(n) <= BACKOFF_MAX
  {
    HealBackoffIs(m);
    HealBackoffIs(n);
    Pow2Grows(m - 1, n - 1);
  }

  // ---------------------------------------------------------------- one attempt

  function Entry(heal: map<string, HealState>, app: string): Option<HealState> {
    if app in heal then Some(heal[app]) else None
  }

  function Attempts(h: Option<HealState>): nat {
    match h
    case None => 0
    case Some(hs) => hs.attempts
  }

  /** `tryHealWith` lets an attempt through: the count is not used up and the backoff has elapsed. */
  predicate Allowed(h: Option<HealState>, now: int, max: nat) {
    Attempts(h) < max && (h.Some? ==> now >= h.value.nextEligible)
  }

  function AfterFailure(h: Option<HealState>, now: int): HealState {
    HealState(Attempts(h) + 1, now + HealBackoff(Attempts(h) + 1))
  }

  // ---------------------------------------------------------------- whole runs

  /** What can happen to one app's bookkeeping: an attempt under some limit, a gated call, a reset, or nothing. */
  datatype Beat = Attempt(at: int, ok: bool, max: nat) | Gated | Reset | Idle

  /** A gated call may still create the entry, which counts nothing and delays nothing. */
  ghost predicate BeatStep(h: Option<HealState>, h': Option<HealState>, b: Beat) {
    match b
    case Attempt(at, ok, max) => Allowed(h, at, max) && h' == if ok then None else Some(AfterFailure(h, at))
    case Gated => h' == h || (h.None? && h' == Some(HealState(0, 0)))
    case Reset => h' == None
    case Idle => h' == h
  }

  ghost predicate Beats(hs: seq<Option<HealState>>, bs: seq<Beat>, max: nat) {
    |hs| == |bs| + 1 && hs[0] == None && forall i | 0 <= i < |bs| ::
      BeatStep(hs[i], hs[i + 1], bs[i]) && (bs[i].Attempt? ==> bs[i].max == max)
  }

  predicate Passive(b: Beat) {
    b.Gated? || b.Idle?
  }

  predicate Clears(b: Beat) {
    b.Reset? || (b.Attempt? && b.ok)
  }

  /** How many attempts have failed since the last reset. */
  function Failures(bs: seq<Beat>): nat {
    if bs == [] then 0
    else
      var b := bs[|bs| - 1];
      if Clears(b) then 0
      else Failures(bs[..|bs| - 1]) + (if b.Attempt? then 1 else 0)
  }

  /** The count is the number of failures since the last reset, and never exceeds the maximum. */
  lemma {:induction false} AttemptsAreFailures(hs: seq<Option<HealState>>, bs: seq<Beat>, max: nat, n: nat)
    requires Beats(hs, bs, max) && n < |hs|
    ensures Attempts(hs[n]) == Failures(bs[..n]) <= max
  {
    if n > 0 {
      AttemptsAreFailures(hs, bs, max, n - 1);
      assert bs[..n][..n - 1] == bs[..n - 1];
      assert BeatStep(hs[n - 1], hs[n], bs[n - 1]);
    }
  }

  lemma {:induction false} NothingHappens(hs: seq<Option<HealState>>, bs: seq<Beat>, max: nat, i: nat, j: nat)
    requires Beats(hs, bs, max) && i <= j < |hs| && hs[i].Some?
    requires forall m | i <= m < j :: Passive(bs[m])
    ensures hs[j] == hs[i]
  {
    if i < j {
      NothingHappens(hs, bs, max, i, j - 1);
      assert BeatStep(hs[j - 1], hs[j], bs[j - 1]);
    }
  }

  /**
    Pacing: the attempt after the k-th failure in a row starts at least `healBackoff(k)` after the k-th
    one started, hence at least 15 seconds, whatever the calls in between.
  */
  lemma Paced(hs: seq<Option<HealState>>, bs: seq<Beat>, max: nat, i: nat, j: nat)
    requires Beats(hs, bs, max) && i < j < |bs| && bs[i].Attempt? && !bs[i].ok && bs[j].Attempt?
    requires forall m | i < m < j :: Passive(bs[m])
    ensures var k := Failures(bs[..i + 1]);
      1 <= k && bs[j].at - bs[i].at >= HealBackoff(k) >= BACKOFF_BASE
  {
    AttemptsAreFailures(hs, bs, max, i);
    AttemptsAreFailures(hs, bs, max, i + 1);
    assert BeatStep(hs[i], hs[i + 1], bs[i]);
    NothingHappens(hs, bs, max, i + 1, j);
    assert BeatStep(hs[j], hs[j + 1], bs[j]);
    HealBackoffGrows(Attempts(hs[i + 1]), Attempts(hs[i + 1]));
  }

  /** After the last allowed failure nothing is attempted until something clears the count. */
  lemma {:induction false} GivesUp(hs: seq<Option<HealState>>, bs: seq<Beat>, max: nat, i: nat, j: nat)
    requires Beats(hs, bs, max) && i <= j < |bs| && Failures(bs[..i]) == max
    requires forall m | i <= m < j :: !bs[m].Reset?
    ensures !bs[j].Attempt? && Failures(bs[..j]) == max
    decreases j
  {
    AttemptsAreFailures(hs, bs, max, j);
    assert BeatStep(hs[j], hs[j + 1], bs[j]);
    if i < j {
      GivesUp(hs, bs, max, i, j - 1);
      assert bs[..j][..j - 1] == bs[..j - 1];
    }
  }
}
