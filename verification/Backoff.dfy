/**
 The delay between reconnection attempts: 100 ms doubled per failure, at most 30 s,
 computed in 64-bit arithmetic.
 */
module Backoff {
  import opened Bytes
  import opened Words

  const U32 := 0x1_0000_0000
  const FIRST_DELAY_MS := 100
  const MAX_DELAY_MS := 30000

  function Pow2(r: nat): (p: nat)
    ensures p >= 1
  {
    if r == 0 then 1 else 2 * Pow2(r - 1)
  }

  function Min(a: nat, b: nat): nat {
    if a < b then a else b
  }

  /** The documented delay after `r` failures in a row. */
  function Delay(r: nat): nat {
    Min(FIRST_DELAY_MS * Pow2(r), MAX_DELAY_MS)
  }

  /** The computed delay where overflow is checked; None is the overflow panic. */
  function CheckedDelay(r: nat): Option<nat> {
    if Pow2(r) >= WORD || FIRST_DELAY_MS * Pow2(r) >= WORD then None
    else Some(Min(FIRST_DELAY_MS * Pow2(r), MAX_DELAY_MS))
  }

  /** The computed delay where overflow wraps around. */
  function WrappedDelay(r: nat): nat {
    Min(FIRST_DELAY_MS * (Pow2(r) % WORD) % WORD, MAX_DELAY_MS)
  }

  lemma DoubleFirst(x: nat, y: nat)
    ensures 2 * (x * y) == (2 * x) * y
  {
  }

  lemma {:induction false} Pow2Add(a: nat, b: nat)
    ensures Pow2(a + b) == Pow2(a) * Pow2(b)
  {
    if a == 0 {
    } else {
      Pow2Add(a - 1, b);
      assert Pow2(a + b) == 2 * Pow2(a - 1 + b) && Pow2(a) == 2 * Pow2(a - 1);
      hide Pow2;
      DoubleFirst(Pow2(a - 1), Pow2(b));
    }
  }

  lemma {:induction false} Pow2Monotone(a: nat, b: nat)
    requires a <= b
    ensures Pow2(a) <= Pow2(b)
  {
    if a < b {
      Pow2Monotone(a, b - 1);
    }
  }

  lemma SmallPowers()
    ensures Pow2(1) == 2 && Pow2(8) == 256
  {
  }

  /** The powers where the arithmetic changes its behaviour. */
  lemma Landmarks()
    ensures Pow2(8) == 256 && Pow2(9) == 512
    ensures Pow2(57) == 0x200_0000_0000_0000 && Pow2(58) == 0x400_0000_0000_0000
    ensures Pow2(59) == 0x800_0000_0000_0000 && Pow2(60) == 0x1000_0000_0000_0000
    ensures Pow2(61) == 0x2000_0000_0000_0000 && Pow2(62) == 0x4000_0000_0000_0000
    ensures Pow2(63) == 0x8000_0000_0000_0000 && Pow2(64) == WORD
  {
    hide Pow2;
    SmallPowers();
    Pow2Add(8, 1);
    Pow2Add(8, 8);
    Pow2Add(16, 16);
    Pow2Add(32, 16);
    Pow2Add(48, 8);
    Pow2Add(56, 1);
    Pow2Add(57, 1);
    Pow2Add(58, 1);
    Pow2Add(59, 1);
    Pow2Add(60, 1);
    Pow2Add(61, 1);
    Pow2Add(62, 1);
    Pow2Add(63, 1);
  }

  /** The checked form is overflow-free exactly up to 57 failures, and then it is the documented delay. */
  lemma CheckedDelayIff(r: nat)
    ensures CheckedDelay(r).Some? <==> r <= 57
    ensures r <= 57 ==> CheckedDelay(r) == Some(Delay(r))
  {
    hide Pow2;
    Landmarks();
    if r <= 57 {
      Pow2Monotone(r, 57);
    } else {
      Pow2Monotone(58, r);
    }
  }

  lemma DelayIsCapped(r: nat)
    ensures r >= 9 ==> Delay(r) == MAX_DELAY_MS
    ensures r <= 8 ==> Delay(r) == FIRST_DELAY_MS * Pow2(r)
  {
    hide Pow2;
    Landmarks();
    if r >= 9 {
      Pow2Monotone(9, r);
    } else {
      Pow2Monotone(r, 8);
    }
  }

  /** The wrapping form gives no delay at all from the 62nd failure on. */
  lemma WrappedDelayVanishes(r: nat)
    requires r >= 62
    ensures WrappedDelay(r) == 0
  {
    hide Pow2;
    Landmarks();
    if r < 64 {
      assert r == 62 || r == 63;
    } else {
      Pow2Add(64, r - 64);
      ZeroMod(Pow2(r - 64));
    }
  }

  lemma ZeroMod(k: nat)
    ensures WORD * k % WORD == 0
  {
  }

  /** The wrapping form is the documented delay exactly up to 61 failures. */
  lemma WrappedDelayIff(r: nat)
    ensures WrappedDelay(r) == Delay(r) <==> r <= 61
  {
    hide Pow2;
    Landmarks();
    DelayIsCapped(r);
    if r <= 57 {
      Pow2Monotone(r, 57);
    } else if r <= 61 {
      assert r == 58 || r == 59 || r == 60 || r == 61;
    } else {
      WrappedDelayVanishes(r);
    }
  }

  /** Delays grow, and stay between 100 ms and 30 s. */
  lemma DelayMonotone(a: nat, b: nat)
    requires a <= b
    ensures FIRST_DELAY_MS <= Delay(a) <= Delay(b) <= MAX_DELAY_MS
  {
    Pow2Monotone(a, b);
  }

  /** The time waited over the first `k` failures in a row. */
  function TotalWait(k: nat): nat {
    if k == 0 then 0 else TotalWait(k - 1) + Delay(k - 1)
  }

  lemma {:induction false} TotalWaitExact(k: nat)
    ensures TotalWait(k) == if k <= 9 then 100 * (Pow2(k) - 1) else 51100 + 30000 * (k - 9)
  {
    if k == 0 {
    } else {
      TotalWaitExact(k - 1);
      DelayIsCapped(k - 1);
      Landmarks();
    }
  }

  // ----- the reconnect loop -----

  /** Failures in a row just before attempt `i`; `outcomes` says which attempts succeeded. */
  function FailuresBefore(outcomes: seq<bool>, i: nat): nat
    requires i <= |outcomes|
  {
    if i == 0 || outcomes[i - 1] then 0 else FailuresBefore(outcomes, i - 1) + 1
  }

  /** The delay after attempt `i`, if it failed. */
  function ScheduledDelay(outcomes: seq<bool>, i: nat): Option<nat>
    requires i < |outcomes|
  {
    if outcomes[i] then None else Some(WrappedDelay(FailuresBefore(outcomes, i) % U32))
  }

  method ReconnectDelays(outcomes: seq<bool>) returns (delays: seq<Option<nat>>)
    ensures |delays| == |outcomes|
    ensures forall i :: 0 <= i < |outcomes| ==> delays[i] == ScheduledDelay(outcomes, i)
  {
    delays := [];
    var retry := 0;
    while |delays| < |outcomes|
      invariant |delays| <= |outcomes|
      invariant retry == FailuresBefore(outcomes, |delays|) % U32
      invariant forall i :: 0 <= i < |delays| ==> delays[i] == ScheduledDelay(outcomes, i)
    {
      var i := |delays|;
      if outcomes[i] {
        retry := 0;
        delays := delays + [None];
      } else {
        delays := delays + [Some(WrappedDelay(retry))];
        retry := (retry + 1) % U32;
      }
    }
  }

  lemma FailuresStep(outcomes: seq<bool>, i: nat)
    requires i <= |outcomes|
    ensures FailuresBefore(outcomes, 0) == 0
    ensures i < |outcomes| ==>
      FailuresBefore(outcomes, i + 1) == if outcomes[i] then 0 else FailuresBefore(outcomes, i) + 1
  {
  }

  /**
   The loop where overflow is checked. It panics, at the first such attempt, if and only
   if an attempt fails after more than 57 failures in a row; until then every failed
   attempt is followed by the documented delay.
   */
  method CheckedReconnectDelays(outcomes: seq<bool>) returns (delays: seq<Option<nat>>, panicked: bool)
    ensures |delays| <= |outcomes| && (panicked <==> |delays| < |outcomes|)
    ensures forall i :: 0 <= i < |delays| ==>
      delays[i] == if outcomes[i] then None else Some(Delay(FailuresBefore(outcomes, i)))
    ensures forall i :: 0 <= i < |delays| && !outcomes[i] ==> FailuresBefore(outcomes, i) <= 57
    ensures panicked ==> !outcomes[|delays|] && FailuresBefore(outcomes, |delays|) == 58
    ensures panicked <==> exists i :: 0 <= i < |outcomes| && !outcomes[i] && FailuresBefore(outcomes, i) > 57
  {
    hide CheckedDelay, Delay, FailuresBefore;
    FailuresStep(outcomes, 0);
    delays := [];
    var retry := 0;
    while |delays| < |outcomes|
      invariant |delays| <= |outcomes| && retry == FailuresBefore(outcomes, |delays|) <= 58
      invariant forall i :: 0 <= i < |delays| ==>
        delays[i] == if outcomes[i] then None else Some(Delay(FailuresBefore(outcomes, i)))
      invariant forall i :: 0 <= i < |delays| && !outcomes[i] ==> FailuresBefore(outcomes, i) <= 57
    {
      var i := |delays|;
      FailuresStep(outcomes, i);
      if outcomes[i] {
        retry := 0;
        delays := delays + [None];
      } else {
        CheckedDelayIff(retry);
        var delay := CheckedDelay(retry);
        if delay.None? {
          return delays, true;
        }
        delays := delays + [delay];
        retry := retry + 1;
      }
    }
    panicked := false;
  }

  /** Attempt `i` is followed by the documented delay, if it failed. */
  predicate OnSchedule(outcomes: seq<bool>, i: nat)
    requires i < |outcomes|
  {
    !outcomes[i] ==> ScheduledDelay(outcomes, i) == Some(Delay(FailuresBefore(outcomes, i)))
  }

  lemma {:induction false} RunOfFailures(outcomes: seq<bool>, i: nat, k: nat)
    requires i < |outcomes| && !outcomes[i] && k <= FailuresBefore(outcomes, i)
    ensures var j := i - k;
      j >= 0 && !outcomes[j] && FailuresBefore(outcomes, j) == FailuresBefore(outcomes, i) - k
    decreases k
  {
    if k == 0 {
    } else {
      RunOfFailures(outcomes, i - 1, k - 1);
    }
  }

  /**
   The delay after every failed attempt, where overflow wraps: the counter of failures in a
   row is a 32-bit word, and the delay is the documented one for it up to 61, then 0.
   */
  lemma ScheduledDelayExact(outcomes: seq<bool>, i: nat)
    requires i < |outcomes| && !outcomes[i]
    ensures var r := FailuresBefore(outcomes, i) % 0x1_0000_0000;
      ScheduledDelay(outcomes, i) == Some(if r <= 61 then Delay(r) else 0)
  {
    var r := FailuresBefore(outcomes, i) % U32;
    hide WrappedDelay, Delay, FailuresBefore;
    WrappedDelayIff(r);
    if r > 61 {
      WrappedDelayVanishes(r);
    }
  }

  /** A failure after 62 or more failures in a row puts some attempt off schedule. */
  lemma LateFailureIsOffSchedule(outcomes: seq<bool>, i: nat) returns (j: nat)
    requires i < |outcomes| && !outcomes[i] && FailuresBefore(outcomes, i) >= 62
    ensures j < |outcomes| && !OnSchedule(outcomes, j)
  {
    var k := FailuresBefore(outcomes, i) - 62;
    RunOfFailures(outcomes, i, k);
    j := i - k;
    WrappedDelayIff(62);
    hide WrappedDelay, Delay;
  }

  /**
   Every failed attempt is followed by the documented delay, if and only if there are
   never more than 61 failures in a row before a failure.
   */
  lemma ScheduleIsDocumentedIff(outcomes: seq<bool>)
    ensures (forall i :: 0 <= i < |outcomes| ==> OnSchedule(outcomes, i)) <==>
            (forall i :: 0 <= i < |outcomes| && !outcomes[i] ==> FailuresBefore(outcomes, i) <= 61)
  {
    hide WrappedDelay, Delay;
    forall i | 0 <= i < |outcomes| && !outcomes[i]
      ensures FailuresBefore(outcomes, i) <= 61 ==> OnSchedule(outcomes, i)
      ensures FailuresBefore(outcomes, i) >= 62 ==> exists j :: 0 <= j < |outcomes| && !OnSchedule(outcomes, j)
    {
      WrappedDelayIff(FailuresBefore(outcomes, i));
      if FailuresBefore(outcomes, i) >= 62 {
        var j := LateFailureIsOffSchedule(outcomes, i);
      }
    }
  }
}
