// internal/executor/config.go: the delay before a batch is tried again.
module Backoff {
  // time.Duration: 64-bit nanoseconds. Every operation of the method is checked to stay in range.
  newtype Duration = x: int | -0x8000_0000_0000_0000 <= x < 0x8000_0000_0000_0000

  function Doubled(initial: nat, times: nat): nat {
    if times == 0 then initial else 2 * Doubled(initial, times - 1)
  }

  // The doubling stops at the first value from half the maximum on.
  function Climb(value: nat, maximum: nat, times: nat): nat
    decreases times
  {
    if times == 0 then value
    else if value >= maximum / 2 then maximum
    else Climb(2 * value, maximum, times - 1)
  }

  function Delay(initial: nat, maximum: nat, attempt: int): nat {
    if attempt <= 1 then initial else Climb(initial, maximum, attempt - 1)
  }

  // `attempt` is a Go int. The configuration guarantees the precondition.
  method BatchBackoff(initial: Duration, maximum: Duration, attempt: int) returns (delay: Duration)
    requires 0 < initial <= maximum
    ensures delay as int == Delay(initial as nat, maximum as nat, attempt)
  {
    if attempt <= 1 { return initial; }
    var value := initial;
    for k := 0 to attempt - 1
      invariant 0 < value <= maximum
      invariant Climb(value as nat, maximum as nat, attempt - 1 - k) == Climb(initial as nat, maximum as nat,
          attempt - 1)
    {
      if value >= maximum / 2 { return maximum; }
      value := value * 2;
    }
    delay := value;
  }

  function Min(a: nat, b: nat): nat { if a < b then a else b }

  lemma {:induction false} DoubledGrows(initial: nat, j: nat, k: nat)
    requires initial > 0 && j < k
    ensures 2 * Doubled(initial, j) <= Doubled(initial, k) && Doubled(initial, j) < Doubled(initial, k)
    decreases k
  {
    if j < k - 1 { DoubledGrows(initial, j, k - 1); }
    DoubledIsPositive(initial, k - 1);
  }

  lemma {:induction false} DoubledIsPositive(initial: nat, k: nat)
    requires initial > 0
    ensures Doubled(initial, k) > 0
  {
    if k > 0 { DoubledIsPositive(initial, k - 1); }
  }

  lemma {:induction false} DoubleFirst(initial: nat, times: nat)
    ensures Doubled(2 * initial, times) == 2 * Doubled(initial, times)
  {
    if times > 0 { DoubleFirst(initial, times - 1); }
  }

  // The climb is the capped doubling, except one short of the maximum, where it has already stopped.
  lemma {:induction false} ClimbIsCappedDoubling(value: nat, maximum: nat, times: nat)
    requires 0 < value <= maximum
    ensures Climb(value, maximum, times) ==
      if times > 0 && Doubled(value, times) == maximum - 1 then maximum else Min(Doubled(value, times), maximum)
    decreases times
  {
    if times > 0 {
      if value >= maximum / 2 {
        DoubledGrows(value, 0, times);
      } else {
        ClimbIsCappedDoubling(2 * value, maximum, times - 1);
        DoubleFirst(value, times - 1);
      }
    }
  }

  // The delay is min(initial * 2^(attempt-1), maximum), except when that power is exactly one
  // nanosecond short of the maximum and some doubling happened: then it is the maximum itself.
  lemma {:induction false} DelayIsCappedDoubling(initial: nat, maximum: nat, attempt: int)
    requires 0 < initial <= maximum && attempt >= 1
    ensures Delay(initial, maximum, attempt) == Min(Doubled(initial, attempt - 1), maximum) <==>
      !(attempt >= 2 && Doubled(initial, attempt - 1) == maximum - 1)
    ensures maximum % 2 == 0 ==> Delay(initial, maximum, attempt) == Min(Doubled(initial, attempt - 1), maximum)
  {
    ClimbIsCappedDoubling(initial, maximum, attempt - 1);
  }

  // The exception occurs: from 1 with a maximum of 3, the second attempt waits 3 and not 2.
  lemma {:induction false} OddMaximumException()
    ensures Delay(1, 3, 2) == 3 && Min(Doubled(1, 1), 3) == 2
  {
    assert Doubled(1, 0) == 1;
  }

  // Within the configured bounds, and never shorter for a later attempt.
  lemma {:induction false} DelayIsBoundedAndMonotone(initial: nat, maximum: nat, attempt: int, later: int)
    requires 0 < initial <= maximum && attempt <= later
    ensures initial <= Delay(initial, maximum, attempt) <= Delay(initial, maximum, later) <= maximum
  {
    var j, k := if attempt <= 1 then 0 else attempt - 1, if later <= 1 then 0 else later - 1;
    ClimbIsCappedDoubling(initial, maximum, j);
    ClimbIsCappedDoubling(initial, maximum, k);
    if j > 0 { DoubledGrows(initial, 0, j); }
    if k > 0 { DoubledGrows(initial, 0, k); }
    if j < k { DoubledGrows(initial, j, k); }
  }
}
