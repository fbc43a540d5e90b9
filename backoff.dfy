/**
 * The reconnect delay shared by the stock and crypto streamers: it starts at one second,
 * doubles after every sleep and never exceeds thirty seconds.
 */
module Backoff {

  /** Delays are whole seconds. */
  const InitialBackoff: nat := 1
  const MaxBackoff: nat := 30

  /** The delay after one more failed attempt: doubled, then capped. */
  function Grow(b: nat): (r: nat)
    ensures b <= MaxBackoff ==> r <= MaxBackoff
    ensures 1 <= b ==> 1 <= r
  {
    if 2 * b > MaxBackoff then MaxBackoff else 2 * b
  }

  /** The delay after `k` failed attempts that started from delay `b`. */
  function GrowN(b: nat, k: nat): (r: nat)
    ensures InitialBackoff <= b <= MaxBackoff ==> InitialBackoff <= r <= MaxBackoff
    decreases k
  {
    if k == 0 then b else GrowN(Grow(b), k - 1)
  }

  /** The delays slept during `k` consecutive failed attempts that start from delay `b`. */
  function Schedule(b: nat, k: nat): (r: seq<nat>)
    ensures |r| == k
    decreases k
  {
    if k == 0 then [] else [b] + Schedule(Grow(b), k - 1)
  }

  function Pow2(i: nat): (r: nat)
    ensures r >= 1
  {
    if i == 0 then 1 else 2 * Pow2(i - 1)
  }

  /** 2^i capped at thirty seconds: the closed form of the backoff sequence. */
  function Capped(i: nat): nat
  {
    if Pow2(i) < MaxBackoff then Pow2(i) else MaxBackoff
  }

  /** The i-th sleep of a streak is the start delay grown i times. */
  lemma {:induction false} ScheduleAt(b: nat, k: nat, i: nat)
    requires i < k
    ensures Schedule(b, k)[i] == GrowN(b, i)
    decreases k
  {
    if i > 0 {
      ScheduleAt(Grow(b), k - 1, i - 1);
    }
  }

  /** Starting from one second, i growths give min(2^i, 30). */
  lemma {:induction false} GrowNFromInitial(i: nat)
    ensures GrowN(InitialBackoff, i) == Capped(i)
  {
    if i > 0 {
      GrowNShift(InitialBackoff, i - 1);
      GrowNFromInitial(i - 1);
      assert Pow2(i) == 2 * Pow2(i - 1);
    }
  }

  /** Growing i+1 times is growing i times and then once more. */
  lemma {:induction false} GrowNShift(b: nat, i: nat)
    ensures GrowN(b, i + 1) == Grow(GrowN(b, i))
    decreases i
  {
    if i > 0 {
      GrowNShift(Grow(b), i - 1);
    }
  }

  /**
   * The delays of a failure streak from one second are 1, 2, 4, 8, 16, 30, 30, ...:
   * the i-th is 2^i capped at thirty, and every delay lies between one and thirty seconds.
   */
  lemma BackoffSequence(k: nat, i: nat)
    requires i < k
    ensures Schedule(InitialBackoff, k)[i] == Capped(i)
    ensures InitialBackoff <= Schedule(InitialBackoff, k)[i] <= MaxBackoff
  {
    ScheduleAt(InitialBackoff, k, i);
    GrowNFromInitial(i);
  }

  /** The first seven delays of a failure streak. */
  lemma FirstSevenDelays()
    ensures Schedule(InitialBackoff, 7) == [1, 2, 4, 8, 16, 30, 30]
  {
  }
}
