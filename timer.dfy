/**
 * TimerAverageOver of include/Timer.h: a ring buffer of the last n frame
 * times with a running sum, sampled on every everyN-th call of Update. The
 * clock is an input (the reading of m_timer.GetTime(), in seconds since the
 * timer started); float arithmetic is exact here.
 */
module Timing {
  import opened GpuTrace

  /** The sum of the samples. */
  function Sum(s: seq<real>): (r: real)
    ensures s == [] ==> r == 0.0
    decreases |s|
  {
    if s == [] then 0.0 else Sum(s[..|s| - 1]) + s[|s| - 1]
  }

  /** Overwriting one sample moves the sum by the difference, which is what keeps the
   *  running sum of Update exact. */
  lemma {:induction false} SumUpdate(s: seq<real>, i: nat, v: real)
    requires i < |s|
    ensures Sum(s[i := v]) == Sum(s) - s[i] + v
    decreases |s|
  {
    var last := |s| - 1;
    assert s[i := v][..last] == if i == last then s[..last] else s[..last][i := v];
    if i < last {
      SumUpdate(s[..last], i, v);
    }
  }

  /** n zero samples sum to zero. */
  lemma {:induction false} SumZeros(n: nat)
    ensures Sum(seq(n, _ => 0.0)) == 0.0
    decreases n
  {
    if n > 0 {
      assert seq(n, _ => 0.0)[..n - 1] == seq(n - 1, _ => 0.0);
      SumZeros(n - 1);
    }
  }

  /** The ring-buffer step (m_averageIndex + 1) % m_values.size(). */
  function Advance(i: nat, n: nat): (r: nat)
    requires i < n
    ensures r < n
    ensures i + 1 < n ==> r == i + 1
    ensures i + 1 == n ==> r == 0
  {
    (i + 1) % n
  }

  /** The index after k recorded samples. */
  function AdvanceBy(i: nat, n: nat, k: nat): (r: nat)
    requires i < n
    ensures r < n
    decreases k
  {
    if k == 0 then i else Advance(AdvanceBy(i, n, k - 1), n)
  }

  /** The index moves by one, modulo the size, per recorded sample. */
  lemma {:induction false} AdvanceByIsModular(i: nat, n: nat, k: nat)
    requires i < n
    ensures AdvanceBy(i, n, k) == (i + k) % n
    decreases k
  {
    if k == 0 {
      ModBase(i, n);
    } else {
      AdvanceByIsModular(i, n, k - 1);
      ModSucc(i + k - 1, n);
    }
  }

  //---------------------------------------------------------------------------
  // Remainders, from the definition of division
  //---------------------------------------------------------------------------

  lemma {:induction false} MulAtLeast(d: int, n: nat)
    requires d >= 1
    ensures d * n >= n
    decreases d
  {
    if d > 1 {
      MulAtLeast(d - 1, n);
      assert d * n == (d - 1) * n + n;
    }
  }

  lemma ModBase(x: nat, n: nat)
    requires x < n
    ensures x % n == x
  {
  }

  /** Subtracting the modulus keeps the remainder: both quotients share it. */
  lemma ModMinus(x: nat, n: nat)
    requires 0 < n <= x
    ensures x % n == (x - n) % n
  {
    var q, r := x / n, x % n;
    var q', r' := (x - n) / n, (x - n) % n;
    var d := q - 1 - q';
    assert d * n == r' - r by {
      assert x == q * n + r;
      assert x - n == q' * n + r';
      assert d * n == q * n - n - q' * n;
    }
    if d >= 1 {
      MulAtLeast(d, n);
    } else if d <= -1 {
      MulAtLeast(-d, n);
    }
  }

  /** The remainder of a successor: one more, or back to zero at the modulus. */
  lemma {:induction false} ModSucc(x: nat, n: nat)
    requires n > 0
    ensures (x + 1) % n == if x % n + 1 == n then 0 else x % n + 1
    decreases x
  {
    if x + 1 < n {
      ModBase(x, n);
      ModBase(x + 1, n);
    } else if x + 1 == n {
      ModBase(x, n);
      ModMinus(x + 1, n);
    } else {
      ModMinus(x, n);
      ModMinus(x + 1, n);
      ModSucc(x - n, n);
    }
  }

  /** Update's test after m_skipCount++: whether this call records a sample. */
  predicate Records(every: nat, count: nat)
    requires count < Two32
  {
    every == Add32(count, 1)
  }

  /** The skip counter after one Update. */
  function NextCount(every: nat, count: nat): (r: nat)
    requires count < Two32
    ensures r < Two32
    ensures r == 0 <==> Records(every, count) || count + 1 == Two32
    ensures r != 0 ==> r == count + 1
  {
    if Records(every, count) then 0 else Add32(count, 1)
  }

  /** The skip counter after k calls of Update. */
  function CountAfter(every: nat, count: nat, k: nat): (r: nat)
    requires count < Two32
    ensures r < Two32
    decreases k
  {
    if k == 0 then count else NextCount(every, CountAfter(every, count, k - 1))
  }

  /** From a counter of zero, call k + 1 records a sample exactly when it is a multiple
   *  of everyN: one sample every everyN calls. */
  lemma {:induction false} RecordsEveryNth(every: nat, k: nat)
    requires 1 <= every < Two32
    ensures CountAfter(every, 0, k) == k % every
    ensures Records(every, CountAfter(every, 0, k)) <==> (k + 1) % every == 0
    decreases k
  {
    if k == 0 {
      ModBase(0, every);
    } else {
      RecordsEveryNth(every, k - 1);
      ModSucc(k - 1, every);
    }
    ModSucc(k, every);
  }

  /** As written, a counter that starts at or above everyN (uninitialised memory) grows
   *  past it and records no sample until the 32-bit counter wraps. */
  lemma {:induction false} StaleCountRecordsNothing(every: nat, count: nat, k: nat)
    requires 1 <= every <= count && count + k + 1 < Two32
    ensures CountAfter(every, count, k) == count + k
    ensures !Records(every, CountAfter(every, count, k))
    decreases k
  {
    if k > 0 {
      StaleCountRecordsNothing(every, count, k - 1);
    }
  }

  /** The concrete case: with everyN = 1, every call should record, but a counter
   *  left at 5 records nothing on the first call, nor on the next thousand. */
  lemma StaleCountExample()
    ensures !Records(1, 5) && Records(1, 0)
    ensures !Records(1, CountAfter(1, 5, 1000))
  {
    StaleCountRecordsNothing(1, 5, 1000);
  }

  class TimerAverageOver {
    var averageIndex: nat
    var sum: real
    var values: seq<real>
    var skipEvery: nat
    var skipCount: nat
    var previousTime: real

    ghost predicate Valid()
      reads this
    {
      (averageIndex < |values| || (values == [] && averageIndex == 0)) &&
      sum == Sum(values) && skipEvery < Two32 && skipCount < Two32
    }

    /** The counter is below everyN, which makes Update record on every everyN-th call. */
    ghost predicate Counting()
      reads this
    {
      skipCount < skipEvery
    }

    /** Models the constructor as written: m_skipCount is never initialised, so it
     *  starts as whatever value the object's memory held. */
    constructor AsWritten(numFrames: nat, everyN: nat, garbage: nat)
      requires everyN < Two32 && garbage < Two32
      ensures Valid()
      ensures values == seq(numFrames, _ => 0.0) && sum == 0.0 && averageIndex == 0
      ensures skipEvery == everyN && skipCount == garbage && previousTime == 0.0
    {
      averageIndex := 0;
      sum := 0.0;
      skipEvery := everyN;
      values := seq(numFrames, _ => 0.0);
      previousTime := 0.0;
      skipCount := garbage;
      new;
      SumZeros(numFrames);
    }

    /** The constructor with m_skipCount set to 0, as evidently intended: then the
     *  timer is counting from the start whenever everyN >= 1. */
    constructor (numFrames: nat, everyN: nat)
      requires everyN < Two32
      ensures Valid() && (everyN >= 1 ==> Counting())
      ensures values == seq(numFrames, _ => 0.0) && sum == 0.0 && averageIndex == 0
      ensures skipEvery == everyN && skipCount == 0 && previousTime == 0.0
    {
      averageIndex := 0;
      sum := 0.0;
      skipEvery := everyN;
      values := seq(numFrames, _ => 0.0);
      previousTime := 0.0;
      skipCount := 0;
      new;
      SumZeros(numFrames);
    }

    /** Models Start: no skipping from now on, and the region starts at 'now'. */
    method Start(now: real)
      requires Valid()
      modifies this
      ensures Valid() && skipEvery == 1 && previousTime == now
      ensures averageIndex == old(averageIndex) && sum == old(sum) && values == old(values)
      ensures skipCount == old(skipCount)
      ensures old(skipCount) == 0 ==> Counting()
    {
      skipEvery := 1;
      previousTime := now;
    }

    /** Models Update: count the call; on every everyN-th one record the time since the
     *  previous sample into the next slot of the ring, keeping the running sum. The
     *  modulo of the ring step is undefined for an empty ring, hence the precondition. */
    method Update(now: real)
      requires Valid() && (values != [] || !Records(skipEvery, skipCount))
      modifies this
      ensures Valid() && skipEvery == old(skipEvery)
      ensures Records(old(skipEvery), old(skipCount)) ==>
                skipCount == 0 && previousTime == now &&
                averageIndex == Advance(old(averageIndex), |old(values)|) &&
                values == old(values)[averageIndex := now - old(previousTime)]
      ensures !Records(old(skipEvery), old(skipCount)) ==>
                skipCount == Add32(old(skipCount), 1) && previousTime == old(previousTime) &&
                averageIndex == old(averageIndex) && values == old(values) && sum == old(sum)
      ensures old(Counting()) ==> Counting()
    {
      skipCount := Add32(skipCount, 1);
      if skipEvery == skipCount {
        skipCount := 0;
        var t := now;
        var delta := t - previousTime;
        previousTime := t;
        averageIndex := Advance(averageIndex, |values|);
        SumUpdate(values, averageIndex, delta);
        sum := sum - values[averageIndex];
        sum := sum + delta;
        values := values[averageIndex := delta];
      }
    }

    /** Models Get: the sum over the ring, per slot and per skipped call. A zero divisor
     *  gives a float infinity or NaN in the source, which is not a real. */
    function Get(): (r: real)
      requires Valid() && |values| > 0 && skipEvery > 0
      reads this
      ensures r * (|values| as real * skipEvery as real) == Sum(values)
    {
      sum / (|values| as real * skipEvery as real)
    }
  }
}
