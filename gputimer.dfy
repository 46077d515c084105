/**
 * D3D12GpuTimer of include/D3D12GpuTimer.h: numTimers named timers, each a
 * pair of timestamp query slots (begin and end) in one query heap, resolved
 * once per frame into a moving average per timer. The query heap, the
 * readback buffer and the command list are foreign objects: the resolved
 * timestamps and the queue's timestamp frequency are inputs.
 */
module GpuTiming {
  import opened GpuTrace

  /** The default of in_averageOver. */
  const DefaultAverageOver: nat := 20

  /** One entry of m_times: the averaged time in seconds and the timer's name. */
  datatype TimerEntry = TimerEntry(time: real, name: string)

  /** UINT32 doubling, which wraps at 2^32 (m_totalTimers and the begin slot). */
  function Double32(n: nat): (r: nat)
    requires n < Two32
    ensures r < Two32
    ensures 2 * n < Two32 ==> r == 2 * n
  {
    (2 * n) % Two32
  }

  /** Models BeginTimer: the query slot its timestamp goes to. */
  function BeginSlot(index: nat): (slot: nat)
    requires index < Two32
    ensures slot < Two32
  {
    Double32(index)
  }

  /** Models EndTimer: the query slot its timestamp goes to. */
  function EndSlot(index: nat): (slot: nat)
    requires index < Two32
    ensures slot < Two32
  {
    Add32(Double32(index), 1)
  }

  /** Below 2^31 timers no arithmetic wraps: timer i owns slots 2i and 2i+1, both
   *  inside the heap of 2 * numTimers slots. */
  lemma SlotsInRange(numTimers: nat, index: nat)
    requires 2 * numTimers < Two32 && index < numTimers
    ensures BeginSlot(index) == 2 * index && EndSlot(index) == 2 * index + 1
    ensures EndSlot(index) < Double32(numTimers)
  {
  }

  /** Different timers never share a slot, and a timer's begin and end slots differ. */
  lemma SlotsDisjoint(numTimers: nat, i: nat, j: nat)
    requires 2 * numTimers < Two32 && i < numTimers && j < numTimers && i != j
    ensures BeginSlot(i) != EndSlot(i)
    ensures {BeginSlot(i), EndSlot(i)} !! {BeginSlot(j), EndSlot(j)}
  {
    SlotsInRange(numTimers, i);
    SlotsInRange(numTimers, j);
  }

  /** The tick count between a begin and an end timestamp: the UINT64 difference, taken
   *  the other way round when the end is the smaller one. */
  function Elapsed(begin: nat, end: nat): (r: nat)
    requires begin < Two64 && end < Two64
    ensures r == if begin <= end then end - begin else begin - end
  {
    var delta := Sub64(end, begin);
    if end < begin then Sub64(begin, end) else delta
  }

  /** The moving-average step of ResolveAllTimers: the old average weighs k - 1 and the
   *  new sample weighs 1. */
  function Smoothed(average: real, sample: real, k: nat): (r: real)
    requires k >= 1
  {
    (average * ((k - 1) as real) + sample) / (k as real)
  }

  /** The new average lies between the old average and the new sample. */
  lemma SmoothedBetween(average: real, sample: real, k: nat)
    requires k >= 1
    ensures average <= sample ==> average <= Smoothed(average, sample, k) <= sample
    ensures sample <= average ==> sample <= Smoothed(average, sample, k) <= average
  {
    var r := Smoothed(average, sample, k);
    var K := k as real;
    assert r * K == average * (K - 1.0) + sample;
    assert (r - average) * K == sample - average;
    assert (r - sample) * K == (average - sample) * (K - 1.0);
  }

  /** A steady sample is a fixed point, and with k = 1 the average is the last sample. */
  lemma SmoothedSteady(average: real, sample: real, k: nat)
    requires k >= 1
    ensures Smoothed(sample, sample, k) == sample
    ensures k == 1 ==> Smoothed(average, sample, k) == sample
  {
  }

  /** Timer i after ResolveAllTimers, given its slots' timestamps. */
  function Resolved(e: TimerEntry, begin: nat, end: nat, frequency: nat, k: nat): (r: TimerEntry)
    requires begin < Two64 && end < Two64 && frequency > 0 && k >= 1
    ensures r.name == e.name
  {
    TimerEntry(Smoothed(e.time, (Elapsed(begin, end) as real) / (frequency as real), k), e.name)
  }

  class GpuTimer {
    const numTimers: nat
    const totalTimers: nat
    const averageOver: nat
    var times: seq<TimerEntry>
    var gpuFrequency: nat

    ghost predicate Valid()
      reads this
    {
      numTimers < Two32 && averageOver < Two32 &&
      totalTimers == Double32(numTimers) && |times| == numTimers
    }

    /** Models the constructor: the heap gets 2 * numTimers slots (in UINT32), m_times
     *  numTimers default entries, and the frequency is the queue's. */
    constructor (numTimers: nat, averageOver: nat, frequency: nat)
      requires numTimers < Two32 && averageOver < Two32
      ensures Valid() && this.numTimers == numTimers && this.averageOver == averageOver
      ensures times == seq(numTimers, _ => TimerEntry(0.0, "")) && gpuFrequency == frequency
    {
      this.numTimers := numTimers;
      totalTimers := Double32(numTimers);
      this.averageOver := averageOver;
      gpuFrequency := frequency;
      times := seq(numTimers, _ => TimerEntry(0.0, ""));
    }

    /** Models SetTimerName: an index past the end is ignored. */
    method SetTimerName(index: nat, name: string)
      requires Valid()
      modifies this`times
      ensures Valid()
      ensures index < |old(times)| ==> times == old(times)[index := TimerEntry(old(times)[index].time, name)]
      ensures index >= |old(times)| ==> times == old(times)
    {
      if index < |times| {
        times := times[index := TimerEntry(times[index].time, name)];
      }
    }

    /** Models ResolveAllTimers: the timestamps are the totalTimers slots read back
     *  from the heap, walked two at a time. The division by the frequency and by
     *  m_averageOver are float divisions, which give no real number for zero. */
    method ResolveAllTimers(timestamps: seq<nat>, frequency: nat)
      requires Valid() && 2 * numTimers < Two32 && |timestamps| == totalTimers
      requires forall j :: 0 <= j < |timestamps| ==> timestamps[j] < Two64
      requires frequency > 0 && averageOver >= 1
      modifies this`times, this`gpuFrequency
      ensures Valid() && gpuFrequency == frequency
      ensures forall i :: 0 <= i < numTimers ==>
                times[i] == Resolved(old(times)[i], timestamps[2 * i], timestamps[2 * i + 1], frequency, averageOver)
    {
      gpuFrequency := frequency;
      var p := 0;
      for i := 0 to numTimers
        invariant p == 2 * i && |times| == numTimers && gpuFrequency == frequency
        invariant forall j :: 0 <= j < i ==>
                    times[j] == Resolved(old(times)[j], timestamps[2 * j], timestamps[2 * j + 1], frequency, averageOver)
        invariant times[i..] == old(times)[i..]
      {
        var deltaTime := Sub64(timestamps[p + 1], timestamps[p]);
        if timestamps[p + 1] < timestamps[p] {
          deltaTime := Sub64(timestamps[p], timestamps[p + 1]);
        }
        var delta := (deltaTime as real) / (gpuFrequency as real);
        var t := times[i].time * ((averageOver - 1) as real);
        assert times[i] == old(times)[i] by {
          assert times[i..][0] == old(times)[i..][0];
        }
        assert deltaTime == Elapsed(timestamps[2 * i], timestamps[2 * i + 1]);
        assert (t + delta) / (averageOver as real) == Smoothed(times[i].time, delta, averageOver);
        times := times[i := TimerEntry((t + delta) / (averageOver as real), times[i].name)];
        assert times[i + 1..] == old(times)[i + 1..];
        p := p + 2;
      }
    }
  }
}
