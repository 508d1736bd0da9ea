/** The timing policy of a measurement: the model-dependent start pulse, the
    timeout budget of the blocking wait, and elapsed time on the wrapping
    32-bit microsecond clock. */
module Timing {
  import opened Sensor

  /** High pulses longer than this encode a 1 bit. */
  const LongPulseThresholdUs: nat := 50
  /** Margin for the 40-bit frame itself, added to the start pulse. */
  const MeasurementTimeoutUs: nat := 6000
  /** Number of distinct readings of the 32-bit microsecond clock. */
  const ClockModulus: int := 0x1_0000_0000

  /** How long the data line is held low to wake the sensor. */
  function StartPulseDurationUs(model: Model): (us: nat)
    ensures us == 1000 <==> model.IsWide()
    ensures us == 18000 <==> !model.IsWide()
  {
    if model == DHT21 || model == DHT22 then 1000 else 18000
  }

  /** The budget of the blocking wait, measured from the recorded start time;
      it fits a `uint32_t` and ends after the start pulse does. */
  function TimeoutUs(model: Model): (t: uint32)
    ensures t == 7000 <==> model.IsWide()
    ensures t == 24000 <==> !model.IsWide()
    ensures t - MeasurementTimeoutUs == StartPulseDurationUs(model)
  {
    StartPulseDurationUs(model) + MeasurementTimeoutUs
  }

  /** `now - start` computed on `uint32_t`, which wraps modulo 2^32. */
  function Elapsed(now: uint32, start: uint32): (e: uint32)
    ensures (start + e) % ClockModulus == now
    ensures start <= now ==> e == now - start
    ensures now < start ==> e == ClockModulus - start + now
  {
    (now - start) % ClockModulus
  }

  /** The clock reading `d` microseconds after the reading `start`. */
  function Advance(start: uint32, d: nat): (now: uint32)
    ensures start + d < ClockModulus ==> now == start + d
  {
    (start + d) % ClockModulus
  }

  /** Elapsed time is wrap-tolerant: it recovers any delay shorter than the
      clock's period, whether or not the clock wrapped in between. */
  lemma ElapsedAfterAdvance(start: uint32, d: nat)
    requires d < ClockModulus
    ensures Elapsed(Advance(start, d), start) == d
  {
  }

  /** The condition of the busy-wait loop: the transfer is still running and
      the budget is not used up. */
  predicate KeepWaiting(dmaBusy: bool, now: uint32, start: uint32, timeout: uint32) {
    dmaBusy && Elapsed(now, start) < timeout
  }

  /** `d` microseconds after the start, the wait goes on exactly when the
      transfer is busy and `d` is inside the model's budget. */
  lemma KeepWaitingAfter(model: Model, start: uint32, d: nat, dmaBusy: bool)
    requires d < ClockModulus
    ensures KeepWaiting(dmaBusy, Advance(start, d), start, TimeoutUs(model))
        <==> dmaBusy && d < TimeoutUs(model)
  {
  }

  /** The two sides of the deadline: one microsecond before it the loop still
      polls a busy transfer; at the deadline it stops. */
  lemma WaitDeadline(model: Model, start: uint32, dmaBusy: bool)
    ensures KeepWaiting(dmaBusy, Advance(start, TimeoutUs(model) - 1), start, TimeoutUs(model)) == dmaBusy
    ensures !KeepWaiting(dmaBusy, Advance(start, TimeoutUs(model)), start, TimeoutUs(model))
  {
  }

  /** What one evaluation of the wait condition reads: the DMA channel's
      busy flag and, when it is busy, `time_us_32()`. */
  datatype Sample = Sample(dmaBusy: bool, now: uint32)

  /** A DMA channel that has completed its transfer stays idle: once one
      sample reads it idle, every later sample does, and so does `busyAfter`,
      the flag read after the wait. */
  predicate StaysIdle(samples: seq<Sample>, busyAfter: bool) {
    (forall j, k :: 0 <= j <= k < |samples| && !samples[j].dmaBusy ==> !samples[k].dmaBusy) &&
    (forall j :: 0 <= j < |samples| && !samples[j].dmaBusy ==> !busyAfter)
  }

  /** The busy-wait of the blocking finish: `samples[i]` is what the i-th
      evaluation of the loop condition reads, and one of them ends the wait.
      The result counts the evaluations that kept the loop polling; the next
      one ended it. */
  method WaitForTransfer(samples: seq<Sample>, start: uint32, timeout: uint32) returns (polls: nat)
    requires exists k :: 0 <= k < |samples| && !KeepWaiting(samples[k].dmaBusy, samples[k].now, start, timeout)
    ensures polls < |samples|
    ensures !KeepWaiting(samples[polls].dmaBusy, samples[polls].now, start, timeout)
    ensures forall j :: 0 <= j < polls ==> KeepWaiting(samples[j].dmaBusy, samples[j].now, start, timeout)
  {
    ghost var last :| 0 <= last < |samples| && !KeepWaiting(samples[last].dmaBusy, samples[last].now, start, timeout);
    polls := 0;
    while samples[polls].dmaBusy && Elapsed(samples[polls].now, start) < timeout
      invariant polls <= last
      invariant forall j :: 0 <= j < polls ==> KeepWaiting(samples[j].dmaBusy, samples[j].now, start, timeout)
      decreases last - polls
    {
      // tight_loop_contents()
      polls := polls + 1;
    }
  }
}
