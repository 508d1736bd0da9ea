/** Client code in the style of the example program: what a caller of the
    driver can conclude from the operations' contracts alone. */
module Scenarios {
  import opened Sensor
  import opened Timing
  import opened Frame
  import opened Driver

  /** A DHT22 on pin 15 of `pio0`: one good reading, then a sensor that stops
      answering, then teardown. */
  method ReadTwice(t0: uint32) {
    var dht := new Dht();
    dht.Init(DHT22, Pio0, 15, true, 0, 0, 0);
    var humidity := new Cell(0);
    var temperature := new Cell(0);
    var result: Result;
    ghost var polls: nat;

    dht.StartMeasurement(t0);
    KeepWaitingAfter(DHT22, t0, 4000, false);
    var samples := [Sample(true, Advance(t0, 100)), Sample(false, Advance(t0, 4000))];
    assert !KeepWaiting(samples[1].dmaBusy, samples[1].now, dht.startTime, TimeoutUs(dht.model));
    result, polls := dht.FinishMeasurementBlocking(samples, false, [0x02, 0x8C, 0x01, 0x11, 0xA0], humidity, temperature);
    assert dht.data[..] == [0x02, 0x8C, 0x01, 0x11, 0xA0];
    Dht22Examples();
    assert result == Ok && humidity.value == 652 && temperature.value == 273;

    // The clock may wrap between the two measurements.
    var t1 := Advance(t0, 2000000);
    dht.StartMeasurement(t1);
    WaitDeadline(DHT22, t1, true);
    samples := [Sample(true, Advance(t1, TimeoutUs(DHT22)))];
    assert !KeepWaiting(samples[0].dmaBusy, samples[0].now, dht.startTime, TimeoutUs(dht.model));
    result, polls := dht.FinishMeasurementBlocking(samples, true, [0x02], humidity, temperature);
    assert result == Timeout && polls == 0;
    assert humidity.value == 652 && temperature.value == 273;

    dht.Deinit();
    assert !dht.Initialized() && !dht.Measuring();
  }

  /** A measurement abandoned before it is finished: teardown is allowed and
      stops the transfer, and the session must be initialised again. */
  method StartThenDeinit(t0: uint32) {
    var dht := new Dht();
    dht.Init(DHT11, Pio1, 2, false, 0, 1, 3);
    dht.StartMeasurement(t0);
    assert dht.Measuring();
    dht.Deinit();
    assert !dht.Initialized() && dht.ops[|dht.ops| - 6] == AbortDma(3);
  }
}
