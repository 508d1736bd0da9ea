/** The measurement session `dht_t` and its public operations: init, deinit,
    start of a measurement and the blocking finish. The peripherals the
    session drives (sequencer, DMA channel, data pin, clock) appear in two
    ways: commands the driver issues are appended to a log, and what the
    hardware reports back (DMA busy flag, clock readings, received bytes)
    is passed in as parameters. */
module Driver {
  import opened Sensor
  import opened Timing
  import opened Frame

  /** The two PIO blocks a session may use (`pio0`, `pio1`). */
  datatype PioBlock = Pio0 | Pio1

  /** A peripheral command issued by the driver. */
  datatype HwOp =
    /** `pio_add_program`, which placed the sequencer program at `offset`. */
    | AddProgram(pio: PioBlock, offset: uint8)
    /** `pio_claim_unused_sm(pio, true)`, which handed out `sm`. */
    | ClaimSm(pio: PioBlock, sm: uint8)
    /** `dma_claim_unused_channel(true)`, which handed out `chan`. */
    | ClaimDmaChannel(chan: uint8)
    /** `pio_gpio_init` and `gpio_set_pulls(pin, pullUp, false)`. */
    | InitPin(pio: PioBlock, pin: uint8, pullUp: bool)
    /** `configure_dma_channel`: 5 bytes from the state machine's RX FIFO into
        the session's buffer, started at once. */
    | StartDma(chan: uint8, pio: PioBlock, sm: uint8)
    /** `dht_program_init`: configure the state machine, push the start pulse
        and bit threshold (in microseconds), drive the pin low, enable. */
    | StartProgram(pio: PioBlock, sm: uint8, offset: uint8, pin: uint8, startPulseUs: nat, thresholdUs: nat)
    /** `dma_channel_abort`. */
    | AbortDma(chan: uint8)
    /** `dma_channel_unclaim`. */
    | UnclaimDmaChannel(chan: uint8)
    /** `pio_sm_set_enabled(pio, sm, false)`. */
    | DisableSm(pio: PioBlock, sm: uint8)
    /** The data pin's direction set to input, leaving it at high impedance. */
    | ReleasePin(pio: PioBlock, sm: uint8, pin: uint8)
    /** `pio_sm_unclaim`. */
    | UnclaimSm(pio: PioBlock, sm: uint8)
    /** `pio_remove_program`. */
    | RemoveProgram(pio: PioBlock, offset: uint8)

  /** A caller's `float` variable that receives a decoded value, in tenths. */
  class Cell {
    var value: int

    constructor (v: int)
      ensures value == v
    {
      value := v;
    }
  }

  /** `dht_t`: one sensor on one data pin. */
  class Dht {
    /** The PIO block; `None` plays the role of `NULL`, "not initialised". */
    var pio: Option<PioBlock>
    var model: Model
    var pioProgramOffset: uint8
    var sm: uint8
    var dmaChan: uint8
    var dataPin: uint8
    /** The 5-byte buffer the DMA channel writes the frame into. */
    const data: array<uint8>
    /** `time_us_32()` when the current measurement was started. */
    var startTime: uint32
    /** Whether the session's state machine is enabled, i.e. a measurement is
        in flight (bit `sm` of the PIO block's CTRL register). */
    var smEnabled: bool
    /** The peripheral commands issued so far, oldest first. */
    var ops: seq<HwOp>

    ghost predicate Valid()
      reads this
    {
      data.Length == 5 && (smEnabled ==> pio.Some?)
    }

    predicate Initialized()
      reads this
    {
      pio.Some?
    }

    predicate Measuring()
      reads this
    {
      pio.Some? && smEnabled
    }

    /** A zero-filled `dht_t`: not initialised. */
    constructor ()
      ensures Valid() && fresh(data)
      ensures !Initialized() && !smEnabled && ops == []
      ensures data[..] == [0, 0, 0, 0, 0]
    {
      pio := None;
      model := DHT11;
      pioProgramOffset, sm, dmaChan, dataPin := 0, 0, 0, 0;
      data := new uint8[5](_ => 0);
      startTime := 0;
      smEnabled := false;
      ops := [];
    }

    /** `dht_init`: clears the session, loads the sequencer program and claims
        a state machine and a DMA channel; `offset`, `claimedSm` and
        `claimedChan` are what the SDK's allocators return. */
    method Init(model: Model, block: PioBlock, dataPin: uint8, pullUp: bool,
                offset: uint8, claimedSm: uint8, claimedChan: uint8)
      requires Valid()
      modifies this, data
      ensures Valid() && Initialized() && !Measuring()
      ensures pio == Some(block) && this.model == model && this.dataPin == dataPin
      ensures pioProgramOffset == offset && sm == claimedSm && dmaChan == claimedChan
      ensures data[..] == [0, 0, 0, 0, 0] && startTime == 0
      ensures ops == old(ops) + [AddProgram(block, offset), ClaimSm(block, claimedSm),
                                 ClaimDmaChannel(claimedChan), InitPin(block, dataPin, pullUp)]
    {
      // memset(dht, 0, sizeof(dht_t))
      forall i | 0 <= i < data.Length {
        data[i] := 0;
      }
      startTime := 0;
      this.model := model;
      pio := Some(block);
      pioProgramOffset := offset;
      sm := claimedSm;
      dmaChan := claimedChan;
      this.dataPin := dataPin;
      // a newly claimed state machine is not running
      smEnabled := false;
      ops := ops + [AddProgram(block, offset), ClaimSm(block, claimedSm),
                    ClaimDmaChannel(claimedChan), InitPin(block, dataPin, pullUp)];
    }

    /** `dht_deinit`: stops any transfer and the state machine, leaves the pin
        at high impedance and releases everything `Init` claimed. */
    method Deinit()
      requires Valid() && Initialized()
      modifies this
      ensures Valid() && !Initialized() && !smEnabled
      ensures model == old(model) && dataPin == old(dataPin) && startTime == old(startTime)
      ensures pioProgramOffset == old(pioProgramOffset) && sm == old(sm) && dmaChan == old(dmaChan)
      ensures ops == old(ops) + [AbortDma(dmaChan), UnclaimDmaChannel(dmaChan),
                                 DisableSm(old(pio).value, sm), ReleasePin(old(pio).value, sm, dataPin),
                                 UnclaimSm(old(pio).value, sm), RemoveProgram(old(pio).value, pioProgramOffset)]
    {
      var block := pio.value;
      ops := ops + [AbortDma(dmaChan), UnclaimDmaChannel(dmaChan)];
      smEnabled := false;
      ops := ops + [DisableSm(block, sm), ReleasePin(block, sm, dataPin),
                    UnclaimSm(block, sm), RemoveProgram(block, pioProgramOffset)];
      pio := None;
    }

    /** `dht_start_measurement`: zeroes the buffer, starts the DMA channel and
        the sequencer and records `now`, the clock reading, as start time. */
    method StartMeasurement(now: uint32)
      requires Valid() && Initialized() && !Measuring()
      modifies this, data
      ensures Valid() && Measuring()
      ensures data[..] == [0, 0, 0, 0, 0] && startTime == now
      ensures pio == old(pio) && model == old(model) && dataPin == old(dataPin)
      ensures pioProgramOffset == old(pioProgramOffset) && sm == old(sm) && dmaChan == old(dmaChan)
      ensures ops == old(ops) + [StartDma(dmaChan, pio.value, sm),
                                 StartProgram(pio.value, sm, pioProgramOffset, dataPin,
                                              StartPulseDurationUs(model), LongPulseThresholdUs)]
    {
      forall i | 0 <= i < data.Length {
        data[i] := 0;
      }
      ops := ops + [StartDma(dmaChan, pio.value, sm)];
      ops := ops + [StartProgram(pio.value, sm, pioProgramOffset, dataPin,
                                 StartPulseDurationUs(model), LongPulseThresholdUs)];
      smEnabled := true;
      startTime := now;
    }

    /** `dht_finish_measurement_blocking`. The hardware's side is given:
        `received` are the bytes the DMA channel stored while the sequencer
        ran, `samples` what successive evaluations of the wait condition
        read (at least one of them ends the wait), and `busyAfter` the busy
        flag read after the state machine is stopped. A channel that has
        finished stays idle, and a channel that is idle has stored all 5 bytes. `humidity` and
        `temperature` are the output pointers, either of which may be null. */
    method FinishMeasurementBlocking(samples: seq<Sample>, busyAfter: bool, received: seq<uint8>,
                                     humidity: Cell?, temperature: Cell?)
      returns (result: Result, ghost polls: nat)
      requires Valid() && Measuring()
      requires |received| <= 5 && (!busyAfter ==> |received| == 5)
      requires StaysIdle(samples, busyAfter)
      requires exists k :: 0 <= k < |samples| && !KeepWaiting(samples[k].dmaBusy, samples[k].now, startTime, TimeoutUs(model))
      modifies this, data, humidity, temperature
      ensures Valid() && Initialized() && !Measuring()
      ensures pio == old(pio) && model == old(model) && dataPin == old(dataPin) && startTime == old(startTime)
      ensures pioProgramOffset == old(pioProgramOffset) && sm == old(sm) && dmaChan == old(dmaChan)
      ensures data[..] == received + old(data[..])[|received|..]
      // the wait ends at the first sample that is not busy or out of budget
      ensures polls < |samples|
      ensures !KeepWaiting(samples[polls].dmaBusy, samples[polls].now, startTime, TimeoutUs(model))
      ensures forall j :: 0 <= j < polls ==> KeepWaiting(samples[j].dmaBusy, samples[j].now, startTime, TimeoutUs(model))
      // the state machine is stopped and the pin released whatever the result
      ensures ops == old(ops) + [DisableSm(pio.value, sm), ReleasePin(pio.value, sm, dataPin)]
                              + (if result == Timeout then [AbortDma(dmaChan)] else [])
      ensures result == Timeout <==> busyAfter
      // a timeout means the budget was used up with the transfer still busy
      ensures result == Timeout ==>
        samples[polls].dmaBusy && Elapsed(samples[polls].now, startTime) >= TimeoutUs(model)
      ensures result == BadChecksum <==> !busyAfter && !ChecksumOk(data[..])
      ensures result == Ok <==> !busyAfter && ChecksumOk(data[..])
      ensures temperature != null ==>
        temperature.value == if result == Ok then DecodeTemperature(model, data[2], data[3]) else old(temperature.value)
      ensures humidity != null && humidity != temperature ==>
        humidity.value == if result == Ok then DecodeHumidity(model, data[0], data[1]) else old(humidity.value)
    {
      forall i | 0 <= i < |received| {
        data[i] := received[i];
      }
      assert data[..] == received + old(data[..])[|received|..];

      var waited := WaitForTransfer(samples, startTime, TimeoutUs(model));
      polls := waited;

      smEnabled := false;
      ops := ops + [DisableSm(pio.value, sm), ReleasePin(pio.value, sm, dataPin)];

      if busyAfter {
        ops := ops + [AbortDma(dmaChan)];
        return Timeout, polls;
      }
      if !ChecksumOk(data[..]) {
        return BadChecksum, polls;
      }
      if humidity != null {
        humidity.value := DecodeHumidity(model, data[0], data[1]);
      }
      if temperature != null {
        temperature.value := DecodeTemperature(model, data[2], data[3]);
      }
      result := Ok;
    }
  }
}
