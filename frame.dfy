/** The 5-byte frame a sensor sends, its checksum and the per-model decoding
    of its two 16-bit fields. Decoded values are exact integers counting
    tenths of a unit: where the driver computes `0.1f * x` this model has `x`. */
module Frame {
  import opened Sensor

  /** Humidity high and low byte, temperature high and low byte, checksum. */
  type Frame = f: seq<uint8> | |f| == 5 witness [0, 0, 0, 0, 0]

  /** `uint8_t checksum = data[0] + data[1] + data[2] + data[3]`: the sum is
      formed in `int` and truncated to 8 bits by the assignment. */
  function Checksum(f: Frame): (c: int)
    ensures 0 <= c < 0x100
    ensures (f[0] as int + f[1] + f[2] + f[3] - c) % 0x100 == 0
  {
    (f[0] as int + f[1] + f[2] + f[3]) % 0x100
  }

  /** The frame is accepted when its last byte equals the checksum. */
  predicate ChecksumOk(f: Frame) {
    f[4] == Checksum(f)
  }

  /** Changing any one data byte of an accepted frame to a different value
      makes the checksum fail. */
  lemma SingleByteChangeDetected(f: Frame, i: nat, v: uint8)
    requires ChecksumOk(f) && i < 4 && v != f[i]
    ensures !ChecksumOk(f[i := v])
  {
  }

  /** `decode_humidity`, in tenths of a percent. */
  function DecodeHumidity(model: Model, b0: uint8, b1: uint8): (h: int)
    ensures 0 <= h <= (if model.IsWide() then 0xFFFF else 2805)
  {
    match model
    // b0 + 0.1f * b1
    case DHT11 | DHT12 => 10 * b0 + b1
    // 0.1f * ((b0 << 8) + b1)
    case DHT21 | DHT22 => 0x100 * b0 + b1
  }

  /** `decode_temperature`, in tenths of a degree Celsius; `b0` and `b1` are
      frame bytes 2 and 3. */
  function DecodeTemperature(model: Model, b0: uint8, b1: uint8): (t: int)
    ensures model == DHT11 ==> 0 <= t <= 2677 && (SignBit(b1) ==> t == 0)
    ensures model == DHT12 ==> -2677 <= t <= 2677 && (t < 0 ==> SignBit(b1)) && (t > 0 ==> !SignBit(b1))
    ensures model.IsWide() ==> -0x7FFF <= t <= 0x7FFF && (t < 0 ==> SignBit(b0)) && (t > 0 ==> !SignBit(b0))
  {
    match model
    // below-zero temperature not supported
    case DHT11 => if SignBit(b1) then 0 else 10 * b0 + Low7(b1)
    case DHT12 =>
      var magnitude := 10 * b0 + Low7(b1);
      if SignBit(b1) then -magnitude else magnitude
    case DHT21 | DHT22 =>
      var magnitude := 0x100 * Low7(b0) + b1;
      if SignBit(b0) then -magnitude else magnitude
  }

  /** Toggling the sign bit negates a DHT12, DHT21 or DHT22 temperature:
      the encoding is sign and magnitude. */
  lemma TemperatureSignFlip(model: Model, b0: uint8, b1: uint8)
    requires model != DHT11
    ensures model == DHT12 ==> DecodeTemperature(model, b0, FlipSign(b1)) == -DecodeTemperature(model, b0, b1)
    ensures model.IsWide() ==> DecodeTemperature(model, FlipSign(b0), b1) == -DecodeTemperature(model, b0, b1)
  {
  }

  /** One reading in tenths: relative humidity and degrees Celsius. */
  datatype Reading = Reading(humidity: int, temperature: int)

  /** The readings a sensor of the model can send: humidity and temperature
      in the ranges its frame format covers. */
  predicate Encodable(model: Model, r: Reading) {
    match model
    case DHT11 => 0 <= r.humidity <= 2559 && 0 <= r.temperature <= 2559
    case DHT12 => 0 <= r.humidity <= 2559 && -2559 <= r.temperature <= 2559
    case DHT21 | DHT22 => 0 <= r.humidity <= 0xFFFF && -0x7FFF <= r.temperature <= 0x7FFF
  }

  function Abs(x: int): nat {
    if x < 0 then -x else x
  }

  /** The frame a sensor of the model sends for the reading: integer and
      decimal bytes for DHT11 and DHT12, 16-bit big-endian fields for DHT21
      and DHT22, sign in bit 7, checksum last. */
  function EncodeFrame(model: Model, r: Reading): (f: Frame)
    requires Encodable(model, r)
    ensures ChecksumOk(f)
  {
    var neg: int := if r.temperature < 0 then 0x80 else 0;
    var m := Abs(r.temperature);
    var (h0, h1, t0, t1) :=
      if model.IsWide() then (r.humidity / 0x100, r.humidity % 0x100, m / 0x100 + neg, m % 0x100)
      else (r.humidity / 10, r.humidity % 10, m / 10, m % 10 + neg);
    var c := (h0 + h1 + t0 + t1) % 0x100;
    [h0, h1, t0, t1, c]
  }

  /** Decoding the frame built for an encodable reading gives that reading back. */
  lemma DecodeEncode(model: Model, r: Reading)
    requires Encodable(model, r)
    ensures var f := EncodeFrame(model, r);
      DecodeHumidity(model, f[0], f[1]) == r.humidity &&
      DecodeTemperature(model, f[2], f[3]) == r.temperature
  {
  }

  /** For DHT21 and DHT22 the humidity bytes are a 16-bit big-endian number:
      different byte pairs decode to different humidities. */
  lemma WideHumidityInjective(model: Model, a0: uint8, a1: uint8, b0: uint8, b1: uint8)
    requires model.IsWide()
    requires DecodeHumidity(model, a0, a1) == DecodeHumidity(model, b0, b1)
    ensures a0 == b0 && a1 == b1
  {
  }

  /** Worked examples for a DHT22 reading 65.2 % and 27.3 degrees. The frame
      `02 8C 01 11 9A` is rejected: its data bytes add up to 0xA0. */
  lemma Dht22Examples()
    ensures !ChecksumOk([0x02, 0x8C, 0x01, 0x11, 0x9A])
    ensures ChecksumOk([0x02, 0x8C, 0x01, 0x11, 0xA0])
    ensures DecodeHumidity(DHT22, 0x02, 0x8C) == 652
    ensures DecodeTemperature(DHT22, 0x01, 0x11) == 273
    ensures ChecksumOk([0x02, 0x8C, 0x81, 0x11, 0x20])
    ensures DecodeTemperature(DHT22, 0x81, 0x11) == -273
  {
  }

  /** A set sign bit yields 0.0 on DHT11 and a negative value on DHT12. */
  lemma NegativeExamples()
    ensures DecodeTemperature(DHT11, 0x01, 0x83) == 0
    ensures DecodeTemperature(DHT12, 0x01, 0x83) == -13
    ensures DecodeTemperature(DHT12, 0x01, 0x03) == 13
  {
  }
}
