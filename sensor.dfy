/** Types shared by the DHT driver: the C integer widths it uses and the closed
    enumerations of its public header (sensor model, measurement result). */
module Sensor {

  /** `uint8_t`: a frame byte, a pin, a state-machine index, a DMA channel. */
  type uint8 = x: int | 0 <= x < 0x100

  /** `uint32_t`: readings of the 32-bit microsecond clock. */
  type uint32 = x: int | 0 <= x < 0x1_0000_0000

  /** `dht_model_t`: the four supported sensor models. */
  datatype Model = DHT11 | DHT12 | DHT21 | DHT22 {
    /** DHT21 and DHT22 use a short start pulse and 16-bit fields;
        DHT11 and DHT12 use a long start pulse and integer/decimal byte pairs. */
    predicate IsWide() {
      this == DHT21 || this == DHT22
    }
  }

  /** `dht_result_t`: the outcome of a measurement. */
  datatype Result = Ok | Timeout | BadChecksum

  datatype Option<T> = None | Some(value: T)

  /** `b & 0x80`: the sign bit of a sign-magnitude byte is set. */
  predicate SignBit(b: uint8) {
    b >= 0x80
  }

  /** `b & 0x7F`: the magnitude bits of a sign-magnitude byte. */
  function Low7(b: uint8): (r: uint8)
    ensures r < 0x80
    ensures b == r + (if SignBit(b) then 0x80 else 0)
  {
    b % 0x80
  }

  /** `b ^ 0x80`: the same magnitude with the opposite sign. */
  function FlipSign(b: uint8): (r: uint8)
    ensures SignBit(r) == !SignBit(b)
    ensures Low7(r) == Low7(b)
  {
    (b + 0x80) % 0x100
  }

  /** The arithmetic forms above agree with the bitwise operations on 8-bit words. */
  lemma MasksAreBitwise(b: bv8)
    ensures SignBit(b as int) == (b & 0x80 != 0)
    ensures Low7(b as int) == (b & 0x7F) as int
    ensures FlipSign(b as int) == (b ^ 0x80) as int
  {
  }
}
