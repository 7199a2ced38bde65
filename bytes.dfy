/** Machine integer types of the AVR target and two small helpers shared by the
    other modules. */
module Bytes {

  /** uint8_t: a data byte, a flag or a channel number. */
  newtype byte = x: int | 0 <= x < 0x100

  /** unsigned short / uint16_t (on AVR `int` is 16 bits wide as well). */
  newtype u16 = x: int | 0 <= x < 0x1_0000

  /** uint32_t / unsigned long. */
  newtype u32 = x: int | 0 <= x < 0x1_0000_0000

  /** The identity of a receive handler installed with uartSetRxHandler. The
      driver stores a function pointer; what the function does is not modelled. */
  type HandlerId = nat

  datatype Option<T> = None | Some(value: T)

  function Min(a: int, b: int): (r: int)
    ensures r <= a && r <= b && (r == a || r == b)
  {
    if a <= b then a else b
  }

  /** `x + n` computed in 16-bit unsigned arithmetic. */
  function AddWrap16(x: u16, n: nat): (r: u16)
    ensures x as int + n < 0x1_0000 ==> r as int == x as int + n
    ensures r as int == (x as int + n) % 0x1_0000
  {
    ((x as int + n) % 0x1_0000) as u16
  }
}
