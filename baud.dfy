/** The baud-rate divisor that uartSetBaudRate computes. The writes of the
    divisor to UBRRnL/UBRRnH are not modelled. */
module Baud {
  import opened Bytes

  const Two32: int := 0x1_0000_0000

  /** `((F_CPU + baudrate*8) / (baudrate*16) - 1)` in 32-bit unsigned arithmetic,
      truncated to the uint16_t it is stored in. The divisor must not be zero. A
      rate so high that the quotient is 0 makes the 32-bit subtraction wrap, and
      the stored divisor is 0xFFFF, the slowest setting. */
  function BaudDivisor(fCpu: u32, baudrate: u32): (r: u16)
    requires (baudrate as int * 16) % Two32 != 0
    ensures baudrate as int * 16 < Two32 && fCpu as int + baudrate as int * 8 < baudrate as int * 16 ==>
              r == 0xFFFF
  {
    var num := (fCpu as int + baudrate as int * 8) % Two32;
    var den := (baudrate as int * 16) % Two32;
    DivRange(num, den, 0);
    (((num / den - 1) % Two32) % 0x1_0000) as u16
  }

  /** Euclidean division, bracketed. */
  lemma DivBracket(n: int, d: int, q: int)
    requires 0 < d && q == n / d
    ensures d * q <= n < d * q + d
  {
  }

  /** A quotient with a positive divisor is at least 1 when n >= d, at most k
      when n < d * (k + 1), and 0 when 0 <= n < d. */
  lemma DivRange(n: int, d: int, k: nat)
    requires 0 < d && 0 <= n
    ensures n >= d ==> n / d >= 1
    ensures n < d * (k + 1) ==> n / d <= k
    ensures n < d ==> n / d == 0
  {
    DivBracket(n, d, n / d);
  }

  /** Without overflow the divisor rounds to nearest: r+1 is the integer closest
      to F_CPU/(16*baud), so UBRR = r gives the rate nearest the one requested. */
  lemma BaudDivisorRounds(fCpu: u32, baudrate: u32)
    requires 0 < baudrate && baudrate as int * 16 < Two32 && fCpu as int + baudrate as int * 8 < Two32
    requires baudrate as int * 16 <= fCpu as int + baudrate as int * 8 < baudrate as int * 16 * 0x1_0001
    ensures var d := BaudDivisor(fCpu, baudrate) as int + 1;
            var b := baudrate as int;
            16 * b * d - 8 * b <= fCpu as int < 16 * b * d + 8 * b
  {
    var b := baudrate as int;
    var num := fCpu as int + b * 8;
    var den := b * 16;
    assert num % Two32 == num && den % Two32 == den;
    var q := num / den;
    DivRange(num, den, 0x1_0000);
    assert 1 <= q <= 0x1_0000;
    assert BaudDivisor(fCpu, baudrate) as int == q - 1;
    DivBracket(num, den, q);
  }
}
