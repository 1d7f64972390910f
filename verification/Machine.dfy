/** Fixed-width integers, casts, addresses and time, as the simulator's C++ code uses them. */
module Machine {

  type u16 = x: int | 0 <= x < 0x1_0000
  type i16 = x: int | -0x8000 <= x < 0x8000
  type u64 = x: int | 0 <= x < 0x1_0000_0000_0000_0000

  /** IPv4 addresses, ordered as `Ipv4Address::operator<` orders them. */
  type Address = x: int | 0 <= x < 0x1_0000_0000

  const ZERO: Address := 0
  const LOOPBACK: Address := 0x7F00_0001       // 127.0.0.1
  const SUBNET_BROADCAST: Address := 0x0A01_01FF // 10.1.1.255
  const BROADCAST: Address := 0xFFFF_FFFF      // 255.255.255.255

  /** The addresses the neighbour filter skips. */
  predicate Special(a: Address) {
    a == LOOPBACK || a == SUBNET_BROADCAST || a == BROADCAST
  }

  /** Conversion of an integer to `uint16_t`. */
  function ToU16(x: int): u16 {
    x % 0x1_0000
  }

  /** Conversion of an integer to `int16_t` (two's complement). */
  function ToI16(x: int): i16 {
    (x + 0x8000) % 0x1_0000 - 0x8000
  }

  function Abs(x: int): nat {
    if x < 0 then -x else x
  }

  /** Conversion of a `double` to an integer: the fraction is cut off toward zero. */
  function Trunc(x: real): int {
    if x >= 0.0 then x.Floor else -((-x).Floor)
  }

  /** Simulated time, in microseconds. */
  type Time = nat

  const SECOND: Time := 1_000_000

  /** `Time::ToInteger (Time::S)`: whole seconds, rounded down. */
  function Seconds(t: Time): nat {
    t / SECOND
  }

  datatype Option<+T> = None | Some(value: T)

  /** Both conversions change a number by a multiple of 65536 only. */
  lemma CastsWrap(x: int)
    ensures (x - ToU16(x)) % 0x1_0000 == 0 && (x - ToI16(x)) % 0x1_0000 == 0
  {
  }

  lemma SecondsAreWhole(t: Time)
    ensures Seconds(t) * 1_000_000 <= t < (Seconds(t) + 1) * 1_000_000
  {
  }
}
