/** Small numeric helpers shared by all components. Money is either a whole
    number of cents (`nat`) or an exact `real` number of dollars. */
module Arith {
  function MaxI(a: int, b: int): int { if a >= b then a else b }

  function MinI(a: int, b: int): int { if a <= b then a else b }

  function MaxR(a: real, b: real): real { if a >= b then a else b }

  function MinR(a: real, b: real): real { if a <= b then a else b }

  function AbsR(a: real): real { if a >= 0.0 then a else -a }

  /** `max(lo, min(hi, v))`, in the order the program applies it. */
  function Clamp(v: real, lo: real, hi: real): real { MaxR(lo, MinR(hi, v)) }

  function Usd(cents: int): real { cents as real / 100.0 }

  /** Rounding half up to a whole number. */
  function RoundHalfUp(x: real): int { (x + 0.5).Floor }

  /** Rounding to a multiple of `1 / scale`. */
  function RoundTo(x: real, scale: real): real
    requires scale > 0.0
  {
    RoundHalfUp(x * scale) as real / scale
  }

  /** Dollars, clamped at zero, rounded to whole cents. */
  function Cents(usd: real): nat {
    RoundHalfUp(MaxR(0.0, usd) * 100.0)
  }

  datatype Option<+T> = None | Some(value: T)

  /** A dictionary of amounts, read with the default zero. */
  function Get<K(==)>(m: map<K, real>, k: K): real { if k in m then m[k] else 0.0 }
}
