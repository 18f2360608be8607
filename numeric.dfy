/** Small numeric helpers shared by the synthesizer model: the builtins
    `abs`, `min`, `max` and `np.sign` over reals, and a silent buffer. */
module Numeric {

  function Abs(x: real): real {
    if x < 0.0 then -x else x
  }

  function MinReal(a: real, b: real): real {
    if a <= b then a else b
  }

  function MaxReal(a: real, b: real): real {
    if a >= b then a else b
  }

  function Max(a: int, b: int): int {
    if a >= b then a else b
  }

  /** `np.sign`: -1, 0 or +1 according to the sign of `x`. */
  function Sign(x: real): real {
    if x < 0.0 then -1.0 else if x > 0.0 then 1.0 else 0.0
  }

  /** `np.zeros(n)`. */
  function Zeros(n: nat): seq<real> {
    seq(n, _ => 0.0)
  }
}
