/** Minimum, maximum, absolute value and sums. */
module Numbers {

  function Min(a: int, b: int): int { if a < b then a else b }
  function Max(a: int, b: int): int { if a < b then b else a }

  function MinReal(a: real, b: real): real { if a < b then a else b }
  function MaxReal(a: real, b: real): real { if a < b then b else a }
  function Abs(x: real): real { if x < 0.0 then -x else x }

  function Total(s: seq<real>): real {
    if s == [] then 0.0 else Total(s[..|s| - 1]) + s[|s| - 1]
  }
}
