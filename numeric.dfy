/**
 * JavaScript number operations the core relies on, stated over exact reals and
 * integers: Math.ceil, Math.round, Math.min/max/abs, and the ToInt32 conversion
 * that every bitwise operator applies first. Math.pow and Math.sqrt have no exact
 * real counterpart; they are passed in as a `Maths` record and only the facts
 * listed in `Lawful` are required of them, by the lemmas that need them.
 */
module Numeric {
  import opened Wrappers

  /** Math.ceil */
  function Ceil(x: real): (r: int)
    ensures x <= r as real < x + 1.0
  {
    -((-x).Floor)
  }

  /** Math.round: halves round towards +infinity. */
  function Round(x: real): (r: int)
    ensures x - 0.5 < r as real <= x + 0.5
  {
    (x + 0.5).Floor
  }

  function MinR(a: real, b: real): real { if a <= b then a else b }
  function MaxR(a: real, b: real): real { if a >= b then a else b }
  function AbsR(a: real): real { if a < 0.0 then -a else a }
  function MinI(a: int, b: int): int { if a <= b then a else b }
  function MaxI(a: int, b: int): int { if a >= b then a else b }

  /** The 32 low bits of an integer, as ToInt32 leaves them before `&` or `|`. */
  function Bits(n: int): bv32
  {
    (n % 0x1_0000_0000) as bv32
  }

  /** JavaScript truthiness of a number that may be undefined: present and non-zero. */
  predicate Truthy(x: Option<real>)
  {
    x.Some? && x.value != 0.0
  }

  /** The same for integer-valued numbers. */
  predicate TruthyInt(x: Option<int>)
  {
    x.Some? && x.value != 0
  }

  /** Math.pow and Math.sqrt, supplied by the caller. */
  datatype Maths = Maths(pow: (real, real) -> real, sqrt: real -> real)

  /** The sign facts of Math.pow and Math.sqrt that some lemmas require. */
  ghost predicate Lawful(m: Maths)
  {
    && (forall b, e :: 0.0 < b ==> 0.0 < m.pow(b, e))
    && (forall b, e :: 0.0 <= b && 0.0 < e ==> 0.0 <= m.pow(b, e))
    && (forall x :: 0.0 <= x ==> 0.0 <= m.sqrt(x))
  }
}
