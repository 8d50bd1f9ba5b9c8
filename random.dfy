/** The random generator that the engine threads through every strategy call,
    modelled as an explicit stream of draws, each uniform on [0, 1). */
module Random {

  /** One draw: a number in [0, 1). */
  type Unit = u: real | 0.0 <= u < 1.0

  /** The draws of a generator, draw number i at i. */
  type Stream = nat -> Unit

  /** A value computed from draws, with the position of the first draw it left unread. */
  datatype Drawn<T> = Drawn(value: T, next: nat)

  /** `gen_bool(p)`: a Bernoulli trial with success probability p, decided by one draw. */
  function Bernoulli(u: real, p: real): bool
  {
    u < p
  }

  /** A generator: a fixed stream and the position of the next draw to hand out. */
  class Rng {
    const draws: Stream
    var pos: nat

    constructor (draws: Stream)
      ensures this.draws == draws && pos == 0
    {
      this.draws := draws;
      pos := 0;
    }

    /** `gen_bool(p)`, which the generator only accepts for p in [0, 1]. */
    method NextBool(p: real) returns (b: bool)
      requires 0.0 <= p <= 1.0
      modifies this
      ensures pos == old(pos) + 1
      ensures b == Bernoulli(draws(old(pos)), p)
      ensures p == 0.0 ==> !b
      ensures p == 1.0 ==> b
    {
      b := Bernoulli(draws(pos), p);
      pos := pos + 1;
    }

    /** `gen::<f32>()`: a value uniform on [0, 1). */
    method NextUnit() returns (u: real)
      modifies this
      ensures pos == old(pos) + 1
      ensures u == draws(old(pos))
      ensures 0.0 <= u < 1.0
    {
      u := draws(pos);
      pos := pos + 1;
    }
  }
}
