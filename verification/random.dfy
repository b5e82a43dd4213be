/**
 * The two sources of randomness the game uses.
 *
 * The seeded stream is the linear-congruential generator `seededRandom` of
 * app.js: a state in [0, 233280) that steps by `state * 9301 + 49297` modulo
 * 233280 and yields `state / 233280`. It is kept exact over the integers.
 *
 * Every other draw of the game comes from the browser's unseeded
 * `Math.random()`; the model takes such draws as parameters of type `Chance`.
 */
module Random {

  const Modulus: nat := 233280
  const Multiplier: nat := 9301
  const Increment: nat := 49297

  /** One step of the seeded stream, from any non-negative state or seed. */
  function Next(state: nat): (next: nat)
    ensures next < Modulus
  {
    (state * Multiplier + Increment) % Modulus
  }

  /** The number a draw returns once the stream has moved to `state`. */
  function Value(state: nat): (u: Chance)
    requires state < Modulus
    ensures u * Modulus as real == state as real
  {
    state as real / Modulus as real
  }

  /** A draw of `Math.random()`: a real in [0, 1). */
  type Chance = r: real | 0.0 <= r < 1.0

  /** `Math.floor(r * n)`: the index a draw selects among `n` items. */
  function Pick(r: Chance, n: nat): (k: nat)
    requires n > 0
    ensures k < n
    ensures k as real <= r * n as real < k as real + 1.0
  {
    ScaledBelow(r, n);
    (r * n as real).Floor
  }

  /** A draw scaled by a positive count stays in [0, n). */
  lemma ScaledBelow(r: Chance, n: nat)
    requires n > 0
    ensures 0.0 <= r * n as real < n as real
  {
    assert (1.0 - r) * n as real > 0.0;
  }

  lemma {:induction false} AddMultiple(x: nat, k: nat)
    ensures (x + k * Modulus) % Modulus == x % Modulus
  {
    if k > 0 {
      calc {
        (x + k * Modulus) % Modulus;
        ((x + (k - 1) * Modulus) + Modulus) % Modulus;
        (x + (k - 1) * Modulus) % Modulus;
        { AddMultiple(x, k - 1); }
        x % Modulus;
      }
    }
  }

  /** The stream only sees a seed modulo 233280: such seeds step to the same state. */
  lemma {:induction false} NextModulo(a: nat, b: nat)
    requires a % Modulus == b % Modulus
    ensures Next(a) == Next(b)
  {
    var r := a % Modulus;
    var qa, qb := a / Modulus, b / Modulus;
    assert a * Multiplier + Increment == (r * Multiplier + Increment) + (qa * Multiplier) * Modulus;
    assert b * Multiplier + Increment == (r * Multiplier + Increment) + (qb * Multiplier) * Modulus;
    AddMultiple(r * Multiplier + Increment, qa * Multiplier);
    AddMultiple(r * Multiplier + Increment, qb * Multiplier);
  }
}
