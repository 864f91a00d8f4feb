/** Unsigned 32-bit words, kept as naturals below a modulus. */
module Words {

  /** One more than portMAX_DELAY: the tick count and size_t both wrap here. */
  const MODULUS: nat := 0x1_0000_0000
  const MAX_DELAY: nat := 0xffff_ffff

  predicate IsWord(x: int) {
    0 <= x < MODULUS
  }

  function Wrap(x: int): (w: nat)
    ensures IsWord(w)
  {
    x % 0x1_0000_0000
  }

  function Min(a: nat, b: nat): nat {
    if a <= b then a else b
  }

  function Max(a: nat, b: nat): nat {
    if a <= b then b else a
  }

  /** The number of complete tick periods before the unbounded time `t`. */
  function Epoch(t: nat): nat {
    t / 0x1_0000_0000
  }

  /** The ticks in `n` complete tick periods. */
  function Periods(n: nat): nat {
    n * 0x1_0000_0000
  }

  lemma EpochSplit(t: nat)
    ensures t == Periods(Epoch(t)) + Wrap(t)
  {
  }

  /** The sum of a word and a number below the modulus wraps at most once. */
  lemma WrapSum(a: nat, d: nat)
    requires IsWord(a) && d < MODULUS
    ensures Wrap(a + d) == if a + d < MODULUS then a + d else a + d - MODULUS
  {
  }

  lemma EpochUnique(t: nat, n: nat, r: nat)
    requires t == Periods(n) + r && IsWord(r)
    ensures Epoch(t) == n && Wrap(t) == r
  {
  }

  /** A time less than one period after `t` lies in t's period or in the next, and
      comparing the wrapped values tells which. */
  lemma SoonAfter(t: nat, d: nat)
    requires d < MODULUS
    ensures Wrap(t + d) == (if Wrap(t) + d < MODULUS then Wrap(t) + d else Wrap(t) + d - MODULUS)
    ensures Epoch(t + d) == (if Wrap(t) + d < MODULUS then Epoch(t) else Epoch(t) + 1)
    ensures Wrap(t + d) < Wrap(t) <==> Epoch(t + d) == Epoch(t) + 1
    ensures Wrap(t + d) >= Wrap(t) <==> Epoch(t + d) == Epoch(t)
  {
  }
}
