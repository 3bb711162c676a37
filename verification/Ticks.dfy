/** The 32-bit tick count and the absolute time it stands for. */
module Ticks {
  function Wrap(n: int): (w: nat)
    ensures w < 0x1_0000_0000
  {
    n % 0x1_0000_0000
  }

  function Epoch(n: int): int {
    n / 0x1_0000_0000
  }

  lemma SumWraps(c: nat, p: nat)
    ensures Wrap(Wrap(c) + p) == Wrap(c + p)
  {
  }

  /** Less than 2^32 ticks later the wrapped time is larger exactly if the epoch is the same. */
  lemma WrapStep(a: nat, b: nat)
    requires a <= b < a + 0x1_0000_0000
    ensures Epoch(b) == Epoch(a) || Epoch(b) == Epoch(a) + 1
    ensures (Epoch(b) == Epoch(a)) == (Wrap(a) <= Wrap(b))
    ensures b - a == Wrap(b) - Wrap(a) + (if Epoch(b) == Epoch(a) then 0 else 0x1_0000_0000)
  {
  }

  lemma WrapDifference(a: nat, b: nat)
    requires a <= b < a + 0x1_0000_0000
    ensures Wrap(Wrap(b) - Wrap(a)) == b - a
  {
  }
}
