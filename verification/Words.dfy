/** 32-bit numbers that wrap around: sequence ids and stateid numbers. */
module Words {
  const WORD: nat := 0x1_0000_0000

  type Word = n: nat | n < WORD

  function Inc(n: nat): Word { (n + 1) % WORD }

  function Dec(n: Word): Word { (n + WORD - 1) % WORD }

  /** `d` places on from `n`. */
  function Later(n: nat, d: nat): Word { (n + d) % WORD }

  lemma ModTwice(a: nat, b: nat)
    ensures (a % WORD + b) % WORD == (a + b) % WORD
  {
    var k := a / WORD;
    assert a + b == (a % WORD + b) + k * WORD;
    assert (a % WORD + b + k * WORD) % WORD == (a % WORD + b) % WORD;
  }

  lemma LaterInc(n: nat, d: nat)
    ensures Later(Inc(n), d) == Later(n, d + 1) == Inc(Later(n, d))
  {
    ModTwice(n + 1, d);
    ModTwice(n + d, 1);
  }

  lemma LaterDiffers(n: nat, d: nat)
    requires 0 < d < WORD
    ensures Later(n, d) != n
  {
    if n < WORD && n + d >= WORD { assert (n + d) % WORD == n + d - WORD; }
  }
}
