/** Signal masks as 64-bit numbers: which of their bits the kernel installs. */
module Masks {
  import opened Tracee

  function Without(mask: Word, bit: Word): Word
    requires bit > 0
  {
    if (mask / bit) % 2 == 1 then mask - bit else mask
  }

  /** SIGKILL and SIGSTOP cannot be blocked: the kernel drops them from any mask it installs. */
  function Blockable(mask: Word): Word {
    Without(Without(mask, 0x100), 0x4_0000)
  }

  /** Neither of those two signals is in the mask: bits 8 and 18 are zero. */
  predicate Installable(mask: Word) {
    (mask / 0x100) % 2 == 0 && (mask / 0x4_0000) % 2 == 0
  }

  /** Bit `k` of a mask, which stands for signal `k + 1`. */
  predicate Bit(mask: nat, k: nat)
    decreases k
  {
    if k == 0 then mask % 2 == 1 else Bit(mask / 2, k - 1)
  }

  function Power(k: nat): (p: nat)
    ensures p > 0
  {
    if k == 0 then 1 else 2 * Power(k - 1)
  }

  lemma HalvesFirst(m: nat, p: nat)
    requires p > 0
    ensures m / (2 * p) == (m / 2) / p
  {
    var q := (m / 2) / p;
    var r := (m / 2) % p;
    assert m / 2 == q * p + r;
    assert m == q * (2 * p) + (2 * r + m % 2);
    Quotient(m, 2 * p, q, 2 * r + m % 2);
  }

  lemma Times(k: int, d: int)
    requires k > 0 && d > 0
    ensures k * d >= d
  {
    assert (k - 1) * d >= 0;
  }

  lemma Quotient(m: nat, d: nat, q: nat, r: nat)
    requires d > 0 && m == q * d + r && r < d
    ensures m / d == q
  {
    var q', r' := m / d, m % d;
    assert (q' - q) * d == q' * d - q * d == r - r';
    assert (q - q') * d == r' - r;
    if q < q' { Times(q' - q, d); }
    if q > q' { Times(q - q', d); }
  }

  lemma {:induction false} BitIsQuotient(m: nat, k: nat)
    ensures Bit(m, k) <==> (m / Power(k)) % 2 == 1
    decreases k
  {
    if k > 0 {
      HalvesFirst(m, Power(k - 1));
      BitIsQuotient(m / 2, k - 1);
    }
  }

  /** Subtracting a power of two that is in a mask clears that bit and no other. */
  lemma {:induction false} BitCleared(m: nat, j: nat, k: nat)
    requires Bit(m, j)
    ensures m >= Power(j) && (Bit(m - Power(j), k) <==> k != j && Bit(m, k))
    decreases j
  {
    if j > 0 {
      BitCleared(m / 2, j - 1, if k > 0 then k - 1 else 0);
      assert (m - Power(j)) / 2 == m / 2 - Power(j - 1) && (m - Power(j)) % 2 == m % 2;
    } else if k > 0 {
      assert (m - 1) / 2 == m / 2;
    }
  }

  lemma WithoutBit(mask: Word, bit: Word, j: nat, k: nat)
    requires bit == Power(j)
    ensures Bit(Without(mask, bit), k) <==> k != j && Bit(mask, k)
  {
    BitIsQuotient(mask, j);
    if Bit(mask, j) { BitCleared(mask, j, k); }
  }

  lemma BlockableBits(mask: Word, k: nat)
    ensures Bit(Blockable(mask), k) <==> k != 8 && k != 18 && Bit(mask, k)
  {
    assert Power(8) == 0x100 && Power(18) == 0x4_0000 by {
      assert Power(4) == 0x10;
      assert Power(12) == 0x1000;
    }
    WithoutBit(mask, 0x100, 8, k);
    WithoutBit(Without(mask, 0x100), 0x4_0000, 18, k);
  }

  /** `installed` blocks the signals of `mask` except SIGKILL and SIGSTOP, and is `mask` itself
      exactly when it has neither. */
  ghost predicate Reinstalled(mask: Word, installed: Word) {
    && (forall k: nat :: Bit(installed, k) <==> k != 8 && k != 18 && Bit(mask, k))
    && (installed == mask <==> Installable(mask))
  }

  /** Installing a mask keeps every bit of it but those two, whatever the mask. */
  lemma BlockableReinstalls(mask: Word)
    ensures Reinstalled(mask, Blockable(mask))
  {
    forall k: nat
      ensures Bit(Blockable(mask), k) <==> k != 8 && k != 18 && Bit(mask, k)
    {
      BlockableBits(mask, k);
    }
  }
}
