/** Powers of two, remainders, and rings of slots walked by a cursor that wraps around at the word size. */
module RingArithmetic {
  import opened Base

  function Power2(n: nat): (r: nat)
    ensures r > 0
  {
    if n == 0 then 1 else 2 * Power2(n - 1)
  }

  lemma {:induction false} Power2Sum(a: nat, b: nat)
    ensures Power2(a + b) == Power2(a) * Power2(b)
  {
    if a > 0 { Power2Sum(a - 1, b); }
  }

  lemma Power2Is16()
    ensures Power2(4) == 16
  {
    assert Power2(2) == 4;
  }

  lemma WordIsPower2()
    ensures Power2(64) == WORD
  {
    Power2Is16();
    Power2Sum(4, 4);
    Power2Sum(8, 8);
    Power2Sum(16, 16);
    Power2Sum(32, 32);
  }

  lemma TimesMonotone(x: int, y: int, b: nat)
    requires x < y
    ensures x * b + b <= y * b
  {
    assert (y - x - 1) * b >= 0;
  }

  /** Quotient and remainder are unique. */
  lemma RemainderOf(a: int, q: int, r: nat, b: nat)
    requires a == q * b + r && r < b
    ensures a % b == r && a / b == q
  {
    var q', r' := a / b, a % b;
    assert a == q' * b + r';
    if q > q' { TimesMonotone(q', q, b); } else if q < q' { TimesMonotone(q, q', b); }
  }

  lemma Power2Divides(n: nat)
    requires n <= 64
    ensures WORD % Power2(n) == 0
  {
    WordIsPower2();
    Power2Sum(64 - n, n);
    RemainderOf(WORD, Power2(64 - n), 0, Power2(n));
  }

  /** The slot under a cursor. */
  function Slot(count: nat, pos: int): (i: nat)
    requires count > 0
    ensures i < count
  {
    pos % count
  }

  /** Wrapping the cursor around does not change its slot if the size of the ring divides the word size. */
  lemma SlotWraps(count: nat, pos: int)
    requires count > 0 && WORD % count == 0
    ensures Slot(count, pos % WORD) == Slot(count, pos)
  {
    var k, q, r := WORD / count, pos / WORD, pos % WORD;
    assert q * (k * count) == (q * k) * count;
    assert (q * k + r / count) * count == (q * k) * count + r / count * count;
    RemainderOf(pos, q * k + r / count, r % count, count);
  }

  /** Consecutive positions, up to the size of the ring, are different slots. */
  lemma SlotsDiffer(count: nat, pos: int, i: nat, j: nat)
    requires i < j < i + count
    ensures Slot(count, pos + i) != Slot(count, pos + j)
  {
    var q, r := (pos + i) / count, (pos + i) % count;
    if r + (j - i) < count {
      RemainderOf(pos + j, q, r + (j - i), count);
    } else {
      assert (q + 1) * count == q * count + count;
      RemainderOf(pos + j, q + 1, r + (j - i) - count, count);
    }
  }

  /** Position number `j` from `pos` on stands for slot `k`, within one round. */
  predicate Visits(count: nat, pos: int, j: nat, k: nat) {
    j < count && Slot(count, pos + j) == k
  }

  /** As many consecutive positions as there are slots visit every slot, and each only once. */
  lemma SlotVisited(count: nat, pos: int, k: nat) returns (i: nat)
    requires k < count
    ensures Visits(count, pos, i, k) && forall j: nat :: Visits(count, pos, j, k) ==> j == i
  {
    i := (k - pos) % count;
    var q := (k - pos) / count;
    assert (-q) * count == -(q * count);
    RemainderOf(pos + i, -q, k, count);
    forall j: nat | Visits(count, pos, j, k) ensures j == i {
      if i < j { SlotsDiffer(count, pos, i, j); } else if j < i { SlotsDiffer(count, pos, j, i); }
    }
  }
}
