/** Sequence numbers of 16 bits, the unbounded numbers they stand for, and the 128 slots of the packet history. */
module SequenceNumbers {

  const SEQ_MOD := 0x1_0000
  const SLOTS := 128

  type U16 = n: int | 0 <= n < 0x1_0000

  /** What is left of a number in 16 bits. */
  function Low16(x: int): U16 { x % 0x1_0000 }

  function SlotOf(x: int): int { x % 128 }

  /** The one among the 128 numbers up to `high` that has the slot of `x`. */
  function Owner(high: int, x: int): int { high - (high - x) % 128 }

  lemma SlotPeriod(x: int, k: int)
    ensures SlotOf(x + 128 * k) == SlotOf(x)
  {
  }

  lemma SlotDistance(x: int, y: int) returns (k: int)
    requires SlotOf(x) == SlotOf(y)
    ensures y == x + 128 * k
  {
    k := y / 128 - x / 128;
  }

  lemma SlotShift(x: int, y: int, d: int)
    requires SlotOf(x) == SlotOf(y)
    ensures SlotOf(x + d) == SlotOf(y + d)
  {
    var k := SlotDistance(x, y);
    SlotPeriod(x + d, k);
  }

  /** Within a window of 128 numbers a slot belongs to one number. */
  lemma SameSlot(x: int, y: int)
    requires SlotOf(x) == SlotOf(y) && -128 < y - x < 128
    ensures x == y
  {
    var k := SlotDistance(x, y);
  }

  lemma OwnerHasSlot(high: int, x: int)
    ensures high - 128 < Owner(high, x) <= high
    ensures SlotOf(Owner(high, x)) == SlotOf(x)
    ensures high - 128 < x <= high ==> Owner(high, x) == x
  {
    var q := (high - x) / 128;
    assert high - x == 128 * q + (high - x) % 128;
    SlotPeriod(x, q);
    assert Owner(high, x) == x + 128 * q;
  }

  lemma OwnerIsUnique(high: int, x: int, y: int)
    requires high - 128 < y <= high && SlotOf(y) == SlotOf(x)
    ensures y == Owner(high, x)
  {
    OwnerHasSlot(high, x);
    SameSlot(y, Owner(high, x));
  }

  lemma Low16KeepsSlot(x: int)
    ensures SlotOf(Low16(x)) == SlotOf(x)
  {
    assert x == Low16(x) + 128 * (512 * (x / 0x1_0000));
    SlotPeriod(Low16(x), 512 * (x / 0x1_0000));
  }

  /** Two numbers and their 16-bit parts are the same distance apart, but for whole cycles. */
  lemma Low16Distance(x: int, y: int) returns (k: int)
    ensures Low16(y) - Low16(x) == y - x - 0x1_0000 * k
  {
    k := y / 0x1_0000 - x / 0x1_0000;
    assert x == Low16(x) + 0x1_0000 * (x / 0x1_0000);
    assert y == Low16(y) + 0x1_0000 * (y / 0x1_0000);
  }

  lemma Low16Of(x: int, y: U16, k: int)
    requires x == y + 0x1_0000 * k
    ensures Low16(x) == y
  {
    var j := Low16Distance(y, x);
    assert Low16(y) == y;
  }

  lemma Low16Successor(x: int)
    ensures Low16(Low16(x) + 1) == Low16(x + 1)
  {
    var k := Low16Distance(x, x + 1);
    Low16Of(Low16(x) + 1, Low16(x + 1), k);
  }

  /** Numbers less than a cycle apart differ in 16 bits. */
  lemma Low16Distinct(x: int, y: int)
    requires x < y < x + 0x1_0000
    ensures Low16(x) != Low16(y)
  {
    var k := Low16Distance(x, y);
  }

  /** Without a wrap in between, the 16-bit parts of near numbers are as far apart as the numbers. */
  lemma NearNumber(high: int, x: int)
    requires -0x8000 < x - high < 0x8000
    ensures 0 <= Low16(high) + (x - high) < 0x1_0000 ==> Low16(x) == Low16(high) + (x - high)
    ensures high < x && Low16(high) < Low16(x) ==> Low16(x) == Low16(high) + (x - high)
  {
    var k := Low16Distance(high, x);
  }

  /** The number after one that ends a cycle begins the next one. */
  lemma NextNumber(high: int)
    ensures Low16(high + 1) == if Low16(high) == 0xFFFF then 0 else Low16(high) + 1
  {
    var k := Low16Distance(high, high + 1);
  }

  /** Distances can be taken of the 16-bit parts. */
  lemma Low16Difference(x: int, y: int, a: int, b: int)
    requires Low16(a) == Low16(x) && Low16(b) == Low16(y)
    ensures Low16(b - a) == Low16(y - x)
  {
    var j := Low16Distance(a, x);
    var k := Low16Distance(b, y);
    var n := Low16Distance(y - x, b - a);
    Low16Of(b - a, Low16(y - x), n + (y - x) / 0x1_0000);
  }
}
