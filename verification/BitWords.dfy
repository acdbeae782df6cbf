/**
 The 64-bit words of the packet history (src/interceptors/report/receiver_stream.rs).

 The model reads a word as the sequence of its 64 bits; the machine operations on `bv64` are shown to
 be updates of that sequence.
 */
module BitWords {

  /** A word, as its bits from the least significant one up. */
  type Word = w: seq<bool> | |w| == 64 witness seq(64, _ => false)

  /** The word whose bits are given one by one. */
  function Pack(bit: bv6 -> bool): Word {
    seq(64, k requires 0 <= k < 64 => bit(k as bv6))
  }

  lemma IndexRoundTrip(i: bv6)
    ensures 0 <= i as int < 64 && (i as int) as bv6 == i
  {
  }

  lemma NumberRoundTrip(k: nat)
    requires k < 64
    ensures (k as bv6) as int == k
  {
  }

  /** Words that differ in one bit are one update apart. */
  lemma PackUpdates(before: bv6 -> bool, after: bv6 -> bool, i: bv6, value: bool)
    requires forall j :: after(j) == if j == i then value else before(j)
    ensures 0 <= i as int < 64 && Pack(after) == Pack(before)[i as int := value]
  {
    IndexRoundTrip(i);
    forall k: int | 0 <= k < 64
      ensures Pack(after)[k] == Pack(before)[i as int := value][k]
    {
      NumberRoundTrip(k);
      assert k as bv6 == i <==> k == i as int;
    }
  }

  predicate Bit(w: bv64, i: bv6) { w & ((1 as bv64) << i) != 0 }

  lemma OrMask(w: bv64, i: bv6, j: bv6)
    ensures (w | ((1 as bv64) << i)) & ((1 as bv64) << i) != 0
    ensures i != j ==> (w | ((1 as bv64) << i)) & ((1 as bv64) << j) == w & ((1 as bv64) << j)
  {
  }

  lemma OrBit(w: bv64, i: bv6, j: bv6)
    ensures Bit(w | ((1 as bv64) << i), j) <==> i == j || Bit(w, j)
  {
    OrMask(w, i, j);
  }

  lemma AndNotBit(w: bv64, i: bv6, j: bv6)
    ensures Bit(w & (0xFFFF_FFFF_FFFF_FFFF ^ ((1 as bv64) << i)), j) <==> i != j && Bit(w, j)
  {
  }

  /** The bits of a machine word. */
  function Bits(w: bv64): Word { Pack(i => Bit(w, i)) }

  /** Or-ing in `1 << i` sets bit `i` and leaves every other bit as it was. */
  lemma OrSetsOneBit(w: bv64, i: bv6)
    ensures 0 <= i as int < 64 && Bits(w | ((1 as bv64) << i)) == Bits(w)[i as int := true]
  {
    var after := w | ((1 as bv64) << i);
    forall j: bv6
      ensures Bit(after, j) == if j == i then true else Bit(w, j)
    {
      OrBit(w, i, j);
    }
    PackUpdates(j => Bit(w, j), j => Bit(after, j), i, true);
  }

  /** And-ing with `MAX ^ (1 << i)` clears bit `i` and leaves every other bit as it was. */
  lemma AndNotClearsOneBit(w: bv64, i: bv6)
    ensures 0 <= i as int < 64
    ensures Bits(w & (0xFFFF_FFFF_FFFF_FFFF ^ ((1 as bv64) << i))) == Bits(w)[i as int := false]
  {
    var after := w & (0xFFFF_FFFF_FFFF_FFFF ^ ((1 as bv64) << i));
    forall j: bv6
      ensures Bit(after, j) == if j == i then false else Bit(w, j)
    {
      AndNotBit(w, i, j);
    }
    PackUpdates(j => Bit(w, j), j => Bit(after, j), i, false);
  }
}
