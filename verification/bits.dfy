/** Bytes as bit vectors and as numbers. */
module Bits {
  lemma ByteBack(n: nat)
    requires n < 256
    ensures (n as bv8) as int == n
  {
  }

  lemma BackToByte(c: bv8)
    ensures (c as int) as bv8 == c
    ensures c < 128 ==> c as int < 128
  {
  }

  lemma SplitHighBit(b: bv8)
    ensures b & 0x7F < 128
    ensures (if b & 0x80 != 0 then 0x80 else 0) | (b & 0x7F) == b
  {
  }

  lemma SevenBits(n: nat)
    requires n < 128
    ensures (n as bv8) & 0x7F == n as bv8
  {
    assert (n as bv8) < 128;
    LowBits(n as bv8);
  }

  lemma LowBits(c: bv8)
    requires c < 128
    ensures c & 0x7F == c
  {
  }

  lemma WithHighBit(c: bv8)
    requires c & 0x7F == c
    ensures (0x80 | c) & 0x80 != 0 && (0x80 | c) & 0x7F == c && (0 | c) & 0x80 == 0 && (0 | c) & 0x7F == c
  {
  }

  lemma XorTwice(a: bv8, b: bv8)
    ensures (a ^ b) ^ b == a
  {
  }
}
