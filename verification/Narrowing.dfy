/** Bytes and the numbers below 256. */
module Narrowing {
  function Narrow(n: nat): (b: bv8)
    requires n < 256
  {
    n as bv8
  }

  function Wide(b: bv8): nat {
    b as int
  }

  lemma {:induction false} NarrowBack(b: bv8)
    ensures Wide(b) < 256 && Narrow(Wide(b)) == b
  {
  }

  /** The bytes of some letters. */
  lemma {:induction false} LettersAreBytes()
    ensures Narrow(0x78) == 0x78 && Narrow(0x6D) == 0x6D && Narrow(0x6C) == 0x6C && Narrow(0x6E) == 0x6E && Narrow(0x73) == 0x73
    ensures Narrow(0x61) == 0x61 && Narrow(0x62) == 0x62 && Narrow(0x63) == 0x63
    ensures Narrow(0) == 0 && Narrow(24) == 24
  {
  }
}
