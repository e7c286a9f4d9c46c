/**
 * The source of fresh correlation identifiers. The tracer asks for a new identifier
 * whenever it finds none; here the supply counts how many it has handed out and
 * renders the count, so that no two identifiers it hands out are equal.
 */
module Ids {
  import Decimal

  /** The identifier handed out as the n-th one. */
  function IdOf(n: nat): (id: string)
    ensures |id| > 3 && id[..3] == "id-" && id[3..] == Decimal.NatToString(n)
  {
    "id-" + Decimal.NatToString(n)
  }

  /** Handed-out identifiers never repeat. */
  lemma IdOfInjective(m: nat, n: nat)
    ensures IdOf(m) == IdOf(n) ==> m == n
  {
    if IdOf(m) == IdOf(n) {
      assert Decimal.NatToString(m) == IdOf(m)[3..] == IdOf(n)[3..] == Decimal.NatToString(n);
      Decimal.NatToStringInjective(m, n);
    }
  }

  class IdSupply {
    var issued: nat

    constructor ()
      ensures issued == 0
    {
      issued := 0;
    }

    /** Hands out the next identifier. */
    method Mint() returns (id: string)
      modifies this
      ensures id == IdOf(old(issued)) && issued == old(issued) + 1
    {
      id := IdOf(issued);
      issued := issued + 1;
    }
  }
}
