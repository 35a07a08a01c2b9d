/** `System.Guid` and `Guid.NewGuid()`. A Guid is modelled by a natural number;
    `Guid.Empty` (the C# `default`) is 0, and the generator hands out 1, 2, 3, ...,
    so every Guid it returns differs from every Guid it returned before. */
module Ids {

  datatype Guid = Guid(value: nat)

  /** `default(Guid)`, i.e. `Guid.Empty`. */
  const Empty := Guid(0)

  /** `Guid.GetHashCode()`: any function of the Guid would do; the model uses its number. */
  function HashOf(g: Guid): int { g.value }

  /** The process-wide supply of new Guids. */
  class GuidSource {
    var issued: nat

    constructor ()
      ensures issued == 0
    {
      issued := 0;
    }

    /** True iff `g` was handed out by this source. */
    predicate WasIssued(g: Guid)
      reads this
    {
      1 <= g.value <= issued
    }

    /** `Guid.NewGuid()`. */
    method NewGuid() returns (g: Guid)
      modifies this
      ensures issued == old(issued) + 1
      ensures g != Empty && WasIssued(g)
      ensures !old(WasIssued(g))
    {
      issued := issued + 1;
      g := Guid(issued);
    }
  }
}
