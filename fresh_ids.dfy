/**
 * The random-UUID generator, as an oracle that never repeats itself. The
 * ids it hands out are distinct by construction; their textual form is not
 * that of a UUID.
 */
module FreshIds {
  import opened Decimal

  function Uuid(n: nat): string {
    "id-" + NatToString(n)
  }

  lemma UuidInjective(m: nat, n: nat)
    requires Uuid(m) == Uuid(n)
    ensures m == n
  {
    assert Uuid(m)[3..] == NatToString(m);
    assert Uuid(n)[3..] == NatToString(n);
    NatToStringInjective(m, n);
  }

  class IdSource {
    var next: nat
    /** Every id handed out so far. */
    ghost var issued: set<string>

    ghost predicate Valid()
      reads this
    {
      issued == set k | 0 <= k < next :: Uuid(k)
    }

    constructor ()
      ensures Valid() && issued == {}
    {
      next := 0;
      issued := {};
    }

    /** `randomUUID()`: an id never handed out before. */
    method Fresh() returns (id: string)
      requires Valid()
      modifies this
      ensures Valid()
      ensures id !in old(issued) && issued == old(issued) + {id}
    {
      id := Uuid(next);
      forall k | 0 <= k < next
        ensures Uuid(k) != id
      {
        if Uuid(k) == id {
          UuidInjective(k, next);
        }
      }
      next := next + 1;
      issued := issued + {id};
    }
  }
}
