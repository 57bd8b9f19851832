/** Shared wrappers and the finite-set facts used by the protocol proofs. */
module Common {

  const I64_MAX: nat := 0x7FFF_FFFF_FFFF_FFFF

  datatype Option<+T> = None | Some(value: T)

  datatype Result<+T, +E> = Ok(value: T) | Err(error: E)

  /** The numbers below `g`. */
  function Below(g: nat): (ids: set<nat>)
    ensures |ids| == g && forall id: nat :: id in ids <==> id < g
  {
    if g == 0 then {} else Below(g - 1) + {g - 1}
  }

  /** Finitely many keys mapped injectively below `n` are at most `n` keys. */
  lemma {:induction false} Pigeonhole(keys: set<nat>, slot: map<nat, nat>, n: nat)
    requires keys <= slot.Keys
    requires forall k | k in keys :: slot[k] < n
    requires forall j, k | j in keys && k in keys && slot[j] == slot[k] :: j == k
    ensures |keys| <= n
    decreases n
  {
    if n == 0 {
      assert keys == {};
    } else if exists k :: k in keys && slot[k] == n - 1 {
      var k :| k in keys && slot[k] == n - 1;
      Pigeonhole(keys - {k}, slot, n - 1);
    } else {
      Pigeonhole(keys, slot, n - 1);
    }
  }

  lemma {:induction false} SubsetCardinality<T>(a: set<T>, b: set<T>)
    requires a <= b
    ensures |a| <= |b|
    decreases |a|
  {
    if a != {} {
      var x :| x in a;
      SubsetCardinality(a - {x}, b - {x});
    }
  }
}
