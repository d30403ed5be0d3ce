/** The `defaultdict(int)` every parser fills: an order number maps to the
    sum of the quantities credited to it. Every update is `orders[k] += q`,
    which adds and never overwrites, and creates `k` at 0 first when it is
    absent. */
module OrderMaps {
  import opened Text

  type OrderMap = map<string, int>

  /** One `orders[order] += qty`. */
  datatype Credit = Credit(order: string, qty: int)

  /** `m.get(k, 0)`: an order number the map does not hold reads as 0. */
  function Get(m: OrderMap, k: string): int {
    if k in m then m[k] else 0
  }

  /** `orders[c.order] += c.qty` on a `defaultdict(int)`: an absent key is
      created at 0 first, so it is present afterwards even when `c.qty` is 0. */
  function Add(m: OrderMap, c: Credit): OrderMap {
    m[c.order := Get(m, c.order) + c.qty]
  }

  /** At most one credit: the effect of a line or token that may credit nothing. */
  function Apply(m: OrderMap, oc: Option<Credit>): OrderMap {
    match oc
    case Some(c) => Add(m, c)
    case None => m
  }

  /** What at most one credit does to order `k`: it adds `k` to the map and
      its quantity to `k`'s total exactly when it is a credit to `k`. */
  lemma ApplyAt(m: OrderMap, oc: Option<Credit>, k: string)
    ensures k in Apply(m, oc) <==> k in m || (oc.Some? && oc.value.order == k)
    ensures Get(Apply(m, oc), k) == Get(m, k) + if oc.Some? && oc.value.order == k then oc.value.qty else 0
  {
  }

  /** `for q in qs: orders[k] += q`, one quantity after the other. */
  function AddAll(m: OrderMap, k: string, qs: seq<int>): OrderMap
    decreases |qs|
  {
    if qs == [] then m else Add(AddAll(m, k, qs[..|qs| - 1]), Credit(k, qs[|qs| - 1]))
  }

  lemma AddAllSnoc(m: OrderMap, k: string, qs: seq<int>, q: int)
    ensures AddAll(m, k, qs + [q]) == Add(AddAll(m, k, qs), Credit(k, q))
  {
    assert (qs + [q])[..|qs|] == qs;
  }

  function Sum(qs: seq<int>): int
    decreases |qs|
  {
    if qs == [] then 0 else Sum(qs[..|qs| - 1]) + qs[|qs| - 1]
  }

  /** Crediting a list of quantities one by one is crediting their sum once,
      except that no quantities leave the map untouched (the key is not
      created). */
  lemma {:induction false} AddAllSum(m: OrderMap, k: string, qs: seq<int>)
    ensures AddAll(m, k, qs) == if qs == [] then m else m[k := Get(m, k) + Sum(qs)]
    decreases |qs|
  {
    if |qs| > 1 {
      AddAllSum(m, k, qs[..|qs| - 1]);
    } else if |qs| == 1 {
      assert qs[..0] == [];
    }
  }

  /** Every quantity in the map is at least 0. */
  predicate NonNegative(m: OrderMap) {
    forall k :: k in m ==> m[k] >= 0
  }

  /** Keys are order numbers and quantities are non-negative. */
  predicate WellFormed(m: OrderMap) {
    NonNegative(m) && forall k :: k in m ==> IsOrderNumber(k)
  }

  predicate AllNonNegative(qs: seq<int>) {
    forall i :: 0 <= i < |qs| ==> qs[i] >= 0
  }

  lemma {:induction false} SumNonNegative(qs: seq<int>)
    requires AllNonNegative(qs)
    ensures Sum(qs) >= 0
    decreases |qs|
  {
    if qs != [] {
      SumNonNegative(qs[..|qs| - 1]);
    }
  }
}
