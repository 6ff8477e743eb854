/**
 * The bulk actions of the admin site (store/admin.py): restocking the selected products
 * and overwriting the status of the selected orders.
 */
module Admin {
  import opened Catalog

  /** Units each restock adds. */
  const RestockUnits: nat := 10

  /** `restock_products`: every selected product gains ten units; nothing else changes. */
  function Restocked(products: map<nat, Product>, selected: set<nat>): (r: map<nat, Product>)
    ensures r.Keys == products.Keys
    ensures forall id :: id in products && id in selected ==>
      r[id] == products[id].(quantity := products[id].quantity + RestockUnits)
    ensures forall id :: id in products && id !in selected ==> r[id] == products[id]
  {
    map id | id in products :: if id in selected then products[id].(quantity := products[id].quantity + RestockUnits) else products[id]
  }

  /** `mark_as_*`: the selected orders (by position) get status s; nothing else changes. */
  function WithStatus(orders: seq<Order>, selected: set<nat>, s: Status): (r: seq<Order>)
    ensures |r| == |orders|
    ensures forall i :: 0 <= i < |orders| && i in selected ==> r[i] == orders[i].(status := s)
    ensures forall i :: 0 <= i < |orders| && i !in selected ==> r[i] == orders[i]
  {
    seq(|orders|, i requires 0 <= i < |orders| => if i in selected then orders[i].(status := s) else orders[i])
  }

  /** Running a status action twice is the same as running it once. */
  lemma StatusIdempotent(orders: seq<Order>, selected: set<nat>, s: Status)
    ensures WithStatus(WithStatus(orders, selected, s), selected, s) == WithStatus(orders, selected, s)
  {
  }

  /** The last status action on an order decides its status, whatever came before. */
  lemma LastStatusWins(orders: seq<Order>, selected: set<nat>, s: Status, t: Status)
    ensures WithStatus(WithStatus(orders, selected, s), selected, t) == WithStatus(orders, selected, t)
  {
  }

  /** Two restocks of the same selection add twenty units. */
  lemma RestockAdds(products: map<nat, Product>, selected: set<nat>)
    ensures forall id :: id in products && id in selected ==>
      Restocked(Restocked(products, selected), selected)[id].quantity == products[id].quantity + 2 * RestockUnits
  {
  }
}
