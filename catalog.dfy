/**
 * Rows of the product and order tables (store/models/product.py, store/models/order.py)
 * and the pure parts of their behaviour: the guarded stock decrement, the category
 * filter and the price default applied when an order is saved.
 */
module Catalog {
  import opened Common

  /** A product row. `price` is an IntegerField; `quantity` is the stock, a PositiveIntegerField. */
  datatype Product = Product(name: string, price: int, category: nat, quantity: nat)

  /** The four status choices of an order. */
  datatype Status = Pending | Shipped | Delivered | Cancelled

  /**
   * An order row. `price` is None while the in-memory instance has no price yet;
   * every saved row has Some price.
   */
  datatype Order = Order(customer: nat, product: nat, price: Option<int>, status: Status,
                         address: string, phone: string, quantity: nat)

  /**
   * What `Product.reduce_stock(amount)` does to the row: the product afterwards and
   * the returned flag.
   */
  function StockReduction(p: Product, amount: nat): (r: (Product, bool))
    ensures r.1 <==> amount <= p.quantity
    ensures r.1 ==> r.0.quantity + amount == p.quantity
    ensures !r.1 ==> r.0 == p
    ensures r.0 == p.(quantity := r.0.quantity)
  {
    if p.quantity >= amount then (p.(quantity := p.quantity - amount), true) else (p, false)
  }

  /** Reducing by zero always succeeds and changes nothing. */
  lemma ReduceByZero(p: Product)
    ensures StockReduction(p, 0) == (p, true)
  {
  }

  /**
   * `get_all_products_by_categoryid`: a truthy category id selects the products of that
   * category, a falsy one (None) selects every product.
   */
  function ProductsByCategory(products: map<nat, Product>, categoryId: Option<nat>): (r: map<nat, Product>)
    ensures forall id :: id in r ==> id in products && r[id] == products[id]
    ensures categoryId.None? ==> r == products
    ensures categoryId.Some? ==>
      forall id :: id in products ==> (id in r <==> products[id].category == categoryId.value)
  {
    match categoryId
    case None => products
    case Some(c) => map id | id in products && products[id].category == c :: products[id]
  }

  /**
   * `Index.get`'s product selection: the category query parameter when given, otherwise
   * every product.
   */
  function IndexProducts(products: map<nat, Product>, categoryParam: Option<nat>): (r: map<nat, Product>)
    ensures r == ProductsByCategory(products, categoryParam)
  {
    if categoryParam.Some? then ProductsByCategory(products, categoryParam) else products
  }

  /** A freshly built order with the model's field defaults. */
  function NewOrder(customer: nat, product: nat): (o: Order)
    ensures o.status == Pending && o.quantity == 1 && o.price == None
    ensures o.address == "" && o.phone == ""
  {
    Order(customer, product, None, Pending, "", "", 1)
  }

  /**
   * The row that `Order.save` writes: an unset or zero price becomes the product's
   * unit price times the quantity; any other price is kept.
   */
  function Saved(o: Order, unitPrice: int): (r: Order)
    ensures r.price.Some?
    ensures (o.price == None || o.price == Some(0)) ==> r.price == Some(unitPrice * o.quantity)
    ensures (o.price.Some? && o.price.value != 0) ==> r.price == o.price
    ensures r == o.(price := r.price)
  {
    if o.price == None || o.price == Some(0) then o.(price := Some(unitPrice * o.quantity)) else o
  }

  /** Saving twice writes the same price as saving once. */
  lemma SaveIdempotent(o: Order, unitPrice: int)
    ensures Saved(Saved(o, unitPrice), unitPrice) == Saved(o, unitPrice)
  {
  }

  /** An order created with price = unit price × quantity is saved with that price, zero or not. */
  lemma SaveKeepsLineTotal(o: Order, unitPrice: int)
    requires o.price == Some(unitPrice * o.quantity)
    ensures Saved(o, unitPrice) == o
  {
  }
}
