/**
 * The store's tables and the operations that change them: `reduce_stock` and `Order.save`
 * on rows (store/models), the admin bulk actions (store/admin.py) and the checkout views
 * (store/views/checkout.py) with their commit loop over the accepted cart lines.
 */
module Storefront {
  import opened Common
  import opened Catalog
  import opened Carts
  import opened Pricing
  import opened Reports
  import opened Receipt
  import opened Admin

  /** A customer row, as far as checkout reads it. */
  datatype Customer = Customer(firstName: string, lastName: string)

  /** The tables the commit loop writes. */
  datatype Tables = Tables(products: map<nat, Product>, orders: seq<Order>, reportOrders: seq<ReportOrder>,
                           reportProducts: map<string, ReportProduct>, orderItems: seq<OrderItem>)

  /** Where the commit loop stops: after the last line, or at the line whose stock update failed. */
  datatype CommitResult = Committed(tables: Tables) | Failed(tables: Tables, name: string)

  /** The tables once the completed sale header `ro`, with no linked user and the grand total, has been created. */
  function Opened(t: Tables, ro: nat, totalCents: int): Tables {
    t.(reportOrders := t.reportOrders + [ReportOrder(ro, None, true, totalCents)])
  }

  /** The tables once the ReportOrder `ro` has been deleted, its OrderItems with it. */
  function Deleted(t: Tables, ro: nat): Tables {
    t.(reportOrders := DeleteReportOrder(t.reportOrders, ro), orderItems := CascadeItems(t.orderItems, ro))
  }

  /** The Order the commit loop creates for a line. */
  function OrderFor(l: Line, customer: nat, address: string, phone: string): Order {
    Order(customer, l.id, Some(l.total), Pending, address, phone, l.qty)
  }

  /**
   * One pass of the commit loop: `reduce_stock` on the line's in-memory product, then on
   * success the Order, the ReportProduct upsert by name and the OrderItem under `ro`.
   */
  function CommitLine(t: Tables, l: Line, customer: nat, address: string, phone: string, ro: nat): (r: CommitResult)
    ensures r.tables.reportOrders == t.reportOrders
    ensures r.Failed? <==> l.product.quantity < l.qty
    ensures r.Failed? ==> r.tables == t && r.name == l.product.name
  {
    var red := StockReduction(l.product, l.qty);
    var p := red.0;
    if !red.1 then Failed(t, l.product.name)
    else Committed(Tables(
      t.products[l.id := p],
      t.orders + [Saved(OrderFor(l, customer, address, phone), p.price)],
      t.reportOrders,
      t.reportProducts[p.name := ReportProduct(100 * p.price, p.quantity)],
      t.orderItems + [OrderItem(ro, Some(p.name), l.qty, 100 * p.price)]))
  }

  /**
   * The commit loop over the accepted lines, in order. Rows are only ever appended, and
   * every OrderItem it adds hangs under `ro`.
   */
  function CommitLines(t: Tables, lines: seq<Line>, customer: nat, address: string, phone: string, ro: nat): (r: CommitResult)
    ensures r.tables.reportOrders == t.reportOrders
    ensures t.products.Keys <= r.tables.products.Keys
    ensures |t.orders| <= |r.tables.orders| && r.tables.orders[..|t.orders|] == t.orders
    ensures |t.orderItems| <= |r.tables.orderItems| && r.tables.orderItems[..|t.orderItems|] == t.orderItems
    ensures forall k :: |t.orderItems| <= k < |r.tables.orderItems| ==> r.tables.orderItems[k].order == ro
    decreases |lines|
  {
    if lines == [] then Committed(t)
    else
      match CommitLines(t, lines[..|lines| - 1], customer, address, phone, ro)
      case Failed(t', n) => Failed(t', n)
      case Committed(t') =>
        var r := CommitLine(t', lines[|lines| - 1], customer, address, phone, ro);
        assert r.tables.orders[..|t.orders|] == t'.orders[..|t.orders|];
        assert r.tables.orderItems[..|t.orderItems|] == t'.orderItems[..|t.orderItems|];
        r
  }

  /** One more line: the commit of a prefix that went through, followed by the next line. */
  lemma CommitLinesSnoc(t: Tables, lines: seq<Line>, i: nat, customer: nat, address: string, phone: string, ro: nat, u: Tables)
    requires i < |lines| && CommitLines(t, lines[..i], customer, address, phone, ro) == Committed(u)
    ensures CommitLines(t, lines[..i + 1], customer, address, phone, ro) == CommitLine(u, lines[i], customer, address, phone, ro)
  {
    assert lines[..i + 1][..i] == lines[..i];
  }

  /** The Order rows a fully successful commit appends, one per line. */
  function OrderRows(lines: seq<Line>, customer: nat, address: string, phone: string): (r: seq<Order>)
    ensures |r| == |lines|
    ensures forall k :: 0 <= k < |lines| && lines[k].total == lines[k].product.price * lines[k].qty ==>
      r[k] == OrderFor(lines[k], customer, address, phone)
  {
    if lines == [] then []
    else
      var l := lines[|lines| - 1];
      OrderRows(lines[..|lines| - 1], customer, address, phone) + [Saved(OrderFor(l, customer, address, phone), l.product.price)]
  }

  /** The OrderItem rows a fully successful commit appends under `ro`, one per line. */
  function ItemRows(lines: seq<Line>, ro: nat): (r: seq<OrderItem>)
    ensures |r| == |lines|
    ensures forall k :: 0 <= k < |lines| ==>
      r[k] == OrderItem(ro, Some(lines[k].product.name), lines[k].qty, 100 * lines[k].product.price)
  {
    if lines == [] then []
    else
      var l := lines[|lines| - 1];
      ItemRows(lines[..|lines| - 1], ro) + [OrderItem(ro, Some(l.product.name), l.qty, 100 * l.product.price)]
  }

  /** Every line was checked `quantity >= qty` against the very product object it carries. */
  predicate Checked(lines: seq<Line>) {
    forall k :: 0 <= k < |lines| ==> lines[k].qty <= lines[k].product.quantity
  }

  /**
   * Once the loop has failed, the later lines change nothing: the result is the one at
   * the failing line.
   */
  lemma {:induction false} FailureIsFinal(t: Tables, lines: seq<Line>, n: nat, customer: nat, address: string, phone: string, ro: nat)
    requires n <= |lines|
    requires CommitLines(t, lines[..n], customer, address, phone, ro).Failed?
    ensures CommitLines(t, lines, customer, address, phone, ro) == CommitLines(t, lines[..n], customer, address, phone, ro)
    decreases |lines| - n
  {
    if n < |lines| {
      assert lines[..|lines| - 1][..n] == lines[..n];
      FailureIsFinal(t, lines[..|lines| - 1], n, customer, address, phone, ro);
    } else {
      assert lines[..n] == lines;
    }
  }

  /**
   * A failed commit stopped at some line k whose product was short: the tables it leaves
   * are those after committing exactly the lines before k.
   */
  lemma {:induction false} FailedAt(t: Tables, lines: seq<Line>, customer: nat, address: string, phone: string, ro: nat)
    requires CommitLines(t, lines, customer, address, phone, ro).Failed?
    ensures var r := CommitLines(t, lines, customer, address, phone, ro);
      exists k :: (0 <= k < |lines| && lines[k].product.quantity < lines[k].qty && r.name == lines[k].product.name &&
                   CommitLines(t, lines[..k], customer, address, phone, ro) == Committed(r.tables))
  {
    var r := CommitLines(t, lines, customer, address, phone, ro);
    var front := lines[..|lines| - 1];
    if CommitLines(t, front, customer, address, phone, ro).Failed? {
      FailedAt(t, front, customer, address, phone, ro);
      var k :| 0 <= k < |front| && front[k].product.quantity < front[k].qty &&
        r.name == front[k].product.name &&
        CommitLines(t, front[..k], customer, address, phone, ro) == Committed(r.tables);
      assert front[..k] == lines[..k] && front[k] == lines[k];
    } else {
      var k := |lines| - 1;
      assert lines[..k] == front;
      assert lines[k].product.quantity < lines[k].qty && r.name == lines[k].product.name;
    }
  }

  /**
   * In a single-threaded run the commit never fails on checked lines: each `reduce_stock`
   * runs on the object whose quantity was compared with the line's qty. It appends one
   * Order and one OrderItem per line.
   */
  lemma {:induction false} CommitNeverFails(t: Tables, lines: seq<Line>, customer: nat, address: string, phone: string, ro: nat)
    requires Checked(lines)
    ensures var r := CommitLines(t, lines, customer, address, phone, ro);
      r.Committed? &&
      r.tables.orders == t.orders + OrderRows(lines, customer, address, phone) &&
      r.tables.orderItems == t.orderItems + ItemRows(lines, ro)
  {
    if lines != [] {
      var front := lines[..|lines| - 1];
      assert Checked(front) by {
        forall k | 0 <= k < |front| ensures front[k].qty <= front[k].product.quantity {
          assert front[k] == lines[k];
        }
      }
      CommitNeverFails(t, front, customer, address, phone, ro);
      assert lines[|lines| - 1].qty <= lines[|lines| - 1].product.quantity;
    }
  }

  /**
   * On checked lines with distinct products, each line's product row ends as its
   * in-memory product lowered by exactly qty; products on no line are untouched.
   */
  lemma {:induction false} CommitStock(t: Tables, lines: seq<Line>, customer: nat, address: string, phone: string, ro: nat)
    requires Checked(lines) && DistinctIds(lines)
    ensures var r := CommitLines(t, lines, customer, address, phone, ro);
      (forall k :: 0 <= k < |lines| ==>
        lines[k].id in r.tables.products &&
        r.tables.products[lines[k].id] == lines[k].product.(quantity := lines[k].product.quantity - lines[k].qty)) &&
      (forall id :: id in t.products && (forall k :: 0 <= k < |lines| ==> lines[k].id != id) ==>
        r.tables.products[id] == t.products[id])
  {
    if lines != [] {
      var front := lines[..|lines| - 1];
      var l := lines[|lines| - 1];
      assert Checked(front) && DistinctIds(front) by {
        forall k | 0 <= k < |front| ensures front[k] == lines[k] { }
      }
      CommitStock(t, front, customer, address, phone, ro);
      CommitNeverFails(t, front, customer, address, phone, ro);
      forall k | 0 <= k < |front| ensures front[k].id != l.id && front[k] == lines[k] { }
    }
  }

  /** No line after line k is for a product of the same name. */
  predicate LastWithName(lines: seq<Line>, k: nat) {
    forall j :: k < j < |lines| ==> lines[j].product.name != lines[k].product.name
  }

  /** No line is for a product called n. */
  predicate NoLineNamed(lines: seq<Line>, n: string) {
    forall k :: 0 <= k < |lines| ==> lines[k].product.name != n
  }

  /** On checked lines, the last line writes its product's ReportProduct over what came before. */
  lemma CommitReportProductsStep(t: Tables, lines: seq<Line>, customer: nat, address: string, phone: string, ro: nat)
    requires lines != [] && Checked(lines)
    ensures var l := lines[|lines| - 1];
      CommitLines(t, lines, customer, address, phone, ro).tables.reportProducts ==
      CommitLines(t, lines[..|lines| - 1], customer, address, phone, ro).tables.reportProducts
        [l.product.name := ReportProduct(100 * l.product.price, l.product.quantity - l.qty)]
  {
    var front := lines[..|lines| - 1];
    assert Checked(front) by {
      forall k | 0 <= k < |front| ensures front[k] == lines[k] { }
    }
    CommitNeverFails(t, front, customer, address, phone, ro);
  }

  /**
   * On checked lines, the ReportProduct named after a line's product holds the product's
   * price and post-reduction stock of the last line with that name.
   */
  lemma {:induction false} CommitReportProducts(t: Tables, lines: seq<Line>, customer: nat, address: string, phone: string, ro: nat)
    requires Checked(lines)
    ensures var rp := CommitLines(t, lines, customer, address, phone, ro).tables.reportProducts;
      forall k :: 0 <= k < |lines| && LastWithName(lines, k) ==>
        lines[k].product.name in rp &&
        rp[lines[k].product.name] == ReportProduct(100 * lines[k].product.price, lines[k].product.quantity - lines[k].qty)
  {
    if lines != [] {
      var front := lines[..|lines| - 1];
      var l := lines[|lines| - 1];
      assert Checked(front) by {
        forall k | 0 <= k < |front| ensures front[k] == lines[k] { }
      }
      CommitReportProducts(t, front, customer, address, phone, ro);
      CommitReportProductsStep(t, lines, customer, address, phone, ro);
      forall k | 0 <= k < |lines| - 1 && LastWithName(lines, k)
        ensures LastWithName(front, k) && lines[k].product.name != l.product.name
      {
        assert front[k] == lines[k];
      }
    }
  }

  /** On checked lines, ReportProducts named after no line's product keep their rows. */
  lemma {:induction false} CommitKeepsOtherReportProducts(t: Tables, lines: seq<Line>, customer: nat, address: string, phone: string, ro: nat)
    requires Checked(lines)
    ensures var rp := CommitLines(t, lines, customer, address, phone, ro).tables.reportProducts;
      forall n :: n in t.reportProducts && NoLineNamed(lines, n) ==> n in rp && rp[n] == t.reportProducts[n]
  {
    if lines != [] {
      var front := lines[..|lines| - 1];
      var l := lines[|lines| - 1];
      assert Checked(front) by {
        forall k | 0 <= k < |front| ensures front[k] == lines[k] { }
      }
      CommitKeepsOtherReportProducts(t, front, customer, address, phone, ro);
      CommitReportProductsStep(t, lines, customer, address, phone, ro);
      forall n | NoLineNamed(lines, n)
        ensures NoLineNamed(front, n) && n != l.product.name
      {
        assert lines[|lines| - 1] == l;
      }
    }
  }

  /**
   * Deleting the sale header after a commit, finished or failed, removes exactly the
   * report rows the commit created: the ReportOrder and every OrderItem under it.
   */
  lemma FailureUndoesReportRows(t: Tables, lines: seq<Line>, customer: nat, address: string, phone: string, ro: nat, totalCents: int)
    requires forall x :: x in t.reportOrders ==> x.id != ro
    requires forall it :: it in t.orderItems ==> it.order != ro
    ensures var r := CommitLines(Opened(t, ro, totalCents), lines, customer, address, phone, ro);
      Deleted(r.tables, ro).reportOrders == t.reportOrders &&
      Deleted(r.tables, ro).orderItems == t.orderItems
  {
    var r := CommitLines(Opened(t, ro, totalCents), lines, customer, address, phone, ro);
    var ros := t.reportOrders + [ReportOrder(ro, None, true, totalCents)];
    assert ros[..|ros| - 1] == t.reportOrders;
    var items := r.tables.orderItems;
    assert items == t.orderItems + items[|t.orderItems|..];
    CascadeRemovesAppended(t.orderItems, items[|t.orderItems|..], ro);
  }

  /** Missing form value: absent or empty. */
  predicate Missing(v: Option<string>) {
    v.None? || v.value == ""
  }

  /** `Checkout.post`'s failure message when a stock update fails. */
  function StockUpdateMessage(name: string): string {
    "Stock update failed for " + name
  }

  /** The rows of the receipt's item table, one per line. */
  function RowsFor(lines: seq<Line>): (rows: seq<ReceiptRow>)
    ensures |rows| == |lines|
    ensures forall i :: 0 <= i < |lines| ==> rows[i] == RowFor(lines[i], i)
  {
    seq(|lines|, i requires 0 <= i < |lines| => RowFor(lines[i], i))
  }

  /** The receipt of an accepted checkout. */
  function ReceiptFor(c: Customer, destination: string, phone: string, lines: seq<Line>, totals: Totals): (r: Receipt)
    ensures |r.rows| == |lines|
    ensures forall k :: 0 <= k < 7 ==> FooterBaseline < TotalsBaselines(r.totalsY)[k] <= TopY
  {
    TotalsAboveFooter(|lines|);
    var start := TotalsStart(CursorAfter(|lines|), PageAfter(|lines|));
    Receipt(c.firstName + " " + c.lastName, destination, phone, RowsFor(lines), totals, start.0, start.1)
  }

  /** What a checkout request answers with. */
  datatype Outcome =
    | RedirectToCart
    | RedirectToLogin
    | StockShortage(lines: seq<Line>, subtotal: int, error: string)
    | CheckoutPage(lines: seq<Line>, totals: Totals, customer: Option<Customer>)
    | MissingDeliveryInfo(lines: seq<Line>, totals: Totals, shopper: Customer)
    | StockUpdateFailed(lines: seq<Line>, subtotal: int, error: string)
    | ReceiptIssued(receipt: Receipt)

  /**
   * `Checkout.get`: an empty cart goes back to the cart, a shortage shows the error with
   * the accepted lines, an unknown logged-in customer goes to login; otherwise the page
   * with the totals (and the customer when one is logged in).
   */
  function CheckoutView(cart: Cart, products: map<nat, Product>, customerId: Option<nat>,
                        customers: map<nat, Customer>): (r: Outcome)
    ensures r == RedirectToCart <==> cart == []
    ensures r.StockShortage? <==> cart != [] && Priced(cart, products).outOfStock != []
  {
    if cart == [] then RedirectToCart
    else
      var q := Priced(cart, products);
      if q.outOfStock != [] then StockShortage(q.lines, q.subtotal, StockErrorMessage(q.outOfStock))
      else if customerId.Some? && customerId.value != 0 then
        if customerId.value in customers then CheckoutPage(q.lines, TotalsFor(q.subtotal), Some(customers[customerId.value]))
        else RedirectToLogin
      else CheckoutPage(q.lines, TotalsFor(q.subtotal), None)
  }

  /**
   * The guards of `Checkout.post`, in order: empty cart, stock, customer, delivery fields.
   * None when every guard passes and the commit runs.
   */
  function PostGuard(cart: Cart, products: map<nat, Product>, customerId: Option<nat>,
                     customers: map<nat, Customer>, destination: Option<string>, phone: Option<string>): (r: Option<Outcome>)
    ensures r == Some(RedirectToCart) <==> cart == []
    ensures (r.Some? && r.value.StockShortage?) <==> cart != [] && Priced(cart, products).outOfStock != []
  {
    if cart == [] then Some(RedirectToCart)
    else
      var q := Priced(cart, products);
      if q.outOfStock != [] then Some(StockShortage(q.lines, q.subtotal, StockErrorMessage(q.outOfStock)))
      else if customerId.None? || customerId.value == 0 || customerId.value !in customers then Some(RedirectToLogin)
      else if Missing(destination) || Missing(phone) then
        Some(MissingDeliveryInfo(q.lines, TotalsFor(q.subtotal), customers[customerId.value]))
      else None
  }

  /** The commit runs exactly when the cart is non-empty, nothing is short, a known customer is logged in and both fields are given. */
  lemma GuardsPass(cart: Cart, products: map<nat, Product>, customerId: Option<nat>,
                   customers: map<nat, Customer>, destination: Option<string>, phone: Option<string>)
    ensures PostGuard(cart, products, customerId, customers, destination, phone).None? <==>
      cart != [] && (forall e :: e in cart ==> !Short(e, products)) &&
      customerId.Some? && customerId.value != 0 && customerId.value in customers &&
      !Missing(destination) && !Missing(phone)
  {
  }

  /**
   * `get` and `post` agree up to the customer check: both redirect on an empty cart and
   * show the same shortage; where `get` shows the page for a known customer, `post` either
   * commits or asks for the delivery fields.
   */
  lemma GetAgreesWithPost(cart: Cart, products: map<nat, Product>, customerId: Option<nat>,
                          customers: map<nat, Customer>, destination: Option<string>, phone: Option<string>)
    ensures var v := CheckoutView(cart, products, customerId, customers);
      var g := PostGuard(cart, products, customerId, customers, destination, phone);
      (v.RedirectToCart? || v.StockShortage? || v.RedirectToLogin? ==> g == Some(v)) &&
      (v.CheckoutPage? && v.customer.Some? ==>
        g.None? || g == Some(MissingDeliveryInfo(v.lines, v.totals, v.customer.value))) &&
      (v.CheckoutPage? && v.customer.None? ==> g == Some(RedirectToLogin))
  {
  }

  /**
   * The database, as in-memory tables. Checkout runs single-threaded, so the products it
   * reads are the rows of `products`.
   */
  class Store {
    var products: map<nat, Product>
    var customers: map<nat, Customer>
    var orders: seq<Order>
    var reportOrders: seq<ReportOrder>
    var reportProducts: map<string, ReportProduct>
    var orderItems: seq<OrderItem>
    /** The primary key the next ReportOrder gets. */
    var nextReportId: nat

    /** Keys below the next id are the only ones in use; every saved Order has a price. */
    ghost predicate Valid()
      reads this
    {
      (forall ro :: ro in reportOrders ==> ro.id < nextReportId) &&
      (forall it :: it in orderItems ==> it.order < nextReportId) &&
      (forall o :: o in orders ==> o.price.Some?)
    }

    /** The tables the commit loop writes. */
    function Snapshot(): Tables
      reads this
    {
      Tables(products, orders, reportOrders, reportProducts, orderItems)
    }

    constructor (products: map<nat, Product>, customers: map<nat, Customer>)
      ensures Valid() && this.products == products && this.customers == customers
      ensures orders == [] && reportOrders == [] && reportProducts == map[] && orderItems == []
      ensures nextReportId == 1
    {
      this.products := products;
      this.customers := customers;
      orders := [];
      reportOrders := [];
      reportProducts := map[];
      orderItems := [];
      nextReportId := 1;
    }

    /**
     * `Product.reduce_stock` on the in-memory instance `p` of row `id`: the decremented
     * instance is saved over the row on success; on failure nothing is written.
     */
    method ReduceStock(id: nat, p: Product, amount: nat) returns (reduced: Product, ok: bool)
      requires Valid()
      modifies this`products
      ensures Valid()
      ensures (reduced, ok) == StockReduction(p, amount)
      ensures products == if ok then old(products)[id := reduced] else old(products)
    {
      if p.quantity >= amount {
        reduced := p.(quantity := p.quantity - amount);
        products := products[id := reduced];
        ok := true;
      } else {
        reduced, ok := p, false;
      }
    }

    /** `Order.save`: an unset or zero price becomes unit price × quantity before the row is stored. */
    method SaveOrder(o: Order, unitPrice: int)
      requires Valid()
      modifies this`orders
      ensures Valid()
      ensures orders == old(orders) + [Saved(o, unitPrice)]
    {
      var row := o;
      if row.price == None || row.price == Some(0) {
        row := row.(price := Some(unitPrice * row.quantity));
      }
      orders := orders + [row];
    }

    /** `restock_products`: ten more units for every selected product; the count of rows updated. */
    method RestockProducts(selected: set<nat>) returns (updated: nat)
      requires Valid() && selected <= products.Keys
      modifies this`products
      ensures Valid()
      ensures products == Restocked(old(products), selected)
      ensures updated == |selected|
    {
      products := Restocked(products, selected);
      updated := |selected|;
    }

    /** The status actions: every selected order (by position) gets status s. */
    method MarkStatus(selected: set<nat>, s: Status)
      requires Valid()
      modifies this`orders
      ensures Valid()
      ensures orders == WithStatus(old(orders), selected, s)
      ensures products == old(products)
    {
      orders := WithStatus(orders, selected, s);
    }

    /** `mark_as_shipped`. */
    method MarkAsShipped(selected: set<nat>)
      requires Valid()
      modifies this`orders
      ensures Valid()
      ensures orders == WithStatus(old(orders), selected, Shipped)
    {
      MarkStatus(selected, Shipped);
    }

    /** `mark_as_delivered`. */
    method MarkAsDelivered(selected: set<nat>)
      requires Valid()
      modifies this`orders
      ensures Valid()
      ensures orders == WithStatus(old(orders), selected, Delivered)
    {
      MarkStatus(selected, Delivered);
    }

    /** `mark_as_cancelled`: only statuses change; no stock goes back to the products. */
    method MarkAsCancelled(selected: set<nat>)
      requires Valid()
      modifies this`orders
      ensures Valid()
      ensures orders == WithStatus(old(orders), selected, Cancelled)
      ensures products == old(products)
    {
      MarkStatus(selected, Cancelled);
    }

    /** One pass of the commit loop over line l, under the sale header ro. */
    method CommitStep(l: Line, customer: nat, address: string, phone: string, ro: nat) returns (ok: bool)
      requires Valid() && ro < nextReportId
      modifies this`products, this`orders, this`reportProducts, this`orderItems
      ensures Valid()
      ensures var r := CommitLine(old(Snapshot()), l, customer, address, phone, ro);
        ok == r.Committed? && Snapshot() == r.tables
    {
      var reduced;
      reduced, ok := ReduceStock(l.id, l.product, l.qty);
      if !ok {
        return;
      }
      SaveOrder(OrderFor(l, customer, address, phone), reduced.price);
      reportProducts := reportProducts[reduced.name := ReportProduct(100 * reduced.price, reduced.quantity)];
      orderItems := orderItems + [OrderItem(ro, Some(reduced.name), l.qty, 100 * reduced.price)];
    }

    /** The commit loop over the lines under the sale header ro; stops at the first line that fails. */
    method CommitEach(lines: seq<Line>, customer: nat, address: string, phone: string, ro: nat)
      returns (failure: Option<string>)
      requires Valid() && ro < nextReportId
      modifies this`products, this`orders, this`reportProducts, this`orderItems
      ensures Valid()
      ensures var r := CommitLines(old(Snapshot()), lines, customer, address, phone, ro);
        Snapshot() == r.tables && (failure == if r.Failed? then Some(r.name) else None)
    {
      ghost var t0 := Snapshot();
      var i := 0;
      while i < |lines|
        invariant 0 <= i <= |lines|
        invariant CommitLines(t0, lines[..i], customer, address, phone, ro) == Committed(Snapshot())
        invariant Valid() && ro < nextReportId
      {
        CommitLinesSnoc(t0, lines, i, customer, address, phone, ro, Snapshot());
        var ok := CommitStep(lines[i], customer, address, phone, ro);
        if !ok {
          FailureIsFinal(t0, lines, i + 1, customer, address, phone, ro);
          return Some(lines[i].product.name);
        }
        i := i + 1;
      }
      assert lines[..|lines|] == lines;
      failure := None;
    }

    /**
     * The commit of `Checkout.post`: creates the sale header, then runs the loop over the
     * lines; when a stock update fails the header is deleted (its items cascade) and the
     * failing product's name is returned. Work done for earlier lines stays.
     */
    method CommitCart(lines: seq<Line>, customer: nat, address: string, phone: string, totalCents: int)
      returns (failure: Option<string>)
      requires Valid()
      modifies this`products, this`orders, this`reportOrders, this`reportProducts, this`orderItems, this`nextReportId
      ensures Valid() && nextReportId == old(nextReportId) + 1
      ensures var ro := old(nextReportId);
        var r := CommitLines(Opened(old(Snapshot()), ro, totalCents), lines, customer, address, phone, ro);
        (r.Committed? ==> failure == None && Snapshot() == r.tables) &&
        (r.Failed? ==> failure == Some(r.name) && Snapshot() == Deleted(r.tables, ro))
    {
      var ro := nextReportId;
      reportOrders := reportOrders + [ReportOrder(ro, None, true, totalCents)];
      nextReportId := nextReportId + 1;
      failure := CommitEach(lines, customer, address, phone, ro);
      if failure.Some? {
        reportOrders := DeleteReportOrder(reportOrders, ro);
        orderItems := CascadeItems(orderItems, ro);
      }
    }

    /**
     * `Checkout.get`: prices the session's cart; an unknown logged-in customer is dropped
     * from the session. No table changes.
     */
    method CheckoutGet(session: Session) returns (out: Outcome)
      requires session.Valid()
      modifies session
      ensures session.Valid() && session.carts == old(session.carts)
      ensures out == CheckoutView(old(session.Current()), products, old(session.customer), customers)
      ensures session.customer == if out.RedirectToLogin? then None else old(session.customer)
    {
      var cart := session.Current();
      if cart == [] {
        return RedirectToCart;
      }
      var q := PriceCart(cart, products);
      if q.outOfStock != [] {
        return StockShortage(q.lines, q.subtotal, StockErrorMessage(q.outOfStock));
      }
      var totals := TotalsFor(q.subtotal);
      var cid := session.customer;
      if cid.Some? && cid.value != 0 {
        if cid.value !in customers {
          session.ForgetCustomer();
          return RedirectToLogin;
        }
        return CheckoutPage(q.lines, totals, Some(customers[cid.value]));
      }
      return CheckoutPage(q.lines, totals, None);
    }

    /** The receipt of a finished checkout: the item rows laid out page by page, then the totals block. */
    method IssueReceipt(c: Customer, destination: string, phone: string, lines: seq<Line>, totals: Totals)
      returns (receipt: Receipt)
      ensures receipt == ReceiptFor(c, destination, phone, lines, totals)
      ensures |receipt.rows| == |lines|
      ensures forall k :: 0 <= k < 7 ==> FooterBaseline < TotalsBaselines(receipt.totalsY)[k] <= TopY
    {
      var rows, endY, lastPage := LayoutRows(lines);
      assert rows == RowsFor(lines);
      var start := TotalsStart(endY, lastPage);
      TotalsAboveFooter(|lines|);
      receipt := Receipt(c.firstName + " " + c.lastName, destination, phone, rows, totals, start.0, start.1);
    }

    /**
     * The part of `Checkout.post` past its guards: the commit, then either the failure page
     * with the cart kept, or the receipt with the cart cleared.
     */
    method PlaceOrder(session: Session, lines: seq<Line>, subtotal: int, cid: nat, shopper: Customer,
                      destination: string, phone: string) returns (out: Outcome)
      requires Valid() && session.Valid()
      modifies this`products, this`orders, this`reportOrders, this`reportProducts, this`orderItems, this`nextReportId
      modifies session
      ensures Valid() && session.Valid() && session.customer == old(session.customer)
      ensures var totals := TotalsFor(subtotal);
        var ro := old(nextReportId);
        var r := CommitLines(Opened(old(Snapshot()), ro, totals.totalCents), lines, cid, destination, phone, ro);
        nextReportId == ro + 1 &&
        (r.Committed? ==>
          Snapshot() == r.tables && session.carts == old(session.carts)[old(session.Key()) := []] &&
          out == ReceiptIssued(ReceiptFor(shopper, destination, phone, lines, totals))) &&
        (r.Failed? ==>
          Snapshot() == Deleted(r.tables, ro) && session.carts == old(session.carts) &&
          out == StockUpdateFailed(lines, subtotal, StockUpdateMessage(r.name)))
    {
      var totals := TotalsFor(subtotal);
      var failure := CommitCart(lines, cid, destination, phone, totals.totalCents);
      if failure.Some? {
        return StockUpdateFailed(lines, subtotal, StockUpdateMessage(failure.value));
      }
      var receipt := IssueReceipt(shopper, destination, phone, lines, totals);
      out := ReceiptIssued(receipt);
      session.ClearCart();
    }

    /**
     * `Checkout.post`: the guards leave every table alone (an unknown customer is dropped
     * from the session); past them the commit runs, and only a commit that finishes
     * clears the cart and issues the receipt.
     */
    method CheckoutPost(session: Session, destination: Option<string>, phone: Option<string>) returns (out: Outcome)
      requires Valid() && session.Valid()
      modifies this`products, this`orders, this`reportOrders, this`reportProducts, this`orderItems, this`nextReportId
      modifies session
      ensures Valid() && session.Valid()
      ensures var g := PostGuard(old(session.Current()), old(products), old(session.customer), customers, destination, phone);
        g.Some? ==>
          out == g.value && Snapshot() == old(Snapshot()) && nextReportId == old(nextReportId) &&
          session.carts == old(session.carts) &&
          session.customer == (if out.RedirectToLogin? && old(session.customer).Some? && old(session.customer).value != 0
                               then None else old(session.customer))
      ensures var g := PostGuard(old(session.Current()), old(products), old(session.customer), customers, destination, phone);
        g.None? ==>
          var q := Priced(old(session.Current()), old(products));
          var totals := TotalsFor(q.subtotal);
          var cid := old(session.customer).value;
          var ro := old(nextReportId);
          var r := CommitLines(Opened(old(Snapshot()), ro, totals.totalCents), q.lines, cid, destination.value, phone.value, ro);
          nextReportId == ro + 1 && session.customer == old(session.customer) &&
          (r.Committed? ==>
            Snapshot() == r.tables && session.carts == old(session.carts)[old(session.Key()) := []] &&
            out == ReceiptIssued(ReceiptFor(customers[cid], destination.value, phone.value, q.lines, totals))) &&
          (r.Failed? ==>
            Snapshot() == Deleted(r.tables, ro) && session.carts == old(session.carts) &&
            out == StockUpdateFailed(q.lines, q.subtotal, StockUpdateMessage(r.name)))
    {
      var cart := session.Current();
      if cart == [] {
        return RedirectToCart;
      }
      var q := PriceCart(cart, products);
      if q.outOfStock != [] {
        return StockShortage(q.lines, q.subtotal, StockErrorMessage(q.outOfStock));
      }
      var totals := TotalsFor(q.subtotal);
      var cid := session.customer;
      if cid.None? || cid.value == 0 {
        return RedirectToLogin;
      }
      if cid.value !in customers {
        session.ForgetCustomer();
        return RedirectToLogin;
      }
      var customer := customers[cid.value];
      if Missing(destination) || Missing(phone) {
        return MissingDeliveryInfo(q.lines, totals, customer);
      }
      out := PlaceOrder(session, q.lines, q.subtotal, cid.value, customer, destination.value, phone.value);
    }
  }

  /** Every priced line asks for no more than its product's stock. */
  lemma PricedChecked(cart: Cart, products: map<nat, Product>)
    ensures Checked(Priced(cart, products).lines)
  {
    var q := Priced(cart, products);
    forall k | 0 <= k < |q.lines| ensures q.lines[k].qty <= q.lines[k].product.quantity {
      assert q.lines[k] in q.lines;
    }
  }

  /** A priced entry's product ends lower by the quantity bought. */
  lemma CommittedEntryStock(cart: Cart, t0: Tables, customer: nat, address: string, phone: string, ro: nat, e: Entry)
    requires WellFormed(cart) && e in cart && InStock(e, t0.products)
    ensures var r := CommitLines(t0, Priced(cart, t0.products).lines, customer, address, phone, ro);
      r.tables.products[e.id] == t0.products[e.id].(quantity := t0.products[e.id].quantity - e.qty)
  {
    var q := Priced(cart, t0.products);
    PricedChecked(cart, t0.products);
    PricedDistinct(cart, t0.products);
    CommitStock(t0, q.lines, customer, address, phone, ro);
    var l := LineFor(e, t0.products[e.id]);
    assert l in q.lines;
    var k :| 0 <= k < |q.lines| && q.lines[k] == l;
  }

  /** A product on no cart entry keeps its row. */
  lemma CommittedOtherStock(cart: Cart, t0: Tables, customer: nat, address: string, phone: string, ro: nat, id: nat)
    requires WellFormed(cart) && id in t0.products && forall e :: e in cart ==> e.id != id
    ensures var r := CommitLines(t0, Priced(cart, t0.products).lines, customer, address, phone, ro);
      r.tables.products[id] == t0.products[id]
  {
    var q := Priced(cart, t0.products);
    PricedChecked(cart, t0.products);
    PricedDistinct(cart, t0.products);
    CommitStock(t0, q.lines, customer, address, phone, ro);
    forall k | 0 <= k < |q.lines| ensures q.lines[k].id != id {
      assert q.lines[k] in q.lines;
    }
  }

  /**
   * A checkout that passes its guards always finishes in a single-threaded run: every
   * accepted line's product ends lower by exactly the quantity bought, products not in
   * the cart keep their rows, and the new report rows are one Order and one OrderItem per
   * accepted line.
   */
  lemma CheckoutCommits(cart: Cart, t: Tables, customer: nat, address: string, phone: string, ro: nat, totalCents: int)
    requires WellFormed(cart)
    ensures var q := Priced(cart, t.products);
      var t0 := Opened(t, ro, totalCents);
      var r := CommitLines(t0, q.lines, customer, address, phone, ro);
      r.Committed? &&
      r.tables.orders == t.orders + OrderRows(q.lines, customer, address, phone) &&
      r.tables.orderItems == t.orderItems + ItemRows(q.lines, ro) &&
      r.tables.reportOrders == t.reportOrders + [ReportOrder(ro, None, true, totalCents)] &&
      (forall e :: e in cart && InStock(e, t.products) ==>
        r.tables.products[e.id] == t.products[e.id].(quantity := t.products[e.id].quantity - e.qty)) &&
      (forall id :: id in t.products && (forall e :: e in cart ==> e.id != id) ==>
        r.tables.products[id] == t.products[id])
  {
    var t0 := Opened(t, ro, totalCents);
    PricedChecked(cart, t.products);
    CommitNeverFails(t0, Priced(cart, t.products).lines, customer, address, phone, ro);
    forall e | e in cart && InStock(e, t.products)
      ensures CommitLines(t0, Priced(cart, t.products).lines, customer, address, phone, ro).tables.products[e.id] ==
        t.products[e.id].(quantity := t.products[e.id].quantity - e.qty)
    {
      CommittedEntryStock(cart, t0, customer, address, phone, ro, e);
    }
    forall id | id in t.products && (forall e :: e in cart ==> e.id != id)
      ensures CommitLines(t0, Priced(cart, t.products).lines, customer, address, phone, ro).tables.products[id] == t.products[id]
    {
      CommittedOtherStock(cart, t0, customer, address, phone, ro, id);
    }
  }
}
