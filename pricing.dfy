/**
 * The two price loops over a session cart: the cart page's total (store/views/cart.py,
 * `Cart.get`) and the stock-aware pricing that `Checkout.get` and `Checkout.post` both
 * run (store/views/checkout.py), with the fixed discount and delivery fee.
 */
module Pricing {
  import opened Common
  import opened Catalog
  import opened Carts

  /** One priced cart line: the product row as read, the quantity asked for, price × quantity. */
  datatype Line = Line(id: nat, product: Product, qty: nat, total: int)

  function LineFor(e: Entry, p: Product): Line {
    Line(e.id, p, e.qty, p.price * e.qty)
  }

  /** The sum of the line totals. */
  function Subtotal(lines: seq<Line>): int
  {
    if lines == [] then 0 else Subtotal(lines[..|lines| - 1]) + lines[|lines| - 1].total
  }

  /** No product occurs on two lines. */
  predicate DistinctIds(lines: seq<Line>) {
    forall i, j :: 0 <= i < j < |lines| ==> lines[i].id != lines[j].id
  }

  /**
   * The lines of the cart page: one per entry whose product exists, in cart order.
   * Entries whose product is gone are dropped; stock is not looked at.
   */
  function ViewLines(cart: Cart, products: map<nat, Product>): (r: seq<Line>)
    ensures forall l :: l in r ==>
      l.id in products && l == LineFor(Entry(l.id, l.qty), products[l.id]) && Entry(l.id, l.qty) in cart
    ensures forall e :: e in cart && e.id in products ==> LineFor(e, products[e.id]) in r
    ensures |r| <= |cart|
  {
    if cart == [] then []
    else
      var e := cart[|cart| - 1];
      var front := cart[..|cart| - 1];
      assert forall x :: x in cart ==> x in front || x == e;
      ViewLines(front, products) + (if e.id in products then [LineFor(e, products[e.id])] else [])
  }

  /** `Cart.get`: the listed items and their total price. */
  method CartPage(cart: Cart, products: map<nat, Product>) returns (items: seq<Line>, totalPrice: int)
    ensures items == ViewLines(cart, products)
    ensures totalPrice == Subtotal(items)
  {
    items, totalPrice := [], 0;
    if cart == [] {
      return;
    }
    var i := 0;
    while i < |cart|
      invariant 0 <= i <= |cart|
      invariant items == ViewLines(cart[..i], products)
      invariant totalPrice == Subtotal(items)
    {
      var e := cart[i];
      if e.id in products {
        var p := products[e.id];
        var total := p.price * e.qty;
        totalPrice := totalPrice + total;
        items := items + [Line(e.id, p, e.qty, total)];
      }
      assert cart[..i + 1][..i] == cart[..i];
      i := i + 1;
    }
    assert cart[..|cart|] == cart;
  }

  /**
   * The outcome of the checkout pricing loop: the accepted lines, their subtotal and the
   * names of the products that do not have the requested stock, in cart order.
   */
  datatype Quote = Quote(lines: seq<Line>, subtotal: int, outOfStock: seq<string>)

  /** An entry the pricing loop accepts: its product exists and has the stock. */
  predicate InStock(e: Entry, products: map<nat, Product>) {
    e.id in products && e.qty <= products[e.id].quantity
  }

  /** An entry the pricing loop reports: its product exists but has too little stock. */
  predicate Short(e: Entry, products: map<nat, Product>) {
    e.id in products && products[e.id].quantity < e.qty
  }

  /**
   * The checkout pricing loop. Each entry whose product is missing is dropped; one with
   * enough stock becomes a line; one without adds the product's name to the shortage list.
   */
  function Priced(cart: Cart, products: map<nat, Product>): (q: Quote)
    ensures q.subtotal == Subtotal(q.lines)
    ensures forall l :: l in q.lines ==>
      l.id in products && l == LineFor(Entry(l.id, l.qty), products[l.id]) &&
      Entry(l.id, l.qty) in cart && InStock(Entry(l.id, l.qty), products)
    ensures forall e :: e in cart && InStock(e, products) ==> LineFor(e, products[e.id]) in q.lines
    ensures forall e :: e in cart && Short(e, products) ==> products[e.id].name in q.outOfStock
    ensures forall n :: n in q.outOfStock ==>
      exists e :: e in cart && Short(e, products) && products[e.id].name == n
    ensures q.outOfStock == [] <==> forall e :: e in cart ==> !Short(e, products)
  {
    if cart == [] then Quote([], 0, [])
    else
      var e := cart[|cart| - 1];
      var front := cart[..|cart| - 1];
      assert forall x :: x in cart ==> x in front || x == e;
      var q := Priced(front, products);
      if e.id !in products then q
      else if products[e.id].quantity >= e.qty then
        var l := LineFor(e, products[e.id]);
        assert Subtotal(q.lines + [l]) == q.subtotal + l.total;
        Quote(q.lines + [l], q.subtotal + l.total, q.outOfStock)
      else
        var n := products[e.id].name;
        assert n in q.outOfStock + [n];
        Quote(q.lines, q.subtotal, q.outOfStock + [n])
  }

  /** The pricing loop as `Checkout.post` (and `Checkout.get`) runs it. */
  method PriceCart(cart: Cart, products: map<nat, Product>) returns (q: Quote)
    ensures q == Priced(cart, products)
  {
    var lines: seq<Line> := [];
    var subtotal := 0;
    var outOfStock: seq<string> := [];
    var i := 0;
    while i < |cart|
      invariant 0 <= i <= |cart|
      invariant Quote(lines, subtotal, outOfStock) == Priced(cart[..i], products)
    {
      var e := cart[i];
      if e.id in products {
        var p := products[e.id];
        if p.quantity >= e.qty {
          var total := p.price * e.qty;
          subtotal := subtotal + total;
          lines := lines + [Line(e.id, p, e.qty, total)];
        } else {
          outOfStock := outOfStock + [p.name];
        }
      }
      assert cart[..i + 1][..i] == cart[..i];
      i := i + 1;
    }
    assert cart[..|cart|] == cart;
    q := Quote(lines, subtotal, outOfStock);
  }

  /** A line whose product is on no earlier line keeps the ids distinct. */
  lemma DistinctSnoc(lines: seq<Line>, l: Line)
    requires DistinctIds(lines) && forall x :: x in lines ==> x.id != l.id
    ensures DistinctIds(lines + [l])
  {
    var r := lines + [l];
    forall i, j | 0 <= i < j < |r|
      ensures r[i].id != r[j].id
    {
      assert r[i] == lines[i] && r[i] in lines;
      if j < |lines| {
        assert r[j] == lines[j];
      }
    }
  }

  /** In a cart with unique ids the accepted lines have unique product ids too. */
  lemma {:induction false} PricedDistinct(cart: Cart, products: map<nat, Product>)
    requires WellFormed(cart)
    ensures DistinctIds(Priced(cart, products).lines)
  {
    if cart != [] {
      var e := cart[|cart| - 1];
      var front := cart[..|cart| - 1];
      assert WellFormed(front) by {
        forall i, j | 0 <= i < j < |front| ensures front[i].id != front[j].id {
          assert front[i] == cart[i] && front[j] == cart[j];
        }
      }
      PricedDistinct(front, products);
      var lines := Priced(front, products).lines;
      var r := Priced(cart, products).lines;
      if r != lines {
        assert r == lines + [LineFor(e, products[e.id])];
        forall l | l in lines
          ensures l.id != e.id
        {
          var k :| 0 <= k < |front| && front[k] == Entry(l.id, l.qty);
          assert cart[k] == front[k];
        }
        DistinctSnoc(lines, LineFor(e, products[e.id]));
      }
    }
  }

  /** Which entries a pricing loop keeps: the cart page's, the accepted, or the short ones. */
  datatype Selection = Listed | Accepted | Reported

  predicate Selects(sel: Selection, e: Entry, products: map<nat, Product>) {
    match sel
    case Listed => e.id in products
    case Accepted => InStock(e, products)
    case Reported => Short(e, products)
  }

  /** The cart positions of the entries `sel` keeps, in increasing order. */
  function Positions(cart: Cart, products: map<nat, Product>, sel: Selection): (ps: seq<nat>)
    ensures forall i :: 0 <= i < |ps| ==> ps[i] < |cart| && Selects(sel, cart[ps[i]], products)
    ensures forall i, j :: 0 <= i < j < |ps| ==> ps[i] < ps[j]
    ensures forall k :: 0 <= k < |cart| && Selects(sel, cart[k], products) ==> k in ps
  {
    if cart == [] then []
    else
      var front := cart[..|cart| - 1];
      var ps := Positions(front, products, sel);
      assert forall i :: 0 <= i < |ps| ==> cart[ps[i]] == front[ps[i]];
      if Selects(sel, cart[|cart| - 1], products) then ps + [|cart| - 1] else ps
  }

  /** lines[i] is the line of the entry at cart position ps[i], for every i. */
  predicate LinesAt(lines: seq<Line>, cart: Cart, products: map<nat, Product>, ps: seq<nat>) {
    |lines| == |ps| &&
    forall i :: 0 <= i < |ps| ==>
      ps[i] < |cart| && cart[ps[i]].id in products && lines[i] == LineFor(cart[ps[i]], products[cart[ps[i]].id])
  }

  /** names[i] is the product name of the entry at cart position ps[i], for every i. */
  predicate NamesAt(names: seq<string>, cart: Cart, products: map<nat, Product>, ps: seq<nat>) {
    |names| == |ps| &&
    forall i :: 0 <= i < |ps| ==>
      ps[i] < |cart| && cart[ps[i]].id in products && names[i] == products[cart[ps[i]].id].name
  }

  /** Lines aligned with the positions of a cart's front stay aligned, and one more entry extends both. */
  lemma LinesAtSnoc(lines: seq<Line>, cart: Cart, products: map<nat, Product>, ps: seq<nat>)
    requires cart != [] && LinesAt(lines, cart[..|cart| - 1], products, ps)
    ensures LinesAt(lines, cart, products, ps)
    ensures var e := cart[|cart| - 1];
      e.id in products ==> LinesAt(lines + [LineFor(e, products[e.id])], cart, products, ps + [|cart| - 1])
  {
    var front := cart[..|cart| - 1];
    assert forall i :: 0 <= i < |ps| ==> cart[ps[i]] == front[ps[i]];
    var e := cart[|cart| - 1];
    if e.id in products {
      var r, ps' := lines + [LineFor(e, products[e.id])], ps + [|cart| - 1];
      forall i | 0 <= i < |ps'|
        ensures ps'[i] < |cart| && cart[ps'[i]].id in products && r[i] == LineFor(cart[ps'[i]], products[cart[ps'[i]].id])
      {
        if i < |ps| {
          assert r[i] == lines[i] && ps'[i] == ps[i];
        }
      }
    }
  }

  /** The same for product names. */
  lemma NamesAtSnoc(names: seq<string>, cart: Cart, products: map<nat, Product>, ps: seq<nat>)
    requires cart != [] && NamesAt(names, cart[..|cart| - 1], products, ps)
    ensures NamesAt(names, cart, products, ps)
    ensures var e := cart[|cart| - 1];
      e.id in products ==> NamesAt(names + [products[e.id].name], cart, products, ps + [|cart| - 1])
  {
    var front := cart[..|cart| - 1];
    assert forall i :: 0 <= i < |ps| ==> cart[ps[i]] == front[ps[i]];
    var e := cart[|cart| - 1];
    if e.id in products {
      var r, ps' := names + [products[e.id].name], ps + [|cart| - 1];
      forall i | 0 <= i < |ps'|
        ensures ps'[i] < |cart| && cart[ps'[i]].id in products && r[i] == products[cart[ps'[i]].id].name
      {
        if i < |ps| {
          assert r[i] == names[i] && ps'[i] == ps[i];
        }
      }
    }
  }

  /** The cart page lists exactly the entries whose product exists, one line each, in cart order. */
  lemma {:induction false} ViewLinesInCartOrder(cart: Cart, products: map<nat, Product>)
    ensures LinesAt(ViewLines(cart, products), cart, products, Positions(cart, products, Listed))
  {
    if cart != [] {
      var front := cart[..|cart| - 1];
      ViewLinesInCartOrder(front, products);
      LinesAtSnoc(ViewLines(front, products), cart, products, Positions(front, products, Listed));
    }
  }

  /** Checkout accepts exactly the entries with enough stock, one line each, in cart order. */
  lemma {:induction false} PricedInCartOrder(cart: Cart, products: map<nat, Product>)
    ensures LinesAt(Priced(cart, products).lines, cart, products, Positions(cart, products, Accepted))
  {
    if cart != [] {
      var front := cart[..|cart| - 1];
      PricedInCartOrder(front, products);
      LinesAtSnoc(Priced(front, products).lines, cart, products, Positions(front, products, Accepted));
    }
  }

  /** Checkout reports exactly the short entries' product names, one each, in cart order. */
  lemma {:induction false} ShortagesInCartOrder(cart: Cart, products: map<nat, Product>)
    ensures NamesAt(Priced(cart, products).outOfStock, cart, products, Positions(cart, products, Reported))
  {
    if cart != [] {
      var front := cart[..|cart| - 1];
      ShortagesInCartOrder(front, products);
      NamesAtSnoc(Priced(front, products).outOfStock, cart, products, Positions(front, products, Reported));
    }
  }

  /**
   * When pricing reports no shortage, checkout accepts exactly the lines the cart page
   * shows, so the checkout subtotal equals the cart page's total.
   */
  lemma {:induction false} PricedMatchesView(cart: Cart, products: map<nat, Product>)
    requires Priced(cart, products).outOfStock == []
    ensures Priced(cart, products).lines == ViewLines(cart, products)
    ensures Priced(cart, products).subtotal == Subtotal(ViewLines(cart, products))
  {
    if cart != [] {
      var front := cart[..|cart| - 1];
      var e := cart[|cart| - 1];
      assert e in cart;
      assert forall x :: x in front ==> x in cart;
      PricedMatchesView(front, products);
    }
  }

  /** The fixed start of the shortage message. */
  const StockErrorPrefix: string := "Insufficient stock for: "

  /**
   * The shortage message: the prefix, then the short products' names in order with ", "
   * between neighbours.
   */
  function StockErrorMessage(names: seq<string>): (m: string)
    ensures |StockErrorPrefix| <= |m| && m[..|StockErrorPrefix|] == StockErrorPrefix
    ensures names == [] ==> m == StockErrorPrefix
    ensures |names| == 1 ==> m == StockErrorPrefix + names[0]
    ensures names != [] ==> |m| == |StockErrorPrefix| + TotalLength(names) + 2 * (|names| - 1)
    ensures names != [] ==>
      |StockErrorPrefix| + |names[0]| <= |m| && m[|StockErrorPrefix|..|StockErrorPrefix| + |names[0]|] == names[0]
    ensures names != [] ==> |names[|names| - 1]| <= |m| && m[|m| - |names[|names| - 1]|..] == names[|names| - 1]
  {
    var j := Join(names, ", ");
    assert names != [] ==> (JoinShape(names, ", "); true);
    assert (StockErrorPrefix + j)[|StockErrorPrefix|..] == j;
    StockErrorPrefix + j
  }

  /** Each further short name is appended after ", ", so the names appear in order. */
  lemma StockErrorMessageSnoc(names: seq<string>)
    requires |names| >= 2
    ensures StockErrorMessage(names) == StockErrorMessage(names[..|names| - 1]) + ", " + names[|names| - 1]
  {
    var front := names[..|names| - 1];
    JoinSnoc(front, names[|names| - 1], ", ");
    assert front + [names[|names| - 1]] == names;
  }

  /** The fixed delivery fee, in currency units. */
  const DeliveryFee: int := 100

  /**
   * The amounts shown at checkout. The discount and the grand total are kept in
   * hundredths: five percent of an integer subtotal is exact in hundredths.
   */
  datatype Totals = Totals(subtotal: int, discountCents: int, deliveryFee: int, totalCents: int)

  /** discount = 5% of the subtotal, total = subtotal - discount + delivery fee. */
  function TotalsFor(subtotal: int): (t: Totals)
    ensures t.subtotal == subtotal && t.deliveryFee == DeliveryFee
    ensures 20 * t.discountCents == 100 * subtotal
    ensures t.totalCents == 100 * subtotal - t.discountCents + 100 * DeliveryFee
  {
    Totals(subtotal, 5 * subtotal, DeliveryFee, 95 * subtotal + 100 * DeliveryFee)
  }

  /** A cart of two units at 1000 with 10 in stock: subtotal 2000, discount 100, total 2000. */
  lemma PricingExampleAccepted()
    ensures var q := Priced([Entry(1, 2)], map[1 := Product("ProductX", 1000, 1, 10)]);
      q.outOfStock == [] && q.subtotal == 2000 &&
      TotalsFor(q.subtotal).discountCents == 10000 && TotalsFor(q.subtotal).totalCents == 200000
  {
    var products := map[1 := Product("ProductX", 1000, 1, 10)];
    assert [Entry(1, 2)][..0] == [];
    assert Priced([], products) == Quote([], 0, []);
  }

  /** Two units asked of a product with one in stock: its name is reported and nothing is accepted. */
  lemma PricingExampleShort()
    ensures var q := Priced([Entry(2, 2)], map[2 := Product("ProductY", 500, 1, 1)]);
      q.outOfStock == ["ProductY"] && q.lines == []
  {
    var products := map[2 := Product("ProductY", 500, 1, 1)];
    assert [Entry(2, 2)][..0] == [];
    assert Priced([], products) == Quote([], 0, []);
  }
}
