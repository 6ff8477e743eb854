/**
 * The analytics tables (shapes of store/models/report.py) and the sales aggregation that
 * both report views of store/views/report.py run, with the PDF report's table contents.
 * DecimalField amounts are integers in hundredths.
 */
module Reports {
  import opened Common

  /**
   * A sale header: `customer` is the id of the linked User, if any; `total` is the grand
   * total of the whole cart.
   */
  datatype ReportOrder = ReportOrder(id: nat, customer: Option<nat>, completed: bool, totalCents: int)

  /** A product snapshot, keyed by product name in the table that holds it. */
  datatype ReportProduct = ReportProduct(priceCents: int, stock: nat)

  /**
   * A sale line under the ReportOrder `order`; `product` is the name of its ReportProduct,
   * None once that row is gone (SET_NULL).
   */
  datatype OrderItem = OrderItem(order: nat, product: Option<string>, quantity: nat, priceCents: int)

  /** One entry of the top-products ranking. */
  datatype ProductSales = ProductSales(name: string, quantity: nat, revenueCents: int)

  /** The three aggregates both report views show. */
  datatype SalesSummary = SalesSummary(revenueCents: int, orderCount: nat, top: seq<ProductSales>)

  /** Deleting the ReportOrder `id`: every other row stays, in order. */
  function DeleteReportOrder(ros: seq<ReportOrder>, id: nat): (r: seq<ReportOrder>)
    ensures forall ro :: ro in r <==> ro in ros && ro.id != id
    ensures (forall ro :: ro in ros ==> ro.id != id) ==> r == ros
  {
    if ros == [] then []
    else
      var last := ros[|ros| - 1];
      assert forall ro :: ro in ros <==> ro in ros[..|ros| - 1] || ro == last;
      DeleteReportOrder(ros[..|ros| - 1], id) + (if last.id == id then [] else [last])
  }

  /** The CASCADE on `OrderItem.order`: the items of the deleted ReportOrder go with it. */
  function CascadeItems(items: seq<OrderItem>, id: nat): (r: seq<OrderItem>)
    ensures forall it :: it in r <==> it in items && it.order != id
    ensures (forall it :: it in items ==> it.order != id) ==> r == items
  {
    if items == [] then []
    else
      var last := items[|items| - 1];
      assert forall it :: it in items <==> it in items[..|items| - 1] || it == last;
      CascadeItems(items[..|items| - 1], id) + (if last.order == id then [] else [last])
  }

  /** Deleting a header distributes over concatenation: the kept headers stay in their order. */
  lemma {:induction false} DeleteReportOrderAppend(a: seq<ReportOrder>, b: seq<ReportOrder>, id: nat)
    ensures DeleteReportOrder(a + b, id) == DeleteReportOrder(a, id) + DeleteReportOrder(b, id)
  {
    if b == [] {
      assert a + b == a;
    } else {
      var front := b[..|b| - 1];
      var last := b[|b| - 1];
      var kept := if last.id == id then [] else [last];
      assert (a + b)[..|a + b| - 1] == a + front && (a + b)[|a + b| - 1] == last;
      assert DeleteReportOrder(a + b, id) == DeleteReportOrder(a + front, id) + kept;
      assert DeleteReportOrder(b, id) == DeleteReportOrder(front, id) + kept;
      DeleteReportOrderAppend(a, front, id);
    }
  }

  /** The cascade distributes over concatenation: the kept items stay in their order. */
  lemma {:induction false} CascadeItemsAppend(a: seq<OrderItem>, b: seq<OrderItem>, id: nat)
    ensures CascadeItems(a + b, id) == CascadeItems(a, id) + CascadeItems(b, id)
  {
    if b == [] {
      assert a + b == a;
    } else {
      var front := b[..|b| - 1];
      var last := b[|b| - 1];
      var kept := if last.order == id then [] else [last];
      assert (a + b)[..|a + b| - 1] == a + front && (a + b)[|a + b| - 1] == last;
      assert CascadeItems(a + b, id) == CascadeItems(a + front, id) + kept;
      assert CascadeItems(b, id) == CascadeItems(front, id) + kept;
      CascadeItemsAppend(a, front, id);
    }
  }

  /** Items appended under `id` after rows of other orders are all removed by the cascade. */
  lemma {:induction false} CascadeRemovesAppended(a: seq<OrderItem>, b: seq<OrderItem>, id: nat)
    requires forall it :: it in a ==> it.order != id
    requires forall k :: 0 <= k < |b| ==> b[k].order == id
    ensures CascadeItems(a + b, id) == a
  {
    if b != [] {
      var front := b[..|b| - 1];
      assert (a + b)[..|a + b| - 1] == a + front;
      CascadeRemovesAppended(a, front, id);
    }
  }

  /** The ids of the completed ReportOrders. */
  function CompletedIds(ros: seq<ReportOrder>): set<nat> {
    set ro | ro in ros && ro.completed :: ro.id
  }

  /** Sum of `total` over the completed ReportOrders; 0 when there are none. */
  function Revenue(ros: seq<ReportOrder>): (r: int)
    ensures (forall ro :: ro in ros ==> !ro.completed) ==> r == 0
  {
    if ros == [] then 0
    else
      var last := ros[|ros| - 1];
      assert forall ro :: ro in ros[..|ros| - 1] ==> ro in ros;
      Revenue(ros[..|ros| - 1]) + (if last.completed then last.totalCents else 0)
  }

  /** The number of completed ReportOrders. */
  function CompletedCount(ros: seq<ReportOrder>): (n: nat)
    ensures n <= |ros|
    ensures n == 0 <==> forall ro :: ro in ros ==> !ro.completed
  {
    if ros == [] then 0
    else
      var last := ros[|ros| - 1];
      assert forall ro :: ro in ros ==> ro in ros[..|ros| - 1] || ro == last;
      CompletedCount(ros[..|ros| - 1]) + (if last.completed then 1 else 0)
  }

  /** The items the ranking looks at: a product is set and the order is completed. */
  predicate Counts(it: OrderItem, done: set<nat>) {
    it.product.Some? && it.order in done
  }

  /** An item that counts towards the product called `name`. */
  predicate SoldAs(it: OrderItem, done: set<nat>, name: string) {
    Counts(it, done) && it.product.value == name
  }

  /** Sum of `quantity` over the counted items of product `name`. */
  function QuantitySold(items: seq<OrderItem>, done: set<nat>, name: string): nat
  {
    if items == [] then 0
    else
      var it := items[|items| - 1];
      QuantitySold(items[..|items| - 1], done, name) + (if SoldAs(it, done, name) then it.quantity else 0)
  }

  /** Sum of `price * quantity` over the counted items of product `name`. */
  function RevenueOf(items: seq<OrderItem>, done: set<nat>, name: string): int
  {
    if items == [] then 0
    else
      var it := items[|items| - 1];
      RevenueOf(items[..|items| - 1], done, name) + (if SoldAs(it, done, name) then it.priceCents * it.quantity else 0)
  }

  predicate DistinctStrings(s: seq<string>) {
    forall i, j :: 0 <= i < j < |s| ==> s[i] != s[j]
  }

  /** The group keys: each counted product name once, in order of first appearance. */
  function SoldNames(items: seq<OrderItem>, done: set<nat>): (r: seq<string>)
    ensures DistinctStrings(r)
    ensures forall n :: n in r <==> exists it :: it in items && SoldAs(it, done, n)
  {
    if items == [] then []
    else
      var it := items[|items| - 1];
      var front := items[..|items| - 1];
      assert forall x :: x in items <==> x in front || x == it;
      var names := SoldNames(front, done);
      assert forall n :: (exists x :: x in items && SoldAs(x, done, n)) <==>
        (exists x :: x in front && SoldAs(x, done, n)) || SoldAs(it, done, n);
      if Counts(it, done) && it.product.value !in names then
        var r := names + [it.product.value];
        assert it in items && SoldAs(it, done, it.product.value);
        assert forall n :: n in r <==> n in names || n == it.product.value;
        r
      else names
  }

  /** The group of product `name`. */
  function SalesOf(items: seq<OrderItem>, done: set<nat>, name: string): ProductSales {
    ProductSales(name, QuantitySold(items, done, name), RevenueOf(items, done, name))
  }

  /** `.values('product__name').annotate(...)`: one group per name. */
  function Grouped(items: seq<OrderItem>, done: set<nat>, names: seq<string>): (r: seq<ProductSales>)
    ensures |r| == |names|
    ensures forall i :: 0 <= i < |names| ==> r[i] == SalesOf(items, done, names[i])
  {
    if names == [] then [] else [SalesOf(items, done, names[0])] + Grouped(items, done, names[1..])
  }

  predicate ByQuantity(s: seq<ProductSales>) {
    forall i, j :: 0 <= i < j < |s| ==> s[i].quantity >= s[j].quantity
  }

  predicate DistinctNames(s: seq<ProductSales>) {
    forall i, j :: 0 <= i < j < |s| ==> s[i].name != s[j].name
  }

  /** Insert x into a ranking, in front of the first entry that sold no more than it. */
  function Insert(x: ProductSales, s: seq<ProductSales>): (r: seq<ProductSales>)
    requires ByQuantity(s)
    ensures ByQuantity(r)
    ensures |r| == |s| + 1
    ensures forall y :: y in r <==> y == x || y in s
  {
    if s == [] || x.quantity >= s[0].quantity then [x] + s
    else
      var rest := Insert(x, s[1..]);
      assert forall y :: y in rest ==> y.quantity <= s[0].quantity by {
        assert forall y :: y in s[1..] ==> y.quantity <= s[0].quantity;
      }
      PrependRanked(s[0], rest);
      [s[0]] + rest
  }

  /** Inserting adds exactly one occurrence of x and keeps every other entry. */
  lemma {:induction false} InsertPermutes(x: ProductSales, s: seq<ProductSales>)
    requires ByQuantity(s)
    ensures multiset(Insert(x, s)) == multiset(s) + multiset{x}
  {
    if s != [] && x.quantity < s[0].quantity {
      InsertPermutes(x, s[1..]);
      assert s == [s[0]] + s[1..];
      assert Insert(x, s) == [s[0]] + Insert(x, s[1..]);
    }
  }

  /** An entry that sold at least as much as every entry of a ranking can head it. */
  lemma PrependRanked(h: ProductSales, s: seq<ProductSales>)
    requires ByQuantity(s)
    requires forall y :: y in s ==> y.quantity <= h.quantity
    ensures ByQuantity([h] + s)
  {
    forall i, j | 0 <= i < j < |[h] + s|
      ensures ([h] + s)[i].quantity >= ([h] + s)[j].quantity
    {
      assert ([h] + s)[j] == s[j - 1];
      if i > 0 {
        assert ([h] + s)[i] == s[i - 1];
      }
    }
  }

  /** Inserting an entry whose name is new keeps the names distinct. */
  lemma {:induction false} InsertDistinct(x: ProductSales, s: seq<ProductSales>)
    requires ByQuantity(s) && DistinctNames(s)
    requires forall y :: y in s ==> y.name != x.name
    ensures DistinctNames(Insert(x, s))
  {
    if s != [] && x.quantity < s[0].quantity {
      InsertDistinct(x, s[1..]);
      var rest := Insert(x, s[1..]);
      forall y | y in rest
        ensures y.name != s[0].name
      {
        if y != x {
          var k :| 0 <= k < |s[1..]| && s[1..][k] == y;
          assert s[k + 1] == y;
        }
      }
      assert Insert(x, s) == [s[0]] + rest;
    }
  }

  /** `order_by('-total_quantity')`, as an insertion sort that keeps ties in their order. */
  function SortByQuantity(s: seq<ProductSales>): (r: seq<ProductSales>)
    ensures ByQuantity(r)
    ensures |r| == |s|
    ensures forall y :: y in r <==> y in s
    ensures multiset(r) == multiset(s)
  {
    if s == [] then []
    else
      var rest := SortByQuantity(s[1..]);
      InsertPermutes(s[0], rest);
      assert s == [s[0]] + s[1..];
      Insert(s[0], rest)
  }

  /** Sorting keeps the names distinct. */
  lemma {:induction false} SortDistinct(s: seq<ProductSales>)
    requires DistinctNames(s)
    ensures DistinctNames(SortByQuantity(s))
  {
    if s != [] {
      SortDistinct(s[1..]);
      forall y | y in SortByQuantity(s[1..])
        ensures y.name != s[0].name
      {
        var k :| 0 <= k < |s[1..]| && s[1..][k] == y;
        assert s[k + 1] == y;
      }
      InsertDistinct(s[0], SortByQuantity(s[1..]));
    }
  }

  /** The ranking cut: `[:5]`. */
  const TopCount: nat := 5

  /** The top-products query of both report views. */
  function TopProducts(ros: seq<ReportOrder>, items: seq<OrderItem>): (top: seq<ProductSales>)
    ensures |top| <= TopCount && ByQuantity(top)
  {
    var done := CompletedIds(ros);
    var sorted := SortByQuantity(Grouped(items, done, SoldNames(items, done)));
    if |sorted| <= TopCount then sorted else sorted[..TopCount]
  }

  /**
   * The ranking holds at most five entries with distinct names; each entry carries the
   * quantity and revenue summed over that name's counted items; entries are in
   * non-increasing quantity; and a counted name left out sold no more than the last entry.
   */
  lemma TopProductsRanking(ros: seq<ReportOrder>, items: seq<OrderItem>)
    ensures var top := TopProducts(ros, items);
      var done := CompletedIds(ros);
      && |top| <= TopCount
      && DistinctNames(top)
      && ByQuantity(top)
      && (forall e :: e in top ==>
            e == SalesOf(items, done, e.name) && exists it :: it in items && SoldAs(it, done, e.name))
      && (forall it ::
            (it in items && Counts(it, done) && (forall i :: 0 <= i < |top| ==> top[i].name != it.product.value))
            ==> |top| == TopCount && QuantitySold(items, done, it.product.value) <= top[TopCount - 1].quantity)
  {
    var done := CompletedIds(ros);
    var names := SoldNames(items, done);
    var grouped := Grouped(items, done, names);
    var sorted := SortByQuantity(grouped);
    var top := TopProducts(ros, items);
    assert DistinctNames(grouped) by {
      forall i, j | 0 <= i < j < |grouped| ensures grouped[i].name != grouped[j].name {
        assert grouped[i].name == names[i] && grouped[j].name == names[j];
      }
    }
    SortDistinct(grouped);
    forall e | e in top
      ensures e == SalesOf(items, done, e.name) && exists it :: it in items && SoldAs(it, done, e.name)
    {
      assert e in sorted;
      var k :| 0 <= k < |grouped| && grouped[k] == e;
      assert names[k] in names;
    }
    assert forall i :: 0 <= i < |top| ==> sorted[i] == top[i];
    forall it | it in items && Counts(it, done) && (forall i :: 0 <= i < |top| ==> top[i].name != it.product.value)
      ensures |top| == TopCount && QuantitySold(items, done, it.product.value) <= top[TopCount - 1].quantity
    {
      var n := it.product.value;
      assert n in names;
      var k :| 0 <= k < |names| && names[k] == n;
      assert grouped[k] in sorted;
      var m :| 0 <= m < |sorted| && sorted[m] == grouped[k];
      assert sorted[m].name == n;
      assert sorted[TopCount - 1].quantity >= sorted[m].quantity;
    }
  }

  /**
   * The aggregation shared by the on-screen report and the PDF report: revenue and count
   * over the completed orders, and the top products. The count is 0 exactly when no order
   * is completed, and then the revenue is 0; the ranking is empty exactly when no item
   * counts; otherwise it is the ranking `TopProductsRanking` describes.
   */
  function Summarize(ros: seq<ReportOrder>, items: seq<OrderItem>): (s: SalesSummary)
    ensures s.revenueCents == Revenue(ros) && s.orderCount == CompletedCount(ros)
    ensures s.orderCount == 0 <==> forall ro :: ro in ros ==> !ro.completed
    ensures s.orderCount == 0 ==> s.revenueCents == 0
    ensures |s.top| <= TopCount && DistinctNames(s.top) && ByQuantity(s.top)
    ensures forall e :: e in s.top ==> e == SalesOf(items, CompletedIds(ros), e.name)
    ensures s.top == [] <==> forall it :: it in items ==> !Counts(it, CompletedIds(ros))
  {
    TopProductsRanking(ros, items);
    var top := TopProducts(ros, items);
    var done := CompletedIds(ros);
    assert top != [] ==> exists it :: it in items && Counts(it, done) by {
      if top != [] {
        assert top[0] in top;
        var it :| it in items && SoldAs(it, done, top[0].name);
      }
    }
    SalesSummary(Revenue(ros), CompletedCount(ros), top)
  }

  /** `SalesReportView.get`: the figures the on-screen report shows. */
  method SalesReportView(ros: seq<ReportOrder>, items: seq<OrderItem>) returns (s: SalesSummary)
    ensures s == Summarize(ros, items)
  {
    var totalRevenue := Revenue(ros);
    var totalOrders := CompletedCount(ros);
    var topProducts := TopProducts(ros, items);
    s := SalesSummary(totalRevenue, totalOrders, topProducts);
  }

  /** The example's sale headers and items: 3 units of A, then 5 units of B, both completed. */
  function ExampleOrders(): seq<ReportOrder> {
    [ReportOrder(1, None, true, 0), ReportOrder(2, None, true, 0)]
  }

  function ExampleItems(): seq<OrderItem> {
    [OrderItem(1, Some("ProductA"), 3, 100), OrderItem(2, Some("ProductB"), 5, 100)]
  }

  /** The example's groups, in order of first appearance. */
  lemma ExampleGroups()
    ensures var done := CompletedIds(ExampleOrders());
      Grouped(ExampleItems(), done, SoldNames(ExampleItems(), done)) ==
      [ProductSales("ProductA", 3, 300), ProductSales("ProductB", 5, 500)]
  {
    var items := ExampleItems();
    var done := CompletedIds(ExampleOrders());
    assert ExampleOrders()[0] in ExampleOrders() && ExampleOrders()[1] in ExampleOrders();
    assert 1 in done && 2 in done;
    assert items[..1][..0] == [] && items[..1] == [items[0]];
    assert SoldNames(items[..1], done) == ["ProductA"];
    assert SoldNames(items, done) == ["ProductA", "ProductB"];
    assert QuantitySold(items[..1], done, "ProductA") == 3;
    assert QuantitySold(items[..1], done, "ProductB") == 0;
    assert RevenueOf(items[..1], done, "ProductA") == 300;
    assert RevenueOf(items[..1], done, "ProductB") == 0;
  }

  /** Two completed sales of 3 units of A and 5 of B rank B first. */
  lemma RankingExample()
    ensures TopProducts(ExampleOrders(), ExampleItems()) ==
      [ProductSales("ProductB", 5, 500), ProductSales("ProductA", 3, 300)]
  {
    var pa, pb := ProductSales("ProductA", 3, 300), ProductSales("ProductB", 5, 500);
    ExampleGroups();
    assert [pa, pb][1..] == [pb] && [pb][1..] == [];
    assert SortByQuantity([pb]) == Insert(pb, []) == [pb];
    assert SortByQuantity([pa, pb]) == Insert(pa, [pb]) == [pb, pa];
  }

  /** The header row of the PDF report's table. */
  const TableHeader: seq<string> := ["Product", "Quantity Sold", "Revenue (KES)"]

  /** A table row: the name cut to 30 characters, the quantity, the revenue with two decimals. */
  function TableRow(e: ProductSales): (row: seq<string>)
    ensures |row| == 3 && |row[0]| <= 30
  {
    [Truncate(e.name, 30), NatToString(e.quantity), FormatCents(e.revenueCents)]
  }

  /**
   * The cells of a table row: the first 30 characters of the name (all of a shorter one),
   * digits that read back as the quantity, and an amount that reads back as the revenue.
   */
  lemma TableRowCells(e: ProductSales)
    ensures var row := TableRow(e);
      && |row[0]| == (if |e.name| <= 30 then |e.name| else 30) && row[0] == e.name[..|row[0]|]
      && AllDigits(row[1]) && DigitsValue(row[1]) == e.quantity
      && ParseCents(row[2]) == Some(e.revenueCents)
  {
    NatToStringValue(e.quantity);
    FormatCentsRoundTrip(e.revenueCents);
  }

  /** The contents of the PDF report, without its drawing. */
  datatype ReportPdf = ReportPdf(revenueCents: int, orderCount: nat, noSalesNote: bool,
                                 table: seq<seq<string>>, noProductsNote: bool, tableBottom: int)

  /** The letter page height in points. */
  const PageHeight: int := 792

  /** The footer's baseline. */
  const FooterY: int := 30

  /** The table's data: the header, then one row per ranked product in ranking order. */
  method TableData(top: seq<ProductSales>) returns (data: seq<seq<string>>)
    ensures |data| == |top| + 1 && data[0] == TableHeader
    ensures forall i :: 0 <= i < |top| ==> data[i + 1] == TableRow(top[i])
    ensures forall i :: 0 <= i < |data| ==> |data[i]| == 3
  {
    data := [TableHeader];
    var i := 0;
    while i < |top|
      invariant 0 <= i <= |top|
      invariant |data| == i + 1 && data[0] == TableHeader
      invariant forall k :: 0 <= k < i ==> data[k + 1] == TableRow(top[k])
      invariant forall k :: 0 <= k < |data| ==> |data[k]| == 3
    {
      data := data + [TableRow(top[i])];
      i := i + 1;
    }
  }

  /**
   * `SalesReportPDFView.get` after the aggregation: the overview lines, the warning when
   * nothing was sold, and either the top-products table or the "No products sold." line.
   */
  method RenderSalesReport(s: SalesSummary) returns (pdf: ReportPdf)
    requires |s.top| <= TopCount
    ensures pdf.revenueCents == s.revenueCents && pdf.orderCount == s.orderCount
    ensures pdf.noSalesNote <==> s.orderCount == 0
    ensures pdf.noProductsNote <==> s.top == []
    ensures s.top == [] ==> pdf.table == []
    ensures s.top != [] ==> |pdf.table| == |s.top| + 1 && pdf.table[0] == TableHeader
    ensures s.top != [] ==> forall i :: 0 <= i < |s.top| ==> pdf.table[i + 1] == TableRow(s.top[i])
    ensures forall i :: 0 <= i < |pdf.table| ==> |pdf.table[i]| == 3
    ensures pdf.tableBottom > FooterY
  {
    var y := PageHeight - 130;
    y := y - 20;
    y := y - 20;
    var noSales := false;
    if s.orderCount == 0 {
      y := y - 20;
      noSales := true;
    }
    y := y - 30;
    var data: seq<seq<string>> := [];
    var bottom := y;
    var noProducts := false;
    if s.top != [] {
      y := y - 20;
      data := TableData(s.top);
      bottom := y - |data| * 20;
      y := y - (|data| * 20 + 20);
    } else {
      noProducts := true;
    }
    pdf := ReportPdf(s.revenueCents, s.orderCount, noSales, data, noProducts, bottom);
  }

  /**
   * `SalesReportPDFView.get`: runs the same queries as the on-screen view and draws them.
   * The PDF shows the on-screen figures, its warnings appear exactly when there are no
   * completed orders or no counted items, and its table lists the on-screen ranking.
   */
  method SalesReportPdfView(ros: seq<ReportOrder>, items: seq<OrderItem>) returns (pdf: ReportPdf)
    ensures var s := Summarize(ros, items);
      pdf.revenueCents == s.revenueCents && pdf.orderCount == s.orderCount
    ensures pdf.noSalesNote <==> forall ro :: ro in ros ==> !ro.completed
    ensures pdf.noProductsNote <==> forall it :: it in items ==> !Counts(it, CompletedIds(ros))
    ensures var top := Summarize(ros, items).top;
      (top == [] ==> pdf.table == []) &&
      (top != [] ==>
        (|pdf.table| == |top| + 1 && pdf.table[0] == TableHeader &&
         forall i :: 0 <= i < |top| ==> pdf.table[i + 1] == TableRow(top[i])))
    ensures pdf.tableBottom > FooterY
  {
    var totalRevenue := Revenue(ros);
    var totalOrders := CompletedCount(ros);
    var topProducts := TopProducts(ros, items);
    var s := SalesSummary(totalRevenue, totalOrders, topProducts);
    assert s == Summarize(ros, items);
    pdf := RenderSalesReport(s);
  }
}
