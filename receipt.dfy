/**
 * The item table of the checkout receipt (store/views/checkout.py, `Checkout.post`):
 * one row per accepted line, drawn at a vertical cursor that moves down 20 points per
 * row and restarts at the top of a new page once it falls below the low-water mark.
 */
module Receipt {
  import opened Common
  import opened Pricing

  /** Baseline of the first item row. */
  const FirstRowY: int := 595
  /** Distance between rows. */
  const RowStep: int := 20
  /** Below this the table continues on a new page. */
  const LowWater: int := 100
  /** Baseline of the first row on a continuation page. */
  const TopY: int := 780
  /** Longest item name the table prints. */
  const NameWidth: nat := 30

  /** The cursor after drawing one more row. */
  function NextY(y: int): int {
    if y - RowStep < LowWater then TopY else y - RowStep
  }

  /** The cursor after n rows: the baseline the next row is drawn at. */
  function CursorAfter(n: nat): int {
    if n == 0 then FirstRowY else NextY(CursorAfter(n - 1))
  }

  /** The page (0 for the first) the cursor is on after n rows. */
  function PageAfter(n: nat): nat {
    if n == 0 then 0
    else PageAfter(n - 1) + (if CursorAfter(n - 1) - RowStep < LowWater then 1 else 0)
  }

  /** The cursor never leaves [100, 780]: rows are never drawn off the page. */
  lemma {:induction false} CursorInRange(n: nat)
    ensures LowWater <= CursorAfter(n) <= TopY
  {
    if n > 0 {
      CursorInRange(n - 1);
    }
  }

  /** A printed item row: page, baseline, name, quantity, unit price and line total. */
  datatype ReceiptRow = ReceiptRow(page: nat, y: int, name: string, qty: nat, unitPrice: int, total: int)

  /** The row for the i-th line. */
  function RowFor(l: Line, i: nat): ReceiptRow {
    ReceiptRow(PageAfter(i), CursorAfter(i), Truncate(l.product.name, NameWidth), l.qty, l.product.price, l.total)
  }

  /** The item rows of the receipt, laid out page by page. */
  method LayoutRows(lines: seq<Line>) returns (rows: seq<ReceiptRow>, y: int, page: nat)
    ensures |rows| == |lines|
    ensures forall i :: 0 <= i < |lines| ==> rows[i] == RowFor(lines[i], i)
    ensures forall i :: 0 <= i < |rows| ==> LowWater <= rows[i].y <= TopY && |rows[i].name| <= NameWidth
    ensures y == CursorAfter(|lines|) && page == PageAfter(|lines|)
    ensures LowWater <= y <= TopY
  {
    rows, y, page := [], FirstRowY, 0;
    var i := 0;
    while i < |lines|
      invariant 0 <= i <= |lines|
      invariant |rows| == i
      invariant forall k :: 0 <= k < i ==> rows[k] == RowFor(lines[k], k)
      invariant forall k :: 0 <= k < i ==> LowWater <= rows[k].y <= TopY
      invariant y == CursorAfter(i) && page == PageAfter(i)
    {
      var l := lines[i];
      CursorInRange(i);
      rows := rows + [ReceiptRow(page, y, Truncate(l.product.name, NameWidth), l.qty, l.product.price, l.total)];
      y := y - RowStep;
      if y < LowWater {
        page := page + 1;
        y := TopY;
      }
      i := i + 1;
    }
    CursorInRange(i);
  }

  /** Baseline of the contact footer, drawn on the last page. */
  const FooterBaseline: int := 30

  /**
   * The baselines of the totals block when it starts at y, top to bottom: rule, subtotal,
   * discount, delivery fee, rule, total, thank-you note.
   */
  function TotalsBaselines(y: int): (b: seq<int>)
    ensures |b| == 7 && b[0] == y && b[6] == y - 140
    ensures forall i, j :: 0 <= i < j < 7 ==> b[j] < b[i]
  {
    [y, y - 20, y - 40, y - 60, y - 80, y - 100, y - 140]
  }

  /** The first 24 rows fit on the first page: the cursor falls 20 points per row. */
  lemma {:induction false} FirstPageCursor(n: nat)
    requires n <= 24
    ensures CursorAfter(n) == FirstRowY - RowStep * n && PageAfter(n) == 0
  {
    if n > 0 {
      FirstPageCursor(n - 1);
    }
  }

  /**
   * As written, the totals block starts wherever the item rows left the cursor. After 24
   * rows that is 115: the total is drawn below the footer and the thank-you note below the
   * bottom edge of the page.
   */
  lemma TotalsOverrunFooter()
    ensures CursorAfter(24) == 115
    ensures TotalsBaselines(CursorAfter(24))[5] < FooterBaseline
    ensures TotalsBaselines(CursorAfter(24))[6] < 0
  {
    FirstPageCursor(24);
  }

  /**
   * Where the totals block starts once it is kept above the footer: on the current page
   * when its last line clears the footer, otherwise at the top of a new page.
   */
  function TotalsStart(y: int, page: nat): (r: (int, nat))
    ensures r.0 == y || (r.0 == TopY && r.1 == page + 1)
    ensures r.0 == y <==> r.1 == page
    ensures r == (y, page) <==> forall k :: 0 <= k < 7 ==> FooterBaseline < TotalsBaselines(y)[k]
  {
    if y - 140 <= FooterBaseline then
      assert TotalsBaselines(y)[6] == y - 140;
      (TopY, page + 1)
    else (y, page)
  }

  /** With the page break, every line of the totals block lies between the footer and the top. */
  lemma TotalsAboveFooter(n: nat)
    ensures forall k :: 0 <= k < 7 ==>
      FooterBaseline < TotalsBaselines(TotalsStart(CursorAfter(n), PageAfter(n)).0)[k] <= TopY
  {
    CursorInRange(n);
  }

  /** What the receipt carries besides its fixed texts and drawing. */
  datatype Receipt = Receipt(customerName: string, destination: string, phone: string,
                             rows: seq<ReceiptRow>, totals: Totals, totalsY: int, lastPage: nat)
}
