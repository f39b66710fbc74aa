/**
 * `gerar_pdf` (main.py:120-191) with the canvas replaced by the list of
 * draw commands: one pass over the cart that accumulates the VAT buckets
 * and draws the item rows, then the VAT-summary rows and the totals. A line
 * whose percent is not a bracket stops the run before anything is saved.
 */
module InvoiceDocument {
  import opened Wrappers
  import opened Catalog
  import opened Invoice
  import opened InvoiceLayout

  /** What a successful run produces: the figures and the page drawn from them. */
  datatype Document = Document(summary: Summary, page: seq<DrawCmd>)

  method Generate(lines: seq<LineItem>, pageHeight: real) returns (r: Result<Document, InvoiceError>)
    ensures r.Ok? <==> Summarize(lines).Ok?
    ensures r.Ok? ==> Summarize(lines) == Ok(r.value.summary) && r.value.page == Layout(lines, r.value.summary, pageHeight)
    ensures r.Err? ==> Summarize(lines) == Err(r.error)
  {
    var h := pageHeight;
    var summary, items, y := DrawItems(lines, h);
    if summary.Err? {
      return Err(summary.error);
    }
    var s := summary.value;
    y := y - 20.0;
    var heading := [Draw(Heading, 50.0, y, SummaryHeading)];
    var rows;
    rows, y := DrawBrackets(s, y - 15.0);
    // The two totals rows (main.py:179-189) have no loop and no state beyond y.
    var totals := Totals(s, y - 20.0);
    LayoutAssembled(lines, s, h, items, rows, y);
    r := Ok(Document(s, items + heading + rows + totals));
  }

  /**
   * The pass over the cart (main.py:142-162): the header, then per line its
   * amounts into the buckets and its row onto the page, 15 points apart.
   */
  method DrawItems(lines: seq<LineItem>, h: real) returns (r: Result<Summary, InvoiceError>, page: seq<DrawCmd>, y: real)
    ensures r == Summarize(lines)
    ensures r.Ok? ==> page == Header(h) + ItemRows(lines, ItemsTop(h)) && y == RowY(ItemsTop(h), |lines|)
    ensures RowY(ItemsTop(h), |lines|) <= y <= ItemsTop(h)
  {
    page := Header(h);
    y := h - 120.0;
    y := y - 20.0;
    var base, vat, discount := NoTally, NoTally, 0.0;
    var i := 0;
    while i < |lines|
      invariant 0 <= i <= |lines|
      invariant Summarize(lines[..i]) == Ok(Summary(base, vat, discount))
      invariant y == RowY(ItemsTop(h), i)
      invariant page == Header(h) + ItemRows(lines[..i], ItemsTop(h))
    {
      var item := lines[i];
      var valueDiscount := DiscountAmount(item);
      var net := NetAmount(item);
      var valueVat := VatAmount(item);
      var bracket := BracketOf(item.product.vatPercent);
      if bracket.Err? {
        SummarizeStops(lines, i);
        return Err(bracket.error), page, y;
      }
      SummarizeStep(lines, i);
      discount := discount + valueDiscount;
      vat := vat.Add(bracket.value, valueVat);
      base := base.Add(bracket.value, net);
      ItemRowsStep(lines, i, ItemsTop(h));
      page := page + ItemRow(item, y);
      y := y - 15.0;
      i := i + 1;
    }
    assert lines[..i] == lines;
    r := Ok(Summary(base, vat, discount));
  }

  /**
   * The VAT summary rows (main.py:170-177): the brackets in order, a row for
   * each one with a positive base, 15 points apart; `y` ends below the last.
   */
  method DrawBrackets(s: Summary, top: real) returns (rows: seq<DrawCmd>, y: real)
    ensures rows == BracketRows(s, Brackets, top)
    ensures y == RowY(top, |Showing(s, Brackets)|)
  {
    rows, y := [], top;
    var j := 0;
    while j < |Brackets|
      invariant 0 <= j <= |Brackets|
      invariant y == RowY(top, |Showing(s, Brackets[..j])|)
      invariant rows == BracketRows(s, Brackets[..j], top)
    {
      var b := Brackets[j];
      BracketRowsStep(s, Brackets, j, top);
      if s.base.Get(b) > 0.0 {
        rows := rows + BracketRow(s, b, y);
        y := y - 15.0;
      }
      j := j + 1;
    }
    assert Brackets[..j] == Brackets;
  }

  /** The page as the method assembles it, piece after piece. */
  lemma LayoutAssembled(lines: seq<LineItem>, s: Summary, h: real, items: seq<DrawCmd>, rows: seq<DrawCmd>, y: real)
    requires items == Header(h) + ItemRows(lines, ItemsTop(h))
    requires rows == BracketRows(s, Brackets, SummaryTop(h, |lines|) - 15.0)
    requires y == RowY(SummaryTop(h, |lines|) - 15.0, |Showing(s, Brackets)|)
    ensures Layout(lines, s, h) ==
      items + [Draw(Heading, 50.0, SummaryTop(h, |lines|), SummaryHeading)] + rows + Totals(s, y - 20.0)
  {
    assert TotalsTop(h, |lines|, |Showing(s, Brackets)|) == y - 20.0;
  }

  lemma SummarizeStep(lines: seq<LineItem>, i: nat)
    requires i < |lines| && Summarize(lines[..i]).Ok? && BracketOf(lines[i].product.vatPercent).Ok?
    ensures Summarize(lines[..i + 1]) ==
      Ok(Accumulate(Summarize(lines[..i]).value, lines[i], BracketOf(lines[i].product.vatPercent).value))
  {
    assert lines[..i + 1][..i] == lines[..i];
  }

  lemma SummarizeStops(lines: seq<LineItem>, i: nat)
    requires i < |lines| && Summarize(lines[..i]).Ok? && BracketOf(lines[i].product.vatPercent).Err?
    ensures Summarize(lines) == Err(InvalidVatRate(lines[i].product.vatPercent))
  {
    assert lines[..i + 1][..i] == lines[..i];
    SummarizeErrPersists(lines, i + 1);
  }

  lemma ItemRowsStep(lines: seq<LineItem>, i: nat, top: real)
    requires i < |lines|
    ensures ItemRows(lines[..i + 1], top) == ItemRows(lines[..i], top) + ItemRow(lines[i], RowY(top, i))
  {
    assert lines[..i + 1][..i] == lines[..i];
  }

  lemma BracketRowsStep(s: Summary, bs: seq<Bracket>, j: nat, top: real)
    requires j < |bs|
    ensures Showing(s, bs[..j + 1]) == Showing(s, bs[..j]) + (if s.base.Get(bs[j]) > 0.0 then [bs[j]] else [])
    ensures BracketRows(s, bs[..j + 1], top) == BracketRows(s, bs[..j], top)
      + (if s.base.Get(bs[j]) > 0.0 then BracketRow(s, bs[j], RowY(top, |Showing(s, bs[..j])|)) else [])
  {
    assert bs[..j + 1][..j] == bs[..j];
  }
}
