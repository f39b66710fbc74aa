/**
 * The page drawn by `gerar_pdf` (main.py:124-189), as the list of text
 * placements it makes: each command carries the font in force, the x and y
 * coordinates and what kind of text is written there. Amounts are kept as
 * exact values; the source prints them to two decimals.
 */
module InvoiceLayout {
  import opened Wrappers
  import opened Catalog
  import opened Invoice

  datatype Face = Helvetica | HelveticaBold

  datatype Font = Font(face: Face, size: nat)

  const Title: Font := Font(HelveticaBold, 16)
  const Heading: Font := Font(HelveticaBold, 12)
  const Body: Font := Font(Helvetica, 10)

  datatype Text =
    | ShopName | IssueDate | TaxId | ProductsHeading
    | ItemName(name: string) | ItemPrice(amount: real) | ItemDiscount(amount: real) | ItemVat(percent: int)
    | SummaryHeading
    | BracketRate(percent: int) | BracketBase(amount: real) | BracketVat(amount: real) | BracketTotal(amount: real)
    | DiscountLabel | DiscountTotal(amount: real)
    | PayableLabel | PayableTotal(amount: real)

  datatype DrawCmd = Draw(font: Font, x: real, y: real, text: Text)

  /** Shop name, date, tax number and the "Produtos" heading (main.py:125-134). */
  function Header(h: real): seq<DrawCmd>
  {
    [Draw(Title, 50.0, h - 50.0, ShopName),
     Draw(Body, 50.0, h - 70.0, IssueDate),
     Draw(Body, 50.0, h - 90.0, TaxId),
     Draw(Heading, 50.0, h - 120.0, ProductsHeading)]
  }

  /** The y of the first item row. */
  function ItemsTop(h: real): real
  {
    h - 140.0
  }

  /** The y of the row `i` rows of 15 units below `top`. */
  function RowY(top: real, i: nat): real
  {
    top - 15.0 * i as real
  }

  /** The y of the "Resumo IVA" heading after `n` item rows. */
  function SummaryTop(h: real, n: nat): real
  {
    RowY(ItemsTop(h), n) - 20.0
  }

  /** The y of the first totals row after `n` item rows and `m` bracket rows. */
  function TotalsTop(h: real, n: nat, m: nat): real
  {
    RowY(SummaryTop(h, n) - 15.0, m) - 20.0
  }

  /** One item row (main.py:157-161); the discount cell only for a discounted product. */
  function ItemRow(l: LineItem, y: real): seq<DrawCmd>
  {
    [Draw(Body, 50.0, y, ItemName(l.Name())), Draw(Body, 300.0, y, ItemPrice(l.Price()))]
    + (if l.product.discount > 0.0 then [Draw(Body, 370.0, y, ItemDiscount(DiscountAmount(l)))] else [])
    + [Draw(Body, 440.0, y, ItemVat(l.product.vatPercent))]
  }

  /** The item rows of `ls`, first line at `top`. */
  function ItemRows(ls: seq<LineItem>, top: real): seq<DrawCmd>
    decreases |ls|
  {
    if |ls| == 0 then []
    else ItemRows(ls[..|ls| - 1], top) + ItemRow(ls[|ls| - 1], RowY(top, |ls| - 1))
  }

  /** The brackets of `bs` whose net base is positive, in the order of `bs`. */
  function Showing(s: Summary, bs: seq<Bracket>): seq<Bracket>
    decreases |bs|
  {
    if |bs| == 0 then []
    else Showing(s, bs[..|bs| - 1]) + (if s.base.Get(bs[|bs| - 1]) > 0.0 then [bs[|bs| - 1]] else [])
  }

  /** One VAT-summary row (main.py:173-176). */
  function BracketRow(s: Summary, b: Bracket, y: real): seq<DrawCmd>
  {
    [Draw(Body, 50.0, y, BracketRate(Percent(b))),
     Draw(Body, 150.0, y, BracketBase(s.base.Get(b))),
     Draw(Body, 300.0, y, BracketVat(s.vat.Get(b))),
     Draw(Body, 400.0, y, BracketTotal(s.Subtotal(b)))]
  }

  /** The VAT-summary rows for the brackets of `bs`, skipping those with no base. */
  function BracketRows(s: Summary, bs: seq<Bracket>, top: real): seq<DrawCmd>
    decreases |bs|
  {
    if |bs| == 0 then []
    else
      var init, b := bs[..|bs| - 1], bs[|bs| - 1];
      BracketRows(s, init, top) + (if s.base.Get(b) > 0.0 then BracketRow(s, b, RowY(top, |Showing(s, init)|)) else [])
  }

  /** Discount total, then 20 units lower the amount to pay (main.py:183-189). */
  function Totals(s: Summary, y: real): seq<DrawCmd>
  {
    [Draw(Heading, 50.0, y, DiscountLabel),
     Draw(Heading, 400.0, y, DiscountTotal(s.discount)),
     Draw(Heading, 50.0, y - 20.0, PayableLabel),
     Draw(Heading, 400.0, y - 20.0, PayableTotal(s.GrandTotal()))]
  }

  /** The whole page for `lines` and their summary on a page `h` units high. */
  function Layout(lines: seq<LineItem>, s: Summary, h: real): seq<DrawCmd>
  {
    Header(h)
    + ItemRows(lines, ItemsTop(h))
    + [Draw(Heading, 50.0, SummaryTop(h, |lines|), SummaryHeading)]
    + BracketRows(s, Brackets, SummaryTop(h, |lines|) - 15.0)
    + Totals(s, TotalsTop(h, |lines|, |Showing(s, Brackets)|))
  }

  // Reading the page back.

  /** The values `f` picks out of the commands, in drawing order. */
  function Select<T>(cmds: seq<DrawCmd>, f: DrawCmd -> Option<T>): seq<T>
  {
    if |cmds| == 0 then []
    else (match f(cmds[0]) case Some(t) => [t] case None => []) + Select(cmds[1..], f)
  }

  /** Product name and y of an item-name cell. */
  function ItemAnchor(c: DrawCmd): Option<(string, real)>
  {
    if c.text.ItemName? then Some((c.text.name, c.y)) else None
  }

  /** Percent of a VAT-summary rate cell. */
  function RateCell(c: DrawCmd): Option<int>
  {
    if c.text.BracketRate? then Some(c.text.percent) else None
  }

  /** Amount of a VAT-summary subtotal cell. */
  function SubtotalCell(c: DrawCmd): Option<real>
  {
    if c.text.BracketTotal? then Some(c.text.amount) else None
  }

  /** Amount of a VAT-summary base cell. */
  function BaseCell(c: DrawCmd): Option<real>
  {
    if c.text.BracketBase? then Some(c.text.amount) else None
  }

  /** Amount of a VAT-summary VAT cell. */
  function VatCell(c: DrawCmd): Option<real>
  {
    if c.text.BracketVat? then Some(c.text.amount) else None
  }

  /** The texts only a VAT-summary row writes. */
  predicate SummaryText(t: Text)
  {
    t.BracketRate? || t.BracketBase? || t.BracketVat? || t.BracketTotal?
  }

  /** A projection that picks VAT-summary cells and nothing else. */
  ghost predicate SummaryProjection<T>(f: DrawCmd -> Option<T>)
  {
    forall c :: f(c).Some? ==> SummaryText(c.text)
  }

  /** Every command is at or below every earlier one. */
  predicate Descending(cmds: seq<DrawCmd>)
  {
    forall i, j :: 0 <= i < j < |cmds| ==> cmds[j].y <= cmds[i].y
  }

  /** The brackets the VAT summary lists: 0, 6, 23 in that order, each only with a positive base. */
  function ShownBrackets(s: Summary): seq<Bracket>
  {
    (if s.base.exempt > 0.0 then [Exempt] else [])
    + (if s.base.reduced > 0.0 then [Reduced] else [])
    + (if s.base.standard > 0.0 then [Standard] else [])
  }

  // Lemmas about the projections.

  lemma {:induction false} SelectAppend<T>(a: seq<DrawCmd>, b: seq<DrawCmd>, f: DrawCmd -> Option<T>)
    ensures Select(a + b, f) == Select(a, f) + Select(b, f)
  {
    if |a| == 0 {
      assert a + b == b;
    } else {
      assert (a + b)[1..] == a[1..] + b;
      SelectAppend(a[1..], b, f);
    }
  }

  lemma {:induction false} SelectNone<T>(cmds: seq<DrawCmd>, f: DrawCmd -> Option<T>)
    requires forall c :: c in cmds ==> f(c).None?
    ensures Select(cmds, f) == []
  {
    if |cmds| > 0 {
      assert cmds[0] in cmds;
      assert forall c :: c in cmds[1..] ==> c in cmds;
      SelectNone(cmds[1..], f);
    }
  }

  lemma SelectSingle<T>(c: DrawCmd, f: DrawCmd -> Option<T>)
    ensures Select([c], f) == match f(c) case Some(t) => [t] case None => []
  {
    assert [c][1..] == [];
  }

  lemma DescendingConcat(a: seq<DrawCmd>, b: seq<DrawCmd>, m: real)
    requires Descending(a) && Descending(b)
    requires forall c :: c in a ==> m <= c.y
    requires forall c :: c in b ==> c.y <= m
    ensures Descending(a + b)
  {
    forall i, j | 0 <= i < j < |a + b|
      ensures (a + b)[j].y <= (a + b)[i].y
    {
      if j < |a| {
        assert (a + b)[i] == a[i] && (a + b)[j] == a[j];
      } else if |a| <= i {
        assert (a + b)[i] == b[i - |a|] && (a + b)[j] == b[j - |a|];
      } else {
        assert (a + b)[i] == a[i] && a[i] in a;
        assert (a + b)[j] == b[j - |a|] && b[j - |a|] in b;
      }
    }
  }

  // Item rows.

  lemma ItemRowAnchor(l: LineItem, y: real)
    ensures Select(ItemRow(l, y), ItemAnchor) == [(l.Name(), y)]
  {
    var d := if l.product.discount > 0.0 then [Draw(Body, 370.0, y, ItemDiscount(DiscountAmount(l)))] else [];
    var first := [Draw(Body, 50.0, y, ItemName(l.Name()))];
    var second := [Draw(Body, 300.0, y, ItemPrice(l.Price()))];
    var last := [Draw(Body, 440.0, y, ItemVat(l.product.vatPercent))];
    assert ItemRow(l, y) == first + second + d + last;
    SelectAppend(first + second + d, last, ItemAnchor);
    SelectAppend(first + second, d, ItemAnchor);
    SelectAppend(first, second, ItemAnchor);
    SelectSingle(first[0], ItemAnchor);
    SelectSingle(second[0], ItemAnchor);
    SelectSingle(last[0], ItemAnchor);
    SelectNone(d, ItemAnchor);
  }

  /** Each line has one name cell, in cart order, 15 units below the previous one. */
  lemma {:induction false} ItemRowsAnchors(ls: seq<LineItem>, top: real)
    ensures |Select(ItemRows(ls, top), ItemAnchor)| == |ls|
    ensures forall i :: 0 <= i < |ls| ==> Select(ItemRows(ls, top), ItemAnchor)[i] == (ls[i].Name(), RowY(top, i))
    decreases |ls|
  {
    if |ls| > 0 {
      var n := |ls| - 1;
      var init := ls[..n];
      ItemRowsAnchors(init, top);
      SelectAppend(ItemRows(init, top), ItemRow(ls[n], RowY(top, n)), ItemAnchor);
      ItemRowAnchor(ls[n], RowY(top, n));
      assert forall i :: 0 <= i < n ==> init[i] == ls[i];
    }
  }

  lemma ItemRowCells(l: LineItem, y: real)
    ensures forall c :: c in ItemRow(l, y) ==>
      c.y == y && (c.x == 370.0 ==> l.product.discount > 0.0) && !SummaryText(c.text)
  {
    var d := if l.product.discount > 0.0 then [Draw(Body, 370.0, y, ItemDiscount(DiscountAmount(l)))] else [];
    var first := [Draw(Body, 50.0, y, ItemName(l.Name())), Draw(Body, 300.0, y, ItemPrice(l.Price()))];
    var last := [Draw(Body, 440.0, y, ItemVat(l.product.vatPercent))];
    assert ItemRow(l, y) == first + d + last;
  }

  /**
   * Item rows run down the page between the first and the last row, and a
   * cell in the discount column belongs to a discounted line.
   */
  lemma {:induction false} ItemRowsCells(ls: seq<LineItem>, top: real)
    ensures Descending(ItemRows(ls, top))
    ensures forall c :: c in ItemRows(ls, top) ==> RowY(top, |ls|) < c.y <= top && !SummaryText(c.text)
    ensures forall c :: c in ItemRows(ls, top) && c.x == 370.0 ==>
      exists j :: 0 <= j < |ls| && c.y == RowY(top, j) && ls[j].product.discount > 0.0
    decreases |ls|
  {
    if |ls| > 0 {
      var n := |ls| - 1;
      var init := ls[..n];
      var y := RowY(top, n);
      ItemRowsCells(init, top);
      var row := ItemRow(ls[n], y);
      ItemRowCells(ls[n], y);
      assert Descending(row);
      DescendingConcat(ItemRows(init, top), row, y);
      assert ItemRows(ls, top) == ItemRows(init, top) + row;
      forall c | c in ItemRows(ls, top) && c.x == 370.0
        ensures exists j :: 0 <= j < |ls| && c.y == RowY(top, j) && ls[j].product.discount > 0.0
      {
        if c in ItemRows(init, top) {
          var j :| 0 <= j < n && c.y == RowY(top, j) && init[j].product.discount > 0.0;
          assert ls[j] == init[j];
        } else {
          assert c in row;
        }
      }
    }
  }

  /** The row of line `i` is part of the item rows. */
  lemma {:induction false} ItemRowsContain(ls: seq<LineItem>, top: real, i: nat)
    requires i < |ls|
    ensures forall c :: c in ItemRow(ls[i], RowY(top, i)) ==> c in ItemRows(ls, top)
    decreases |ls|
  {
    var n := |ls| - 1;
    if i < n {
      ItemRowsContain(ls[..n], top, i);
      assert ls[..n][i] == ls[i];
    }
  }

  // VAT-summary rows.

  lemma BracketRowCells(s: Summary, b: Bracket, y: real)
    ensures Descending(BracketRow(s, b, y))
    ensures forall c :: c in BracketRow(s, b, y) ==> c.y == y && c.x != 370.0 && !c.text.ItemName?
  {
  }

  lemma {:induction false} BracketRowsCells(s: Summary, bs: seq<Bracket>, top: real)
    ensures Descending(BracketRows(s, bs, top))
    ensures forall c :: c in BracketRows(s, bs, top) ==>
      RowY(top, |Showing(s, bs)|) < c.y <= top && c.x != 370.0 && !c.text.ItemName?
    decreases |bs|
  {
    if |bs| > 0 {
      var init, b := bs[..|bs| - 1], bs[|bs| - 1];
      BracketRowsCells(s, init, top);
      var y := RowY(top, |Showing(s, init)|);
      if s.base.Get(b) > 0.0 {
        BracketRowCells(s, b, y);
        DescendingConcat(BracketRows(s, init, top), BracketRow(s, b, y), y);
      }
    }
  }

  /**
   * One rate, base, VAT and subtotal (base + VAT) cell per shown bracket, in
   * the order the brackets are shown.
   */
  lemma {:induction false} BracketRowsSummaryCells(s: Summary, bs: seq<Bracket>, top: real)
    ensures Select(BracketRows(s, bs, top), RateCell) ==
      seq(|Showing(s, bs)|, k requires 0 <= k < |Showing(s, bs)| => Percent(Showing(s, bs)[k]))
    ensures Select(BracketRows(s, bs, top), BaseCell) ==
      seq(|Showing(s, bs)|, k requires 0 <= k < |Showing(s, bs)| => s.base.Get(Showing(s, bs)[k]))
    ensures Select(BracketRows(s, bs, top), VatCell) ==
      seq(|Showing(s, bs)|, k requires 0 <= k < |Showing(s, bs)| => s.vat.Get(Showing(s, bs)[k]))
    ensures Select(BracketRows(s, bs, top), SubtotalCell) ==
      seq(|Showing(s, bs)|, k requires 0 <= k < |Showing(s, bs)| => s.Subtotal(Showing(s, bs)[k]))
  {
    forall b, y {
      BracketRowSelect(s, b, y);
    }
    BracketRowsColumn(s, bs, top, RateCell, Percent);
    BracketRowsColumn(s, bs, top, BaseCell, b => s.base.Get(b));
    BracketRowsColumn(s, bs, top, VatCell, b => s.vat.Get(b));
    BracketRowsColumn(s, bs, top, SubtotalCell, b => s.Subtotal(b));
  }

  /** A column that holds `g(b)` in the row of bracket `b` lists `g` of the shown brackets. */
  lemma {:induction false} BracketRowsColumn<T>(s: Summary, bs: seq<Bracket>, top: real, f: DrawCmd -> Option<T>, g: Bracket -> T)
    requires forall b, y :: Select(BracketRow(s, b, y), f) == [g(b)]
    ensures Select(BracketRows(s, bs, top), f) == seq(|Showing(s, bs)|, k requires 0 <= k < |Showing(s, bs)| => g(Showing(s, bs)[k]))
    decreases |bs|
  {
    if |bs| > 0 {
      var init, b := bs[..|bs| - 1], bs[|bs| - 1];
      BracketRowsColumn(s, init, top, f, g);
      var y := RowY(top, |Showing(s, init)|);
      if s.base.Get(b) > 0.0 {
        assert Select(BracketRows(s, bs, top), f) == Select(BracketRows(s, init, top), f) + [g(b)] by {
          SelectAppend(BracketRows(s, init, top), BracketRow(s, b, y), f);
        }
        assert Showing(s, bs) == Showing(s, init) + [b];
        ColumnSnoc(Showing(s, init), b, g);
      } else {
        assert BracketRows(s, bs, top) == BracketRows(s, init, top);
        assert Showing(s, bs) == Showing(s, init);
      }
    }
  }

  lemma ColumnSnoc<T>(sh: seq<Bracket>, b: Bracket, g: Bracket -> T)
    ensures var sh' := sh + [b];
      seq(|sh'|, k requires 0 <= k < |sh'| => g(sh'[k])) == seq(|sh|, k requires 0 <= k < |sh| => g(sh[k])) + [g(b)]
  {
  }

  /** A VAT-summary row holds exactly one cell of each of the four kinds. */
  lemma BracketRowSelect(s: Summary, b: Bracket, y: real)
    ensures Select(BracketRow(s, b, y), RateCell) == [Percent(b)]
    ensures Select(BracketRow(s, b, y), BaseCell) == [s.base.Get(b)]
    ensures Select(BracketRow(s, b, y), VatCell) == [s.vat.Get(b)]
    ensures Select(BracketRow(s, b, y), SubtotalCell) == [s.Subtotal(b)]
  {
    var r := BracketRow(s, b, y);
    SelectFour(r, RateCell);
    SelectFour(r, BaseCell);
    SelectFour(r, VatCell);
    SelectFour(r, SubtotalCell);
  }

  /** What `f` picks from one command. */
  function Picked<T>(c: DrawCmd, f: DrawCmd -> Option<T>): seq<T>
  {
    match f(c) case Some(t) => [t] case None => []
  }

  lemma SelectFour<T>(r: seq<DrawCmd>, f: DrawCmd -> Option<T>)
    requires |r| == 4
    ensures Select(r, f) == Picked(r[0], f) + Picked(r[1], f) + Picked(r[2], f) + Picked(r[3], f)
  {
    assert r[1..][1..] == r[2..] && r[2..][1..] == r[3..] && r[3..][1..] == [];
    SelectCons(r, f);
    SelectCons(r[1..], f);
    SelectCons(r[2..], f);
    SelectCons(r[3..], f);
  }

  lemma SelectCons<T>(r: seq<DrawCmd>, f: DrawCmd -> Option<T>)
    requires |r| > 0
    ensures Select(r, f) == Picked(r[0], f) + Select(r[1..], f)
  {
  }

  /** The row of the k-th shown bracket is part of the VAT-summary rows. */
  lemma {:induction false} BracketRowsContain(s: Summary, bs: seq<Bracket>, top: real, k: nat)
    requires k < |Showing(s, bs)|
    ensures forall c :: c in BracketRow(s, Showing(s, bs)[k], RowY(top, k)) ==> c in BracketRows(s, bs, top)
    decreases |bs|
  {
    var init, b := bs[..|bs| - 1], bs[|bs| - 1];
    if k < |Showing(s, init)| {
      BracketRowsContain(s, init, top, k);
      assert Showing(s, bs)[k] == Showing(s, init)[k];
    } else {
      assert s.base.Get(b) > 0.0 && Showing(s, bs)[k] == b;
    }
  }

  lemma ShowingAllBrackets(s: Summary)
    ensures Showing(s, Brackets) == ShownBrackets(s)
  {
    assert [Exempt][..0] == [];
    assert [Exempt, Reduced][..1] == [Exempt];
    assert Brackets[..2] == [Exempt, Reduced];
    assert Showing(s, [Exempt]) == if s.base.exempt > 0.0 then [Exempt] else [];
    assert Showing(s, [Exempt, Reduced]) == Showing(s, [Exempt]) + if s.base.reduced > 0.0 then [Reduced] else [];
  }

  /** Without a positive base in any bracket there is no VAT-summary row. */
  lemma {:induction false} NoBracketRows(s: Summary, bs: seq<Bracket>, top: real)
    requires forall b :: s.base.Get(b) <= 0.0
    ensures BracketRows(s, bs, top) == []
    decreases |bs|
  {
    if |bs| > 0 {
      NoBracketRows(s, bs[..|bs| - 1], top);
    }
  }

  // The fixed parts of the page.

  /** A cell that is neither an item name nor any VAT-summary cell. */
  predicate Plain(c: DrawCmd)
  {
    !c.text.ItemName? && !SummaryText(c.text)
  }

  lemma HeaderCells(h: real)
    ensures Descending(Header(h))
    ensures forall c :: c in Header(h) ==> c.x == 50.0 && ItemsTop(h) < c.y && Plain(c)
  {
  }

  lemma TotalsCells(s: Summary, y: real)
    ensures Descending(Totals(s, y))
    ensures forall c :: c in Totals(s, y) ==> c.x != 370.0 && c.y <= y && Plain(c)
  {
  }

  // Splitting the page into its five parts, over arbitrary parts.

  lemma {:induction false} SelectOnlySecond<T>(page: seq<DrawCmd>, a: seq<DrawCmd>, b: seq<DrawCmd>, c: seq<DrawCmd>,
                                               d: seq<DrawCmd>, e: seq<DrawCmd>, f: DrawCmd -> Option<T>)
    requires page == a + b + c + d + e
    requires Select(a, f) == [] && Select(c, f) == [] && Select(d, f) == [] && Select(e, f) == []
    ensures Select(page, f) == Select(b, f)
  {
    SelectAppend(a + b + c + d, e, f);
    SelectAppend(a + b + c, d, f);
    SelectAppend(a + b, c, f);
    SelectAppend(a, b, f);
  }

  lemma {:induction false} SelectOnlyFourth<T>(page: seq<DrawCmd>, a: seq<DrawCmd>, b: seq<DrawCmd>, c: seq<DrawCmd>,
                                               d: seq<DrawCmd>, e: seq<DrawCmd>, f: DrawCmd -> Option<T>)
    requires page == a + b + c + d + e
    requires Select(a, f) == [] && Select(b, f) == [] && Select(c, f) == [] && Select(e, f) == []
    ensures Select(page, f) == Select(d, f)
  {
    SelectAppend(a + b + c + d, e, f);
    SelectAppend(a + b + c, d, f);
    SelectAppend(a + b, c, f);
    SelectAppend(a, b, f);
  }

  lemma ColumnOnlySecond(a: seq<DrawCmd>, b: seq<DrawCmd>, c: seq<DrawCmd>, d: seq<DrawCmd>, e: seq<DrawCmd>, x: real)
    requires forall z :: z in a ==> z.x != x
    requires forall z :: z in c ==> z.x != x
    requires forall z :: z in d ==> z.x != x
    requires forall z :: z in e ==> z.x != x
    ensures forall z :: z in a + b + c + d + e && z.x == x ==> z in b
  {
  }

  lemma DescendingTwoParts(a: seq<DrawCmd>, b: seq<DrawCmd>, c: seq<DrawCmd>, d: seq<DrawCmd>, e: seq<DrawCmd>, m: real)
    requires Descending(a + b) && forall z :: z in a + b ==> m <= z.y
    requires Descending(c + d + e) && forall z :: z in c + d + e ==> z.y <= m
    ensures Descending(a + b + c + d + e)
  {
    assert a + b + c + d + e == (a + b) + (c + d + e);
    DescendingConcat(a + b, c + d + e, m);
  }

  lemma InSecond(a: seq<DrawCmd>, b: seq<DrawCmd>, c: seq<DrawCmd>, d: seq<DrawCmd>, e: seq<DrawCmd>, z: DrawCmd)
    requires z in b
    ensures z in a + b + c + d + e
  {
  }

  lemma InFourth(a: seq<DrawCmd>, b: seq<DrawCmd>, c: seq<DrawCmd>, d: seq<DrawCmd>, e: seq<DrawCmd>, z: DrawCmd)
    requires z in d
    ensures z in a + b + c + d + e
  {
  }

  // The whole page.

  /** Only the item rows hold item-name cells. */
  lemma {:induction false} AnchorsInItemRows(lines: seq<LineItem>, s: Summary, h: real)
    ensures Select(Layout(lines, s, h), ItemAnchor) == Select(ItemRows(lines, ItemsTop(h)), ItemAnchor)
  {
    var summaryTop := SummaryTop(h, |lines|);
    var totalsTop := TotalsTop(h, |lines|, |Showing(s, Brackets)|);
    FixedPartsSelectNothing(h, summaryTop, s, totalsTop, ItemAnchor);
    BracketRowsNoAnchor(s, Brackets, summaryTop - 15.0);
    SelectOnlySecond(Layout(lines, s, h), Header(h), ItemRows(lines, ItemsTop(h)),
                     [Draw(Heading, 50.0, summaryTop, SummaryHeading)], BracketRows(s, Brackets, summaryTop - 15.0),
                     Totals(s, totalsTop), ItemAnchor);
  }

  /** The header, the summary heading and the totals hold no item-name or VAT-summary cell. */
  lemma FixedPartsSelectNothing<T>(h: real, summaryTop: real, s: Summary, totalsTop: real, f: DrawCmd -> Option<T>)
    requires forall c :: f(c).Some? ==> !Plain(c)
    ensures Select(Header(h), f) == []
    ensures Select([Draw(Heading, 50.0, summaryTop, SummaryHeading)], f) == []
    ensures Select(Totals(s, totalsTop), f) == []
  {
    HeaderCells(h);
    SelectNone(Header(h), f);
    SelectNone([Draw(Heading, 50.0, summaryTop, SummaryHeading)], f);
    TotalsCells(s, totalsTop);
    SelectNone(Totals(s, totalsTop), f);
  }

  lemma BracketRowsNoAnchor(s: Summary, bs: seq<Bracket>, top: real)
    ensures Select(BracketRows(s, bs, top), ItemAnchor) == []
  {
    BracketRowsCells(s, bs, top);
    SelectNone(BracketRows(s, bs, top), ItemAnchor);
  }

  /**
   * One item row per cart line, in cart order: the name cell of line i sits
   * at y = h - 140 - 15 i.
   */
  lemma {:induction false} LayoutItemRows(lines: seq<LineItem>, s: Summary, h: real)
    ensures |Select(Layout(lines, s, h), ItemAnchor)| == |lines|
    ensures forall i :: 0 <= i < |lines| ==>
      Select(Layout(lines, s, h), ItemAnchor)[i] == (lines[i].Name(), RowY(ItemsTop(h), i))
  {
    AnchorsInItemRows(lines, s, h);
    ItemRowsAnchors(lines, ItemsTop(h));
  }

  /** Only the item rows draw in the discount column. */
  lemma {:induction false} DiscountColumnInItemRows(lines: seq<LineItem>, s: Summary, h: real)
    ensures forall x :: x in Layout(lines, s, h) && x.x == 370.0 ==> x in ItemRows(lines, ItemsTop(h))
  {
    var a, b := Header(h), ItemRows(lines, ItemsTop(h));
    var c := [Draw(Heading, 50.0, SummaryTop(h, |lines|), SummaryHeading)];
    var d := BracketRows(s, Brackets, SummaryTop(h, |lines|) - 15.0);
    var e := Totals(s, TotalsTop(h, |lines|, |Showing(s, Brackets)|));
    assert Layout(lines, s, h) == a + b + c + d + e;
    assert forall z: DrawCmd :: z in a ==> z.x != 370.0 by {
      HeaderCells(h);
    }
    assert forall z: DrawCmd :: z in d ==> z.x != 370.0 by {
      BracketRowsCells(s, Brackets, SummaryTop(h, |lines|) - 15.0);
    }
    assert forall z: DrawCmd :: z in e ==> z.x != 370.0 by {
      TotalsCells(s, TotalsTop(h, |lines|, |Showing(s, Brackets)|));
    }
    ColumnOnlySecond(a, b, c, d, e, 370.0);
  }

  /**
   * The discount column (x = 370) of line i's row holds a cell exactly when
   * the line's discount is positive, and that cell shows price x discount.
   */
  lemma {:induction false} LayoutDiscountCell(lines: seq<LineItem>, s: Summary, h: real, i: nat)
    requires i < |lines|
    ensures (exists c :: c in Layout(lines, s, h) && c.x == 370.0 && c.y == RowY(ItemsTop(h), i))
            <==> lines[i].product.discount > 0.0
    ensures lines[i].product.discount > 0.0 ==>
      Draw(Body, 370.0, RowY(ItemsTop(h), i), ItemDiscount(DiscountAmount(lines[i]))) in Layout(lines, s, h)
  {
    var top := ItemsTop(h);
    if lines[i].product.discount > 0.0 {
      var cell := Draw(Body, 370.0, RowY(top, i), ItemDiscount(DiscountAmount(lines[i])));
      ItemRowsContain(lines, top, i);
      assert cell in ItemRow(lines[i], RowY(top, i));
      InSecond(Header(h), ItemRows(lines, top), [Draw(Heading, 50.0, SummaryTop(h, |lines|), SummaryHeading)],
               BracketRows(s, Brackets, SummaryTop(h, |lines|) - 15.0),
               Totals(s, TotalsTop(h, |lines|, |Showing(s, Brackets)|)), cell);
    } else {
      NoDiscountCell(lines, s, h, i);
    }
  }

  /** Line i's row shows its name, its base price and its VAT label, at the row's height. */
  lemma {:induction false} LayoutItemRowCells(lines: seq<LineItem>, s: Summary, h: real, i: nat)
    requires i < |lines|
    ensures Draw(Body, 50.0, RowY(ItemsTop(h), i), ItemName(lines[i].Name())) in Layout(lines, s, h)
    ensures Draw(Body, 300.0, RowY(ItemsTop(h), i), ItemPrice(lines[i].Price())) in Layout(lines, s, h)
    ensures Draw(Body, 440.0, RowY(ItemsTop(h), i), ItemVat(lines[i].product.vatPercent)) in Layout(lines, s, h)
  {
    var top := ItemsTop(h);
    var row := ItemRow(lines[i], RowY(top, i));
    ItemRowsContain(lines, top, i);
    var a, b := Header(h), ItemRows(lines, top);
    var c := [Draw(Heading, 50.0, SummaryTop(h, |lines|), SummaryHeading)];
    var d := BracketRows(s, Brackets, SummaryTop(h, |lines|) - 15.0);
    var e := Totals(s, TotalsTop(h, |lines|, |Showing(s, Brackets)|));
    assert Layout(lines, s, h) == a + b + c + d + e;
    InSecond(a, b, c, d, e, row[0]);
    InSecond(a, b, c, d, e, row[1]);
    InSecond(a, b, c, d, e, row[|row| - 1]);
  }

  lemma {:induction false} NoDiscountCell(lines: seq<LineItem>, s: Summary, h: real, i: nat)
    requires i < |lines| && lines[i].product.discount <= 0.0
    ensures forall c :: c in Layout(lines, s, h) && c.x == 370.0 ==> c.y != RowY(ItemsTop(h), i)
  {
    var top := ItemsTop(h);
    var rows := ItemRows(lines, top);
    assert forall x: DrawCmd :: x in rows && x.x == 370.0 ==>
      exists j :: 0 <= j < |lines| && x.y == RowY(top, j) && lines[j].product.discount > 0.0 by {
      ItemRowsCells(lines, top);
    }
    DiscountColumnInItemRows(lines, s, h);
    forall c | c in Layout(lines, s, h) && c.x == 370.0
      ensures c.y != RowY(top, i)
    {
      var j :| 0 <= j < |lines| && c.y == RowY(top, j) && lines[j].product.discount > 0.0;
      if c.y == RowY(top, i) {
        RowYInjective(top, i, j);
      }
    }
  }

  lemma RowYInjective(top: real, i: nat, j: nat)
    requires RowY(top, i) == RowY(top, j)
    ensures i == j
  {
  }

  /** Only the VAT-summary rows hold rate, base, VAT and subtotal cells. */
  lemma {:induction false} SummaryCellsInBracketRows<T>(lines: seq<LineItem>, s: Summary, h: real, f: DrawCmd -> Option<T>)
    requires SummaryProjection(f)
    ensures Select(Layout(lines, s, h), f) == Select(BracketRows(s, Brackets, SummaryTop(h, |lines|) - 15.0), f)
  {
    var summaryTop := SummaryTop(h, |lines|);
    var totalsTop := TotalsTop(h, |lines|, |Showing(s, Brackets)|);
    var a, b := Header(h), ItemRows(lines, ItemsTop(h));
    var c := [Draw(Heading, 50.0, summaryTop, SummaryHeading)];
    var d, e := BracketRows(s, Brackets, summaryTop - 15.0), Totals(s, totalsTop);
    assert Layout(lines, s, h) == a + b + c + d + e;
    assert Select(a, f) == [] && Select(c, f) == [] && Select(e, f) == [] by {
      FixedPartsSelectNothing(h, summaryTop, s, totalsTop, f);
    }
    assert Select(b, f) == [] by {
      ItemRowsNoSummaryCells(lines, ItemsTop(h), f);
    }
    SelectOnlyFourth(Layout(lines, s, h), a, b, c, d, e, f);
  }

  lemma ItemRowsNoSummaryCells<T>(ls: seq<LineItem>, top: real, f: DrawCmd -> Option<T>)
    requires SummaryProjection(f)
    ensures Select(ItemRows(ls, top), f) == []
  {
    ItemRowsCells(ls, top);
    SelectNone(ItemRows(ls, top), f);
  }

  /**
   * The VAT summary lists the brackets 0, 6, 23 in that order, each only
   * when its net base is positive; each row shows the rate, the base, the
   * VAT and base + VAT.
   */
  lemma {:induction false} LayoutSummaryRows(lines: seq<LineItem>, s: Summary, h: real)
    ensures Select(Layout(lines, s, h), RateCell) ==
      seq(|ShownBrackets(s)|, k requires 0 <= k < |ShownBrackets(s)| => Percent(ShownBrackets(s)[k]))
    ensures Select(Layout(lines, s, h), BaseCell) ==
      seq(|ShownBrackets(s)|, k requires 0 <= k < |ShownBrackets(s)| => s.base.Get(ShownBrackets(s)[k]))
    ensures Select(Layout(lines, s, h), VatCell) ==
      seq(|ShownBrackets(s)|, k requires 0 <= k < |ShownBrackets(s)| => s.vat.Get(ShownBrackets(s)[k]))
    ensures Select(Layout(lines, s, h), SubtotalCell) ==
      seq(|ShownBrackets(s)|, k requires 0 <= k < |ShownBrackets(s)| => s.Subtotal(ShownBrackets(s)[k]))
  {
    LayoutRateColumn(lines, s, h);
    LayoutBaseColumn(lines, s, h);
    LayoutVatColumn(lines, s, h);
    LayoutSubtotalColumn(lines, s, h);
  }

  lemma LayoutRateColumn(lines: seq<LineItem>, s: Summary, h: real)
    ensures Select(Layout(lines, s, h), RateCell) ==
      seq(|ShownBrackets(s)|, k requires 0 <= k < |ShownBrackets(s)| => Percent(ShownBrackets(s)[k]))
  {
    SummaryProjections();
    forall b, y ensures Select(BracketRow(s, b, y), RateCell) == [Percent(b)] {
      BracketRowSelect(s, b, y);
    }
    LayoutColumn(lines, s, h, RateCell, Percent);
  }

  lemma LayoutBaseColumn(lines: seq<LineItem>, s: Summary, h: real)
    ensures Select(Layout(lines, s, h), BaseCell) ==
      seq(|ShownBrackets(s)|, k requires 0 <= k < |ShownBrackets(s)| => s.base.Get(ShownBrackets(s)[k]))
  {
    SummaryProjections();
    forall b, y ensures Select(BracketRow(s, b, y), BaseCell) == [s.base.Get(b)] {
      BracketRowSelect(s, b, y);
    }
    LayoutColumn(lines, s, h, BaseCell, b => s.base.Get(b));
  }

  lemma LayoutVatColumn(lines: seq<LineItem>, s: Summary, h: real)
    ensures Select(Layout(lines, s, h), VatCell) ==
      seq(|ShownBrackets(s)|, k requires 0 <= k < |ShownBrackets(s)| => s.vat.Get(ShownBrackets(s)[k]))
  {
    SummaryProjections();
    forall b, y ensures Select(BracketRow(s, b, y), VatCell) == [s.vat.Get(b)] {
      BracketRowSelect(s, b, y);
    }
    LayoutColumn(lines, s, h, VatCell, b => s.vat.Get(b));
  }

  lemma LayoutSubtotalColumn(lines: seq<LineItem>, s: Summary, h: real)
    ensures Select(Layout(lines, s, h), SubtotalCell) ==
      seq(|ShownBrackets(s)|, k requires 0 <= k < |ShownBrackets(s)| => s.Subtotal(ShownBrackets(s)[k]))
  {
    SummaryProjections();
    forall b, y ensures Select(BracketRow(s, b, y), SubtotalCell) == [s.Subtotal(b)] {
      BracketRowSelect(s, b, y);
    }
    LayoutColumn(lines, s, h, SubtotalCell, b => s.Subtotal(b));
  }

  /**
   * The k-th VAT-summary row, 15 units below the previous one, shows the
   * bracket's rate at x = 50, its base at 150, its VAT at 300 and base + VAT
   * at 400.
   */
  lemma {:induction false} LayoutSummaryRowCells(lines: seq<LineItem>, s: Summary, h: real, k: nat)
    requires k < |ShownBrackets(s)|
    ensures Draw(Body, 50.0, RowY(SummaryTop(h, |lines|) - 15.0, k), BracketRate(Percent(ShownBrackets(s)[k])))
      in Layout(lines, s, h)
    ensures Draw(Body, 150.0, RowY(SummaryTop(h, |lines|) - 15.0, k), BracketBase(s.base.Get(ShownBrackets(s)[k])))
      in Layout(lines, s, h)
    ensures Draw(Body, 300.0, RowY(SummaryTop(h, |lines|) - 15.0, k), BracketVat(s.vat.Get(ShownBrackets(s)[k])))
      in Layout(lines, s, h)
    ensures Draw(Body, 400.0, RowY(SummaryTop(h, |lines|) - 15.0, k), BracketTotal(s.Subtotal(ShownBrackets(s)[k])))
      in Layout(lines, s, h)
  {
    SummaryRowInPage(lines, s, h, k);
    BracketRowIn(Layout(lines, s, h), s, ShownBrackets(s)[k], RowY(SummaryTop(h, |lines|) - 15.0, k));
  }

  lemma BracketRowIn(page: seq<DrawCmd>, s: Summary, b: Bracket, y: real)
    requires forall z :: z in BracketRow(s, b, y) ==> z in page
    ensures Draw(Body, 50.0, y, BracketRate(Percent(b))) in page
    ensures Draw(Body, 150.0, y, BracketBase(s.base.Get(b))) in page
    ensures Draw(Body, 300.0, y, BracketVat(s.vat.Get(b))) in page
    ensures Draw(Body, 400.0, y, BracketTotal(s.Subtotal(b))) in page
  {
    var row := BracketRow(s, b, y);
    assert row[0] in row && row[1] in row && row[2] in row && row[3] in row;
  }

  lemma {:induction false} SummaryRowInPage(lines: seq<LineItem>, s: Summary, h: real, k: nat)
    requires k < |ShownBrackets(s)|
    ensures forall z :: z in BracketRow(s, ShownBrackets(s)[k], RowY(SummaryTop(h, |lines|) - 15.0, k)) ==> z in Layout(lines, s, h)
  {
    var top := SummaryTop(h, |lines|) - 15.0;
    var a, b := Header(h), ItemRows(lines, ItemsTop(h));
    var c := [Draw(Heading, 50.0, SummaryTop(h, |lines|), SummaryHeading)];
    var d := BracketRows(s, Brackets, top);
    var e := Totals(s, TotalsTop(h, |lines|, |Showing(s, Brackets)|));
    assert Layout(lines, s, h) == a + b + c + d + e;
    var row := BracketRow(s, ShownBrackets(s)[k], RowY(top, k));
    assert forall z :: z in row ==> z in d by {
      ShowingAllBrackets(s);
      BracketRowsContain(s, Brackets, top, k);
    }
    forall z | z in row
      ensures z in Layout(lines, s, h)
    {
      InFourth(a, b, c, d, e, z);
    }
  }

  /** A VAT-summary column of the page lists `g` of the brackets shown. */
  lemma {:induction false} LayoutColumn<T>(lines: seq<LineItem>, s: Summary, h: real, f: DrawCmd -> Option<T>, g: Bracket -> T)
    requires SummaryProjection(f)
    requires forall b, y :: Select(BracketRow(s, b, y), f) == [g(b)]
    ensures Select(Layout(lines, s, h), f) ==
      seq(|ShownBrackets(s)|, k requires 0 <= k < |ShownBrackets(s)| => g(ShownBrackets(s)[k]))
  {
    var top := SummaryTop(h, |lines|) - 15.0;
    var shown := Showing(s, Brackets);
    assert Select(Layout(lines, s, h), f) == Select(BracketRows(s, Brackets, top), f) by {
      SummaryCellsInBracketRows(lines, s, h, f);
    }
    assert Select(BracketRows(s, Brackets, top), f) == seq(|shown|, k requires 0 <= k < |shown| => g(shown[k])) by {
      BracketRowsColumn(s, Brackets, top, f, g);
    }
    ShowingAllBrackets(s);
  }

  lemma SummaryProjections()
    ensures SummaryProjection(RateCell) && SummaryProjection(BaseCell)
    ensures SummaryProjection(VatCell) && SummaryProjection(SubtotalCell)
  {
  }

  /** Header and item rows run down the page, ending above the VAT summary. */
  lemma {:induction false} UpperPageDescends(lines: seq<LineItem>, h: real)
    ensures Descending(Header(h) + ItemRows(lines, ItemsTop(h)))
    ensures forall z :: z in Header(h) + ItemRows(lines, ItemsTop(h)) ==> RowY(ItemsTop(h), |lines|) <= z.y
  {
    HeaderCells(h);
    ItemRowsCells(lines, ItemsTop(h));
    DescendingConcat(Header(h), ItemRows(lines, ItemsTop(h)), ItemsTop(h));
  }

  /** The VAT summary and the totals run down the page from the summary heading. */
  lemma {:induction false} LowerPageDescends(s: Summary, y: real, totalsTop: real)
    requires totalsTop == RowY(y - 15.0, |Showing(s, Brackets)|) - 20.0
    ensures var lower := [Draw(Heading, 50.0, y, SummaryHeading)] + BracketRows(s, Brackets, y - 15.0)
                         + Totals(s, totalsTop);
      Descending(lower) && forall z :: z in lower ==> z.y <= y
  {
    var c := [Draw(Heading, 50.0, y, SummaryHeading)];
    var d := BracketRows(s, Brackets, y - 15.0);
    var e := Totals(s, totalsTop);
    BracketRowsCells(s, Brackets, y - 15.0);
    TotalsCells(s, totalsTop);
    assert Descending(c);
    DescendingConcat(c, d, y - 15.0);
    DescendingConcat(c + d, e, totalsTop);
  }

  /**
   * The page runs top to bottom: every text is placed at or below every
   * text drawn before it.
   */
  lemma {:induction false} LayoutDescends(lines: seq<LineItem>, s: Summary, h: real)
    ensures Descending(Layout(lines, s, h))
  {
    var summaryTop := SummaryTop(h, |lines|);
    var a, b := Header(h), ItemRows(lines, ItemsTop(h));
    var c := [Draw(Heading, 50.0, summaryTop, SummaryHeading)];
    var d := BracketRows(s, Brackets, summaryTop - 15.0);
    var e := Totals(s, TotalsTop(h, |lines|, |Showing(s, Brackets)|));
    var m := RowY(ItemsTop(h), |lines|);
    assert Layout(lines, s, h) == a + b + c + d + e;
    assert Descending(c + d + e) by {
      LowerPageDescends(s, summaryTop, TotalsTop(h, |lines|, |Showing(s, Brackets)|));
    }
    assert forall z: DrawCmd :: z in c + d + e ==> z.y <= m by {
      LowerPageDescends(s, summaryTop, TotalsTop(h, |lines|, |Showing(s, Brackets)|));
    }
    assert Descending(a + b) && forall z: DrawCmd :: z in a + b ==> m <= z.y by {
      UpperPageDescends(lines, h);
    }
    DescendingTwoParts(a, b, c, d, e, m);
  }

  lemma SuffixAt(x: seq<DrawCmd>, e: seq<DrawCmd>, k: nat)
    requires k < |e|
    ensures (x + e)[|x| + k] == e[k]
  {
  }

  /** The page ends with the discount total and, last, the amount to pay. */
  lemma {:induction false} LayoutEndsWithTotals(lines: seq<LineItem>, s: Summary, h: real)
    ensures var page := Layout(lines, s, h); var n := |page|;
      n >= 4 &&
      page[n - 4] == Draw(Heading, 50.0, TotalsTop(h, |lines|, |Showing(s, Brackets)|), DiscountLabel) &&
      page[n - 3] == Draw(Heading, 400.0, TotalsTop(h, |lines|, |Showing(s, Brackets)|), DiscountTotal(s.discount)) &&
      page[n - 2] == Draw(Heading, 50.0, TotalsTop(h, |lines|, |Showing(s, Brackets)|) - 20.0, PayableLabel) &&
      page[n - 1] == Draw(Heading, 400.0, TotalsTop(h, |lines|, |Showing(s, Brackets)|) - 20.0, PayableTotal(s.GrandTotal()))
  {
    var summaryTop := SummaryTop(h, |lines|);
    var rest := Header(h) + ItemRows(lines, ItemsTop(h)) + [Draw(Heading, 50.0, summaryTop, SummaryHeading)]
      + BracketRows(s, Brackets, summaryTop - 15.0);
    var e := Totals(s, TotalsTop(h, |lines|, |Showing(s, Brackets)|));
    assert Layout(lines, s, h) == rest + e;
    SuffixAt(rest, e, 0);
    SuffixAt(rest, e, 1);
    SuffixAt(rest, e, 2);
    SuffixAt(rest, e, 3);
  }

  /** An empty cart's figures are all zero, and its page holds the header and the totals only. */
  lemma {:induction false} EmptyInvoiceLayout(h: real)
    ensures Summarize([]) == Ok(EmptySummary) && EmptySummary.GrandTotal() == 0.0
    ensures Layout([], EmptySummary, h) ==
      Header(h) + [Draw(Heading, 50.0, h - 160.0, SummaryHeading)] + Totals(EmptySummary, h - 195.0)
  {
    var e := EmptySummary;
    assert BracketRows(e, Brackets, SummaryTop(h, 0) - 15.0) == [] by {
      NoBracketRows(e, Brackets, SummaryTop(h, 0) - 15.0);
    }
    assert |Showing(e, Brackets)| == 0 by {
      ShowingAllBrackets(e);
    }
    assert ItemRows([], ItemsTop(h)) == [];
    assert SummaryTop(h, 0) == h - 160.0;
    assert TotalsTop(h, 0, 0) == h - 195.0;
    var top, mid, bottom := Header(h), [Draw(Heading, 50.0, h - 160.0, SummaryHeading)], Totals(e, h - 195.0);
    assert Layout([], e, h) == top + [] + mid + [] + bottom;
    assert top + [] + mid + [] + bottom == top + mid + bottom;
    assert Summarize([]) == Ok(EmptySummary);
  }
}
