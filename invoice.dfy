/**
 * The invoice arithmetic of `gerar_pdf` (main.py:137-154, 181): per-line
 * discount, net and VAT amounts, accumulated into the three fixed VAT
 * brackets 0%, 6% and 23%, a discount total and a grand total.
 */
module Invoice {
  import opened Wrappers
  import opened Catalog

  /** The three VAT brackets that key `total_iva` and `valor_liquido`. */
  datatype Bracket = Exempt | Reduced | Standard

  function Percent(b: Bracket): int
  {
    match b
    case Exempt => 0
    case Reduced => 6
    case Standard => 23
  }

  /** The fixed order in which the VAT summary visits the brackets. */
  const Brackets: seq<Bracket> := [Exempt, Reduced, Standard]

  predicate IsBracketPercent(p: int)
  {
    p == 0 || p == 6 || p == 23
  }

  datatype InvoiceError = InvalidVatRate(percent: int)

  /** The dictionary lookup by percent: any other percent is a missing key. */
  function BracketOf(percent: int): (r: Result<Bracket, InvoiceError>)
    ensures r.Ok? <==> IsBracketPercent(percent)
    ensures r.Ok? ==> Percent(r.value) == percent
    ensures r.Err? ==> r.error == InvalidVatRate(percent)
  {
    if percent == 0 then Ok(Exempt)
    else if percent == 6 then Ok(Reduced)
    else if percent == 23 then Ok(Standard)
    else Err(InvalidVatRate(percent))
  }

  /** One running amount per bracket. */
  datatype Tally = Tally(exempt: real, reduced: real, standard: real) {

    function Get(b: Bracket): real
    {
      match b
      case Exempt => exempt
      case Reduced => reduced
      case Standard => standard
    }

    /** `tally[b] += x`: only bracket `b` moves. */
    function Add(b: Bracket, x: real): (t: Tally)
      ensures t.Get(b) == Get(b) + x
      ensures forall c :: c != b ==> t.Get(c) == Get(c)
      ensures t.Sum() == Sum() + x
    {
      match b
      case Exempt => this.(exempt := exempt + x)
      case Reduced => this.(reduced := reduced + x)
      case Standard => this.(standard := standard + x)
    }

    /** `sum(tally.values())`, visiting the keys 0, 6, 23. */
    function Sum(): real
    {
      exempt + reduced + standard
    }
  }

  const NoTally: Tally := Tally(0.0, 0.0, 0.0)

  function DiscountAmount(l: LineItem): real
  {
    l.product.price * l.product.discount
  }

  function NetAmount(l: LineItem): real
  {
    l.product.price - DiscountAmount(l)
  }

  function VatAmount(l: LineItem): real
  {
    NetAmount(l) * (l.product.vatPercent as real) / 100.0
  }

  /** What a line costs the customer: price x (1 - discount) x (1 + rate). */
  function GrossAmount(l: LineItem): real
  {
    l.product.price * (1.0 - l.product.discount) * (1.0 + (l.product.vatPercent as real) / 100.0)
  }

  lemma GrossIsNetPlusVat(l: LineItem)
    ensures GrossAmount(l) == NetAmount(l) + VatAmount(l)
  {
    var p, d, q := l.product.price, l.product.discount, (l.product.vatPercent as real) / 100.0;
    calc {
      GrossAmount(l);
      p * (1.0 - d) * (1.0 + q);
      (p - p * d) * (1.0 + q);
      (p - p * d) + (p - p * d) * q;
      NetAmount(l) + VatAmount(l);
    }
  }

  /** Per-bracket net bases and VAT amounts, and the discount total. */
  datatype Summary = Summary(base: Tally, vat: Tally, discount: real) {
    /** `sum(valor_liquido.values()) + sum(total_iva.values())` (main.py:181). */
    function GrandTotal(): real
    {
      base.Sum() + vat.Sum()
    }

    /** A bracket's total in the VAT summary: its base plus its VAT (main.py:176). */
    function Subtotal(b: Bracket): real
    {
      base.Get(b) + vat.Get(b)
    }
  }

  const EmptySummary: Summary := Summary(NoTally, NoTally, 0.0)

  /** The effect of one loop iteration (main.py:148-154) on the accumulators. */
  function Accumulate(s: Summary, l: LineItem, b: Bracket): Summary
  {
    Summary(s.base.Add(b, NetAmount(l)), s.vat.Add(b, VatAmount(l)), s.discount + DiscountAmount(l))
  }

  /**
   * The summary of the lines, processed first to last; the first line whose
   * percent is not a bracket stops the computation.
   */
  function Summarize(lines: seq<LineItem>): Result<Summary, InvoiceError>
    decreases |lines|
  {
    if |lines| == 0 then Ok(EmptySummary)
    else
      match Summarize(lines[..|lines| - 1])
      case Err(e) => Err(e)
      case Ok(s) =>
        match BracketOf(lines[|lines| - 1].product.vatPercent)
        case Err(e) => Err(e)
        case Ok(b) => Ok(Accumulate(s, lines[|lines| - 1], b))
  }

  // Reference sums over the whole line list, independent of the bucketing.

  /** A line's net amount if it is at `percent`, else nothing. */
  function NetAt(percent: int): LineItem -> real
  {
    (l: LineItem) => if l.product.vatPercent == percent then NetAmount(l) else 0.0
  }

  /** A line's VAT amount if it is at `percent`, else nothing. */
  function VatAt(percent: int): LineItem -> real
  {
    (l: LineItem) => if l.product.vatPercent == percent then VatAmount(l) else 0.0
  }

  function NetSum(lines: seq<LineItem>, percent: int): real
  {
    SumOf(lines, NetAt(percent))
  }

  function VatSum(lines: seq<LineItem>, percent: int): real
  {
    SumOf(lines, VatAt(percent))
  }

  function DiscountSum(lines: seq<LineItem>): real
  {
    SumOf(lines, DiscountAmount)
  }

  function GrossSum(lines: seq<LineItem>): real
  {
    SumOf(lines, GrossAmount)
  }

  /** Once a prefix fails, the whole list fails with the same error. */
  lemma {:induction false} SummarizeErrPersists(lines: seq<LineItem>, k: nat)
    requires k <= |lines|
    requires Summarize(lines[..k]).Err?
    ensures Summarize(lines) == Summarize(lines[..k])
    decreases |lines|
  {
    if k < |lines| {
      var init := lines[..|lines| - 1];
      assert init[..k] == lines[..k];
      SummarizeErrPersists(init, k);
    } else {
      assert lines[..k] == lines;
    }
  }

  /**
   * The computation fails exactly when some line's percent is not a bracket,
   * and then it names the first such line's percent.
   */
  lemma {:induction false} SummarizeFailsOnInvalidRate(lines: seq<LineItem>)
    ensures Summarize(lines).Ok? <==> forall i :: 0 <= i < |lines| ==> IsBracketPercent(lines[i].product.vatPercent)
    ensures Summarize(lines).Err? ==>
      exists k :: 0 <= k < |lines| && !IsBracketPercent(lines[k].product.vatPercent) &&
        (forall j :: 0 <= j < k ==> IsBracketPercent(lines[j].product.vatPercent)) &&
        Summarize(lines).error == InvalidVatRate(lines[k].product.vatPercent)
    decreases |lines|
  {
    if |lines| > 0 {
      var n := |lines| - 1;
      var init := lines[..n];
      SummarizeFailsOnInvalidRate(init);
      assert forall i :: 0 <= i < n ==> init[i] == lines[i];
      if Summarize(init).Err? {
        var k :| 0 <= k < n && !IsBracketPercent(init[k].product.vatPercent) &&
          (forall j :: 0 <= j < k ==> IsBracketPercent(init[j].product.vatPercent)) &&
          Summarize(init).error == InvalidVatRate(init[k].product.vatPercent);
        assert lines[k] == init[k];
      }
    }
  }

  /**
   * Each bracket's base and VAT are the sums of net and VAT over the lines at
   * that percent, and the discount total sums every line's discount.
   */
  lemma {:induction false} SummarizeMatchesSums(lines: seq<LineItem>, s: Summary)
    requires Summarize(lines) == Ok(s)
    ensures forall b :: s.base.Get(b) == NetSum(lines, Percent(b)) && s.vat.Get(b) == VatSum(lines, Percent(b))
    ensures s.discount == DiscountSum(lines)
    decreases |lines|
  {
    if |lines| == 0 {
    } else {
      var n := |lines| - 1;
      var init, last := lines[..n], lines[n];
      assert lines == init + [last];
      var s0 := Summarize(init).value;
      var b0 := BracketOf(last.product.vatPercent).value;
      assert s == Accumulate(s0, last, b0);
      SummarizeMatchesSums(init, s0);
      SumOfAppend(init, [last], DiscountAmount);
      forall b
        ensures s.base.Get(b) == NetSum(lines, Percent(b)) && s.vat.Get(b) == VatSum(lines, Percent(b))
      {
        var p := Percent(b);
        SumOfAppend(init, [last], NetAt(p));
        SumOfAppend(init, [last], VatAt(p));
        assert last.product.vatPercent == p <==> b == b0;
      }
    }
  }

  /**
   * The grand total (bracket bases plus bracket VAT) is what the lines cost:
   * the sum of price x (1 - discount) x (1 + rate).
   */
  lemma {:induction false} GrandTotalIsGross(lines: seq<LineItem>, s: Summary)
    requires Summarize(lines) == Ok(s)
    ensures s.GrandTotal() == GrossSum(lines)
    decreases |lines|
  {
    if |lines| > 0 {
      var n := |lines| - 1;
      var init, last := lines[..n], lines[n];
      var s0 := Summarize(init).value;
      var b0 := BracketOf(last.product.vatPercent).value;
      assert GrossSum(lines) == GrossSum(init) + GrossAmount(last) by {
        assert lines == init + [last];
        SumOfAppend(init, [last], GrossAmount);
        assert SumOf([last], GrossAmount) == GrossAmount(last);
      }
      assert s.GrandTotal() == s0.GrandTotal() + GrossAmount(last) by {
        assert s == Accumulate(s0, last, b0);
        AccumulateAddsGross(s0, last, b0);
      }
      GrandTotalIsGross(init, s0);
    }
  }

  /** One more line raises the grand total by what that line costs. */
  lemma AccumulateAddsGross(s: Summary, l: LineItem, b: Bracket)
    ensures Accumulate(s, l, b).GrandTotal() == s.GrandTotal() + GrossAmount(l)
  {
    GrossIsNetPlusVat(l);
  }

  /** The two lines of the worked example below. */
  const Bread: LineItem := LineItem(Product("Bread", 2.0, 0.0, 6), "Padaria")
  const Wine: LineItem := LineItem(Product("Wine", 10.0, 0.1, 23), "Bebidas")

  /** Bread at 6% and Wine at 23% with a 10% discount. */
  lemma {:induction false} BreadAndWine()
    ensures Summarize([Bread, Wine]) == Ok(Summary(Tally(0.0, 2.0, 9.0), Tally(0.0, 0.12, 2.07), 1.0))
    ensures Summary(Tally(0.0, 2.0, 9.0), Tally(0.0, 0.12, 2.07), 1.0).GrandTotal() == 13.19
  {
    var first := Summary(Tally(0.0, 2.0, 0.0), Tally(0.0, 0.12, 0.0), 0.0);
    BreadAmounts();
    SummarizeAppendOne([], Bread, EmptySummary);
    assert [] + [Bread] == [Bread];
    WineAmounts();
    SummarizeAppendOne([Bread], Wine, first);
    assert [Bread] + [Wine] == [Bread, Wine];
  }

  lemma BreadAmounts()
    ensures Accumulate(EmptySummary, Bread, Reduced) == Summary(Tally(0.0, 2.0, 0.0), Tally(0.0, 0.12, 0.0), 0.0)
  {
    assert DiscountAmount(Bread) == 0.0 && NetAmount(Bread) == 2.0 && VatAmount(Bread) == 0.12;
  }

  lemma WineAmounts()
    ensures Accumulate(Summary(Tally(0.0, 2.0, 0.0), Tally(0.0, 0.12, 0.0), 0.0), Wine, Standard) ==
      Summary(Tally(0.0, 2.0, 9.0), Tally(0.0, 0.12, 2.07), 1.0)
  {
    assert DiscountAmount(Wine) == 1.0 && NetAmount(Wine) == 9.0 && VatAmount(Wine) == 2.07;
  }

  /** Summarizing one more line with a bracket percent accumulates it. */
  lemma SummarizeAppendOne(init: seq<LineItem>, last: LineItem, s: Summary)
    requires Summarize(init) == Ok(s) && IsBracketPercent(last.product.vatPercent)
    ensures Summarize(init + [last]) == Ok(Accumulate(s, last, BracketOf(last.product.vatPercent).value))
  {
    assert (init + [last])[..|init|] == init;
  }

  /** A line at 13% has no bucket: the computation fails naming 13. */
  lemma {:induction false} UnknownRateFails(lines: seq<LineItem>)
    requires exists i :: 0 <= i < |lines| && lines[i].product.vatPercent == 13
    requires forall i :: 0 <= i < |lines| ==> lines[i].product.vatPercent in {0, 6, 13, 23}
    ensures Summarize(lines) == Err(InvalidVatRate(13))
  {
    SummarizeFailsOnInvalidRate(lines);
  }
}
