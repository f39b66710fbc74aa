/**
 * The shopping cart of the mini-market (main.py:80-118): an ordered list of
 * product copies, duplicates allowed, that the checkout turns into an
 * invoice and then empties.
 */
module ShoppingCart {
  import opened Wrappers
  import opened Catalog
  import opened Invoice
  import opened InvoiceDocument

  /** The position of the first product called `name`, if any. */
  function FirstNamed(ps: seq<Product>, name: string): (r: Option<nat>)
    ensures r.Some? ==> r.value < |ps| && ps[r.value].name == name
    ensures r.Some? ==> forall k :: 0 <= k < r.value ==> ps[k].name != name
    ensures r.None? <==> forall k :: 0 <= k < |ps| ==> ps[k].name != name
  {
    if |ps| == 0 then None
    else if ps[0].name == name then Some(0)
    else
      match FirstNamed(ps[1..], name)
      case None => None
      case Some(k) => Some(k + 1)
  }

  /** The list comprehension that drops every line called `name`. */
  function RemoveNamed(lines: seq<LineItem>, name: string): (r: seq<LineItem>)
    ensures forall l :: l in r ==> l in lines && l.Name() != name
    ensures forall l :: l in lines && l.Name() != name ==> l in r
    ensures |r| <= |lines|
  {
    if |lines| == 0 then []
    else (if lines[0].Name() != name then [lines[0]] else []) + RemoveNamed(lines[1..], name)
  }

  function PriceOf(l: LineItem): real
  {
    l.Price()
  }

  /** The running total: base prices only, no discount and no VAT. */
  function PriceSum(lines: seq<LineItem>): real
  {
    SumOf(lines, PriceOf)
  }

  /** Removal works line by line: it keeps the survivors in their order. */
  lemma {:induction false} RemoveNamedAppend(a: seq<LineItem>, b: seq<LineItem>, name: string)
    ensures RemoveNamed(a + b, name) == RemoveNamed(a, name) + RemoveNamed(b, name)
  {
    if |a| == 0 {
      assert a + b == b;
    } else {
      assert (a + b)[1..] == a[1..] + b;
      RemoveNamedAppend(a[1..], b, name);
    }
  }

  /** Each line called `name` disappears; every other line keeps its count. */
  lemma {:induction false} RemoveNamedCounts(lines: seq<LineItem>, name: string)
    ensures forall l :: multiset(RemoveNamed(lines, name))[l] == if l.Name() == name then 0 else multiset(lines)[l]
  {
    if |lines| > 0 {
      RemoveNamedCounts(lines[1..], name);
      assert lines == [lines[0]] + lines[1..];
    }
  }

  /** Removal changes nothing exactly when no line carries the name. */
  lemma {:induction false} RemoveNamedNoop(lines: seq<LineItem>, name: string)
    ensures RemoveNamed(lines, name) == lines <==> forall l :: l in lines ==> l.Name() != name
  {
    if |lines| > 0 {
      RemoveNamedNoop(lines[1..], name);
      assert lines == [lines[0]] + lines[1..];
      if lines[0].Name() == name {
        assert |RemoveNamed(lines, name)| < |lines|;
      }
    }
  }

  /**
   * Adding a product whose name is not yet in the cart and then removing that
   * name gives back the cart and its total.
   */
  lemma AddThenRemoveRestores(lines: seq<LineItem>, p: Product, category: string)
    requires forall l :: l in lines ==> l.Name() != p.name
    ensures PriceSum(lines + [LineItem(p, category)]) == PriceSum(lines) + p.price
    ensures RemoveNamed(lines + [LineItem(p, category)], p.name) == lines
    ensures PriceSum(RemoveNamed(lines + [LineItem(p, category)], p.name)) == PriceSum(lines)
  {
    var item := LineItem(p, category);
    SumOfAppend(lines, [item], PriceOf);
    RemoveNamedAppend(lines, [item], p.name);
    RemoveNamedNoop(lines, p.name);
    assert RemoveNamed([item], p.name) == [];
  }

  /** Prices are not negative in a catalog that makes sense; neither is the total. */
  lemma {:induction false} PriceSumNonNegative(lines: seq<LineItem>)
    requires forall l :: l in lines ==> l.Price() >= 0.0
    ensures PriceSum(lines) >= 0.0
  {
    if |lines| > 0 {
      assert lines[0] in lines;
      assert forall l :: l in lines[1..] ==> l in lines;
      PriceSumNonNegative(lines[1..]);
    }
  }

  /** What the checkout button leads to. */
  datatype Checkout =
    | Skipped                      // the cart was empty
    | Failed(error: InvoiceError)  // the invoice could not be computed
    | Unsaved(document: Document)  // the invoice was drawn but its file could not be written
    | Issued(document: Document)   // the invoice was saved and the cart emptied

  class Cart {
    var lines: seq<LineItem>

    constructor()
      ensures lines == []
    {
      lines := [];
    }

    /** The figure shown in the total label. */
    function Total(): real
      reads this
    {
      PriceSum(lines)
    }

    /**
     * A double click on a product of `category`: the first product there
     * with the selected name is appended, tagged with the category; with no
     * selection or no such product the cart stays as it is.
     */
    method Add(catalog: map<string, seq<Product>>, category: string, selected: Option<string>)
      requires category in catalog
      modifies this
      ensures selected.None? ==> lines == old(lines)
      ensures selected.Some? ==>
        match FirstNamed(catalog[category], selected.value)
        case None => lines == old(lines)
        case Some(k) => lines == old(lines) + [LineItem(catalog[category][k], category)]
      ensures selected.Some? ==>
        Total() == old(Total()) + (match FirstNamed(catalog[category], selected.value)
                                   case None => 0.0
                                   case Some(k) => catalog[category][k].price)
    {
      if selected.None? {
        return;
      }
      var name := selected.value;
      var products := catalog[category];
      var i := 0;
      while i < |products|
        invariant 0 <= i <= |products|
        invariant forall k :: 0 <= k < i ==> products[k].name != name
        invariant lines == old(lines)
      {
        if products[i].name == name {
          lines := lines + [LineItem(products[i], category)];
          FirstIndexIs(products, name, i);
          SumOfAppend(old(lines), [LineItem(products[i], category)], PriceOf);
          return;
        }
        i := i + 1;
      }
    }

    /** "Remove item": every line with the selected name goes. */
    method RemoveByName(selected: Option<string>)
      modifies this
      ensures selected.None? ==> lines == old(lines)
      ensures selected.Some? ==> lines == RemoveNamed(old(lines), selected.value)
    {
      if selected.Some? {
        lines := RemoveNamed(lines, selected.value);
      }
    }

    /** Emptying the cart after checkout. */
    method Clear()
      modifies this
      ensures lines == [] && Total() == 0.0
    {
      lines := [];
    }

    /**
     * "Finalize purchase": nothing on an empty cart; otherwise the invoice is
     * built from the current lines and only once it is saved is the cart
     * emptied. `saved` is whether writing the invoice file succeeds; a failed
     * computation or a failed write leaves the cart as it was.
     */
    method Finalize(pageHeight: real, saved: bool) returns (outcome: Checkout)
      modifies this
      ensures old(lines) == [] <==> outcome.Skipped?
      ensures outcome.Skipped? ==> lines == old(lines)
      ensures outcome.Failed? ==> lines == old(lines) && Summarize(old(lines)) == Err(outcome.error)
      ensures outcome.Unsaved? ==>
        !saved && lines == old(lines) &&
        Summarize(old(lines)) == Ok(outcome.document.summary) &&
        outcome.document.page == InvoiceLayout.Layout(old(lines), outcome.document.summary, pageHeight)
      ensures outcome.Issued? ==>
        saved &&
        Summarize(old(lines)) == Ok(outcome.document.summary) &&
        outcome.document.page == InvoiceLayout.Layout(old(lines), outcome.document.summary, pageHeight) &&
        lines == [] && Total() == 0.0
      ensures old(lines) != [] ==> (outcome.Failed? <==> Summarize(old(lines)).Err?)
      ensures old(lines) != [] ==> (outcome.Issued? <==> Summarize(old(lines)).Ok? && saved)
    {
      if lines == [] {
        return Skipped;
      }
      var r := Generate(lines, pageHeight);
      if r.Err? {
        return Failed(r.error);
      }
      if !saved {
        return Unsaved(r.value);
      }
      Clear();
      outcome := Issued(r.value);
    }
  }

  /** The loop of `Add` stops at the first match. */
  lemma FirstIndexIs(ps: seq<Product>, name: string, i: nat)
    requires i < |ps| && ps[i].name == name
    requires forall k :: 0 <= k < i ==> ps[k].name != name
    ensures FirstNamed(ps, name) == Some(i)
  {
  }
}
