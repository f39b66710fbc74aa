/**
 * The records the mini-market works on: catalog products and the cart lines
 * copied from them (main.py:15-16, 88).
 */
module Catalog {

  /**
   * One catalog entry. Prices and discount fractions are exact reals; the
   * VAT rate is held as the integer percent the invoice buckets by.
   */
  datatype Product = Product(name: string, price: real, discount: real, vatPercent: int)

  /** A product copied into the cart, tagged with the category it came from. */
  datatype LineItem = LineItem(product: Product, category: string) {
    function Name(): string { product.name }
    function Price(): real { product.price }
  }

  /** Sum of `f` over the lines, first line first. */
  function SumOf(lines: seq<LineItem>, f: LineItem -> real): real
  {
    if |lines| == 0 then 0.0 else f(lines[0]) + SumOf(lines[1..], f)
  }

  /** A sum over a concatenation is the sum of the two parts' sums. */
  lemma {:induction false} SumOfAppend(a: seq<LineItem>, b: seq<LineItem>, f: LineItem -> real)
    ensures SumOf(a + b, f) == SumOf(a, f) + SumOf(b, f)
  {
    if |a| == 0 {
      assert a + b == b;
    } else {
      assert (a + b)[1..] == a[1..] + b;
      SumOfAppend(a[1..], b, f);
    }
  }
}
