# Mini Market invoices, modelled in Dafny

This project models the core of the Mini Market point-of-sale program
(`main.py`).

The shopper double-clicks products of a catalog category into a shopping
cart. The cart is a list of product copies, duplicates allowed, each tagged
with its category. An item can be removed by name, and the running total
shows the sum of base prices.

Finalizing a non-empty cart produces a one-page invoice, saves it, then
empties the cart. For each line the invoice computes:

- the discount, as price × discount fraction;
- the net amount, as price minus the discount;
- the VAT, as net × rate.

Net and VAT amounts are accumulated into the three VAT brackets 0 %, 6 %
and 23 %. The page lists the items, a VAT summary for each bracket with a
positive base, the discount total and the amount to pay.

The model has these modules:

- `Wrappers` holds `Option` and `Result`.
- `Catalog` holds products, cart lines and sums over lines.
- `Invoice` holds the brackets, the per-line amounts, and `Summarize`, the
  recursive specification of the accumulation.
- `InvoiceLayout` holds `Layout`, a pure function from the lines, their
  summary and the page height to the list of text placements on the page,
  plus the lemmas that read that page back.
- `InvoiceDocument` holds `Generate`, the imperative invoice run. Its loops
  update the buckets and the y coordinate as the program does. It is proved
  equal to `Summarize` and `Layout`.
- `ShoppingCart` holds the `Cart` class, whose `lines` field the methods
  update in place.

Amounts and fractions are exact `real`s. A VAT rate is held as its integer
percent. A percent other than 0, 6 or 23 has no bucket in the program, so
the invoice fails there. The model returns `Err(InvalidVatRate(p))` for the
first such line. The cart is then left as it was, since the program's
`finalizar_compra` never reaches its clearing step. The same holds when the
invoice is drawn but its file cannot be written: `Cart.Finalize` takes the
outcome of the write as its parameter `saved` and keeps the cart when it is
false.

The program draws everything on a single page, with no page break however
long the cart is. The model follows it.

## Model

| member | source | states |
|---|---|---|
| Invoice.BracketOf | main.py:138-154 | a percent has a bucket iff it is 0, 6 or 23; the bucket found has that percent; any other percent is an error naming it |
| Invoice.Tally.Add | main.py:153-154 | adding to one bucket changes that bucket by the amount, leaves the other two alone, and raises the bucket sum by the amount |
| Invoice.GrossIsNetPlusVat | main.py:148-150 | a line's net plus its VAT equals price × (1 − discount) × (1 + rate) |
| Invoice.SummarizeAppendOne | main.py:142-154 | one more line with a valid percent adds its net, VAT and discount to the running figures |
| Invoice.SummarizeErrPersists | main.py:142-154 | once a prefix of the cart fails, the whole cart fails with the same error |
| Invoice.SummarizeFailsOnInvalidRate | main.py:146-154 | the computation succeeds iff every line's percent is 0, 6 or 23; on failure the error names the first line whose percent is not |
| Invoice.SummarizeMatchesSums | main.py:142-154 | each bucket's base and VAT are the sums of net and VAT over the lines at that percent; the discount total is the sum of all line discounts |
| Invoice.AccumulateAddsGross | main.py:148-154 | accumulating one line raises the grand total by that line's price × (1 − discount) × (1 + rate) |
| Invoice.GrandTotalIsGross | main.py:181 | the amount to pay, bucket bases plus bucket VAT, is the sum over the lines of price × (1 − discount) × (1 + rate) |
| Invoice.BreadAndWine | main.py:142-181 | bread (2.00, 6 %) and wine (10.00, 10 % off, 23 %) give bases 2.00/9.00, VAT 0.12/2.07, discount 1.00 and total 13.19 |
| Invoice.UnknownRateFails | main.py:153 | a cart holding a 13 % line, with no other bad percent, fails naming 13 |
| InvoiceLayout.ItemRowsAnchors | main.py:142-162 | the item rows carry one name cell per line, in cart order, each 15 units below the previous one |
| InvoiceLayout.ItemRowsCells | main.py:157-162 | item rows run down the page within their band, and a discount-column cell belongs to a discounted line's row |
| InvoiceLayout.BracketRowsCells | main.py:170-177 | VAT-summary rows run down the page within their band and never use the discount column |
| InvoiceLayout.BracketRowSelect | main.py:173-176 | a VAT-summary row holds exactly one rate, base, VAT and subtotal cell: the bracket's percent, base, VAT and base + VAT |
| InvoiceLayout.BracketRowsSummaryCells | main.py:170-177 | the VAT-summary rows hold, in order, one rate, base, VAT and subtotal (base + VAT) cell for each bracket with a positive base |
| InvoiceLayout.BracketRowsContain | main.py:170-177 | the row of the k-th bracket listed, at k rows below the top, is drawn among the VAT-summary rows |
| InvoiceLayout.ShowingAllBrackets | main.py:170-171 | the brackets shown are 0, 6 and 23 in that order, each only when its base is positive |
| InvoiceLayout.NoBracketRows | main.py:171 | with no positive base there is no VAT-summary row |
| InvoiceLayout.AnchorsInItemRows | main.py:124-189 | only the item rows hold item-name cells |
| InvoiceLayout.DiscountColumnInItemRows | main.py:124-189 | only the item rows draw at x = 370 |
| InvoiceLayout.SummaryCellsInBracketRows | main.py:124-189 | only the VAT-summary rows hold rate, base, VAT and subtotal cells |
| InvoiceLayout.LayoutItemRows | main.py:142-162 | the page has exactly one item name per cart line, in cart order, line i at y = h − 140 − 15 i |
| InvoiceLayout.LayoutDiscountCell | main.py:159-160 | line i's row has a discount-column cell iff its discount is positive, and that cell shows price × discount |
| InvoiceLayout.LayoutItemRowCells | main.py:157-161 | line i's row, at y = h − 140 − 15 i, shows its name at x = 50, its base price at x = 300 and "IVA p%" with its percent at x = 440 |
| InvoiceLayout.NoDiscountCell | main.py:159-160 | an undiscounted line has no cell in the discount column at its row's height |
| InvoiceLayout.LayoutColumn | main.py:170-177 | a VAT-summary column that holds g(b) in the row of bracket b lists g of the brackets with a positive base, in the order 0, 6, 23 |
| InvoiceLayout.LayoutSummaryRows | main.py:170-177 | the page's rate, base, VAT and subtotal columns list, for the brackets 0, 6, 23 in that order and only those with a positive base, the percent, the base, the VAT and base + VAT |
| InvoiceLayout.LayoutSummaryRowCells | main.py:170-177 | the k-th VAT-summary row, 15 k below the first, shows the rate at x = 50, the base at 150, the VAT at 300 and base + VAT at 400 |
| InvoiceLayout.LayoutDescends | main.py:124-189 | every text on the page is at or below every text drawn before it |
| InvoiceLayout.LayoutEndsWithTotals | main.py:179-189 | the page ends with the discount total and then, 20 units lower, the amount to pay |
| InvoiceLayout.EmptyInvoiceLayout | main.py:124-189 | no lines give all-zero figures and a zero amount to pay, and their page is the header, the "Resumo IVA" heading at h − 160 and the totals at h − 195 |
| InvoiceDocument.DrawItems | main.py:142-162 | the item loop's figures are `Summarize` of the lines, error included; its page is the header plus the item rows, and y ends one row below the last item; y never leaves the band of the item rows |
| InvoiceDocument.DrawBrackets | main.py:170-177 | the bracket loop draws the VAT-summary rows and leaves y one row below the last |
| InvoiceDocument.LayoutAssembled | main.py:120-191 | the pieces as drawn, in order, make up the page layout |
| InvoiceDocument.Generate | main.py:120-191 | with y carried on from loop to loop, the invoice succeeds iff `Summarize` does; it then carries that summary and the page `Layout` of the lines; otherwise it fails with `Summarize`'s error |
| ShoppingCart.FirstNamed | main.py:86-91 | the index found is of a product with the name, no earlier product has it, and none is found only when no product has it |
| ShoppingCart.RemoveNamed | main.py:98 | no kept line has the name, every line without the name is kept, nothing new appears |
| ShoppingCart.RemoveNamedAppend | main.py:98 | removal works line by line, so the kept lines stay in their original order |
| ShoppingCart.RemoveNamedCounts | main.py:98 | each line with the name disappears; every other line keeps its number of copies |
| ShoppingCart.RemoveNamedNoop | main.py:98 | removal leaves the cart unchanged iff no line has the name |
| ShoppingCart.AddThenRemoveRestores | main.py:86-103 | adding a product whose name is not in the cart raises the total by its price; removing that name then gives back the cart and its total |
| ShoppingCart.PriceSumNonNegative | main.py:103 | with non-negative prices the running total is non-negative |
| ShoppingCart.Cart.constructor | main.py:19 | a new cart is empty |
| ShoppingCart.Cart.Add | main.py:80-91 | with a selection, the first catalog product of that name in the category is appended, tagged with the category; the total rises by its price; otherwise nothing changes |
| ShoppingCart.Cart.RemoveByName | main.py:93-100 | with a selection, the cart becomes the lines without that name; otherwise nothing changes |
| ShoppingCart.Cart.Clear | main.py:115 | the cart is empty and its total is 0 |
| ShoppingCart.Cart.Finalize | main.py:106-118 | an empty cart is skipped and kept; otherwise the invoice is built from the current lines; the cart is emptied (total 0) iff the invoice succeeds and its file is saved; a failed invoice or an unsaved file keeps the cart |

## Left out

- The tkinter window, tabs, tree views, labels and event plumbing are not part of this model. The Add and Remove methods take the selected name as an `Option` in place of the widget selection.
- Loading `produtos.json` is left out. The catalog is a map parameter of `Cart.Add`.
- `Cart.Add` requires the category to be in the catalog, because the program only calls it from a tab built for that category.
- The canvas and fonts as objects are left out, and so is writing the file: its outcome is the parameter `saved` of `Cart.Finalize`. The page is the list of `Draw` commands, each with its font, coordinates and text kind. The A4 height is the parameter `pageHeight`.
- ShoppingCart.Cart.Finalize: the parameter `saved` stands for the outcome of `c.save()` (main.py:191), which runs after every line has been read. A bad percent therefore fails first, at main.py:153, in the program as in the model. Either failure propagates out of `finalizar_compra` with no message, and the program skips the clearing at main.py:115, so the cart is kept. The exception itself is not modelled; `Finalize` returns `Failed` or `Unsaved` instead.
- The current date in the header and in the file name is not modelled. The header records only that a date cell is drawn.
- Floating-point money is replaced by exact reals. The `:.2f` rounding of printed amounts is not modelled; cells hold the exact amount.
- The product's float rate `iva` and its conversion `int(iva * 100)` are not modelled. Each product carries its integer percent, and VAT is net × percent / 100.
- The cart widget deletes only the one selected row, while the list drops every line with that name. The model keeps the list's behaviour, and the widget is not modelled.
- The rendering does not modify the cart or the sums. In the model this holds by construction: `Layout` is a pure function, and `Generate` receives the lines as a value.

## Findings

None.
