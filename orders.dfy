/** The parsed order export: each order's `lineItems.edges[].node` becomes a
    `LineItem`; only the keys the analysis reads are kept. */
module Orders {
  import opened Json

  datatype Category = Category(name: Field<string>)

  datatype Product = Product(productType: Field<string>, category: Field<Category>)

  datatype LineItem = LineItem(quantity: int, title: Field<string>, product: Field<Product>)

  datatype Order = Order(lineItems: seq<LineItem>)

  /** The words that mark a line item as shipping, protection or insurance. */
  const ExcludedTerms: seq<string> := ["shipping", "protection", "insurance"]

  /** Sum of the quantities of `items`, added up left to right. */
  function SumQuantities(items: seq<LineItem>): int {
    if |items| == 0 then 0 else SumQuantities(items[..|items| - 1]) + items[|items| - 1].quantity
  }

  lemma SumQuantitiesSnoc(items: seq<LineItem>, last: LineItem)
    ensures SumQuantities(items + [last]) == SumQuantities(items) + last.quantity
  {
    assert (items + [last])[..|items|] == items;
  }
}
