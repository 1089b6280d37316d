/** The analysis functions of the TypeScript server (src/app.ts, compiled to
    dist/app.js): the line-item filter, the order-size, product-category and
    product-type frequency tables, and the `/upload-json` handler. */
module AppTs {
  import opened Json
  import opened Text
  import opened Orders
  import Tally
  import Merge
  import Seqs

  /** `s?.toLowerCase() || ''`: a missing or null string reads as the empty string. */
  function LowerOrEmpty(f: Field<string>): (r: string)
    ensures r == "" <==> !f.Present? || f.value == ""
    ensures forall i | 0 <= i < |r| :: !IsUpper(r[i])
    ensures f.Present? ==> r == Lower(f.value)
    ensures f.Present? ==> |r| == |f.value|
  {
    match f
    case Present(s) => Lower(s)
    case _ => ""
  }

  /** `terms.some(term => productType.includes(term) || productTitle.includes(term))`. */
  function SomeTermIn(terms: seq<string>, productType: string, productTitle: string): (found: bool)
    ensures found <==> exists t | t in terms :: HasSubstring(productType, t) || HasSubstring(productTitle, t)
  {
    if |terms| == 0 then false
    else
      assert forall t :: t in terms <==> t == terms[0] || t in terms[1..];
      Includes(productType, terms[0]) || Includes(productTitle, terms[0]) || SomeTermIn(terms[1..], productType, productTitle)
  }

  /** `isNotShippingProtection`: an item without a product is kept; any other item is dropped
      when its lower-cased product type or title mentions shipping, protection or insurance. */
  function IsNotShippingProtection(item: LineItem): (keep: bool)
    ensures !item.product.Present? ==> keep
  {
    match item.product
    case Present(product) =>
      var productType := LowerOrEmpty(product.productType);
      var productTitle := LowerOrEmpty(item.title);
      !SomeTermIn(ExcludedTerms, productType, productTitle)
    case _ => true
  }

  /** An item with a product is dropped exactly when one of the excluded words occurs in its
      lower-cased product type or in its lower-cased title (a missing or null one reads as empty). */
  lemma FilterDropsExactlyExcludedWords(item: LineItem)
    requires item.product.Present?
    ensures IsNotShippingProtection(item) <==>
      forall t | t in ExcludedTerms ::
        !HasSubstring(LowerOrEmpty(item.product.value.productType), t) && !HasSubstring(LowerOrEmpty(item.title), t)
  {
  }

  /** A field with its string, if any, lower-cased. */
  function LowerField(f: Field<string>): (r: Field<string>)
    ensures f.Present? ==> r == Present(Lower(f.value))
    ensures !f.Present? ==> r == f
    ensures LowerOrEmpty(r) == LowerOrEmpty(f)
  {
    match f
    case Present(s) => LowerIdempotent(s); Present(Lower(s))
    case Absent => Absent
    case Null => Null
  }

  /** `item` with its product type and title lower-cased. */
  function LowerItem(item: LineItem): LineItem {
    match item.product
    case Present(product) =>
      LineItem(item.quantity, LowerField(item.title),
               Present(Product(LowerField(product.productType), product.category)))
    case _ => item
  }

  /** The filter ignores letter case: lower-casing an item's product type and title does not
      change whether it is kept. */
  lemma FilterIgnoresCase(item: LineItem)
    ensures IsNotShippingProtection(LowerItem(item)) == IsNotShippingProtection(item)
  {
  }

  /** `items.filter(isNotShippingProtection)`. */
  function Qualifying(items: seq<LineItem>): (kept: seq<LineItem>)
    ensures |kept| <= |items|
  {
    if |items| == 0 then []
    else
      var init, last := items[..|items| - 1], items[|items| - 1];
      Qualifying(init) + (if IsNotShippingProtection(last) then [last] else [])
  }

  /** The filter keeps exactly the items that pass `isNotShippingProtection`. */
  lemma {:induction false} QualifyingMembers(items: seq<LineItem>)
    ensures forall it :: it in Qualifying(items) <==> it in items && IsNotShippingProtection(it)
  {
    if |items| > 0 {
      var init, last := items[..|items| - 1], items[|items| - 1];
      QualifyingMembers(init);
      assert items == init + [last];
    }
  }

  /** Filtering one more item extends the kept items by that item when it passes. */
  lemma QualifyingSnoc(items: seq<LineItem>, j: nat)
    requires j < |items|
    ensures Qualifying(items[..j + 1]) ==
      Qualifying(items[..j]) + (if IsNotShippingProtection(items[j]) then [items[j]] else [])
  {
    assert items[..j + 1][..j] == items[..j];
  }

  /** `data.flatMap(order => order.lineItems.edges.filter(isNotShippingProtection))`. */
  function QualifyingItems(data: seq<Order>): seq<LineItem> {
    if |data| == 0 then []
    else QualifyingItems(data[..|data| - 1]) + Qualifying(data[|data| - 1].lineItems)
  }

  /** `it` is a line item of one of the orders. */
  ghost predicate InSomeOrder(data: seq<Order>, it: LineItem) {
    exists i | 0 <= i < |data| :: it in data[i].lineItems
  }

  lemma InSomeOrderSnoc(data: seq<Order>, it: LineItem)
    requires |data| > 0
    ensures InSomeOrder(data, it) <==> InSomeOrder(data[..|data| - 1], it) || it in data[|data| - 1].lineItems
  {
    var init := data[..|data| - 1];
    if InSomeOrder(data, it) {
      var i :| 0 <= i < |data| && it in data[i].lineItems;
      if i < |init| {
        assert init[i] == data[i];
      }
    }
    if InSomeOrder(init, it) {
      var i :| 0 <= i < |init| && it in init[i].lineItems;
      assert data[i] == init[i];
    }
  }

  /** The flattened list holds exactly the items of any order that pass the filter. */
  lemma {:induction false} QualifyingItemsMembers(data: seq<Order>)
    ensures forall it :: it in QualifyingItems(data) <==> IsNotShippingProtection(it) && InSomeOrder(data, it)
  {
    if |data| > 0 {
      var init, last := data[..|data| - 1], data[|data| - 1];
      QualifyingItemsMembers(init);
      QualifyingMembers(last.lineItems);
      forall it ensures it in QualifyingItems(data) <==> IsNotShippingProtection(it) && InSomeOrder(data, it) {
        InSomeOrderSnoc(data, it);
      }
    }
  }

  /** Flattening one more order appends that order's kept items; a whole prefix of orders
      is the orders themselves. */
  lemma QualifyingItemsSnoc(data: seq<Order>, i: nat)
    requires i < |data|
    ensures QualifyingItems(data[..i + 1]) == QualifyingItems(data[..i]) + Qualifying(data[i].lineItems)
  {
    assert data[..i + 1][..i] == data[..i];
  }

  /** The reduce of `processOrderSizes`: adds the quantity of each kept item and 0 for the others. */
  function OrderSize(items: seq<LineItem>): (size: int)
    ensures size == SumQuantities(Qualifying(items))
  {
    if |items| == 0 then 0
    else
      var init, last := items[..|items| - 1], items[|items| - 1];
      assert Qualifying(items) == Qualifying(init) + (if IsNotShippingProtection(last) then [last] else []);
      assert Qualifying(init) + [] == Qualifying(init);
      SumQuantitiesSnoc(Qualifying(init), last);
      OrderSize(init) + (if IsNotShippingProtection(last) then last.quantity else 0)
  }

  /** `data.map(order => ...)`: the size of each order. */
  function OrderSizes(data: seq<Order>): (sizes: seq<int>)
    ensures |sizes| == |data|
    ensures forall i | 0 <= i < |data| :: sizes[i] == SumQuantities(Qualifying(data[i].lineItems))
  {
    seq(|data|, i requires 0 <= i < |data| => OrderSize(data[i].lineItems))
  }

  /** `processOrderSizes`: for each order size, the number of orders of that size. */
  function ProcessOrderSizes(data: seq<Order>): (counts: map<int, nat>)
    ensures forall s :: s in counts <==> exists i :: 0 <= i < |data| && OrderSize(data[i].lineItems) == s
    ensures forall s | s in counts :: counts[s] == multiset(OrderSizes(data))[s] >= 1
    ensures Tally.Total(counts) == |data|
  {
    var sizes := OrderSizes(data);
    OrderSizesMembers(data);
    Tally.TallyTotal(sizes);
    Tally.Tally(sizes)
  }

  lemma OrderSizesMembers(data: seq<Order>)
    ensures forall s :: s in OrderSizes(data) <==> exists i :: 0 <= i < |data| && OrderSize(data[i].lineItems) == s
  {
    var sizes := OrderSizes(data);
    forall s ensures s in sizes <==> exists i :: 0 <= i < |data| && OrderSize(data[i].lineItems) == s {
      if s in sizes {
        var i :| 0 <= i < |sizes| && sizes[i] == s;
        assert OrderSize(data[i].lineItems) == s;
      }
      if exists i :: 0 <= i < |data| && OrderSize(data[i].lineItems) == s {
        var i :| 0 <= i < |data| && OrderSize(data[i].lineItems) == s;
        assert sizes[i] == s;
      }
    }
  }

  /** `item.node.product?.category?.name || 'Unknown'`. */
  function CategoryKey(item: LineItem): (key: string)
    ensures key != ""
    ensures key != "Unknown" ==>
      item.product.Present? && item.product.value.category.Present? && item.product.value.category.value.name == Present(key)
    ensures (item.product.Present? && item.product.value.category.Present? &&
             item.product.value.category.value.name.Present? && item.product.value.category.value.name.value != "") ==>
            key == item.product.value.category.value.name.value
  {
    match item.product
    case Present(Product(_, Present(Category(Present(name))))) => if name == "" then "Unknown" else name
    case _ => "Unknown"
  }

  /** `.map(item => ...)` with `CategoryKey`. */
  function CategoryKeys(items: seq<LineItem>): (keys: seq<string>)
    ensures |keys| == |items|
    ensures forall i | 0 <= i < |items| :: keys[i] == CategoryKey(items[i])
    ensures "" !in keys
  {
    if |items| == 0 then []
    else CategoryKeys(items[..|items| - 1]) + [CategoryKey(items[|items| - 1])]
  }

  /** `processProductCategories`: for each category name, the number of kept line items in it. */
  function ProcessProductCategories(data: seq<Order>): (counts: map<string, nat>)
    ensures "" !in counts
    ensures forall c | c in counts :: counts[c] == multiset(CategoryKeys(QualifyingItems(data)))[c] >= 1
    ensures Tally.Total(counts) == |QualifyingItems(data)|
  {
    var keys := CategoryKeys(QualifyingItems(data));
    Tally.TallyTotal(keys);
    Tally.Tally(keys)
  }

  /** `item.node.product?.productType || 'Undefined'`. */
  function TypeKey(item: LineItem): (key: string)
    ensures key != ""
    ensures key != "Undefined" ==> item.product.Present? && item.product.value.productType == Present(key)
    ensures (item.product.Present? && item.product.value.productType.Present? &&
             item.product.value.productType.value != "") ==> key == item.product.value.productType.value
  {
    match item.product
    case Present(Product(Present(productType), _)) => if productType == "" then "Undefined" else productType
    case _ => "Undefined"
  }

  /** `.map(item => ...)` with `TypeKey`. */
  function TypeKeys(items: seq<LineItem>): (keys: seq<string>)
    ensures |keys| == |items|
    ensures forall i | 0 <= i < |items| :: keys[i] == TypeKey(items[i])
    ensures "" !in keys
  {
    if |items| == 0 then []
    else TypeKeys(items[..|items| - 1]) + [TypeKey(items[|items| - 1])]
  }

  /** `processProductTypes`: for each product type, the number of kept line items of that type. */
  function ProcessProductTypes(data: seq<Order>): (counts: map<string, nat>)
    ensures "" !in counts
    ensures forall t | t in counts :: counts[t] == multiset(TypeKeys(QualifyingItems(data)))[t] >= 1
    ensures Tally.Total(counts) == |QualifyingItems(data)|
  {
    var keys := TypeKeys(QualifyingItems(data));
    Tally.TallyTotal(keys);
    Tally.Tally(keys)
  }

  // ----- Excluded items change nothing

  /** Filtering a concatenation filters each part. */
  lemma {:induction false} QualifyingAppend(a: seq<LineItem>, b: seq<LineItem>)
    ensures Qualifying(a + b) == Qualifying(a) + Qualifying(b)
  {
    if |b| == 0 {
      assert a + b == a;
    } else {
      var init := b[..|b| - 1];
      assert (a + b)[..|a + b| - 1] == a + init;
      QualifyingAppend(a, init);
    }
  }

  /** Orders that keep the same items give the same flattened list of kept items. */
  lemma {:induction false} QualifyingItemsDependOnKeptItems(d1: seq<Order>, d2: seq<Order>)
    requires |d1| == |d2|
    requires forall k :: 0 <= k < |d1| ==> Qualifying(d1[k].lineItems) == Qualifying(d2[k].lineItems)
    ensures QualifyingItems(d1) == QualifyingItems(d2)
  {
    if |d1| > 0 {
      QualifyingItemsDependOnKeptItems(d1[..|d1| - 1], d2[..|d2| - 1]);
    }
  }

  /** Inserting an excluded line item into a list of items leaves the kept items as they were. */
  lemma {:induction false} ExcludedItemKeepsQualifying(items: seq<LineItem>, j: nat, item: LineItem)
    requires j <= |items|
    requires !IsNotShippingProtection(item)
    ensures Qualifying(items[..j] + [item] + items[j..]) == Qualifying(items)
  {
    var a, b := items[..j], items[j..];
    calc {
      Qualifying(a + [item] + b);
    == { QualifyingAppend(a + [item], b); }
      Qualifying(a + [item]) + Qualifying(b);
    == { QualifyingAppend(a, [item]); ExcludedAlone(item); Seqs.AppendEmpty(Qualifying(a)); }
      Qualifying(a) + Qualifying(b);
    == { QualifyingSplit(items, j); }
      Qualifying(items);
    }
  }

  /** An excluded item on its own is filtered out. */
  lemma ExcludedAlone(item: LineItem)
    requires !IsNotShippingProtection(item)
    ensures Qualifying([item]) == []
  {
    assert [item][..0] == [];
  }

  /** `data` with `item` inserted at position `j` of order `i`. */
  function InsertItem(data: seq<Order>, i: nat, j: nat, item: LineItem): seq<Order>
    requires i < |data| && j <= |data[i].lineItems|
  {
    var items := data[i].lineItems;
    data[i := Order(items[..j] + [item] + items[j..])]
  }

  /** Flattening one more order appends its kept items. */
  lemma QualifyingItemsSnocOrder(data: seq<Order>, order: Order)
    ensures QualifyingItems(data + [order]) == QualifyingItems(data) + Qualifying(order.lineItems)
  {
    assert (data + [order])[..|data|] == data;
  }

  /** Flattening a concatenation of order lists flattens each part. */
  lemma {:induction false} QualifyingItemsAppend(d1: seq<Order>, d2: seq<Order>)
    ensures QualifyingItems(d1 + d2) == QualifyingItems(d1) + QualifyingItems(d2)
    decreases |d2|
  {
    if |d2| == 0 {
      assert d1 + d2 == d1;
    } else {
      var init, last := d2[..|d2| - 1], d2[|d2| - 1];
      Seqs.DropLastAppend(d1, d2);
      QualifyingItemsAppend(d1, init);
      Seqs.Associate(QualifyingItems(d1), QualifyingItems(init), Qualifying(last.lineItems));
    }
  }

  /** Flattening orders around one order. */
  lemma {:induction false} QualifyingItemsAround(front: seq<Order>, order: Order, back: seq<Order>)
    ensures QualifyingItems(front + [order] + back) ==
      QualifyingItems(front) + Qualifying(order.lineItems) + QualifyingItems(back)
  {
    QualifyingItemsAppend(front + [order], back);
    QualifyingItemsSnocOrder(front, order);
  }

  /** Filtering splits at any position. */
  lemma {:induction false} QualifyingSplit(items: seq<LineItem>, j: nat)
    requires j <= |items|
    ensures Qualifying(items) == Qualifying(items[..j]) + Qualifying(items[j..])
  {
    assert items[..j] + items[j..] == items;
    QualifyingAppend(items[..j], items[j..]);
  }

  /** Filtering items around a kept item keeps it in place. */
  lemma {:induction false} QualifyingAround(items: seq<LineItem>, j: nat, item: LineItem)
    requires j <= |items|
    requires IsNotShippingProtection(item)
    ensures Qualifying(items[..j] + [item] + items[j..]) == Qualifying(items[..j]) + [item] + Qualifying(items[j..])
  {
    var front, back := items[..j], items[j..];
    calc {
      Qualifying(front + [item] + back);
    == { QualifyingAppend(front + [item], back); }
      Qualifying(front + [item]) + Qualifying(back);
    == { QualifyingAppend(front, [item]); assert [item][..0] == []; }
      Qualifying(front) + [item] + Qualifying(back);
    }
  }

  /** Flattening splits at any order. */
  lemma {:induction false} QualifyingItemsAt(data: seq<Order>, i: nat)
    requires i < |data|
    ensures QualifyingItems(data) ==
      QualifyingItems(data[..i]) + Qualifying(data[i].lineItems) + QualifyingItems(data[i + 1..])
  {
    assert data == data[..i] + [data[i]] + data[i + 1..];
    QualifyingItemsAround(data[..i], data[i], data[i + 1..]);
  }

  /** Flattening after an insertion splits at the order that grew. */
  lemma {:induction false} QualifyingItemsAtInsert(data: seq<Order>, i: nat, j: nat, item: LineItem)
    requires i < |data| && j <= |data[i].lineItems|
    ensures QualifyingItems(InsertItem(data, i, j, item)) ==
      QualifyingItems(data[..i]) +
      Qualifying(data[i].lineItems[..j] + [item] + data[i].lineItems[j..]) +
      QualifyingItems(data[i + 1..])
  {
    var grown := Order(data[i].lineItems[..j] + [item] + data[i].lineItems[j..]);
    assert InsertItem(data, i, j, item) == data[..i] + [grown] + data[i + 1..];
    QualifyingItemsAround(data[..i], grown, data[i + 1..]);
  }

  /** The kept items of the orders before order `i` and of order `i` before position `j`. */
  function KeptBefore(data: seq<Order>, i: nat, j: nat): seq<LineItem>
    requires i < |data| && j <= |data[i].lineItems|
  {
    QualifyingItems(data[..i]) + Qualifying(data[i].lineItems[..j])
  }

  /** The kept items of order `i` from position `j` on and of the orders after it. */
  function KeptAfter(data: seq<Order>, i: nat, j: nat): seq<LineItem>
    requires i < |data| && j <= |data[i].lineItems|
  {
    Qualifying(data[i].lineItems[j..]) + QualifyingItems(data[i + 1..])
  }

  /** The flattened list of kept items splits at any position of any order. */
  lemma {:induction false} KeptItemsSplit(data: seq<Order>, i: nat, j: nat)
    requires i < |data| && j <= |data[i].lineItems|
    ensures QualifyingItems(data) == KeptBefore(data, i, j) + KeptAfter(data, i, j)
  {
    var items := data[i].lineItems;
    QualifyingItemsAt(data, i);
    QualifyingSplit(items, j);
    Seqs.Regroup(QualifyingItems(data[..i]), Qualifying(items[..j]), Qualifying(items[j..]), QualifyingItems(data[i + 1..]));
  }

  /** Inserting a kept item at position `j` of order `i` puts it in the flattened list of
      kept items between the kept items before that position and those after it. */
  lemma {:induction false} KeptItemInserted(data: seq<Order>, i: nat, j: nat, item: LineItem)
    requires i < |data| && j <= |data[i].lineItems|
    requires IsNotShippingProtection(item)
    ensures QualifyingItems(InsertItem(data, i, j, item)) == KeptBefore(data, i, j) + [item] + KeptAfter(data, i, j)
  {
    var items := data[i].lineItems;
    QualifyingItemsAtInsert(data, i, j, item);
    QualifyingAround(items, j, item);
    Seqs.Regroup(QualifyingItems(data[..i]), Qualifying(items[..j]) + [item], Qualifying(items[j..]), QualifyingItems(data[i + 1..]));
  }

  lemma CategoryKeysAppend(a: seq<LineItem>, b: seq<LineItem>)
    ensures CategoryKeys(a + b) == CategoryKeys(a) + CategoryKeys(b)
  {
    var l, r := CategoryKeys(a + b), CategoryKeys(a) + CategoryKeys(b);
    assert |l| == |r|;
    forall k | 0 <= k < |l| ensures l[k] == r[k] {
      if k < |a| {
        assert (a + b)[k] == a[k];
      } else {
        assert (a + b)[k] == b[k - |a|];
      }
    }
  }

  /** Inserting an item adds its key to the keys, as a multiset. */
  lemma CategoryKeysInsert(before: seq<LineItem>, item: LineItem, after: seq<LineItem>)
    ensures multiset(CategoryKeys(before + [item] + after)) ==
      multiset(CategoryKeys(before + after)) + multiset{CategoryKey(item)}
  {
    CategoryKeysAppend(before, after);
    CategoryKeysAppend(before + [item], after);
    CategoryKeysAppend(before, [item]);
    assert CategoryKeys([item]) == [CategoryKey(item)];
  }

  /** Inserting a kept item into any order counts its key once more in the category table. */
  lemma KeptItemCategoryCounted(data: seq<Order>, i: nat, j: nat, item: LineItem)
    requires i < |data| && j <= |data[i].lineItems|
    requires IsNotShippingProtection(item)
    ensures ProcessProductCategories(InsertItem(data, i, j, item)) ==
      Tally.Add(ProcessProductCategories(data), CategoryKey(item))
  {
    var before, after := KeptBefore(data, i, j), KeptAfter(data, i, j);
    KeptItemsSplit(data, i, j);
    KeptItemInserted(data, i, j, item);
    CategoryKeysInsert(before, item, after);
    Tally.TallyOneMore(CategoryKeys(before + after), CategoryKeys(before + [item] + after), CategoryKey(item));
  }

  lemma ExcludedItemKeepsSizes(data: seq<Order>, i: nat, j: nat, item: LineItem)
    requires i < |data| && j <= |data[i].lineItems|
    requires !IsNotShippingProtection(item)
    ensures OrderSizes(InsertItem(data, i, j, item)) == OrderSizes(data)
  {
    ExcludedItemKeepsQualifying(data[i].lineItems, j, item);
  }

  lemma ExcludedItemKeepsQualifyingItems(data: seq<Order>, i: nat, j: nat, item: LineItem)
    requires i < |data| && j <= |data[i].lineItems|
    requires !IsNotShippingProtection(item)
    ensures QualifyingItems(InsertItem(data, i, j, item)) == QualifyingItems(data)
  {
    ExcludedItemKeepsQualifying(data[i].lineItems, j, item);
    QualifyingItemsDependOnKeptItems(InsertItem(data, i, j, item), data);
  }

  lemma ExcludedItemKeepsSizeTable(data: seq<Order>, i: nat, j: nat, item: LineItem)
    requires i < |data| && j <= |data[i].lineItems|
    requires !IsNotShippingProtection(item)
    ensures ProcessOrderSizes(InsertItem(data, i, j, item)) == ProcessOrderSizes(data)
  {
    ExcludedItemKeepsSizes(data, i, j, item);
  }

  lemma ExcludedItemKeepsCategoryTable(data: seq<Order>, i: nat, j: nat, item: LineItem)
    requires i < |data| && j <= |data[i].lineItems|
    requires !IsNotShippingProtection(item)
    ensures ProcessProductCategories(InsertItem(data, i, j, item)) == ProcessProductCategories(data)
  {
    ExcludedItemKeepsQualifyingItems(data, i, j, item);
  }

  lemma ExcludedItemKeepsTypeTable(data: seq<Order>, i: nat, j: nat, item: LineItem)
    requires i < |data| && j <= |data[i].lineItems|
    requires !IsNotShippingProtection(item)
    ensures ProcessProductTypes(InsertItem(data, i, j, item)) == ProcessProductTypes(data)
  {
    ExcludedItemKeepsQualifyingItems(data, i, j, item);
  }

  /** Inserting a shipping, protection or insurance line item anywhere in any order
      leaves all three frequency tables as they were. */
  lemma ExcludedItemChangesNoTable(data: seq<Order>, i: nat, j: nat, item: LineItem)
    requires i < |data| && j <= |data[i].lineItems|
    requires !IsNotShippingProtection(item)
    ensures ProcessOrderSizes(InsertItem(data, i, j, item)) == ProcessOrderSizes(data)
    ensures ProcessProductCategories(InsertItem(data, i, j, item)) == ProcessProductCategories(data)
    ensures ProcessProductTypes(InsertItem(data, i, j, item)) == ProcessProductTypes(data)
  {
    ExcludedItemKeepsSizeTable(data, i, j, item);
    ExcludedItemKeepsCategoryTable(data, i, j, item);
    ExcludedItemKeepsTypeTable(data, i, j, item);
  }

  /** The `/upload-json` handler: no file list is a 400 error; otherwise the merged array, or the
      error of the first file that does not hold an array. */
  method UploadJson<T>(files: Option<seq<Document<T>>>) returns (r: Result<seq<T>, HttpError>)
    ensures files.None? ==> r == Err(Merge.NoFilesUploaded)
    ensures files.Some? ==> (r.Ok? <==> Merge.AllArrays(files.value))
    ensures files.Some? && r.Ok? ==> r.value == Merge.Concat(files.value)
    ensures files.Some? && r.Err? ==> r.error == Merge.NotAnArray
  {
    match files
    case None =>
      r := Err(Merge.NoFilesUploaded);
    case Some(uploaded) =>
      r := Merge.MergeArrays(uploaded);
  }
}
