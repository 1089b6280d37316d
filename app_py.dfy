/** The analysis functions of the Python server (app.py). The tallies build a
    list with `for` loops and `.append`, then count it with pandas' `value_counts()`.
    Python's `dict.get(key, default)` falls back to the default only for a missing
    key, and `None.lower()` or `None.get(...)` raise, so each tally states as its
    precondition the inputs on which it runs without raising. */
module AppPy {
  import opened Json
  import opened Text
  import opened Orders
  import Tally
  import Merge
  import AppTs

  /** `d.get(key, default)` for a key that is missing or holds a string. */
  function GetOr(f: Field<string>, default: string): (r: string)
    requires !f.Null?
    ensures f.Present? ==> r == f.value
    ensures f.Absent? ==> r == default
  {
    match f
    case Present(s) => s
    case _ => default
  }

  /** `is_not_shipping_protection` does not raise on `item`: when the item has a product,
      neither its `productType` nor its `title` is null. */
  predicate FilterDefined(item: LineItem) {
    item.product.Present? ==> !item.product.value.productType.Null? && !item.title.Null?
  }

  /** `is_not_shipping_protection`: the six-way conjunction of "not in". */
  function IsNotShippingProtection(item: LineItem): (keep: bool)
    requires FilterDefined(item)
    ensures keep == AppTs.IsNotShippingProtection(item)
  {
    match item.product
    case Present(product) =>
      var productType := Lower(GetOr(product.productType, ""));
      var productTitle := Lower(GetOr(item.title, ""));
      && !Includes(productType, "shipping") && !Includes(productType, "protection")
      && !Includes(productType, "insurance") && !Includes(productTitle, "shipping")
      && !Includes(productTitle, "protection") && !Includes(productTitle, "insurance")
    case _ => true
  }

  /** `sum(item['node']['quantity'] for item in items if is_not_shipping_protection(item))`. */
  function OrderSize(items: seq<LineItem>): (size: int)
    requires forall it | it in items :: FilterDefined(it)
    ensures size == SumQuantities(AppTs.Qualifying(items))
  {
    if |items| == 0 then 0
    else
      var init, last := items[..|items| - 1], items[|items| - 1];
      assert AppTs.Qualifying(init) + [] == AppTs.Qualifying(init);
      SumQuantitiesSnoc(AppTs.Qualifying(init), last);
      OrderSize(init) + (if IsNotShippingProtection(last) then last.quantity else 0)
  }

  /** Every line item of every order can go through the filter without raising. */
  predicate Filterable(data: seq<Order>) {
    forall i, j :: 0 <= i < |data| && 0 <= j < |data[i].lineItems| ==> FilterDefined(data[i].lineItems[j])
  }

  /** Every line item of every order has a product and can go through the filter without raising.
      Items without a product pass the filter, and the category and type tallies then
      call `.get` on their missing product. */
  predicate ProductsPresent(data: seq<Order>) {
    forall i, j :: 0 <= i < |data| && 0 <= j < |data[i].lineItems| ==>
      data[i].lineItems[j].product.Present? && FilterDefined(data[i].lineItems[j])
  }

  /** `process_order_sizes`: the list of order sizes counted with `value_counts().sort_index()`,
      a table of (size, count) pairs in ascending size order. */
  method ProcessOrderSizes(data: seq<Order>) returns (counts: seq<(int, nat)>)
    requires Filterable(data)
    ensures Tally.StrictlyAscending(counts)
    ensures Tally.ToMap(counts) == AppTs.ProcessOrderSizes(data)
    ensures Tally.SumCounts(counts) == |data|
  {
    var orderSizes: seq<int> := [];
    for i := 0 to |data|
      invariant |orderSizes| == i
      invariant forall k :: 0 <= k < i ==> orderSizes[k] == AppTs.OrderSize(data[k].lineItems)
    {
      var orderSize := OrderSize(data[i].lineItems);
      orderSizes := orderSizes + [orderSize];
    }
    assert orderSizes == AppTs.OrderSizes(data);
    counts := Tally.SortedCounts(orderSizes);
  }

  /** `product.get('productType', 'Undefined')`, replaced by `'Undefined'` when falsy. */
  function TypeName(product: Product): (name: string)
    ensures name != ""
    ensures name != "Undefined" ==> product.productType == Present(name)
    ensures product.productType.Present? && product.productType.value != "" ==> name == product.productType.value
  {
    match product.productType
    case Present(productType) => if productType == "" then "Undefined" else productType
    case _ => "Undefined"
  }

  /** The Python type name of an item's product is the key the TypeScript tally counts it under. */
  lemma TypeNameIsTypeKey(item: LineItem)
    requires item.product.Present?
    ensures TypeName(item.product.value) == AppTs.TypeKey(item)
  {
  }

  /** `process_product_types`: the product types of the kept line items, counted with `value_counts()`. */
  method ProcessProductTypes(data: seq<Order>) returns (counts: map<string, nat>)
    requires ProductsPresent(data)
    ensures counts == AppTs.ProcessProductTypes(data)
    ensures Tally.Total(counts) == |AppTs.QualifyingItems(data)|
  {
    var productTypes: seq<string> := [];
    for i := 0 to |data|
      invariant productTypes == AppTs.TypeKeys(AppTs.QualifyingItems(data[..i]))
    {
      var types := OrderTypes(data[i].lineItems);
      AppTs.QualifyingItemsSnoc(data, i);
      TypeKeysAppend(AppTs.QualifyingItems(data[..i]), AppTs.Qualifying(data[i].lineItems));
      productTypes := productTypes + types;
    }
    assert productTypes == AppTs.TypeKeys(AppTs.QualifyingItems(data)) by {
      assert data[..|data|] == data;
    }
    counts := Tally.Tally(productTypes);
  }

  /** The inner loop of `process_product_types` over the line items of one order. */
  method OrderTypes(items: seq<LineItem>) returns (types: seq<string>)
    requires forall j :: 0 <= j < |items| ==> items[j].product.Present? && FilterDefined(items[j])
    ensures types == AppTs.TypeKeys(AppTs.Qualifying(items))
  {
    types := [];
    for j := 0 to |items|
      invariant types == AppTs.TypeKeys(AppTs.Qualifying(items[..j]))
    {
      var item := items[j];
      AppTs.QualifyingSnoc(items, j);
      if IsNotShippingProtection(item) {
        var productType := TypeName(item.product.value);
        TypeNameIsTypeKey(item);
        TypeKeysSnoc(AppTs.Qualifying(items[..j]), item);
        types := types + [productType];
      } else {
        assert AppTs.Qualifying(items[..j]) + [] == AppTs.Qualifying(items[..j]);
      }
    }
    assert items[..|items|] == items;
  }

  /** The type keys of one more item end with its key. */
  lemma TypeKeysSnoc(items: seq<LineItem>, item: LineItem)
    ensures AppTs.TypeKeys(items + [item]) == AppTs.TypeKeys(items) + [AppTs.TypeKey(item)]
  {
    assert (items + [item])[..|items|] == items;
  }

  /** The type keys of a concatenation are the keys of each part. */
  lemma {:induction false} TypeKeysAppend(front: seq<LineItem>, back: seq<LineItem>)
    ensures AppTs.TypeKeys(front + back) == AppTs.TypeKeys(front) + AppTs.TypeKeys(back)
    decreases |back|
  {
    if |back| == 0 {
      assert front + back == front;
    } else {
      var init := back[..|back| - 1];
      assert (front + back)[..|front + back| - 1] == front + init;
      TypeKeysAppend(front, init);
    }
  }

  /** `category.get('name', 'Unknown')`: `None` when the name is null. */
  function CategoryName(category: Category): (name: Option<string>)
    ensures name.None? <==> category.name.Null?
    ensures category.name.Present? ==> name == Some(category.name.value)
    ensures category.name.Absent? ==> name == Some("Unknown")
  {
    match category.name
    case Absent => Some("Unknown")
    case Null => None
    case Present(name) => Some(name)
  }

  /** What the category loop appends for one kept item: nothing when its category is missing
      or null (`if category:`). */
  function CategoryEntry(item: LineItem): (entry: seq<Option<string>>)
    ensures |entry| <= 1
    ensures entry == [] <==> !(item.product.Present? && item.product.value.category.Present?)
    ensures forall name :: entry == [Some(name)] <==> CategoryCalled(item, name)
  {
    match item.product
    case Present(Product(_, Present(category))) => [CategoryName(category)]
    case _ => []
  }

  /** The list the category loop builds from the kept items `items`. */
  function CategoryEntries(items: seq<LineItem>): (entries: seq<Option<string>>)
    ensures |entries| <= |items|
  {
    if |items| == 0 then []
    else CategoryEntries(items[..|items| - 1]) + CategoryEntry(items[|items| - 1])
  }

  lemma CategoryEntriesSnoc(items: seq<LineItem>, item: LineItem)
    ensures CategoryEntries(items + [item]) == CategoryEntries(items) + CategoryEntry(item)
  {
    assert (items + [item])[..|items|] == items;
  }

  /** The non-`None` values of a list, in order: `value_counts()` leaves `None` out. */
  function Named(entries: seq<Option<string>>): (names: seq<string>)
    ensures |names| <= |entries|
    ensures forall name :: multiset(names)[name] == multiset(entries)[Some(name)]
  {
    if |entries| == 0 then []
    else
      var init, last := entries[..|entries| - 1], entries[|entries| - 1];
      assert entries == init + [last];
      Named(init) +
        match last
        case Some(name) => [name]
        case None => []
  }

  /** Dropping the `None`s of a concatenation drops them from each part. */
  lemma {:induction false} NamedAppend(front: seq<Option<string>>, back: seq<Option<string>>)
    ensures Named(front + back) == Named(front) + Named(back)
    decreases |back|
  {
    if |back| == 0 {
      assert front + back == front;
    } else {
      var init := back[..|back| - 1];
      assert (front + back)[..|front + back| - 1] == front + init;
      NamedAppend(front, init);
    }
  }

  /** The category loop appends `name` for `item`: the item has a category whose name is
      `name`, or has none and `name` is the default 'Unknown'. */
  predicate CategoryCalled(item: LineItem, name: string) {
    match item.product
    case Present(Product(_, Present(category))) => CategoryName(category) == Some(name)
    case _ => false
  }

  /** The number of items of `items` whose category is called by `name`. */
  ghost function CalledCount(items: seq<LineItem>, name: string): nat {
    if |items| == 0 then 0
    else CalledCount(items[..|items| - 1], name) + if CategoryCalled(items[|items| - 1], name) then 1 else 0
  }

  /** One more kept item appends to the counted names the name its category is called by,
      once, and nothing when it has no category or a null name. */
  lemma NamedEntriesSnoc(items: seq<LineItem>, item: LineItem)
    ensures Named(CategoryEntries(items + [item])) == Named(CategoryEntries(items)) + Named(CategoryEntry(item))
    ensures forall name :: name in Named(CategoryEntries(items + [item])) <==>
      name in Named(CategoryEntries(items)) || CategoryCalled(item, name)
  {
    CategoryEntriesSnoc(items, item);
    NamedAppend(CategoryEntries(items), CategoryEntry(item));
    var added := Named(CategoryEntry(item));
    forall name ensures name in added <==> CategoryCalled(item, name) {
      assert multiset(added)[name] == multiset(CategoryEntry(item))[Some(name)];
    }
  }

  /** A name is counted exactly when some kept item's category is called by it. */
  lemma {:induction false} NamedEntriesMembers(items: seq<LineItem>)
    ensures forall name :: name in Named(CategoryEntries(items)) <==> exists it | it in items :: CategoryCalled(it, name)
  {
    if |items| > 0 {
      var init, last := items[..|items| - 1], items[|items| - 1];
      NamedEntriesMembers(init);
      assert items == init + [last];
      NamedEntriesSnoc(init, last);
      assert last in items;
      assert forall it | it in init :: it in items;
      forall name | exists it | it in items :: CategoryCalled(it, name)
        ensures CategoryCalled(last, name) || exists it | it in init :: CategoryCalled(it, name)
      {
        var it :| it in items && CategoryCalled(it, name);
        if it != last {
          assert it in init;
        }
      }
    }
  }

  /** The category loop appends each name once per kept item whose category is called by it. */
  lemma {:induction false} CategoryEntriesCount(items: seq<LineItem>)
    ensures forall name :: multiset(CategoryEntries(items))[Some(name)] == CalledCount(items, name)
  {
    if |items| > 0 {
      var init, last := items[..|items| - 1], items[|items| - 1];
      CategoryEntriesCount(init);
      assert items == init + [last];
      CategoryEntriesSnoc(init, last);
      forall name ensures multiset(CategoryEntries(items))[Some(name)] == CalledCount(items, name) {
        var entry := CategoryEntry(last);
        assert multiset(CategoryEntries(items)) == multiset(CategoryEntries(init)) + multiset(entry);
        if CategoryCalled(last, name) {
          assert entry == [Some(name)];
        } else if entry != [] {
          assert entry == [entry[0]];
          assert entry[0] != Some(name);
        }
      }
    }
  }

  /** The table `process_product_categories` returns: each name counted once per kept item
      whose category is called by it, and no other name. */
  function CategoryCounts(data: seq<Order>): (counts: map<string, nat>)
    ensures forall c | c in counts :: counts[c] >= 1
    ensures forall c :: (if c in counts then counts[c] else 0) == CalledCount(AppTs.QualifyingItems(data), c)
    ensures Tally.Total(counts) <= |AppTs.QualifyingItems(data)|
  {
    var names := Named(CategoryEntries(AppTs.QualifyingItems(data)));
    CategoryEntriesCount(AppTs.QualifyingItems(data));
    Tally.TallyTotal(names);
    Tally.Tally(names)
  }

  /** The Python category table has a key exactly for each name some kept item's category is called by. */
  lemma CategoryCountsKeys(data: seq<Order>)
    ensures forall c :: c in CategoryCounts(data) <==> exists it | it in AppTs.QualifyingItems(data) :: CategoryCalled(it, c)
  {
    NamedEntriesMembers(AppTs.QualifyingItems(data));
  }

  /** `process_product_categories`: the category names of the kept line items that have a
      category, counted with `value_counts()`. */
  method ProcessProductCategories(data: seq<Order>) returns (counts: map<string, nat>)
    requires ProductsPresent(data)
    ensures counts == CategoryCounts(data)
  {
    var categories: seq<Option<string>> := [];
    for i := 0 to |data|
      invariant categories == CategoryEntries(AppTs.QualifyingItems(data[..i]))
    {
      var entries := OrderCategories(data[i].lineItems);
      AppTs.QualifyingItemsSnoc(data, i);
      CategoryEntriesAppend(AppTs.QualifyingItems(data[..i]), AppTs.Qualifying(data[i].lineItems));
      categories := categories + entries;
    }
    assert categories == CategoryEntries(AppTs.QualifyingItems(data)) by {
      assert data[..|data|] == data;
    }
    counts := Tally.Tally(Named(categories));
  }

  /** The inner loop of `process_product_categories` over the line items of one order. */
  method OrderCategories(items: seq<LineItem>) returns (entries: seq<Option<string>>)
    requires forall j :: 0 <= j < |items| ==> items[j].product.Present? && FilterDefined(items[j])
    ensures entries == CategoryEntries(AppTs.Qualifying(items))
  {
    entries := [];
    for j := 0 to |items|
      invariant entries == CategoryEntries(AppTs.Qualifying(items[..j]))
    {
      var item := items[j];
      AppTs.QualifyingSnoc(items, j);
      if IsNotShippingProtection(item) {
        var category := item.product.value.category;
        CategoryEntriesSnoc(AppTs.Qualifying(items[..j]), item);
        if category.Present? {
          entries := entries + [CategoryName(category.value)];
        }
      } else {
        assert AppTs.Qualifying(items[..j]) + [] == AppTs.Qualifying(items[..j]);
      }
    }
    assert items[..|items|] == items;
  }

  lemma {:induction false} CategoryEntriesAppend(front: seq<LineItem>, back: seq<LineItem>)
    ensures CategoryEntries(front + back) == CategoryEntries(front) + CategoryEntries(back)
    decreases |back|
  {
    if |back| == 0 {
      assert front + back == front;
    } else {
      var init := back[..|back| - 1];
      assert (front + back)[..|front + back| - 1] == front + init;
      CategoryEntriesAppend(front, init);
    }
  }

  // ----- Where the Python and TypeScript tallies part ways

  /** A kept item whose category has a non-empty name. */
  predicate HasNamedCategory(item: LineItem) {
    match item.product
    case Present(Product(_, Present(Category(Present(name))))) => name != ""
    case _ => false
  }

  lemma {:induction false} NamedEntriesAreCategoryKeys(items: seq<LineItem>)
    requires forall it | it in items :: HasNamedCategory(it)
    ensures Named(CategoryEntries(items)) == AppTs.CategoryKeys(items)
  {
    if |items| > 0 {
      var init, last := items[..|items| - 1], items[|items| - 1];
      assert forall it | it in init :: it in items;
      NamedEntriesAreCategoryKeys(init);
      assert HasNamedCategory(last);
      var name := last.product.value.category.value.name.value;
      assert CategoryEntry(last) == [Some(name)];
      var entries := CategoryEntries(init) + [Some(name)];
      assert entries[..|entries| - 1] == CategoryEntries(init);
      assert Named(entries) == Named(CategoryEntries(init)) + [name];
      assert AppTs.CategoryKey(last) == name;
    }
  }

  /** When every kept line item has a category with a non-empty name, both servers
      report the same category table. */
  lemma CategoriesAgreeWhenNamed(data: seq<Order>)
    requires forall it | it in AppTs.QualifyingItems(data) :: HasNamedCategory(it)
    ensures CategoryCounts(data) == AppTs.ProcessProductCategories(data)
  {
    NamedEntriesAreCategoryKeys(AppTs.QualifyingItems(data));
  }

  /** Inserting an item among kept items adds the name it is counted under, if any, to
      the names the category table counts. */
  lemma NamesInsert(before: seq<LineItem>, item: LineItem, after: seq<LineItem>)
    ensures multiset(Named(CategoryEntries(before + [item] + after))) ==
      multiset(Named(CategoryEntries(before + after))) + multiset(Named(CategoryEntry(item)))
  {
    CategoryEntriesAppend(before + [item], after);
    CategoryEntriesSnoc(before, item);
    CategoryEntriesAppend(before, after);
    var b, e, a := CategoryEntries(before), CategoryEntry(item), CategoryEntries(after);
    NamedAppend(b + e, a);
    NamedAppend(b, e);
    NamedAppend(b, a);
  }

  /** Inserting a kept item into any order adds to the counted names exactly the name
      that item contributes. */
  lemma KeptItemNamed(data: seq<Order>, i: nat, j: nat, item: LineItem)
    requires i < |data| && j <= |data[i].lineItems|
    requires AppTs.IsNotShippingProtection(item)
    ensures multiset(Named(CategoryEntries(AppTs.QualifyingItems(AppTs.InsertItem(data, i, j, item))))) ==
      multiset(Named(CategoryEntries(AppTs.QualifyingItems(data)))) + multiset(Named(CategoryEntry(item)))
  {
    var before, after := AppTs.KeptBefore(data, i, j), AppTs.KeptAfter(data, i, j);
    AppTs.KeptItemsSplit(data, i, j);
    AppTs.KeptItemInserted(data, i, j, item);
    NamesInsert(before, item, after);
  }

  /** Adding, anywhere, a kept item with a product but without a category, or whose category
      name is null, adds one to the TypeScript server's 'Unknown' count and leaves the
      Python server's category table as it was. */
  lemma MissingCategoryDiffers(data: seq<Order>, i: nat, j: nat, item: LineItem)
    requires i < |data| && j <= |data[i].lineItems|
    requires AppTs.IsNotShippingProtection(item) && item.product.Present?
    requires !item.product.value.category.Present? || item.product.value.category.value.name.Null?
    ensures AppTs.ProcessProductCategories(AppTs.InsertItem(data, i, j, item)) ==
      Tally.Add(AppTs.ProcessProductCategories(data), "Unknown")
    ensures CategoryCounts(AppTs.InsertItem(data, i, j, item)) == CategoryCounts(data)
  {
    AppTs.KeptItemCategoryCounted(data, i, j, item);
    KeptItemNamed(data, i, j, item);
    assert Named(CategoryEntry(item)) == [] by {
      if CategoryEntry(item) != [] {
        var entry := CategoryEntry(item);
        assert entry == [None];
        assert entry[..0] == [];
      }
    }
    var grown, names := AppTs.QualifyingItems(AppTs.InsertItem(data, i, j, item)), AppTs.QualifyingItems(data);
    Tally.TallyPermutation(Named(CategoryEntries(grown)), Named(CategoryEntries(names)));
  }

  /** Adding, anywhere, a kept item whose category name is empty adds one to the TypeScript
      server's 'Unknown' count and one to the Python server's count of the empty name. */
  lemma EmptyCategoryNameDiffers(data: seq<Order>, i: nat, j: nat, item: LineItem)
    requires i < |data| && j <= |data[i].lineItems|
    requires AppTs.IsNotShippingProtection(item) && item.product.Present?
    requires item.product.value.category.Present? && item.product.value.category.value.name == Present("")
    ensures AppTs.ProcessProductCategories(AppTs.InsertItem(data, i, j, item)) ==
      Tally.Add(AppTs.ProcessProductCategories(data), "Unknown")
    ensures CategoryCounts(AppTs.InsertItem(data, i, j, item)) == Tally.Add(CategoryCounts(data), "")
  {
    AppTs.KeptItemCategoryCounted(data, i, j, item);
    KeptItemNamed(data, i, j, item);
    assert Named(CategoryEntry(item)) == [""] by {
      assert CategoryEntry(item) == [Some("")];
      assert [Some("")][..0] == [];
    }
    var grown, names := AppTs.QualifyingItems(AppTs.InsertItem(data, i, j, item)), AppTs.QualifyingItems(data);
    Tally.TallyOneMore(Named(CategoryEntries(names)), Named(CategoryEntries(grown)), "");
  }

  /** The `/upload-json` handler: no uploaded file is a 400 error; otherwise the merged list,
      or the error of the first file that does not hold a list. */
  method UploadJson<T>(files: seq<Document<T>>) returns (r: Result<seq<T>, HttpError>)
    ensures |files| == 0 ==> r == Err(Merge.NoFilesUploaded)
    ensures |files| > 0 ==> (r.Ok? <==> Merge.AllArrays(files))
    ensures |files| > 0 && r.Ok? ==> r.value == Merge.Concat(files)
    ensures |files| > 0 && r.Err? ==> r.error == Merge.NotAnArray
  {
    if |files| == 0 {
      return Err(Merge.NoFilesUploaded);
    }
    r := Merge.MergeArrays(files);
  }
}
