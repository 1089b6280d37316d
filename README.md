# Order analytics: line-item filter, frequency tables and upload merge

This project models, in Dafny, the analysis core of a small order-analytics server. The server
exists twice: as an Express server in TypeScript (`src/app.ts`, compiled to `dist/app.js`) and as
a Flask server in Python (`app.py`). Both take a parsed list of e-commerce orders. Each order
holds line items. A line item has a quantity, a title and an optional product, and a product
has a product type and a category with a name.

From these orders both servers build three frequency tables:

- **order sizes**: how many orders have each total quantity;
- **product categories**: how many kept line items fall in each category;
- **product types**: how many kept line items have each product type.

Every table skips line items that are shipping, protection or insurance charges. The
`/upload-json` endpoint also merges the arrays of several uploaded JSON files into one.

Modules:

- `Json` (`json.dfy`): JSON fields that can be absent, null or present; `Option`, `Result`,
  an uploaded document (an array or not), and an HTTP error.
- `Text` (`text.dfy`): ASCII lower-casing and substring search.
- `Orders` (`orders.dfy`): orders, line items, products and categories; the three excluded words.
- `Tally` (`tally.dfy`): frequency tables as maps. It also holds the key-ordered table of
  (key, count) pairs that pandas' `value_counts().sort_index()` produces.
- `Merge` (`merge.dfy`): the merge loop shared by both `/upload-json` handlers.
- `Seqs` (`seqs.dfy`): regrouping equations on sequences used by the proofs.
- `AppTs` (`app_ts.dfy`): the TypeScript functions. They are written as `map`/`filter`/`flatMap`
  chains, so they are modelled as functions.
- `AppPy` (`app_py.dfy`): the Python functions. These build lists in `for` loops, so they are
  modelled as methods with loops, each proved equal to its TypeScript counterpart or to a
  specification function.
- `JsObject` (`js_object.dfy`): the plain-object accumulator `acc[k] = (acc[k] || 0) + 1` of
  the TypeScript tallies, as written (see Findings).

A JSON field is three-valued (absent, null, present) because the two languages treat the
cases differently:

- TypeScript's `?.` and `||` treat absent and null alike.
- Python's `dict.get(key, default)` falls back to the default only for a missing key. A null
  value is then passed on, and `None.lower()` raises.

The Python members therefore carry as preconditions exactly the inputs on which the Python code
runs without raising:

- `FilterDefined`: when an item has a product, its product type and title are not null.
- `ProductsPresent`: for the category and type tallies, every line item has a product. An item
  without a product passes the filter, and `item['node']['product'].get(...)` then raises.

The TypeScript tallies are modelled with the frequency table `Tally.Tally`, the counting the
code evidently intends. The accumulator as written differs from it only on keys that name
members of `Object.prototype`: `JsObject` proves that any other key, whatever else is counted
beside it, is in the accumulator exactly when it occurs and holds its number of occurrences.

## Model

| member | source | states |
|---|---|---|
| `Text.Lower` | src/app.ts:16-17 | lower-casing keeps the length, leaves no upper-case ASCII letter, shifts each upper-case letter by 32 and leaves every other character alone |
| `Text.LowerIdempotent` | app.py:14-15 | lower-casing an already lower-cased string changes nothing |
| `AppTs.LowerOrEmpty` | src/app.ts:16-17 | a present string reads as its ASCII lower-casing; a missing or null one reads as the empty string; the result is empty exactly in those cases or for an empty string |
| `AppTs.LowerField` | src/app.ts:16-17 | a present string is replaced by its lower-casing, a missing or null field is left as it is, and what the filter reads from the field does not change |
| `AppTs.FilterIgnoresCase` | src/app.ts:16-20 | lower-casing an item's product type and title does not change whether it is kept |
| `Text.Includes` | dist/app.js:22 | `includes` / `in` is true exactly when the needle occurs at some position of the haystack |
| `AppTs.SomeTermIn` | src/app.ts:18-20 | `some(term => type.includes(term) \|\| title.includes(term))` is true exactly when some term occurs in the type or the title |
| `AppTs.IsNotShippingProtection` | src/app.ts:14-15 | an item whose product is missing or null is always kept |
| `AppTs.FilterDropsExactlyExcludedWords` | src/app.ts:16-20 | an item with a product is kept exactly when none of shipping, protection, insurance occurs in its lower-cased product type or lower-cased title, a missing or null one reading as empty |
| `AppTs.QualifyingMembers` | src/app.ts:55 | the filtered list holds exactly the items of the list that pass the filter |
| `AppTs.Qualifying` | dist/app.js:50 | the filtered list is no longer than the list |
| `AppTs.QualifyingItemsMembers` | src/app.ts:53-55 | the flattened list holds exactly the items of any order that pass the filter |
| `AppTs.OrderSizes` | src/app.ts:24-27 | one size per order, in order: the sum of the quantities of that order's kept items |
| `AppTs.OrderSize` | src/app.ts:25-26 | the reduce over an order's items is the sum of the quantities of the items that pass the filter; excluded items add 0 |
| `AppTs.OrderSizesMembers` | src/app.ts:24-27 | a size is in the list of order sizes exactly when some order has that size |
| `AppTs.ProcessOrderSizes` | src/app.ts:23-33 | the table has a key exactly for each size some order has; each count is the number of orders of that size and at least 1; the counts add up to the number of orders |
| `AppTs.CategoryKey` | src/app.ts:56 | the key is never empty; any key other than 'Unknown' is the item's category name; a present non-empty category name is the key |
| `AppTs.CategoryKeys` | dist/app.js:51 | one key per kept item, in order, each the `CategoryKey` of that item, none empty |
| `AppTs.ProcessProductCategories` | src/app.ts:52-63 | no key is empty; each count is the number of kept items with that key and at least 1; the counts add up to the number of kept items across all orders |
| `AppTs.TypeKey` | src/app.ts:69 | the key is never empty; any key other than 'Undefined' is the item's product type; a present non-empty product type is the key |
| `AppTs.TypeKeys` | dist/app.js:61 | one key per kept item, in order, each the `TypeKey` of that item, none empty |
| `AppTs.ProcessProductTypes` | src/app.ts:65-76 | no key is empty; each count is the number of kept items with that key and at least 1; the counts add up to the number of kept items across all orders |
| `AppTs.QualifyingAppend` | src/app.ts:53-55 | filtering a concatenation filters each part |
| `AppTs.QualifyingItemsDependOnKeptItems` | dist/app.js:49-50 | orders that keep the same items give the same flattened list of kept items |
| `AppTs.ExcludedItemKeepsQualifying` | src/app.ts:26 | inserting an excluded item anywhere in an order leaves its kept items unchanged |
| `AppTs.ExcludedItemKeepsSizes` | src/app.ts:24-27 | inserting an excluded item into any order leaves every order size unchanged |
| `AppTs.ExcludedItemKeepsQualifyingItems` | src/app.ts:66-68 | inserting an excluded item into any order leaves the kept items of all orders unchanged |
| `AppTs.ExcludedItemKeepsSizeTable` | src/app.ts:23-33 | inserting an excluded item into any order leaves the order-size table unchanged |
| `AppTs.ExcludedItemKeepsCategoryTable` | src/app.ts:52-63 | inserting an excluded item into any order leaves the category table unchanged |
| `AppTs.ExcludedItemKeepsTypeTable` | src/app.ts:65-76 | inserting an excluded item into any order leaves the type table unchanged |
| `AppTs.QualifyingItemsAppend` | src/app.ts:53 | the kept items of a concatenation of order lists are the kept items of each part |
| `AppTs.QualifyingAround` | src/app.ts:54-55 | a kept item inserted into an order's items stays, in place, between the kept items before it and those after it |
| `AppTs.KeptItemsSplit` | src/app.ts:53-55 | the flattened kept items split at any position of any order |
| `AppTs.KeptItemInserted` | src/app.ts:53-55 | inserting a kept item at any position of any order puts it in the flattened kept items exactly at that split |
| `AppTs.KeptItemCategoryCounted` | src/app.ts:52-62 | inserting a kept item into any order adds one to its key's count in the category table and leaves every other count |
| `AppTs.ExcludedItemChangesNoTable` | dist/app.js:24-67 | inserting a shipping, protection or insurance item into any order leaves the order-size, category and type tables unchanged |
| `AppTs.UploadJson` | src/app.ts:100-115 | no file list gives the 400 'No files were uploaded.'; otherwise the result is the in-order concatenation of the arrays when every file holds an array, and the 400 'Each JSON file must contain an array.' when one does not |
| `Merge.MergeArrays` | dist/app.js:94-104 | the loop succeeds exactly when every file holds an array, and then returns their concatenation in file order; otherwise it returns the 'Each JSON file must contain an array.' error |
| `Merge.ConcatAppend` | app.py:92-95 | merging two batches of files one after the other is merging them all at once |
| `Merge.ConcatInFileOrder` | src/app.ts:107-110 | each file's array appears whole in the merged array, after the arrays of the files before it and before those of the files after it |
| `AppPy.UploadJson` | app.py:84-97 | no uploaded file gives the 400 'No files were uploaded.'; otherwise the in-order concatenation when every file holds a list, and the 400 'Each JSON file must contain an array.' when one does not |
| `Tally.Tally` | src/app.ts:28-31 | the table has a key exactly for each value counted, and each count is that value's number of occurrences, at least 1 |
| `Tally.AddCounts` | src/app.ts:59 | counting a key once more raises its count by one, from zero when it had none, and leaves every other count |
| `Tally.TallyPermutation` | app.py:47 | the table depends only on how often each value occurs, not on the order of the values |
| `Tally.TallyOneMore` | src/app.ts:58-61 | counting the values plus one more is counting the values and then adding that one |
| `Tally.TotalAdd` | dist/app.js:27 | counting one more key adds one to the total |
| `Tally.TallyTotal` | app.py:47 | the counts of a frequency table add up to the number of values counted |
| `Tally.ToMap` | app.py:26 | every key of the dictionary comes from a pair of the table |
| `Tally.Bump` | app.py:25 | counting one more value in a key-ordered table keeps it strictly ascending and adds one to its total |
| `Tally.BumpToMap` | app.py:25-26 | counting one more value in a key-ordered table adds one to that value's count in the dictionary it stands for |
| `Tally.SortedCounts` | app.py:25 | `value_counts().sort_index()` gives a strictly ascending table whose dictionary is the frequency table of the values and whose counts add up to the number of values |
| `AppPy.GetOr` | app.py:14-15 | `get` returns the stored string when the key is present and the default when it is missing |
| `AppPy.IsNotShippingProtection` | app.py:10-18 | on every item it accepts, the six-way conjunction of "not in" decides exactly as the TypeScript filter |
| `AppPy.OrderSize` | app.py:23 | the generator sum is the sum of the quantities of the items that pass the filter |
| `AppPy.ProcessOrderSizes` | app.py:20-26 | the result is strictly ascending by size, stands for the same dictionary as the TypeScript order-size table, and its counts add up to the number of orders |
| `AppPy.TypeName` | app.py:55-57 | the type name is never empty; any name other than 'Undefined' is the product type; a present non-empty product type is the name |
| `AppPy.TypeNameIsTypeKey` | app.py:55-57 | the Python type name of an item is the key the TypeScript type table counts it under |
| `AppPy.ProcessProductTypes` | app.py:50-60 | the Python type table equals the TypeScript one, and its counts add up to the number of kept items |
| `AppPy.OrderTypes` | app.py:53-58 | the inner loop appends the type key of each kept item of one order, in order |
| `AppPy.CategoryName` | app.py:46 | `get('name', 'Unknown')` is None exactly for a null name, the name when present and 'Unknown' when missing |
| `AppPy.CategoryEntry` | app.py:44-46 | one kept item appends at most one entry, none exactly when it has no category, and `Some(name)` exactly when its category is called by `name` |
| `AppPy.CategoryEntries` | app.py:45 | the category loop appends at most one entry per kept item |
| `AppPy.CategoryEntriesCount` | app.py:40-46 | each name is appended once per kept item whose category is called by it |
| `AppPy.Named` | app.py:47 | `value_counts()` drops the None entries: each name occurs among the counted names as often as among the entries |
| `AppPy.NamedAppend` | app.py:47 | dropping the None entries of a concatenation drops them from each part |
| `AppPy.NamedEntriesSnoc` | app.py:44-46 | one more kept item appends to the counted names the names of its own entry, so a name is counted afterwards exactly when it was before or the item's category is called by it |
| `AppPy.NamedEntriesMembers` | app.py:41-46 | a name is counted exactly when some kept item has a category whose name is that name, or whose name is missing and the name is 'Unknown' |
| `AppPy.CategoryCounts` | app.py:47-48 | each name's count, zero when it is not a key, is the number of kept items whose category is called by it; every count is at least 1; the counts add up to at most the number of kept items |
| `AppPy.CategoryCountsKeys` | app.py:44-47 | the category table has a key exactly for each name some kept item's category is called by |
| `AppPy.ProcessProductCategories` | app.py:39-48 | the nested loops followed by `value_counts()` produce the category table of the kept items |
| `AppPy.OrderCategories` | app.py:42-46 | the inner loop appends the category entry of each kept item of one order, in order |
| `AppPy.NamedEntriesAreCategoryKeys` | app.py:46 | when every item has a category with a non-empty name, the Python names are the TypeScript keys |
| `AppPy.CategoriesAgreeWhenNamed` | src/app.ts:53-62 | when every kept item has a category with a non-empty name, the Python and TypeScript category tables are equal |
| `AppPy.NamesInsert` | app.py:42-47 | inserting an item among the kept items adds its own names, if any, to the counted names |
| `AppPy.KeptItemNamed` | app.py:40-47 | inserting a kept item into any order adds to the counted names exactly the names of its entry |
| `AppPy.MissingCategoryDiffers` | app.py:44-45 | inserting anywhere a kept item with a product but with no category, or a category with a null name, adds one to the TypeScript 'Unknown' count and leaves the Python table unchanged |
| `AppPy.EmptyCategoryNameDiffers` | app.py:46 | inserting anywhere a kept item whose category name is empty adds one to the TypeScript 'Unknown' count and one to the Python count of the empty name |
| `JsObject.Lookup` | dist/app.js:53 | reading a key gives its own property's stored value when there is one, otherwise the inherited member for a prototype name, and undefined exactly when it is neither |
| `JsObject.Render` | src/app.ts:59 | the string form of `Object.prototype` is '[object Object]'; that of any other inherited member is `function <name>() { [native code] }`, with `Object` as the name of `constructor` |
| `JsObject.IncrementValue` | dist/app.js:63 | `(v \|\| 0) + 1` gives 1 for undefined or the empty string, adds 1 to a number, appends the digit 1 to a non-empty string, and appends it to the string form `Render(name)` of an inherited member |
| `JsObject.Assign` | src/app.ts:72 | assigning to `__proto__` changes nothing; any other assignment sets that key and keeps all others |
| `JsObject.TallyAsWritten` | src/app.ts:58-61 | the accumulator only has keys that were counted, and never `__proto__` |
| `JsObject.AsWrittenMatchesTallyOffPrototype` | src/app.ts:71-74 | when no key names a member of `Object.prototype`, the accumulator holds exactly the frequency table, every count as a number |
| `JsObject.AsWrittenOffPrototypeKey` | src/app.ts:58-61 | whatever other keys are counted, a key that does not name a member of `Object.prototype` is in the accumulator exactly when it was counted, and holds its number of occurrences |
| `JsObject.ConstructorKeyMiscounted` | dist/app.js:52-55 | counting the key 'constructor' once stores a string instead of the count 1 |
| `JsObject.ProtoKeyDropped` | dist/app.js:62-65 | counting the key '__proto__' once leaves it out of the table |

## Left out

- Price-range bucketing (`processPriceRanges`, `process_price_ranges`): it is floating-point throughout (percentiles, `linspace`, `pd.cut`, truncated bin labels).
- HTTP and I/O: routing, multer and Flask uploads, file-type checks, reading files, JSON parsing, writing and sending `merged.json`, and the `/upload` handler that only calls the four tallies in turn. The model starts from the parsed orders; each uploaded file is a parsed document.
- The charting scripts `order-sizes.py`, `product-categories.py`, `product-types.py` and `price-ranges.py`: they repeat the logic to feed matplotlib.
- Output order: the tables are maps. pandas' descending-frequency order and JavaScript key order are not modelled. The one exception is the ascending size order of `process_order_sizes`.
- Lower-casing is ASCII only; full Unicode case mapping is not modelled.
- Values of the wrong JSON type (a number as a title, a missing or non-numeric quantity, `edges` not a list) are not modelled; fields hold strings, objects or nothing, and quantities are integers. A missing `lineItems` crashes both servers and is excluded by the types.
- An empty object `{}` as product or category is falsy in Python and truthy in JavaScript. The model treats every present object as truthy, which is the JavaScript reading.
- `AppPy.IsNotShippingProtection`: agrees with the TypeScript filter only under that reading; an item `{"product": {}, "title": "Shipping"}` is kept by app.py:12-13 (an empty product is falsy) and dropped by src/app.ts:15-20, and a present product cannot stand for `{}` in the model.
- `AppPy.CategoryEntry`: an empty category object `{}` is skipped by `if category:` in Python (nothing appended) but counted as 'Unknown' by TypeScript; the model reads every present category as truthy, so this case is not modelled.
- TypeScript adds quantities as IEEE doubles (src/app.ts:25-26), so an order size above 2^53 is rounded; Python's `sum` and the model's unbounded integers are exact.
- A line item without `node`: the TypeScript filter keeps it (`item.node?.product` is undefined), and `item.node.quantity` or `item.node.product` then throws; Python throws at `item['node']`. The model's line item always has its node.
- TypeScript order-size keys are the decimal strings of the sizes; the model keys the table by the integer size, which is the same table for integer sizes.
- `AppTs.UploadJson`: `req.files` holding something other than an array is modelled as no file list.
- `AppPy.UploadJson`: a request without the `jsonFiles` field is modelled as an empty file list, since Flask's `getlist` on a present field is never empty.
- `AppTs.Qualifying`: its own contract only bounds the length; which items are kept is stated by `AppTs.QualifyingMembers`.
- `AppTs.QualifyingItems`: its own contract is empty; which items it holds is stated by `AppTs.QualifyingItemsMembers`, and its order by `AppTs.QualifyingItemsAppend` and `AppTs.KeptItemInserted`.
- `AppPy.CategoryEntries`: its own contract only bounds the length; what is appended is stated by `AppPy.CategoryEntry`, `AppPy.CategoryEntriesCount` and `AppPy.NamedEntriesSnoc`.
- `JsObject.TallyAsWritten`: its own contract bounds the keys; the values are stated by `JsObject.AsWrittenOffPrototypeKey`, `JsObject.AsWrittenMatchesTallyOffPrototype`, `JsObject.ConstructorKeyMiscounted` and `JsObject.ProtoKeyDropped`. Prototype members other than `constructor` and `__proto__` are modelled the same way but their exact string forms are not proved.
- `Tally.Add`: its own contract is empty; what it does to the counts is stated by `Tally.AddCounts` and `Tally.TotalAdd`.
- `AppPy.IsNotShippingProtection`: an item with a product whose product type or title is null makes `None.lower()` raise; the model requires `FilterDefined` instead of modelling the exception.
- `AppPy.OrderSize`: the generator raises on an item the filter raises on; the model requires every item to satisfy `FilterDefined`.
- `AppPy.ProcessOrderSizes`: raises when the filter raises on some item; the model requires `Filterable`.
- `AppPy.ProcessProductTypes`: also raises on a kept item without a product (`item['node']['product'].get`); the model requires `ProductsPresent`.
- `AppPy.ProcessProductCategories`: raises on the same inputs as `AppPy.ProcessProductTypes`; the model requires `ProductsPresent`.
- `Merge.MergeArrays`: `mergedData.push(...data)` passes every element as a call argument, so in V8 an array beyond the engine's argument limit makes the TypeScript handler throw a `RangeError`, which Python's `extend` never does; the model appends arrays of any length.
- `Tally.ToMap`: its own contract only says where keys come from; the full dictionary is stated by `Tally.BumpToMap` and `Tally.SortedCounts`.

## Findings

| source | as written | input that shows it | evidently intended | confidence | as-written member | corrected member |
|---|---|---|---|---|---|---|
| src/app.ts:58-61 | the category and type tallies count into a plain object `{}` with `acc[k] = (acc[k] \|\| 0) + 1`, so a key naming a member of `Object.prototype` starts from the inherited member, and `__proto__` cannot be assigned a string | one kept item whose category name is `constructor` gives `{"constructor": "function Object() { [native code] }1"}`; one whose product type is `__proto__` gives `{}` | each key counted as a number, `{"constructor": 1}` and `{"__proto__": 1}` (a `Map` or `Object.create(null)` accumulator) | not executed; follows from the language's object semantics, only for such names | `JsObject.ConstructorKeyMiscounted` | `Tally.Tally` |
