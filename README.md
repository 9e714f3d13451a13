# Inventory product store

A Dafny model of the in-memory product store of the InventoryFX desktop
application (`Product.java`). The store is an ordered list of products plus a
low-stock threshold. It offers:

- validated `add`, `updateById` and `deleteById`;
- `clearAll` and `resetSample` (back to the four seed products);
- a threshold setter that clamps at zero;
- the dashboard statistics `totalCount`, `lowStockCount`, `stockValue` and
  `newestItemName`.

Layout:

- `product.dfy`, module `ProductStore`: the `Product` record, the failures and
  their messages, the validation rules, the specification functions on
  sequences (`FirstIndex`, `RemoveAt`, `CountAtMost`, `LowStockItems`,
  `SumValue`) with their lemmas, and the class `Store`. `Store` holds the
  source's static `PRODUCTS` list as a `seq<Product>` field and
  `lowStockThreshold` as an `int32` field. Its methods reassign them as the
  Java code mutates them. Each method's `ensures` gives the whole new state as
  a function of the old one. `Valid()` is the store invariant it keeps:
  distinct ids, only well-formed products, and a threshold of at least zero.
- `decimal.dfy`, module `Decimal`: decimal rendering of an `int` as Java's
  string concatenation does it. The "No product found with ID …" message
  uses it.

Java exceptions become an `Outcome` value (`Pass` or `Fail(error)`). Every
`StoreError` carries exactly the message text of the matching
`IllegalArgumentException`, given by `Message`. A Java `null` name is `None`
of `Option<string>`. `String.isBlank` is modelled with Java's definition of
white space (`Character.isWhitespace`). Java `int` is the `int32` newtype;
the core does no arithmetic on it that could wrap.

The not-found message has no final full stop (Product.java:113, :124), and
neither does the model's `Message`.

Two client methods, `SeedScenario` and `AddScenario`, check the dashboard
scenarios from the callers' side, using only the contracts:

- the seed data at threshold 5 has one low-stock item;
- deleting id 999 fails with `NotFound(999)` and changes nothing;
- from empty, adding Apple and Banana gives 2 products, a stock value of 95.0
  and "Banana" as the newest name;
- adding a duplicate id fails.

## Model

| member | source | states |
|---|---|---|
| `ProductStore.Validate` | CPIT305-GroupProject2-main/src/main/java/com/mycompany/inventoryfx/Product.java:160-173 | Accepts exactly the inputs that make a well-formed product. A name is blank as `IsBlank` states Java's `String.isBlank`: empty, or made only of `IsWhitespace` characters (Java's `Character.isWhitespace`). Rejects in this order: `id <= 0` first, then a null or blank name, then `qty < 0`, then `price < 0`. Each rejection has its own error, and each error is reported exactly when the earlier checks pass and its own check fails. |
| `ProductStore.MessageInjective` | CPIT305-GroupProject2-main/src/main/java/com/mycompany/inventoryfx/Product.java:103-171 | `Message` gives the six exception texts exactly as the source throws them and as the screens show them. The six messages are pairwise distinct, and the id in "No product found with ID {id}" determines the id. |
| `Decimal.NatToString` | CPIT305-GroupProject2-main/src/main/java/com/mycompany/inventoryfx/Product.java:113 | The id rendered into the message is a non-empty string of decimal digits with no leading zero. |
| `Decimal.NatToStringRoundTrip` | CPIT305-GroupProject2-main/src/main/java/com/mycompany/inventoryfx/Product.java:113 | Reading the rendered digits back gives the number. |
| `Decimal.IntToStringInjective` | CPIT305-GroupProject2-main/src/main/java/com/mycompany/inventoryfx/Product.java:124 | Distinct ids, negative ones included, render to distinct texts. |
| `ProductStore.FirstIndex` | CPIT305-GroupProject2-main/src/main/java/com/mycompany/inventoryfx/Product.java:110-112 | The result is the first position holding the id: earlier positions hold other ids. None means no position holds it. |
| `ProductStore.Store.IndexOf` | CPIT305-GroupProject2-main/src/main/java/com/mycompany/inventoryfx/Product.java:120 | The linear scan used by add, update and delete finds exactly `FirstIndex` of the current list. |
| `ProductStore.RemoveAt` | CPIT305-GroupProject2-main/src/main/java/com/mycompany/inventoryfx/Product.java:122 | Removing the found product leaves one element fewer. The elements before it stay in place, the ones after it move down by one, and the multiset loses exactly the removed product. |
| `ProductStore.RemoveFoundKeepsInvariant` | CPIT305-GroupProject2-main/src/main/java/com/mycompany/inventoryfx/Product.java:119-126 | After a delete in a store with distinct ids, no product with that id remains, and the store invariant holds. |
| `ProductStore.ReplaceKeepsInvariant` | CPIT305-GroupProject2-main/src/main/java/com/mycompany/inventoryfx/Product.java:114-116 | Overwriting name, quantity and price with valid values, keeping the id, preserves distinct ids and well-formedness. |
| `ProductStore.SampleProducts` | CPIT305-GroupProject2-main/src/main/java/com/mycompany/inventoryfx/Product.java:132-139 | The seed list has four well-formed products with distinct ids 1, 2, 3 and 4, in that order. |
| `ProductStore.AtLeastZero` | CPIT305-GroupProject2-main/src/main/java/com/mycompany/inventoryfx/Product.java:95 | `Math.max(0, v)`: at least 0, at least v, and equal to one of them. |
| `ProductStore.CountAtMost` | CPIT305-GroupProject2-main/src/main/java/com/mycompany/inventoryfx/Product.java:146-149 | The low-stock count never exceeds the number of products. It is 0 exactly when every quantity is above the threshold. It equals the length exactly when every quantity is at or below it. |
| `ProductStore.LowStockItems` | CPIT305-GroupProject2-main/src/main/java/com/mycompany/inventoryfx/Product.java:148 | The low-stock filter keeps exactly the products whose quantity is at or below the threshold. |
| `ProductStore.LowStockItemsConcat` | CPIT305-GroupProject2-main/src/main/java/com/mycompany/inventoryfx/Product.java:148 | Filtering two lists joined together gives the two filtered lists joined together. So the filter keeps the low-stock products in store order. |
| `ProductStore.LowStockCountIsFilterLength` | CPIT305-GroupProject2-main/src/main/java/com/mycompany/inventoryfx/Product.java:146-149 | `lowStockCount` equals the number of products that pass the low-stock filter. |
| `ProductStore.CountAtMostMonotone` | CPIT305-GroupProject2-main/src/main/java/com/mycompany/inventoryfx/Product.java:146-149 | Raising the threshold never lowers the low-stock count. |
| `ProductStore.CountAtMostConcat` | CPIT305-GroupProject2-main/src/main/java/com/mycompany/inventoryfx/Product.java:146-149 | The low-stock count of two lists joined together is the sum of their counts. |
| `Decimal.IntToString` | CPIT305-GroupProject2-main/src/main/java/com/mycompany/inventoryfx/Product.java:113 | The `+ id` conversion in the not-found message: a non-empty text that starts with '-' exactly when the id is negative. |
| `ProductStore.SumValueConcat` | CPIT305-GroupProject2-main/src/main/java/com/mycompany/inventoryfx/Product.java:151-153 | `SumValue` is the exact sum of `LineValue` (quantity times price) over the list. The stock value of two lists joined together is the sum of their values. |
| `ProductStore.SumValueNonNegative` | CPIT305-GroupProject2-main/src/main/java/com/mycompany/inventoryfx/Product.java:151-153 | A list of well-formed products has a stock value of at least zero. |
| `ProductStore.RemoveAtStatistics` | CPIT305-GroupProject2-main/src/main/java/com/mycompany/inventoryfx/Product.java:119-126 | A delete lowers the stock value by exactly the removed product's quantity times price. It lowers the low-stock count by one exactly when that product was low on stock. |
| `ProductStore.SampleLowStockAtFive` | CPIT305-GroupProject2-main/src/main/java/com/mycompany/inventoryfx/Product.java:76-79 | At threshold 5, the seed data has exactly one low-stock product, Milk with quantity 5. |
| `ProductStore.Store.constructor` | CPIT305-GroupProject2-main/src/main/java/com/mycompany/inventoryfx/Product.java:75-83 | The store starts with the four seed products and threshold 5, and the invariant holds. |
| `ProductStore.Store.GetLowStockThreshold` | CPIT305-GroupProject2-main/src/main/java/com/mycompany/inventoryfx/Product.java:90-92 | Returns the stored threshold, which is never negative. |
| `ProductStore.Store.SetLowStockThreshold` | CPIT305-GroupProject2-main/src/main/java/com/mycompany/inventoryfx/Product.java:94-96 | Stores `max(0, v)` and leaves the product list unchanged. |
| `ProductStore.Store.Add` | CPIT305-GroupProject2-main/src/main/java/com/mycompany/inventoryfx/Product.java:99-106 | Validation runs first; a failed check is reported and nothing changes. A valid input whose id already exists fails with the duplicate-id error and nothing changes. Otherwise exactly one product is appended and everything earlier stays in order. On success `totalCount` grows by 1, `newestItemName` is the new name, and `stockValue` grows by quantity times price. Ids stay distinct. |
| `ProductStore.Store.UpdateById` | CPIT305-GroupProject2-main/src/main/java/com/mycompany/inventoryfx/Product.java:108-117 | Validation runs before the lookup, so an invalid input reports its validation error even if the id is missing. A valid input with a missing id reports `NotFound(id)`. Both failures leave the list unchanged. On success only the first product with that id changes: its name, quantity and price take the new values. Its id and position, the list length and every other product stay the same. |
| `ProductStore.Store.DeleteById` | CPIT305-GroupProject2-main/src/main/java/com/mycompany/inventoryfx/Product.java:119-126 | No validation is done. An absent id, 0 included, fails with `NotFound(id)` and changes nothing. Otherwise exactly the first product with that id is removed. The others keep their relative order, the id is gone, `totalCount` drops by 1 and `stockValue` drops by that product's value. |
| `ProductStore.Store.ClearAll` | CPIT305-GroupProject2-main/src/main/java/com/mycompany/inventoryfx/Product.java:128-130 | Empties the list whatever it held. Afterwards `totalCount` is 0 and `newestItemName` is "-". |
| `ProductStore.Store.ResetSample` | CPIT305-GroupProject2-main/src/main/java/com/mycompany/inventoryfx/Product.java:132-139 | Whatever the list held, it becomes exactly the four seed products. The threshold does not change. |
| `ProductStore.Store.LowStockCount` | CPIT305-GroupProject2-main/src/main/java/com/mycompany/inventoryfx/Product.java:146-149 | At most `totalCount`. Equals the number of products whose quantity is at or below the current threshold. |
| `ProductStore.Store.StockValue` | CPIT305-GroupProject2-main/src/main/java/com/mycompany/inventoryfx/Product.java:151-153 | The value is `SumValue` of the current list, the exact sum of `LineValue` (quantity times price) over its products. In a valid store it is never negative. |
| `ProductStore.Store.NewestItemName` | CPIT305-GroupProject2-main/src/main/java/com/mycompany/inventoryfx/Product.java:155-157 | In a valid store the result is never blank: it is the last product's name, or "-" for an empty list. |

## Left out

- The JavaFX screens are not part of this model: MainScreen, AdminScreen, LoginScreen and ReportScreen. They are windows, dialogs and styling that only call into the store. Also out: the text parsing in AdminScreen and MainScreen, the low-stock report's text (its filter is `LowStockItems`), the hard-coded login check, and SystemInfo.
- Prices are exact reals, not IEEE doubles. `stockValue` is an exact sum with no rounding, and the model makes no claim of agreement with Java's double arithmetic. NaN, the infinities and -0.0 are not modelled. In Java, a NaN price passes the `price < 0` check.
- Products are values, not objects. `updateById` replaces the record at the found position, which has the same effect on the list as the source's setters. Object identity and aliasing are not captured.
- The escape hatches that bypass validation are not modelled: the public `setId`, the other public setters, and the live list that `all()` returns. The uniqueness invariant `Valid()` is stated only for changes made through the store's operations.
- The JavaFX observable-property wrappers and the change notifications they send to the UI are not modelled.
- The store is one `Store` object, not process-wide static state. There is no concurrency, since the source runs only on the UI thread.
- `TotalCount` is the list length. It has no contract of its own; the contracts of `Add`, `DeleteById` and `ClearAll` state how it changes.
- `LowStockCount` returns an unbounded count. The source's `(int)` cast of the stream's `long` count is not modelled; the count is never more than the list size.
