# StoreForge storefront and admin, modelled in Dafny

StoreForge is a React shop. It has a public storefront with a product grid, a product page, a cart sidebar and a checkout. It also has an admin side: products, orders, customers, a dashboard and store settings. There is no backend. Each "service" is a module-level JavaScript array or object that the service functions read and change in place, behind an artificial delay.

This project models the logic under the rendering. Each part is listed with its module and source file.

**Services**
- The three record stores, `Stores`, `ProductService`, `OrderService` and `CustomerService` (`src/services/api/*Service.js`). Each is a class over a `seq<Record>` of JSON objects, with list, get, create, update and delete.
- The settings record, `SettingsService`.
- The dashboard statistics and the in-place "recent" sort, `DashboardService`. The sort is an insertion sort on an `array`.

**Storefront**
- The shopping cart, `Cart`, shared by `Storefront` (`Storefront.jsx`), `ProductDetail` (`ProductDetail.jsx`) and `CartSidebar` (`CartSidebar.jsx`). A cart is a list of product snapshots with quantities, kept at one entry per product `Id`.
- The checkout, `Checkout` (`Checkout.jsx`): pricing, validation of the eleven required fields, the order built from the cart, and the submit flow.

**Admin**
- The product form, `ProductForm` (`ProductForm.jsx`): validation with JavaScript's `parseFloat`/`parseInt` semantics, conversion on submit, prefill for an edit, and the image list.
- The admin lists, `ProductsPage`, `OrdersPage` and `CustomersPage`: case-insensitive search, local replace, prepend and delete after service calls, and the summary and insight panels.
- The order table, `OrderTable`: badge colours, the zero-padded order number and the status menu.
- The settings page, `SettingsPage`: field and nested-field edits, the numeric fallback, and save.

**Shared modules**
- `Json`: records and object spread.
- `Text`: `trim`, `toLowerCase`, `includes`, `toString`, `padStart`, `parseInt` and `parseFloat` in the decimal subset the forms use.
- `Seqs`: `filter`, `map` and `reduce`.
- `Views`: loader, error, empty or list.
- `FormErrors`: the error dictionary of the forms.
- `Entities`: typed product, order and customer records.

**How effects are modelled**
- A page's `useState` fields are the fields of a class.
- A `useEffect` that recomputes a filtered list is the class invariant `Valid()`.
- Every awaited service call is a `Result` parameter of the handler that awaits it. The handler is proved for both the success and the failure branch.
- Money is exact (`real`). `Id`s are JavaScript numbers held as `Num(real)` and looked up with an `int`.

## Model

| member | source | states |
|---|---|---|
| Json.Spread | src/services/api/settingsService.js:15 | `{...a, ...b}` has the keys of both; `b`'s value wins where both have a key, `a`'s stays elsewhere |
| Json.SpreadIdempotent | src/services/api/settingsService.js:15 | spreading the same object a second time changes nothing |
| Stores.FindIndex | src/services/api/productService.js:51 | the first position whose record has the `Id`, or -1 exactly when no record has it |
| Stores.MaxId | src/services/api/productService.js:24 | `Math.max` of the `Id`s of a non-empty table: no `Id` exceeds it and some record has it |
| Stores.Created | src/services/api/productService.js:25-29 | the new record has the caller's keys plus `Id` and `createdAt`; `createdAt` is always `now`; `Id` is max+1 unless the caller gave one, which wins; every other caller field is kept |
| Stores.Merged | src/services/api/orderService.js:40-44 | the updated record: keys named by the update take its values, the other keys keep theirs, and `Id` is the requested id even if the update carries another |
| Stores.RemoveAt | src/services/api/productService.js:55 | `splice(k, 1)`: one shorter, the records before `k` and after it in order, the same multiset less the removed record |
| Stores.RemoveAtKeyed | src/services/api/productService.js:55 | after a splice every remaining record still has a numeric `Id` |
| Stores.CreatedIdIsFresh | src/services/api/productService.js:24 | without a caller `Id`, the new `Id` exceeds every existing one |
| Stores.PrependFreshPreservesUnique | src/services/api/productService.js:30 | unshifting a record whose `Id` exceeds all others keeps `Id`s unique |
| Stores.CreatePreservesUnique | src/services/api/productService.js:24-30 | the intended create keeps `Id`s unique when the caller supplies no `Id` |
| Stores.CreateKeepsCallerId | src/services/api/productService.js:25-27 | a caller `Id` equal to an existing one survives the spread and breaks uniqueness |
| Stores.UpdatePreservesUnique | src/services/api/orderService.js:40-45 | replacing the found record by its merge keeps `Id`s unique |
| Stores.DeleteRemovesId | src/services/api/productService.js:51-55 | with unique `Id`s, the splice keeps them unique and leaves no record with the deleted `Id` |
| Stores.RecordsOf | src/services/api/productService.js:6 | the records an array of objects holds, one per element, in order |
| Stores.AsArray | src/services/api/productService.js:6 | the store as a JavaScript array of objects, whose records are exactly the store's |
| Stores.CreateIn | src/services/api/productService.js:22-32 | the create body with its store name bound to a value: it fails with "`name`.map is not a function" iff the value is not an array, and on an array yields the `Created` record plus the keys written after it |
| Stores.UpdateIn | src/services/api/productService.js:34-47 | the update body with its store name bound to a value: "`name`.findIndex is not a function" on a non-array; on an array, the not-found error iff no record has the `Id`, otherwise the merge of the first record that has it |
| ProductService.ProductStore.constructor | src/services/api/productService.js:6 | the store starts as the seed records |
| ProductService.ProductStore.GetAll | src/services/api/productService.js:8-11 | returns the records in store order and changes nothing |
| ProductService.ProductStore.GetById | src/services/api/productService.js:13-20 | succeeds iff some record has the `Id`, returning the first such; otherwise fails with "Product not found" |
| ProductService.ProductStore.Create | src/services/api/productService.js:22-32 | intended create: the result is what `CreateIn` gives with the name bound to the store array; that `Created` record goes to the front, every old record shifts by one, `Id`s stay unique without a caller `Id` |
| ProductService.ProductStore.Update | src/services/api/productService.js:34-47 | intended update: the result is what `UpdateIn` gives with the name bound to the store array; absent id fails with "Product not found" and nothing changes; otherwise only the found record becomes its merge, returned, and `Id`s stay unique |
| ProductService.ProductStore.Delete | src/services/api/productService.js:49-57 | absent id fails and nothing changes; otherwise the first record with the id is spliced out, and with unique `Id`s none with it is left |
| ProductService.CreateAsWritten | src/services/api/productService.js:22-24 | as written: the create body with `productData` bound to the caller's object, so `productData.map` is not a function and the call fails |
| ProductService.UpdateAsWritten | src/services/api/productService.js:34-36 | as written: the update body with `productData` bound to the update object, so `productData.findIndex` is not a function and the call fails |
| ProductService.ShadowedCallsFail | src/services/api/productService.js:22-47 | the same create and update bodies give the `Created` record and the merge (or the not-found error) when the name is bound to the store array, and fail for every input when bound to the caller's object |
| OrderService.OrderStore.constructor | src/services/api/orderService.js:6 | the store starts as the seed records |
| OrderService.OrderStore.GetAll | src/services/api/orderService.js:8-11 | returns the records in store order and changes nothing |
| OrderService.OrderStore.GetById | src/services/api/orderService.js:13-20 | succeeds iff some order has the `Id`, returning the first; otherwise "Order not found" |
| OrderService.OrderStore.Create | src/services/api/orderService.js:22-32 | intended create: what `CreateIn` gives over the store array: max+1 `Id`, prepended, `createdAt` after the caller's fields, `Id`s kept unique |
| OrderService.OrderStore.Update | src/services/api/orderService.js:34-47 | what `UpdateIn` gives over the store array: only the found order changes, to the old record overridden by the update with `Id` pinned; absent id fails and nothing changes |
| OrderService.OrderStore.Delete | src/services/api/orderService.js:49-57 | splices out exactly the first matching order, others in order; absent id fails without change |
| OrderService.CreateAsWritten | src/services/api/orderService.js:22-24 | as written: the create body with `orderData` bound to the order object, so `orderData.map` is not a function and the call fails |
| OrderService.ShadowedCreateFails | src/services/api/orderService.js:22-32 | the same create body gives the `Created` order over the store array and fails for every input over the order object |
| CustomerService.CreatedCustomer | src/services/api/customerService.js:24-31 | the new customer: caller fields kept, `Id` max+1 unless given, and `createdAt`, `orders = []`, `totalSpent = 0` set after the spread so the caller cannot override them |
| CustomerService.CreatedCustomerPreservesUnique | src/services/api/customerService.js:24-32 | without a caller `Id`, prepending the new customer keeps `Id`s unique |
| CustomerService.CustomerStore.constructor | src/services/api/customerService.js:6 | the store starts as the seed records |
| CustomerService.CustomerStore.GetAll | src/services/api/customerService.js:8-11 | returns the records in store order and changes nothing |
| CustomerService.CustomerStore.GetById | src/services/api/customerService.js:13-20 | succeeds iff some customer has the `Id`; otherwise "Customer not found" |
| CustomerService.CustomerStore.Create | src/services/api/customerService.js:22-34 | intended create: what `CreateIn` gives over the store array with `orders` and `totalSpent` written last; the new customer goes to the front, `Id`s kept unique |
| CustomerService.CustomerStore.Update | src/services/api/customerService.js:36-49 | what `UpdateIn` gives over the store array: only the found customer changes, fields overridden and `Id` pinned; absent id fails without change |
| CustomerService.CustomerStore.Delete | src/services/api/customerService.js:51-59 | splices out exactly one matching customer; absent id fails without change |
| CustomerService.CreateAsWritten | src/services/api/customerService.js:22-24 | as written: the create body with `customerData` bound to the caller's object, so `customerData.map` is not a function and the call fails |
| CustomerService.ShadowedCreateFails | src/services/api/customerService.js:22-34 | the same create body gives `CreatedCustomer` over the store array and fails for every input over the caller's object |
| SettingsService.SettingsStore.constructor | src/services/api/settingsService.js:6 | the settings start as the seed record |
| SettingsService.SettingsStore.Get | src/services/api/settingsService.js:8-11 | returns the stored settings and changes nothing |
| SettingsService.SettingsStore.Update | src/services/api/settingsService.js:13-17 | the stored settings become the old ones spread with the new, and the result equals them |
| SettingsService.UpdateOverridesNamedKeys | src/services/api/settingsService.js:15 | a key in the update takes its value; any other key is present and valued as before |
| SettingsService.MergeIsShallow | src/services/api/settingsService.js:15 | a nested object in the update replaces the stored one wholesale: a nested field it lacks is gone |
| SettingsService.UpdateIdempotent | src/services/api/settingsService.js:15 | applying the same update twice stores what applying it once stores |
| SettingsService.UpdateThenGet | src/services/api/settingsService.js:8-17 | what an update returns is what a following get returns |
| DashboardService.Stats | src/services/api/dashboardService.js:8-49 | exactly four cards, "Total Revenue", "Total Orders", "Products", "Customers", valued by the revenue sum and the three list lengths; all but Products trend up |
| DashboardService.TotalRevenue | src/services/api/dashboardService.js:11 | the sum of the order totals; DashboardService.StatBounds states that an appended order adds its total |
| DashboardService.PendingCount | src/services/api/dashboardService.js:16 | the number of orders with status "pending"; DashboardService.StatBounds bounds it by the number of orders |
| DashboardService.LowStockCount | src/services/api/dashboardService.js:17 | the number of products with inventory below 10; DashboardService.StatBounds bounds it and DashboardService.ProductsTrend ties it to the trend |
| DashboardService.ProductsTrend | src/services/api/dashboardService.js:17-38 | the Products card trends down iff some product has inventory below 10, and its text is that count followed by " low stock" |
| DashboardService.StatBounds | src/services/api/dashboardService.js:11-17 | the pending and low-stock counts never exceed the list lengths; the revenue grows by an appended order's total |
| DashboardService.SortNewestFirst | src/services/api/dashboardService.js:54 | the in-place sort leaves the array non-increasing by `createdAt` and a permutation of what it held |
| DashboardService.InsertNewest | src/services/api/dashboardService.js:54 | one insertion step extends the sorted prefix by one, as a permutation |
| DashboardService.SwapDown | src/services/api/dashboardService.js:54 | exchanges two neighbours and nothing else |
| DashboardService.PrefixIsNewest | src/services/api/dashboardService.js:53-55 | after the sort the first n entries are at least as new as every later one |
| DashboardService.Dashboard.constructor | src/services/api/dashboardService.js:1-3 | holds the three imported arrays |
| DashboardService.Dashboard.GetStats | src/services/api/dashboardService.js:8-49 | the cards over the arrays' contents |
| DashboardService.Dashboard.GetRecentOrders | src/services/api/dashboardService.js:51-56 | sorts the shared orders array in place (a permutation, newest first) and returns its first min(5, n) entries, all drawn from the store |
| DashboardService.Dashboard.GetRecentProducts | src/services/api/dashboardService.js:58-63 | the same over the shared products array |
| Cart.Add | src/components/pages/Storefront.jsx:52-63 | `handleAddToCart`'s next cart: an entry holding the product's `Id` grows by the amount, otherwise the product is appended with that quantity; stated by Cart.AddEffect and Cart.AddKeepsInvariant |
| Cart.SetQuantity | src/components/pages/Storefront.jsx:74-78 | the `map` that gives every entry with the `Id` the new quantity and leaves the rest; stated by Cart.UpdateSets |
| Cart.Remove | src/components/pages/Storefront.jsx:81-84 | the `filter` that drops every entry with the `Id` and keeps the rest in order; stated by Cart.RemoveEffect, Cart.RemoveIsSplice and Cart.RemoveCount |
| Cart.Update | src/components/pages/Storefront.jsx:68-79 | `handleUpdateQuantity`: a quantity of 0 or less is a removal, any other sets the quantity; stated by Cart.UpdateSets and CartSidebar.MinusFromOneRemoves |
| Cart.Count | src/components/pages/Storefront.jsx:91 | `cartCount`, the sum of the quantities; how add, update and remove move it is stated by Cart.AddKeepsInvariant, Cart.UpdateSets and Cart.RemoveCount |
| Cart.Subtotal | src/components/organisms/CartSidebar.jsx:6 | the sum of price times quantity, shared with Checkout.jsx:47; stated by Cart.SubtotalFacts and Checkout.LinesCarrySubtotal |
| Cart.OnlyEntry | src/components/pages/Storefront.jsx:53-60 | with one entry per `Id`, the entry holding an `Id` is the only one |
| Cart.ReplaceOne | src/components/pages/Storefront.jsx:56-60 | a `map` that rewrites the entries of one product rewrites exactly that one position |
| Cart.RemoveIsSplice | src/components/pages/Storefront.jsx:82 | with one entry per `Id`, removing a product's entries drops exactly its position |
| Cart.AddEffect | src/components/pages/Storefront.jsx:52-63 | adding a product already present grows that entry by n and changes nothing else; otherwise one entry with quantity n is appended at the end |
| Cart.AddKeepsInvariant | src/components/pages/Storefront.jsx:52-63 | adding keeps one entry per `Id` and raises the count by exactly n |
| Cart.UpdateSets | src/components/pages/Storefront.jsx:74-78 | a positive quantity changes only that entry's quantity, keeps one entry per `Id`, and moves the count by the difference |
| Cart.RemoveEffect | src/components/pages/Storefront.jsx:81-84 | removal leaves no entry with the `Id`, keeps exactly the others, in order, and keeps one entry per `Id` |
| Cart.SubsequenceKeepsOneEntry | src/components/pages/Storefront.jsx:82 | any filtered cart still has one entry per `Id` |
| Cart.RemoveCount | src/components/pages/Storefront.jsx:81-91 | removing a product's one entry shortens the cart by one and lowers `cartCount` by its quantity |
| Cart.SubtotalFacts | src/components/organisms/CartSidebar.jsx:6 | an empty cart counts and totals 0; an appended entry adds its price times quantity |
| Storefront.Catalog | src/components/pages/Storefront.jsx:29 | exactly the products that are active with inventory above 0, in the order received |
| Storefront.ForSale | src/components/pages/Storefront.jsx:29 | the storefront's filter test, status "active" and inventory above 0; Storefront.Catalog states that the catalog holds exactly the products passing it |
| Storefront.StorefrontPage.constructor | src/components/pages/Storefront.jsx:38-45 | starts loading with the saved cart, or an empty cart when none is saved |
| Storefront.StorefrontPage.LoadProducts | src/components/pages/Storefront.jsx:23-36 | success shows the catalog of the data; failure keeps the products and shows the message; loading ends either way |
| Storefront.StorefrontPage.HandleAddToCart | src/components/pages/Storefront.jsx:52-66 | the cart becomes `Add(cart, p, 1)`: one entry per `Id` kept and the count up by one |
| Storefront.StorefrontPage.HandleUpdateQuantity | src/components/pages/Storefront.jsx:68-79 | a quantity of 0 or less removes the entry, otherwise only its quantity changes |
| Storefront.StorefrontPage.HandleRemoveItem | src/components/pages/Storefront.jsx:81-84 | no entry with the `Id` remains and the others are kept |
| Storefront.StorefrontPage.HandleCheckout | src/components/pages/Storefront.jsx:86-89 | closes the sidebar and keeps the cart |
| ProductDetail.StockBadges | src/components/pages/ProductDetail.jsx:196-201 | at most one stock badge shows; "Low Stock" shows iff inventory is below 10 and not 0 |
| ProductDetail.ProductDetailPage.constructor | src/components/pages/ProductDetail.jsx:38-45 | the stepper starts at 1 and the cart is the saved one or empty |
| ProductDetail.ProductDetailPage.View | src/components/pages/ProductDetail.jsx:95-115 | the loader while loading; the product only without an error; otherwise the error, "Product not found" when there is no message |
| ProductDetail.ProductDetailPage.LoadProduct | src/components/pages/ProductDetail.jsx:25-36 | success sets the product, failure sets the message; loading ends; the stepper, cart, selected image and sidebar stay as they were |
| ProductDetail.ProductDetailPage.HandleAddToCart | src/components/pages/ProductDetail.jsx:52-68 | nothing without a product or with inventory 0; otherwise the stepper's quantity is added, one entry per `Id` kept; every other field stays as it was |
| ProductDetail.ProductDetailPage.DecrementEnabled | src/components/pages/ProductDetail.jsx:223 | minus is enabled iff the stepper is above 1; ProductDetail.ProductDetailPage.ClickDecrement states what a click does |
| ProductDetail.ProductDetailPage.IncrementEnabled | src/components/pages/ProductDetail.jsx:235 | plus is enabled iff the stepper is below the inventory; ProductDetail.ProductDetailPage.ClickIncrement states what a click does |
| ProductDetail.ProductDetailPage.ClickDecrement | src/components/pages/ProductDetail.jsx:221-223 | the stepper goes down by one, never below 1; every other field stays as it was |
| ProductDetail.ProductDetailPage.ClickIncrement | src/components/pages/ProductDetail.jsx:233-235 | the stepper goes up by one only below the inventory; every other field stays as it was |
| ProductDetail.ProductDetailPage.HandleUpdateQuantity | src/components/pages/ProductDetail.jsx:70-81 | as on the storefront: 0 or less removes, otherwise sets; every other field stays as it was |
| ProductDetail.ProductDetailPage.HandleRemoveItem | src/components/pages/ProductDetail.jsx:83-86 | no entry with the `Id` remains; every other field stays as it was |
| ProductDetail.CartMayExceedStock | src/components/pages/ProductDetail.jsx:55-64 | nothing bounds the cart by the stock: with 2 in stock and 2 in the cart, adding 2 more makes 4 |
| CartSidebar.MinusRequest | src/components/organisms/CartSidebar.jsx:73 | minus asks for `max(0, q-1)`: never negative, one less from 1 upward |
| CartSidebar.PlusRequest | src/components/organisms/CartSidebar.jsx:84 | plus asks for `quantity + 1`, with no cap; CartSidebar.PlusRaisesCount states that it raises the count by one |
| CartSidebar.TrashRequest | src/components/organisms/CartSidebar.jsx:95 | trash asks to remove the entry's `Id`; CartSidebar.TrashRemovesEntry states that exactly that entry goes |
| CartSidebar.ShowsFooter | src/components/organisms/CartSidebar.jsx:107 | the footer shows iff the cart has entries; CartSidebar.EmptyCart states that the empty cart hides it |
| CartSidebar.MinusFromOneRemoves | src/components/organisms/CartSidebar.jsx:73 | minus on an entry at 1 asks for 0, which removes the entry |
| CartSidebar.MinusLowersCount | src/components/organisms/CartSidebar.jsx:73 | minus on an entry of at least 1 lowers the count by one |
| CartSidebar.PlusRaisesCount | src/components/organisms/CartSidebar.jsx:84 | plus raises the count by one, with no inventory cap, and leaves the other entries |
| CartSidebar.TrashRemovesEntry | src/components/organisms/CartSidebar.jsx:95 | trash removes exactly that entry and its quantity from the count |
| CartSidebar.EmptyCart | src/components/organisms/CartSidebar.jsx:107-111 | an empty cart totals 0 and hides the footer |
| Checkout.Shipping | src/components/pages/Checkout.jsx:48 | shipping is 0 iff the subtotal is strictly above 100, otherwise 9.99 |
| Checkout.Tax | src/components/pages/Checkout.jsx:49 | 8% of the subtotal; Checkout.Price and Checkout.TotalBounds state its place in the total |
| Checkout.TotalFor | src/components/pages/Checkout.jsx:50 | subtotal plus shipping plus tax; Checkout.TotalBounds bounds it and Checkout.FreeShippingCliff exhibits the jump at 100 |
| Checkout.Price | src/components/pages/Checkout.jsx:47-50 | subtotal is the sum of price times quantity, total is subtotal + shipping + tax |
| Checkout.TotalBounds | src/components/pages/Checkout.jsx:48-50 | the total lies between subtotal plus tax and that plus 9.99, and reaches the upper end at 100 or below |
| Checkout.FreeShippingCliff | src/components/pages/Checkout.jsx:48 | 100.00 of goods pays shipping (117.99) while 101.00 does not (109.08) |
| Checkout.ExampleFreeShipping | src/components/pages/Checkout.jsx:47-50 | 50×2 + 10×1 gives 110 / 0 / 8.80 / 118.80 |
| Checkout.ExampleFlatShipping | src/components/pages/Checkout.jsx:47-50 | 20×1 gives 20 / 9.99 / 1.60 / 31.59 |
| Checkout.InitialFormHasAllFields | src/components/pages/Checkout.jsx:16-29 | the initial form holds all twelve fields |
| Checkout.Required | src/components/pages/Checkout.jsx:70-85 | every field except the country is checked; Checkout.AllRequiredChecked states that the eleven checks are exactly the required fields |
| Checkout.Message | src/components/pages/Checkout.jsx:71-85 | the message each check writes, word for word; Checkout.CollectErrors states that each error holds its field's message |
| Checkout.Missing | src/components/pages/Checkout.jsx:67-89 | the required fields that are blank after trim; Checkout.CompleteIffNothingMissing states both directions |
| Checkout.ErrorsOf | src/components/pages/Checkout.jsx:67-89 | the errors after a set of checks: exactly the checked missing fields, each with its message; Checkout.CheckField and Checkout.AllRequiredChecked state how the checks build it |
| Checkout.CompleteIffNothingMissing | src/components/pages/Checkout.jsx:67-89 | a field is missing iff it is required and blank; the form is complete iff none is missing |
| Checkout.CollectErrors | src/components/pages/Checkout.jsx:67-89 | one error per missing required field, keyed by it with its message, no other key; valid iff none missing |
| Checkout.CheckCustomer | src/components/pages/Checkout.jsx:70-73 | after the customer checks, the errors cover exactly the missing fields among name, email, phone |
| Checkout.CheckAddress | src/components/pages/Checkout.jsx:75-79 | the same through the address fields, the country not among them |
| Checkout.CheckPayment | src/components/pages/Checkout.jsx:81-85 | the same through the four payment fields |
| Checkout.AllRequiredChecked | src/components/pages/Checkout.jsx:87-88 | once the eleven are checked, the error keys are exactly the missing fields |
| Checkout.CheckField | src/components/pages/Checkout.jsx:71 | one check adds the field's message iff it is blank |
| Checkout.Lines | src/components/pages/Checkout.jsx:105-110 | one order line per cart entry, in cart order |
| Checkout.LineFor | src/components/pages/Checkout.jsx:105-110 | one line copies the entry's `Id` as `productId`, its title, price and quantity; Checkout.Lines states it for every position |
| Checkout.BuildOrder | src/components/pages/Checkout.jsx:102-120 | the order: cart lines, status "pending", the computed total, the name, email and address as typed |
| Checkout.OrderRecord | src/components/pages/Checkout.jsx:102-120 | the `orderData` object handed to `createOrder`; Checkout.SubmissionAsWrittenFails states what `createOrder` does with it |
| Checkout.LinesCarrySubtotal | src/components/pages/Checkout.jsx:105-111 | summing the order's lines gives the cart subtotal |
| Checkout.OrderTotalFromLines | src/components/pages/Checkout.jsx:102-120 | the order's total is recomputable from its own lines |
| Checkout.SubmissionAsWrittenFails | src/components/pages/Checkout.jsx:122 | as written, `createOrder` throws on every order the page builds |
| Checkout.CheckoutPage.constructor | src/components/pages/Checkout.jsx:32-45 | a missing or empty stored cart sends the shopper back; otherwise the cart is loaded |
| Checkout.CheckoutPage.HandleInputChange | src/components/pages/Checkout.jsx:52-65 | sets only the named field and clears only that field's error; the cart, storage and loading flag stay as they were |
| Checkout.CheckoutPage.HandleSubmit | src/components/pages/Checkout.jsx:91-135 | errors for exactly the missing fields; nothing sent while any is missing; otherwise the built order is sent, and the stored cart is removed only on success |
| FormErrors.Cleared | src/components/pages/Checkout.jsx:58-64 | typing into a field blanks its shown error and keeps every other entry |
| Views.ListView | src/components/organisms/OrderTable.jsx:11-27 | loader first, then a non-empty error, then the empty state for no items, then the items |
| ProductForm.ValidationErrorsMeaning | src/components/organisms/ProductForm.jsx:66-76 | title and description have an error iff blank, price iff empty or parsing to a number at most 0, inventory iff empty or parsing to a number below 0 (so text that is not a number passes); status never; each error with its message; no errors iff acceptable |
| ProductForm.PriceRejected | src/components/organisms/ProductForm.jsx:71 | an empty price or one that parses to 0 or less; ProductForm.ValidationErrorsMeaning ties it to the price error and ProductForm.NonNumericPasses shows NaN passing |
| ProductForm.InventoryRejected | src/components/organisms/ProductForm.jsx:72 | an empty inventory or one that parses below 0; ProductForm.ValidationErrorsMeaning ties it to the inventory error |
| ProductForm.ValidationErrors | src/components/organisms/ProductForm.jsx:66-76 | the four checks in order; ProductForm.ValidationErrorsMeaning states each error iff its check |
| ProductForm.WithField | src/components/organisms/ProductForm.jsx:34-38 | only the named field changes |
| ProductForm.Prefilled | src/components/organisms/ProductForm.jsx:21-32 | the edit prefill: inventory as decimal text, a missing status becomes "active", the other fields copied |
| ProductForm.WithoutIndex | src/components/organisms/ProductForm.jsx:59-64 | filtering out index i removes exactly position i, or nothing when i is out of range |
| ProductForm.EditRoundTrip | src/components/organisms/ProductForm.jsx:78-92 | saving a prefilled form unchanged passes validation and gives back the product's own price, inventory and fields |
| ProductForm.Converted | src/components/organisms/ProductForm.jsx:85-89 | the submitted data with `parseFloat` of the price and `parseInt` of the inventory; ProductForm.EditRoundTrip states that it gives back a prefilled product's price and inventory |
| ProductForm.NonNumericPasses | src/components/organisms/ProductForm.jsx:71-72 | "abc" parses to NaN, and neither check rejects it |
| ProductForm.ProductFormModal.constructor | src/components/organisms/ProductForm.jsx:10-19 | the blank form, empty URL and no errors |
| ProductForm.ProductFormModal.Prefill | src/components/organisms/ProductForm.jsx:21-32 | the form becomes the prefill of the product |
| ProductForm.ProductFormModal.HandleInputChange | src/components/organisms/ProductForm.jsx:34-47 | sets one field and clears only that field's error |
| ProductForm.ProductFormModal.SetImageUrl | src/components/organisms/ProductForm.jsx:18 | the URL input holds the typed text |
| ProductForm.ProductFormModal.HandleAddImage | src/components/organisms/ProductForm.jsx:49-57 | a non-blank URL is appended trimmed and the input cleared; a blank one changes nothing |
| ProductForm.ProductFormModal.HandleRemoveImage | src/components/organisms/ProductForm.jsx:59-64 | removes exactly the image at the index, the others in order |
| ProductForm.ProductFormModal.ValidateForm | src/components/organisms/ProductForm.jsx:66-76 | the errors become exactly `ValidationErrors` of the form; valid iff there are none |
| ProductForm.ProductFormModal.HandleSubmit | src/components/organisms/ProductForm.jsx:78-92 | `onSubmit` gets the converted form only when validation passes |
| ProductsPage.Search | src/components/pages/Products.jsx:38-48 | an empty term shows all; otherwise exactly the products whose lower-cased title or description contains the lower-cased term, in order |
| ProductsPage.WithoutProduct | src/components/pages/Products.jsx:66 | exactly the products with another `Id`, in order |
| ProductsPage.WithUpdated | src/components/pages/Products.jsx:77 | entries with the `Id` become the returned product, the rest stay in place |
| ProductsPage.ProductsAdmin.constructor | src/components/pages/Products.jsx:11-18 | loading, no products, form closed, empty search |
| ProductsPage.ProductsAdmin.LoadProducts | src/components/pages/Products.jsx:20-32 | success replaces the list, failure keeps it and shows the message; the grid shows the search over the list |
| ProductsPage.ProductsAdmin.HandleSearch | src/components/pages/Products.jsx:50-52 | the term is set and the grid re-searched; nothing else changes |
| ProductsPage.ProductsAdmin.HandleEdit | src/components/pages/Products.jsx:54-57 | opens the form on the product; the list, search, loading flag and error stay as they were |
| ProductsPage.ProductsAdmin.OpenForm | src/components/pages/Products.jsx:111 | opens the form, leaving the edited product, the list, search, loading flag and error as they are |
| ProductsPage.ProductsAdmin.HandleDelete | src/components/pages/Products.jsx:59-71 | unconfirmed or failed: nothing changes and the screen is the same; otherwise the products with the `Id` leave the list; no product is ever added |
| ProductsPage.ProductsAdmin.HandleSubmit | src/components/pages/Products.jsx:73-90 | success replaces the edited product or prepends the new one and closes the form; failure changes nothing; the loading flag and error always stay as they were |
| ProductsPage.ProductsAdmin.HandleCloseForm | src/components/pages/Products.jsx:92-95 | closes the form and forgets the edited product; the list, search, loading flag and error stay as they were |
| ProductsPage.ProductsAdmin.EmptyMessage | src/components/pages/Products.jsx:146 | the empty message names the search term when there is one |
| ProductsPage.UpdateIsReplaceAt | src/components/pages/Products.jsx:77 | with unique `Id`s, saving an edit replaces exactly the edited position |
| ProductsPage.DeleteIsRemoveAt | src/components/pages/Products.jsx:66 | with unique `Id`s, a delete removes exactly the deleted position |
| ProductsPage.CreateKeepsUnique | src/components/pages/Products.jsx:81 | prepending a product with a fresh `Id` keeps `Id`s unique |
| OrdersPage.Search | src/components/pages/Orders.jsx:35-46 | an empty term shows all; otherwise exactly the orders matching name, email (case-insensitive) or the `Id` in decimal, in order |
| OrdersPage.SearchById | src/components/pages/Orders.jsx:40 | typing an order's number finds it |
| OrdersPage.WithUpdated | src/components/pages/Orders.jsx:55 | entries with the `Id` become the returned order, the rest stay in place |
| OrdersPage.UpdateIsReplaceAt | src/components/pages/Orders.jsx:55 | with unique `Id`s, the update replaces exactly one position |
| OrdersPage.SummaryOf | src/components/pages/Orders.jsx:120-141 | total is the list length and delivered plus pending never exceed it |
| OrdersPage.RevenueNonNegative | src/components/pages/Orders.jsx:141 | the revenue is not negative when no order total is |
| OrdersPage.StatusChangeSummary | src/components/pages/Orders.jsx:52-60 | a status change keeps the revenue and moves the delivered and pending counts by the old and new status only |
| OrdersPage.OrdersAdmin.constructor | src/components/pages/Orders.jsx:11-15 | loading, no orders, empty search |
| OrdersPage.OrdersAdmin.Panel | src/components/pages/Orders.jsx:112-141 | the summary shows iff the table shows orders, and then counts at least one |
| OrdersPage.OrdersAdmin.LoadOrders | src/components/pages/Orders.jsx:17-29 | success replaces the list, failure keeps it and shows the message |
| OrdersPage.OrdersAdmin.HandleSearch | src/components/pages/Orders.jsx:48-50 | the term is set and the table re-searched |
| OrdersPage.OrdersAdmin.HandleStatusChange | src/components/pages/Orders.jsx:52-60 | success puts the returned order in place of those with the `Id`; failure changes nothing |
| CustomersPage.Search | src/components/pages/Customers.jsx:34-44 | an empty term shows all; otherwise exactly the customers whose name or email contains the term, case-insensitively, in order |
| CustomersPage.Spent | src/components/pages/Customers.jsx:122 | a missing `totalSpent` counts as 0 |
| CustomersPage.InsightsOf | src/components/pages/Customers.jsx:108-128 | total is the list length, active no more than that, average times total is the revenue |
| CustomersPage.AddingNewCustomer | src/components/pages/Customers.jsx:116-128 | a customer with nothing spent and no orders, as `createCustomer` returns one, put in front changes neither the revenue nor the active count |
| CustomersPage.RevenueNonNegative | src/components/pages/Customers.jsx:128 | the revenue is not negative when no spent amount is |
| CustomersPage.AverageNonNegative | src/components/pages/Customers.jsx:122 | nor is the average |
| CustomersPage.CustomersAdmin.constructor | src/components/pages/Customers.jsx:10-14 | loading, no customers, empty search |
| CustomersPage.CustomersAdmin.Panel | src/components/pages/Customers.jsx:99-128 | the insights show iff the table shows customers, over exactly the shown ones |
| CustomersPage.CustomersAdmin.LoadCustomers | src/components/pages/Customers.jsx:16-28 | success replaces the list, failure keeps it and shows the message |
| CustomersPage.CustomersAdmin.HandleSearch | src/components/pages/Customers.jsx:46-48 | the term is set and the table re-searched |
| OrderTable.StatusColors | src/components/organisms/OrderTable.jsx:29-40 | "default" iff the status is not one of the five; the five have five different colours |
| OrderTable.StatusColor | src/components/organisms/OrderTable.jsx:29-38 | the `getStatusColor` switch; OrderTable.StatusColors states "default" iff outside the five and distinct colours for the five |
| OrderTable.OptionLabels | src/components/organisms/OrderTable.jsx:100-104 | one label per status option, the status capitalised |
| OrderTable.Labels | src/components/organisms/OrderTable.jsx:100-104 | the menu reads Pending, Processing, Shipped, Delivered, Cancelled |
| OrderTable.DisplayId | src/components/organisms/OrderTable.jsx:83 | at least six characters, ending in the decimal `Id` |
| OrderTable.DisplayIdRoundTrip | src/components/organisms/OrderTable.jsx:83 | the padded number parses back to the `Id` |
| OrderTable.NegativeIdMisread | src/components/organisms/OrderTable.jsx:83 | padding goes in front of the minus sign: `Id` -1 shows as "0000-1", which parses as 0 |
| OrderTable.DisplayIdInjective | src/components/organisms/OrderTable.jsx:83 | two orders with different non-negative `Id`s never show the same number |
| OrderTable.Render | src/components/organisms/OrderTable.jsx:11-27 | loader, then error, then the empty state for a missing or empty list, then the table |
| SettingsPage.WithField | src/components/pages/Settings.jsx:65-70 | the field has the value, every other key is as it was |
| SettingsPage.WithNested | src/components/pages/Settings.jsx:72-80 | the nested field has the value; the parent's other fields and every other key are kept |
| SettingsPage.NumberOrZero | src/components/pages/Settings.jsx:236 | `parseFloat(text) \|\| 0`: NaN gives 0, a number gives itself |
| SettingsPage.NumberInputs | src/components/pages/Settings.jsx:236 | a cleared input and "abc" store 0; a typed price stores its amount |
| SettingsPage.SaveOverwritesHeldKeys | src/components/pages/Settings.jsx:52-63 | saving makes every key the page holds take the page's value and keeps keys only the store has |
| SettingsPage.ShippingEditKeepsSiblings | src/components/pages/Settings.jsx:236 | editing the shipping rate keeps the threshold and the enabled flag |
| SettingsPage.SettingsForm.constructor | src/components/pages/Settings.jsx:14-33 | the initial record, loading, not saving |
| SettingsPage.SettingsForm.LoadSettings | src/components/pages/Settings.jsx:35-46 | success replaces the record, failure keeps it and shows the message |
| SettingsPage.SettingsForm.HandleInputChange | src/components/pages/Settings.jsx:65-70 | the record becomes `WithField` of it |
| SettingsPage.SettingsForm.HandleNestedChange | src/components/pages/Settings.jsx:72-80 | the record becomes `WithNested` of it |
| SettingsPage.SettingsForm.HandleShippingNumber | src/components/pages/Settings.jsx:236 | the shipping field becomes the number read with the fallback to 0 |
| SettingsPage.SettingsForm.HandleSubmit | src/components/pages/Settings.jsx:52-63 | the store becomes its old settings spread with the page's record; the page keeps its record |
| Text.TrimStart | src/components/organisms/ProductForm.jsx:50 | what the leading-space trim leaves is no longer and does not start with white space |
| Text.TrimStartIsSuffix | src/components/organisms/ProductForm.jsx:50 | what it leaves is a suffix of the text |
| Text.LeadingSpaces | src/components/organisms/ProductForm.jsx:50 | what it drops is white space |
| Text.TrimEnd | src/components/organisms/ProductForm.jsx:50 | the trailing trim leaves a prefix that does not end in white space, having dropped only white space |
| Text.Trim | src/components/organisms/ProductForm.jsx:50 | `trim()` neither starts nor ends with white space |
| Text.BlankIffTrimEmpty | src/components/pages/Checkout.jsx:71 | `!s.trim()` holds iff the text is all white space |
| Text.ToLower | src/components/pages/Products.jsx:41 | `toLowerCase` keeps the length and maps each letter |
| Text.Contains | src/components/pages/Products.jsx:41 | `includes`: the term is a prefix of the text or of one of its suffixes; Text.ContainsIffOccurs states iff it occurs at some position |
| Text.ContainsIffOccurs | src/components/pages/Products.jsx:41 | `includes` holds iff the term occurs at some position |
| Text.DigitChar | src/components/organisms/OrderTable.jsx:83 | a digit value maps to its digit character |
| Text.NatToString | src/components/organisms/OrderTable.jsx:83 | `toString` of a non-negative integer is non-empty decimal digits, with a leading 0 only for 0 itself |
| Text.IntToString | src/components/organisms/OrderTable.jsx:83 | `toString` of an integer is never empty; ParseIntOfIntToString reads it back |
| Text.NatToStringValue | src/components/organisms/OrderTable.jsx:83 | the digits read back as the number |
| Text.LeadingZerosValue | src/components/organisms/OrderTable.jsx:83 | leading zeros do not change the value of the digits |
| Text.Repeat | src/components/organisms/OrderTable.jsx:83 | n copies of one character |
| Text.PadStart | src/components/organisms/OrderTable.jsx:83 | `padStart(n, c)`: at least n long, the text at the end, only `c` before it |
| Text.Capitalize | src/components/organisms/OrderTable.jsx:102 | the first letter upper-cased, the rest unchanged |
| Text.DigitPrefix | src/components/organisms/ProductForm.jsx:72 | what `parseInt` reads is all digits, no longer than the text, and the character after it is not a digit |
| Text.FractionDigits | src/components/organisms/ProductForm.jsx:71 | what `parseFloat` reads after the point is all digits |
| Text.FractionValue | src/components/organisms/ProductForm.jsx:71 | a fraction's value lies in [0, 1] |
| Text.ParseInt | src/components/organisms/ProductForm.jsx:88 | `parseInt`: leading white space, an optional sign, the longest run of digits, NaN without digits; stated by Text.ParseIntOfDigits, Text.ParseIntOfNegativeDigits and Text.ParseIntOfIntToString |
| Text.ParseIntOfIntToString | src/components/organisms/ProductForm.jsx:88 | `parseInt` reads back what `toString` writes |
| Text.ParseIntOfDigits | src/components/organisms/ProductForm.jsx:88 | `parseInt` of non-empty digits is their value |
| Text.ParseIntOfNegativeDigits | src/components/organisms/ProductForm.jsx:72 | `parseInt` of a minus sign then digits is the negated value |
| Text.NoSpaceStart | src/components/organisms/ProductForm.jsx:71 | text not starting with white space is not trimmed |
| Text.DigitPrefixOfDigits | src/components/organisms/ProductForm.jsx:72 | all-digit text is its own digit prefix |
| Text.CentsToString | src/components/organisms/ProductForm.jsx:26 | the price text of a whole number of cents starts with a digit; ParseFloatOfCents reads it back as the amount |
| Text.CentsDigits | src/components/organisms/ProductForm.jsx:26 | the fraction digits of the cents, whose value is the cents over 100 |
| Text.DigitPrefixStops | src/components/organisms/ProductForm.jsx:71 | the digit prefix stops at the first non-digit after the digits |
| Text.ParseFloat | src/components/organisms/ProductForm.jsx:87 | `parseFloat`: as parseInt with one decimal point; stated by Text.ParseFloatOfWhole, Text.ParseFloatOfDecimal and Text.ParseFloatOfCents |
| Text.ParseFloatOfWhole | src/components/organisms/ProductForm.jsx:87 | `parseFloat` of digits is their value |
| Text.ParseFloatOfDecimal | src/components/organisms/ProductForm.jsx:87 | `parseFloat` of digits, point, digits is the whole plus the fraction |
| Text.UnsignedDecimalOf | src/components/organisms/ProductForm.jsx:87 | the decimal reader on digits, point, digits |
| Text.UnsignedDecimalSplit | src/components/organisms/ProductForm.jsx:87 | the decimal reader splits at the digit prefix |
| Text.DigitsBeforePoint | src/components/organisms/ProductForm.jsx:87 | the digit prefix of "d.f" is d, and the rest starts at the point |
| Text.DigitsAfterPoint | src/components/organisms/ProductForm.jsx:87 | the fraction digits of ".f" are f |
| Text.ParseFloatOfCents | src/components/organisms/ProductForm.jsx:87 | `parseFloat` of a cents price text is the cents over 100 |
| Text.CentsDigitsSum | src/components/organisms/ProductForm.jsx:26 | the cents split into dollars, tenths and hundredths |
| Text.AsDollars | src/components/organisms/ProductForm.jsx:26 | dollars plus the remainder over 100 is the cents over 100 |
| Text.ParseFloatOfPrice | src/components/organisms/ProductForm.jsx:87 | `parseFloat` of dollars and the fraction text is their amount |
| Text.ParseFloatOfFraction | src/components/organisms/ProductForm.jsx:87 | the same when there is a fraction |
| Text.OneDigitFraction | src/components/organisms/ProductForm.jsx:26 | a one-digit fraction's value |
| Text.TwoDigitFraction | src/components/organisms/ProductForm.jsx:26 | a two-digit fraction's value |
| Seqs.Filter | src/components/pages/Products.jsx:40-43 | `filter` keeps exactly the elements passing the test, and is no longer |
| Seqs.FilterIsSubsequence | src/components/pages/Products.jsx:40-43 | `filter` keeps the order of what it keeps |
| Seqs.SubsequenceOfItself | src/components/pages/Products.jsx:46 | the unfiltered list keeps its order |
| Seqs.FilterKeepsAll | src/components/pages/Products.jsx:66 | a filter every element passes returns the list |
| Seqs.FilterAppend | src/components/pages/Products.jsx:66 | filtering distributes over concatenation |
| Seqs.CountIf | src/components/pages/Orders.jsx:129 | `filter(...).length` is at most the length |
| Seqs.DisjointCounts | src/components/pages/Orders.jsx:129-135 | two tests that never hold together count at most the length |
| Seqs.ReplaceWhere | src/components/pages/Products.jsx:77 | `map(x => hit(x) ? with(x) : x)`: same length, each position rewritten iff hit |
| Seqs.SumIntAppend | src/components/pages/Storefront.jsx:91 | the sum grows by an appended element's value |
| Seqs.SumRealAppend | src/components/pages/Orders.jsx:141 | the same over money |
| Seqs.SumIntUpdate | src/components/pages/Storefront.jsx:91 | replacing one element moves the sum by the difference |
| Seqs.SumIntRemove | src/components/pages/Storefront.jsx:91 | removing one element lowers the sum by its value |
| Seqs.SumRealUpdate | src/components/pages/Orders.jsx:141 | replacing one element moves the money sum by the difference |
| Seqs.CountIfUpdate | src/components/pages/Orders.jsx:129 | replacing one element moves a count by its old and new test |

## Left out

- Rendering, styling, animation, icons, toasts and navigation are not modelled. Where a handler navigates, the model records only the state change: `leftForStore` on checkout, the closed sidebar on the storefront.
- The artificial `delay` before every service call and the `async`/`await` scheduling are not modelled. Each awaited call is an atomic step whose outcome is a parameter, so interleavings of concurrent handlers are not modelled.
- `window.confirm` in the product delete is the `confirmed` parameter. `localStorage` is the saved cart passed to the page constructors and the checkout's `storedCart` field. The JSON (de)serialisation of the cart is not modelled.
- `new Date().toISOString()` is the `now` parameter of create. `createdAt` on the typed entities is an integer timestamp, so `new Date(...)` parsing is not modelled.
- ProductService.ProductStore.Create: requires a non-empty store, because `Math.max()` of no `Id`s is -Infinity, so the new `Id` would be -Infinity, which `Num(real)` cannot hold. The same holds for OrderService.OrderStore.Create and CustomerService.CustomerStore.Create.
- ProductService.ProductStore.Create: also requires that a caller-supplied `Id`, if any, is a number, so that the store stays keyed by numeric `Id`s; `createProduct` spreads any caller `Id`, but the product form and the checkout never pass one. The same holds for OrderService.OrderStore.Create and CustomerService.CustomerStore.Create.
- Stores.FindIndex: the `id` argument is already an integer. `parseInt(id)` of a string argument, and a non-numeric id that matches nothing, are not modelled.
- DashboardService.SortNewestFirst: the result is proved sorted and a permutation, but the stability of the browser's sort is not modelled. A comparator returning NaN for an invalid date is not modelled either.
- DashboardService.Stats: the money card's `toLocaleString()` text is not modelled. The value is kept as a number.
- `toFixed(2)` in the sidebar total, the order table and the summary panels is not modelled. The totals are exact `real`s, so binary floating-point rounding of `0.08 * subtotal` and of the sums is not modelled.
- Text.ToLower: maps ASCII letters only. Unicode case mapping and normalisation are not modelled.
- Text.Trim: removes the six ASCII white-space characters. The other Unicode spaces that `trim` also removes are not modelled.
- Text.ParseInt: covers leading white space, a sign and decimal digits. Hex prefixes, other radixes and Unicode digits are not modelled.
- Text.ParseFloat: covers the same subset plus one decimal point. Exponents and "Infinity" are not modelled.
- ProductForm.Prefilled: the price's `toString()` is the `priceText` parameter, because JavaScript's shortest round-trip float printing is not modelled. EditRoundTrip proves the round trip for every price that is a whole number of cents, written by `Text.CentsToString`. A product without a title, a description or images is given as empty values, not `undefined`.
- OrderTable.DisplayIdRoundTrip: holds for non-negative `Id`s only. For a negative `Id` it is false: `padStart` pads in front of the minus sign, so -1 shows as "0000-1", which parses as 0 (OrderTable.NegativeIdMisread). The stores never create a negative `Id`.
- SettingsPage.WithNested: a parent that holds a non-object value spreads no fields. JavaScript spreads the characters of a string and the elements of an array as indexed keys; those two cases are not modelled.
- Dashboard.jsx has its own copy of the status colours; the admin dashboard page is outside this model.
- Settings.jsx stores `freeThreshold` and `defaultRate`, but Checkout.jsx hard-codes 100 and 9.99 (`Checkout.jsx:48`). The model keeps the two apart, as the code does.

## Findings

| source | as written | input that shows it | evidently intended | confidence | as-written member | corrected member |
|---|---|---|---|---|---|---|
| src/services/api/productService.js:22-24 | the parameter `productData` shadows the module array, so `productData.map` is called on the caller's object and throws a TypeError | any call, e.g. `createProduct({ title: "Mug", price: 5 })` from the admin "Add Product" form | give the new product `Id` max+1, prepend it to the store and return it | high; not executed | ProductService.CreateAsWritten | ProductService.ProductStore.Create |
| src/services/api/productService.js:34-36 | the parameter `productData` shadows the module array, so `productData.findIndex` is called on the update object and throws | any call, e.g. `updateProduct(1, { price: 7 })` from the edit form | merge the update into the record with the `Id`, pinning the `Id` | high; not executed | ProductService.UpdateAsWritten | ProductService.ProductStore.Update |
| src/services/api/orderService.js:22-24 | the parameter `orderData` shadows the module array, so `orderData.map` throws; checkout always reports failure | any order placed at checkout | give the new order `Id` max+1, prepend it and return it | high; not executed | OrderService.CreateAsWritten | OrderService.OrderStore.Create |
| src/services/api/customerService.js:22-24 | the parameter `customerData` shadows the module array, so `customerData.map` throws | any call, e.g. `createCustomer({ name: "Ann" })` | give the new customer `Id` max+1, no orders and nothing spent, and prepend it | high; not executed | CustomerService.CreateAsWritten | CustomerService.CustomerStore.Create |
