# Sales front end: cart, checkout, orders and customers

A Dafny model of the logic of a React sales application for field sellers
working against an Odoo back end. Sellers build a cart from the product
catalog, create a sales order for a customer and optionally pay it online.
They also list their sales orders (to pay or cancel them), page through
their customers and register new ones. Every page exists in a desktop and a
mobile version, and the two versions differ in small ways. The model keeps
those differences and proves several of them as lemmas.

Modules, one per source file plus shared helpers:

- `Wrappers`, `Seqs`, `Text`, `Money`, `Http`: `Option`/`Result`; order-preserving filter and map; the JavaScript string operations the pages use (`trim`, `toLowerCase`, `includes`, `split(" ")`, `parseInt`, `parseFloat`, `Number`, `String`); `Math.round` on amounts; a `fetch` outcome seen as an input.
- `Catalog` (the product record and `getNumericPrice`), `Cart` (the cart updaters shared by both checkout pages, with their totals), `Dialogs` (the confirmation dialog state).
- `ProductCache`: the module-level catalog cache, modelled as a class whose fields are the module's variables, together with a step-function specification of it.
- `CreateOrder`, `CreateOrderMov`, `OrderPanel`, `ProductSearch`, `ProductSearchMov`, `ProductCard`, `ProductCardMov`: the checkout pages and their components.
- `OrdersSalesList`, `OrdersSalesListMov`, `CustomersList`, `CustomersListMov`, `NewCustomer`, `NewCustomerMov`: the order list, customer list and registration pages.

Pages whose fields change step by step are classes. A handler is a method whose
`ensures` gives the new state in terms of a pure function of the old state
and the inputs. Lemmas about those functions state what the page promises. Network
replies, `localStorage` reads and the clock are parameters of the methods.

## Model

| member | source | states |
|---|---|---|
| Catalog.PricingRule | src/pages/CreateOrder.tsx:109-122 | a positive numeric `list_price` wins whatever `price` holds; a zero, negative or missing one gives the same price as no list price at all |
| Catalog.TextPriceZero | src/pages/CreateOrder.tsx:113-117 | without a list price, a text price resolves to 0 exactly when the stripped text is NaN or parses to 0, so NaN never reaches a total |
| Catalog.PricingExamples | src/pages/CreateOrder.tsx:109-122 | a zero list price falls through to a string price such as "$1,234.50", which is worth its decimal value; "N/A" and a missing price give 0 |
| Catalog.StripFormattedPrice | src/pages/CreateOrder.tsx:114 | for any digit groups a, b, c, stripping "$a,b.c" leaves the numeral "ab.c" |
| Catalog.FormattedPriceValue | src/pages/CreateOrder.tsx:114-115 | a string price "$a,b.c" parses to the decimal value of "ab.c" |
| Catalog.DecimalExample | src/pages/CreateOrder.tsx:115 | illustration: the numeral "1234.50" has value 1234.5 |
| Catalog.NoDigitExample | src/pages/CreateOrder.tsx:114-116 | illustration: "N/A" is kept whole by the strip and parses to NaN |
| Text.StripPriceCharsAppend | src/pages/CreateOrder.tsx:114 | the global replace works character by character: stripping a concatenation strips each part |
| Text.ParseFloatDecimal | src/pages/CreateOrder.tsx:115 | `parseFloat` of a numeral "a.b" is the integer part plus the fraction b / 10^len(b) |
| Text.StripPriceCharsSpec | src/pages/CreateOrder.tsx:114 | stripping removes exactly the `$`, `,` and white-space characters and keeps the others in order |
| Text.TrimEmptyIff | src/components/ProductSearchCard.tsx:51 | `s.trim() === ""` exactly when `s` is all white space |
| Text.ParseIntOfIntToString | src/pages/NewCustomer.tsx:102 | `parseInt` reads back any integer written by `String` |
| Text.Split | src/components/ProductCardMov.tsx:24 | `split(" ")` gives at least one part, no part holds a space, and joining the parts with spaces restores the text |
| Text.IncludesIff | src/pages/OrdersSalesList.tsx:165 | `includes` holds exactly when the text occurs at some position |
| Money.Cents | src/pages/CreateOrder.tsx:128 | `Math.round(amount * 100)` is within half a cent of the exact amount |
| Money.CentsPositiveIff | src/pages/CreateOrder.tsx:322 | the rounded amount is positive exactly when the amount is at least half a cent |
| Money.RoundMonotone | src/pages/CreateOrder.tsx:128 | rounding preserves order |
| Money.TimesAdd | src/pages/CreateOrder.tsx:127 | a unit price times a sum of quantities is the sum of the products |
| Cart.AddQty | src/pages/CreateOrder.tsx:135-143 | `handleAdd` raises the product's quantity by one and leaves every other quantity unchanged |
| Cart.AddOrder | src/pages/CreateOrder.tsx:138-142 | adding keeps every line in place; a new product is appended at the end with quantity 1 |
| Cart.AddValid | src/pages/CreateOrder.tsx:135-143 | adding keeps product ids unique and quantities positive |
| Cart.DecreaseQty | src/pages/CreateOrderMov.tsx:59-68 | `handleDecrease` lowers the quantity by one, down to removal, and leaves other products alone |
| Cart.DecreaseValid | src/pages/CreateOrderMov.tsx:59-68 | decreasing keeps ids unique and quantities positive |
| Cart.AddThenDecrease | src/pages/CreateOrderMov.tsx:50-68 | on a valid cart, a decrease undoes an add |
| Cart.RemoveQty | src/pages/CreateOrder.tsx:152-154 | `handleRemove` makes the product absent and leaves other quantities alone |
| Cart.RemoveOrder | src/pages/CreateOrder.tsx:153 | the remaining lines are kept unchanged and in order |
| Cart.RemoveValid | src/pages/CreateOrder.tsx:152-154 | removing keeps the cart valid |
| Cart.ChangeQtyQty | src/pages/CreateOrder.tsx:156-165 | a quantity of 0 or less removes the product; any other sets it for a product in the cart and adds nothing new |
| Cart.ChangeQtyOrder | src/pages/CreateOrder.tsx:162-164 | a positive change keeps every line and its product in place |
| Cart.ChangeQtyValid | src/pages/CreateOrder.tsx:156-165 | a quantity change keeps the cart valid |
| Cart.LookupUnique | src/pages/CreateOrder.tsx:138 | in a cart with unique ids, `find` returns the one line with that id |
| Cart.AmountInCents | src/pages/CreateOrder.tsx:125-131 | the amount in cents is within half a cent of 100 times the subtotal |
| Cart.AddSubtotal | src/pages/CreateOrder.tsx:135-143 | adding raises the subtotal by exactly one unit price of the product |
| Cart.RemoveSubtotal | src/pages/CreateOrder.tsx:152-154 | removing lowers the subtotal by exactly the removed line's total |
| Cart.SubtotalAppend | src/pages/CreateOrder.tsx:127 | the subtotal of a concatenation is the sum of the subtotals |
| Cart.AmountExample | src/pages/CreateOrder.tsx:125-131 | illustration: two units listed at 1234.50 come to 246900 cents |
| Dialogs.Closed | src/pages/CreateOrder.tsx:216 | closing the dialog changes only `isOpen` |
| CreateOrder.OrderLines | src/pages/CreateOrder.tsx:264-269 | one order line per cart line, in order, with id, quantity, name and the unit price of `getNumericPrice` |
| CreateOrder.EmployeeId | src/pages/CreateOrder.tsx:271-281 | `employee_id` is sent exactly when the stored text parses to a number other than NaN and 0 |
| CreateOrder.EmployeeIdZeroLeftOut | src/pages/CreateOrder.tsx:279 | a stored "0" or "" sends no employee id |
| CreateOrder.ErrorDialog | src/pages/CreateOrder.tsx:357-368 | the error dialog is titled "Error", is marked dangerous, has a non-empty message and touches no cart |
| CreateOrder.ValidationOrder | src/pages/CreateOrder.tsx:230-256 | the customer is checked before the cart; a request is sent exactly when both checks pass |
| CreateOrder.FailureKeepsCart | src/pages/CreateOrder.tsx:289-368 | a network error, a non-JSON body, an error status or `success: false` ends in an error dialog whose buttons keep the cart |
| CreateOrder.CartClearedOnlyOnConfirmedSuccess | src/pages/CreateOrder.tsx:303-356 | dismissing never empties the cart; confirming empties it exactly when the order was accepted |
| CreateOrder.PaymentOfferedIff | src/pages/CreateOrder.tsx:303-356 | payment is offered exactly for an accepted order with a truthy id and a positive amount, for that order and amount in COP |
| CreateOrder.RejectedMessage | src/pages/CreateOrder.tsx:298-300 | a rejection shows the server's message, else "Error HTTP <status> <statusText>" |
| CreateOrder.CreateOrderPage.constructor | src/pages/CreateOrder.tsx:78-107 | an empty cart, no customer, nothing submitting, the dialog closed |
| CreateOrder.CreateOrderPage.SelectPartner | src/pages/CreateOrder.tsx:466 | choosing a customer changes only the selection |
| CreateOrder.CreateOrderPage.HandleAdd | src/pages/CreateOrder.tsx:135-150 | the cart becomes `Cart.Add` of the old cart and stays valid |
| CreateOrder.CreateOrderPage.HandleRemove | src/pages/CreateOrder.tsx:152-154 | the cart becomes `Cart.Remove` of the old cart and stays valid |
| CreateOrder.CreateOrderPage.HandleQtyChange | src/pages/CreateOrder.tsx:156-165 | the cart becomes `Cart.ChangeQty` of the old cart and stays valid |
| CreateOrder.CreateOrderPage.Finalize | src/pages/CreateOrder.tsx:229-287 | nothing while an order is being submitted (the button is disabled); otherwise either the validation dialog and no request, or the payload and the amount captured before sending, with `orderSubmitting` set |
| CreateOrder.CreateOrderPage.Complete | src/pages/CreateOrder.tsx:289-371 | applied only while the request is in flight: the outcome dialog for the reply, and `orderSubmitting` cleared |
| CreateOrder.CreateOrderPage.Confirm | src/pages/CreateOrder.tsx:310-351 | the button exists only while the dialog is open; confirming closes the dialog, empties the cart when its effect says so and starts exactly the payment it carries |
| CreateOrder.CreateOrderPage.Cancel | src/pages/CreateOrder.tsx:314-352 | the button exists only while the dialog is open; dismissing closes the dialog and applies its cancel effect |
| CreateOrderMov.OrderLines | src/pages/CreateOrderMov.tsx:101 | one order line per cart line, without the name |
| CreateOrderMov.EmployeeId | src/pages/CreateOrderMov.tsx:100-101 | `employee_id` is omitted only when nothing usable is stored; otherwise `parseInt`'s result is sent, NaN included |
| CreateOrderMov.EmployeeIdZeroSent | src/pages/CreateOrderMov.tsx:101 | a stored "0" is sent as 0 here and left out on the desktop page |
| CreateOrderMov.ErrorDialog | src/pages/CreateOrderMov.tsx:106-107 | the error dialog has a non-empty message; its cancel does nothing |
| CreateOrderMov.ValidationOrder | src/pages/CreateOrderMov.tsx:95-96 | customer before cart; a request exactly when both checks pass |
| CreateOrderMov.CartClearedIffAccepted | src/pages/CreateOrderMov.tsx:103-105 | each button of the outcome dialog empties the cart exactly when the order was accepted |
| CreateOrderMov.PaymentAlwaysOffered | src/pages/CreateOrderMov.tsx:105 | once accepted, payment is offered for whatever id came back and whatever the amount |
| CreateOrderMov.MissingIdMessage | src/pages/CreateOrderMov.tsx:105 | with no `order_id` the dialog reads "Orden undefined creada. ¿Pagar ahora?" |
| CreateOrderMov.ZeroAmountDiffers | src/pages/CreateOrderMov.tsx:105 | for a zero amount this page offers payment where the desktop page does not |
| CreateOrderMov.CreateOrderMovPage.constructor | src/pages/CreateOrderMov.tsx:20-34 | an empty cart, no customer, the dialog closed |
| CreateOrderMov.CreateOrderMovPage.SelectPartner | src/pages/CreateOrderMov.tsx:162 | choosing a customer changes only the selection |
| CreateOrderMov.CreateOrderMovPage.HandleAdd | src/pages/CreateOrderMov.tsx:50-56 | the cart becomes `Cart.Add` of the old cart and stays valid |
| CreateOrderMov.CreateOrderMovPage.HandleDecrease | src/pages/CreateOrderMov.tsx:59-68 | the cart becomes `Cart.Decrease` of the old cart and stays valid |
| CreateOrderMov.CreateOrderMovPage.HandleRemove | src/pages/CreateOrderMov.tsx:70-72 | the cart becomes `Cart.Remove` of the old cart |
| CreateOrderMov.CreateOrderMovPage.HandleQtyChange | src/pages/CreateOrderMov.tsx:74-77 | the cart becomes `Cart.ChangeQty` of the old cart |
| CreateOrderMov.CreateOrderMovPage.Finalize | src/pages/CreateOrderMov.tsx:94-102 | nothing while an order is being submitted (the button is disabled); otherwise the validation dialog and no request, or the payload with the captured amount and `orderSubmitting` set |
| CreateOrderMov.CreateOrderMovPage.Complete | src/pages/CreateOrderMov.tsx:103-108 | applied only while the request is in flight: the outcome dialog, and `orderSubmitting` cleared |
| CreateOrderMov.CreateOrderMovPage.Confirm | src/pages/CreateOrderMov.tsx:105 | the button exists only while the dialog is open; confirming closes the dialog, applies its effect and returns the payment it carries |
| CreateOrderMov.CreateOrderMovPage.Cancel | src/pages/CreateOrderMov.tsx:95-106 | the button exists only while the dialog is open; dismissing closes the dialog and applies its cancel effect |
| OrderPanel.PanelSumIsSubtotal | src/components/OrderPanel.tsx:75-78 | the panel's left-fold `reduce` of price times quantity, from any start, adds exactly the page's cart subtotal: panel and page agree on every cart |
| OrderPanel.GrandTotal | src/components/OrderPanel.tsx:79-81 | the grand total equals the subtotal, taxes and delivery being 0 |
| OrderPanel.CountIsLines | src/components/OrderPanel.tsx:252 | illustration: the count shown is the number of lines, not of units; one line of three units counts as one product |
| OrderPanel.PlusIsAdd | src/components/OrderPanel.tsx:112 | on a valid cart, "+" has the effect of adding the product again |
| OrderPanel.MinusIsDecrease | src/components/OrderPanel.tsx:103 | on a valid cart, "-" has the effect of the mobile decrease |
| OrderPanel.TrashRemovesLine | src/components/OrderPanel.tsx:126 | the trash button removes that product and leaves the others |
| OrderPanel.RequestsKeepValid | src/components/OrderPanel.tsx:103-126 | whatever the panel asks, a valid cart stays valid |
| OrderPanel.FinalizeEnabledIff | src/components/OrderPanel.tsx:281 | the finalize button is enabled exactly with lines, a customer and nothing submitting |
| ProductCache.FetchFromServer | src/lib/productCache.ts:21-45 | with no employee id nothing is fetched; a list results exactly from an OK reply whose body is an array, and it is that array; a thrown fetch gives its message; a refused status gives `FailureMessage`; an unreadable OK body gives the parser's error; an OK non-array body gives "Respuesta de productos inválida." |
| ProductCache.FailureMessage | src/lib/productCache.ts:30-37 | never empty: the body's `detailedError`, else its `message`, else "Error HTTP: <status>", which is also the text when the body is unreadable or an array |
| ProductCache.InitialValid | src/lib/productCache.ts:15-17 | the initial state satisfies the cache invariant |
| ProductCache.CallPreservesValid | src/lib/productCache.ts:47-80 | `ensureProductsLoaded` keeps the invariant |
| ProductCache.SettlePreservesValid | src/lib/productCache.ts:68-77 | settling the fetch keeps the invariant |
| ProductCache.SetPreservesValid | src/lib/productCache.ts:96-99 | `setProductsCache` keeps the invariant |
| ProductCache.FreshHit | src/lib/productCache.ts:52-56 | a fresh cache answers a non-forced call with its list and starts nothing |
| ProductCache.StaleStillServed | src/lib/productCache.ts:59-61 | a stale cache still answers a non-forced call with its list |
| ProductCache.OnlyForcedCallsFetch | src/lib/productCache.ts:52-61 | once a list is held, only a forced call can start a fetch |
| ProductCache.CallsJoinPending | src/lib/productCache.ts:63-65 | while a fetch is in flight, a call not served from the cache joins it |
| ProductCache.StartIff | src/lib/productCache.ts:63-79 | a call starts a fetch exactly when it is neither served nor joined |
| ProductCache.SettleOk | src/lib/productCache.ts:68-73 | success stores the list with its time, clears the pending fetch, and the next call is served the new list |
| ProductCache.SettleErrAllowsRetry | src/lib/productCache.ts:74-77 | failure keeps list and time, and the next eligible call starts a new fetch |
| ProductCache.SetKeepsPending | src/lib/productCache.ts:96-99 | `setProductsCache` leaves a fetch in flight untouched, and the next call is served the set list |
| ProductCache.RunPreservesValid | src/lib/productCache.ts:47-99 | every run of calls, settlements and sets keeps the invariant |
| ProductCache.SingleFlight | src/lib/productCache.ts:63-77 | a run of calls and sets with no settlement starts at most one fetch, starts none while one is pending, and leaves a fetch it started as the pending one |
| ProductCache.NullUntilLoaded | src/lib/productCache.ts:82-84 | `getProductsCache` stays null until a fetch succeeds or a list is set |
| ProductCache.Cache.constructor | src/lib/productCache.ts:15-17 | no list, no fetch in flight, no time |
| ProductCache.Cache.Ensure | src/lib/productCache.ts:47-80 | the fields move as `CallStep` says |
| ProductCache.Cache.Settle | src/lib/productCache.ts:67-77 | the fields move as `SettleStep` says |
| ProductCache.Cache.Get | src/lib/productCache.ts:82-84 | returns the held list |
| ProductCache.Cache.Prefetch | src/lib/productCache.ts:86-90 | a non-forced call whose result is dropped |
| ProductCache.Cache.Refresh | src/lib/productCache.ts:92-94 | a forced call |
| ProductCache.Cache.Set | src/lib/productCache.ts:96-99 | the fields move as `SetStep` says |
| ProductSearch.VisibleSpec | src/components/ProductSearchCard.tsx:50-69 | a blank query shows all products; otherwise exactly those in stock whose name or code contains the lower-cased query, in order |
| ProductSearch.CaseInsensitive | src/components/ProductSearchCard.tsx:56 | the upper-cased query shows the same products |
| ProductSearch.Load | src/components/ProductSearchCard.tsx:76-110 | a list results exactly from an OK reply of an array or `{products}`, and holds its products in stock; a failed request gives its message, an unreadable body the parser's message, another shape "Formato de datos inesperado de la API." |
| ProductSearch.LoadSpec | src/components/ProductSearchCard.tsx:78-101 | everything loaded is in stock and came from the reply; an error status gives "HTTP error! status: <code>" |
| ProductSearch.SearchCard.constructor | src/components/ProductSearchCard.tsx:43-47 | empty lists, empty query, idle |
| ProductSearch.SearchCard.SetQuery | src/components/ProductSearchCard.tsx:50-69 | the shown list is the filter of the loaded products for the new query; while the products load the box is disabled and nothing changes |
| ProductSearch.SearchCard.FetchProducts | src/components/ProductSearchCard.tsx:72-115 | a usable reply replaces the list; any other keeps it and reports the error |
| ProductSearch.SearchCard.HandleAddInternal | src/components/ProductSearchCard.tsx:121-139 | a product out of stock opens the "Sin Stock" dialog; any other is added to the cart once |
| ProductSearch.ShownProductsAddable | src/components/ProductSearchCard.tsx:121-124 | no listed product is refused by the add guard |
| ProductSearchMov.VisibleSpec | src/components/ProductSearchCardMov.tsx:62-66 | a blank query shows all; otherwise exactly the products whose name or code contains the query, with no stock test |
| ProductSearchMov.CaseInsensitive | src/components/ProductSearchCardMov.tsx:64 | the upper-cased query shows the same products |
| ProductSearchMov.OutOfStockListed | src/components/ProductSearchCardMov.tsx:65 | a matching product out of stock is listed here and not on the desktop card |
| ProductSearchMov.Load | src/components/ProductSearchCardMov.tsx:74-79 | an OK array replaces the list, any other OK body changes nothing, and every failure reports "Falló la conexión." |
| ProductSearchMov.DisplayedQty | src/components/ProductSearchCardMov.tsx:139-140 | the card's quantity is the cart's; add raises it by one and decrease lowers it by one, down to absence |
| ProductSearchMov.SearchCardMov.constructor | src/components/ProductSearchCardMov.tsx:41-45 | empty lists, empty query, idle |
| ProductSearchMov.SearchCardMov.SetQuery | src/components/ProductSearchCardMov.tsx:62-66 | the shown list is the filter for the new query; while the products load the box is disabled and nothing changes |
| ProductSearchMov.SearchCardMov.FetchProducts | src/components/ProductSearchCardMov.tsx:69-80 | no request without an employee id; otherwise the list moves as `Load` says |
| ProductSearchMov.SearchCardMov.HandleAddInternal | src/components/ProductSearchCardMov.tsx:85-96 | out of stock opens the dialog; otherwise the page adds the product |
| ProductSearchMov.SearchCardMov.HandleDecreaseInternal | src/components/ProductSearchCardMov.tsx:98-100 | the page decreases the product |
| ProductCard.ImageSrc | src/components/ProductCard.tsx:24-31 | a non-empty image whose trimmed length exceeds 20 is shown behind the base64 prefix, untrimmed; otherwise the default picture |
| ProductCard.ImageSrcSpec | src/components/ProductCard.tsx:29-31 | the source starts with the prefix exactly for a valid image, and what follows the prefix is the image unchanged |
| ProductCard.CardPrice | src/components/ProductCard.tsx:33-36 | the price shown is never missing; a positive numeric `list_price` wins; otherwise a non-empty text price is shown as that text, and a text price is passed on only when non-empty |
| ProductCard.CardPriceAgreesWithCart | src/components/ProductCard.tsx:33-36 | unless the price is non-empty text, the card shows the unit price the cart charges |
| ProductCard.Level | src/components/ProductCard.tsx:44-46 | out of stock at 0 or less (a missing stock is 0), low from 1 to 3, normal above |
| ProductCard.ButtonLabel | src/components/ProductCard.tsx:132-137 | "Agotado", "Últimas Unidades" or "Agregar" exactly for out, low and normal stock |
| ProductCard.ClickPassesGuard | src/components/ProductCard.tsx:123-124 | a click the card lets through passes the search card's guard; a product with no stock figure is blocked here though the guard alone would pass it |
| ProductCardMov.GetInitialsDoubleSpace | src/components/ProductCardMov.tsx:22-27 | as written, the name "A  B" gives the ten-character initials "AUNDEFINED" |
| ProductCardMov.GetInitialsSinglePart | src/components/ProductCardMov.tsx:25 | a one-word name gives at most two initials, none lower-case |
| ProductCardMov.InitialsOf | src/components/ProductCardMov.tsx:24-26 | with empty parts skipped, at most two initials, none lower-case |
| ProductCardMov.InitialsAgree | src/components/ProductCardMov.tsx:22-27 | when no part of the split name is empty, the corrected initials equal the original ones |
| ProductCardMov.InitialsDoubleSpace | src/components/ProductCardMov.tsx:24-26 | the corrected initials of "A  B" are "AB" |
| ProductCardMov.SplitDoubleSpace | src/components/ProductCardMov.tsx:24 | "A  B" splits into "A", "" and "B" |
| ProductCardMov.ResolveImageSrc | src/components/ProductCardMov.tsx:29-35 | a source exactly for an image whose trimmed length is at least 20; it is the trimmed value when that is already a data URL, else "data:image/png;base64," followed by the trimmed value |
| ProductCardMov.AsDataUrl | src/components/ProductCardMov.tsx:33-34 | the result starts with "data:image/" and ends like the input; a data URL is left unchanged and anything else gets the "data:image/png;base64," prefix |
| ProductCardMov.ResolveImageSrcIdempotent | src/components/ProductCardMov.tsx:29-35 | resolving an already resolved source gives it back |
| ProductCardMov.Base64PrefixIsDataUrl | src/components/ProductCardMov.tsx:33-34 | the base64 prefix itself starts with "data:image/" |
| ProductCardMov.DisplayPrice | src/components/ProductCardMov.tsx:43-47 | a positive list price first, else a positive finite price, else 0; never negative |
| ProductCardMov.DisplayPriceAgreesWithCart | src/components/ProductCardMov.tsx:43-47 | for a numeric or missing price that is not negative, the card shows the cart's unit price |
| ProductCardMov.ControlsSpec | src/components/ProductCardMov.tsx:92-111 | the stepper appears exactly for a product in the cart, and "add" fires exactly when the product is not out of stock |
| OrdersSalesList.MapState | src/pages/OrdersSalesList.tsx:33-39 | each Odoo state maps to its label; "draft" and "sent" share one; any other state is "Pendiente" |
| OrdersSalesList.MapOrder | src/pages/OrdersSalesList.tsx:41-50 | the row keeps the order's name, state and mapped status; the customer is never empty, and is "Sin cliente" exactly when the partner name is missing, empty or that same text; a missing total is 0 |
| OrdersSalesList.FilteredSpec | src/pages/OrdersSalesList.tsx:160-167 | a row is shown exactly when it matches the tab and the trimmed, lower-cased term; the rows keep their order; "ALL" with a blank term shows every row |
| OrdersSalesList.BlankSearchTerm | src/pages/OrdersSalesList.tsx:164 | an all-space search counts as no search |
| OrdersSalesList.EveryStatusHasTab | src/pages/OrdersSalesList.tsx:195 | every row's status has its own tab, which shows the row under a blank term |
| OrdersSalesList.CanCancelIff | src/pages/OrdersSalesList.tsx:221 | an order may be cancelled exactly when its state is not "sale", "done" or "cancel" |
| OrdersSalesList.PayRequestFor | src/pages/OrdersSalesList.tsx:101-112 | the payment is for the order's id, its total in cents, in COP, with the stored employee id |
| OrdersSalesList.NoTotalPaysZero | src/pages/OrdersSalesList.tsx:102 | an order without a total is paid as 0 cents |
| OrdersSalesList.PayNotice | src/pages/OrdersSalesList.tsx:115-129 | no alert exactly for an OK JSON reply with `success`; otherwise "Error de pago: " followed by the fetch's message, the parser's error, or the reply's `message` \|\| "Error al iniciar pago" |
| OrdersSalesList.CancelOutcome | src/pages/OrdersSalesList.tsx:140-155 | "Orden X cancelada." and a refetch exactly when the reply says `ok`; a JSON reply without `ok` alerts "Error: " and its `error` ("undefined" when missing); a thrown or unreadable reply alerts "Error de conexión."; no refetch otherwise |
| OrdersSalesList.StatusIgnored | src/pages/OrdersSalesList.tsx:83-84 | the orders are replaced on `success` whatever the HTTP status |
| OrdersSalesList.OrdersSalesListPage.constructor | src/pages/OrdersSalesList.tsx:62-74 | no orders, the "ALL" tab, an empty search, the dialog closed |
| OrdersSalesList.OrdersSalesListPage.FetchOrders | src/pages/OrdersSalesList.tsx:76-90 | nothing without an employee id; otherwise the orders are replaced when the reply says `success` |
| OrdersSalesList.OrdersSalesListPage.ToggleMenu | src/pages/OrdersSalesList.tsx:236-239 | the row's menu opens, or closes if it was open |
| OrdersSalesList.OrdersSalesListPage.SelectTab | src/pages/OrdersSalesList.tsx:195-196 | the tab becomes active and the rows on screen are that tab's rows for the current search; nothing else changes |
| OrdersSalesList.OrdersSalesListPage.SetSearch | src/pages/OrdersSalesList.tsx:181 | the search term is replaced and the rows on screen follow it; nothing else changes |
| OrdersSalesList.OrdersSalesListPage.CloseMenu | src/pages/OrdersSalesList.tsx:247 | the overlay click closes any open row menu; nothing else changes |
| OrdersSalesList.OrdersSalesListPage.OpenPay | src/pages/OrdersSalesList.tsx:250 | the payment dialog opens for that order and the menu closes |
| OrdersSalesList.OrdersSalesListPage.OpenCancel | src/pages/OrdersSalesList.tsx:256-257 | the cancel dialog opens only for an order that may be cancelled |
| OrdersSalesList.OrdersSalesListPage.CloseModal | src/pages/OrdersSalesList.tsx:284 | the dialog closes and forgets its order |
| OrdersSalesList.OrdersSalesListPage.Confirm | src/pages/OrdersSalesList.tsx:95-158 | the payment or cancellation request for the dialog's order; a cancellation only for a cancellable order; the alert and the refetch follow the reply |
| OrdersSalesListMov.BadgeMatchesTab | src/pages/OrdersSalesListMov.tsx:85-100 | every status has a tab, and a card's badge reads the same as that tab's label |
| OrdersSalesListMov.BadgeFallback | src/pages/OrdersSalesListMov.tsx:212 | a status missing from the short labels is shown as it is |
| OrdersSalesListMov.FilteredSpec | src/pages/OrdersSalesListMov.tsx:345-354 | a row is shown exactly when it matches the tab and the lower-cased, untrimmed search |
| OrdersSalesListMov.BlankSearchDiffers | src/pages/OrdersSalesListMov.tsx:350-353 | an all-space search keeps a row on the desktop list and drops it here |
| OrdersSalesListMov.OrderCard.constructor | src/pages/OrdersSalesListMov.tsx:106-111 | the menu and the dialog closed, idle |
| OrdersSalesListMov.OrderCard.ToggleActions | src/pages/OrdersSalesListMov.tsx:216 | the menu flips |
| OrdersSalesListMov.OrderCard.CloseActions | src/pages/OrdersSalesListMov.tsx:229 | the overlay click closes the menu; dialog and busy flag unchanged |
| OrdersSalesListMov.OrderCard.OpenPay | src/pages/OrdersSalesListMov.tsx:234-235 | the payment dialog opens and the menu closes |
| OrdersSalesListMov.OrderCard.OpenCancel | src/pages/OrdersSalesListMov.tsx:244-249 | the cancel dialog opens only for a cancellable order |
| OrdersSalesListMov.OrderCard.CloseModal | src/pages/OrdersSalesListMov.tsx:307 | the dialog closes |
| OrdersSalesListMov.OrderCard.Confirm | src/pages/OrdersSalesListMov.tsx:113-177 | the request for the card's order, the alert and the refresh; the dialog and menu end closed |
| OrdersSalesListMov.OrdersSalesListMovPage.constructor | src/pages/OrdersSalesListMov.tsx:314-317 | no orders, the "Todos" tab, empty search |
| OrdersSalesListMov.OrdersSalesListMovPage.FetchOrders | src/pages/OrdersSalesListMov.tsx:320-339 | nothing without an employee id; otherwise the orders are replaced on `success` |
| OrdersSalesListMov.OrdersSalesListMovPage.Refresh | src/pages/OrdersSalesListMov.tsx:388-392 | "Refrescar" does nothing while loading; otherwise it is `fetchOrders` |
| OrdersSalesListMov.OrdersSalesListMovPage.SelectTab | src/pages/OrdersSalesListMov.tsx:417-419 | the filter's value becomes the active tab and the cards on screen follow; orders and search unchanged |
| OrdersSalesListMov.OrdersSalesListMovPage.SetSearch | src/pages/OrdersSalesListMov.tsx:383 | the search term is replaced and the cards on screen follow it |
| CustomersList.Offset | src/pages/CustomersList.tsx:66 | the offset is a multiple of the limit of 10 that counts the pages before this one, never negative from page 1 on |
| CustomersList.EntryRange | src/pages/CustomersList.tsx:110-111 | a non-empty page shows entries offset+1 to offset+length; an empty page reads 0 to -1; a full page ends where the next begins |
| CustomersList.PreviousPage | src/pages/CustomersList.tsx:192 | "previous" never goes below page 1 and otherwise goes back one |
| CustomersList.MaybeMoreIffNext | src/pages/CustomersList.tsx:188-206 | with at most 10 clients per page, "y posiblemente más" shows exactly when "next" is enabled |
| CustomersList.Load | src/pages/CustomersList.tsx:68-90 | no error exactly for an OK JSON reply, whose clients are kept; every failure empties the list; an error status shows the body's `error` when present, else "Error del servidor: <statusText>"; a failed request or an unreadable body shows "Error interno al conectar con la API." |
| CustomersList.CustomersListPage.constructor | src/pages/CustomersList.tsx:42-46 | no clients, fetching, no error, page 1 |
| CustomersList.CustomersListPage.FetchClients | src/pages/CustomersList.tsx:54-94 | no request and the authentication error without an employee id; otherwise the request for this page's offset and the list and error `Load` gives |
| CustomersList.CustomersListPage.Refresh | src/pages/CustomersList.tsx:130-134 | disabled while fetching; otherwise back to page 1, and a fetch follows exactly when the page was not already 1 |
| CustomersList.CustomersListPage.Previous | src/pages/CustomersList.tsx:192-193 | the page becomes `max(1, page - 1)` and stays at least 1 |
| CustomersList.CustomersListPage.Next | src/pages/CustomersList.tsx:204-206 | one page on, unless the last page came back short |
| CustomersListMov.QueryParams | src/pages/CustomersListMov.tsx:50-57 | employee id, limit and offset, and `search` exactly when the term is non-empty |
| CustomersListMov.QueryNumbersRoundTrip | src/pages/CustomersListMov.tsx:52-56 | the limit and offset sent read back as 10 and (page - 1) × 10 |
| CustomersListMov.Load | src/pages/CustomersListMov.tsx:59-79 | an OK JSON reply replaces the list; every failure empties it and shows the thrown message: for a refused status the body's `error` when non-empty, else "Fallo al cargar clientes"; the parser's or the network's message otherwise |
| CustomersListMov.CustomersListMovPage.constructor | src/pages/CustomersListMov.tsx:29-35 | no clients, fetching, no error, page 1, empty search |
| CustomersListMov.CustomersListMovPage.FetchClients | src/pages/CustomersListMov.tsx:39-82 | no request without an employee id; otherwise the query for the page and search and the list `Load` gives |
| CustomersListMov.CustomersListMovPage.Refresh | src/pages/CustomersListMov.tsx:171-174 | "Refrescar" does nothing while a fetch is under way; otherwise it is `fetchClients` for the current page and search |
| CustomersListMov.CustomersListMovPage.HandleSearch | src/pages/CustomersListMov.tsx:88-91 | the new term, back to page 1 |
| CustomersListMov.CustomersListMovPage.Previous | src/pages/CustomersListMov.tsx:229-242 | back one page, never from page 1 |
| CustomersListMov.CustomersListMovPage.Next | src/pages/CustomersListMov.tsx:229-254 | one page on, unless the page came back short |
| NewCustomer.Update | src/pages/NewCustomer.tsx:98-104 | only the named field changes; the country through `parseInt` |
| NewCustomer.UpdateCommutes | src/pages/NewCustomer.tsx:98-104 | edits to two different fields commute |
| NewCustomer.UpdateOverwrites | src/pages/NewCustomer.tsx:98-104 | a second edit to a field replaces the first |
| NewCustomer.SelectCountry | src/pages/NewCustomer.tsx:102 | choosing a country option stores that country's id |
| NewCustomer.ColombiaIndex | src/pages/NewCustomer.tsx:80-82 | the position of the first country whose lower-cased name is "colombia", or the length when there is none |
| NewCustomer.FindColombia | src/pages/NewCustomer.tsx:80-82 | none exactly when no country's lower-cased name is "colombia"; otherwise a listed country with that name |
| NewCustomer.Preselect | src/pages/NewCustomer.tsx:84-86 | Colombia's id when the list has it; otherwise the form unchanged; nothing but the country changes |
| NewCustomer.Check | src/pages/NewCustomer.tsx:109-117 | the seller id is checked first; a request is allowed exactly with a seller id, a name and an email |
| NewCustomer.Outcome | src/pages/NewCustomer.tsx:134-157 | success exactly for an OK reply; the message prefers the server's text; a refusal shows "Error: " with `error`, then `detailedError`, then the default |
| NewCustomer.Cleared | src/pages/NewCustomer.tsx:147-151 | after success every text field is empty and the country is kept |
| NewCustomer.NewCustomerPage.constructor | src/pages/NewCustomer.tsx:49-62 | the initial form with country 0, loading the countries |
| NewCustomer.NewCustomerPage.LoadCountries | src/pages/NewCustomer.tsx:69-95 | a readable list replaces the countries and preselects Colombia; a failure changes neither |
| NewCustomer.NewCustomerPage.HandleChange | src/pages/NewCustomer.tsx:98-104 | the form becomes `Update` of the old form, except that the country cannot change while the countries load (the select is disabled) |
| NewCustomer.NewCustomerPage.HandleSubmit | src/pages/NewCustomer.tsx:106-161 | a refused check sends nothing and shows its message; otherwise the form plus `employee_id` is sent, the banner follows the reply, and only success clears the form |
| NewCustomerMov.Outcome | src/pages/NewCustomerMov.tsx:118-138 | success exactly for an OK JSON reply; a refusal shows "Error: " with `error` or "Fallo en el registro"; an unreadable body reads "Error de red." |
| NewCustomerMov.Reset | src/pages/NewCustomerMov.tsx:125-128 | empty name, email, phone and street, city "Medellín", zip "050001", the country kept |
| NewCustomerMov.ResetIsInitial | src/pages/NewCustomerMov.tsx:47-55 | the reset form is the initial form with the current country |
| NewCustomerMov.ResetDiffersFromDesktop | src/pages/NewCustomerMov.tsx:52-128 | both pages keep the country, but their cities differ at first and after a reset |
| NewCustomerMov.NewCustomerMovPage.constructor | src/pages/NewCustomerMov.tsx:47-60 | the initial form, loading the countries |
| NewCustomerMov.NewCustomerMovPage.LoadCountries | src/pages/NewCustomerMov.tsx:64-85 | a readable list replaces the countries and preselects Colombia |
| NewCustomerMov.NewCustomerMovPage.HandleChange | src/pages/NewCustomerMov.tsx:87-93 | the form becomes `Update` of the old form, except that the country cannot change while the countries load (the select is disabled) |
| NewCustomerMov.NewCustomerMovPage.HandleSubmit | src/pages/NewCustomerMov.tsx:95-141 | the checks as on the desktop page; a success resets to defaults and schedules the way back only when there is one |

## Left out

- Rendering, CSS, focus and scrolling, toasts and `alert` are not modelled. The text of an alert is returned as a value.
- The payment widget (`openWompiUniversal`, the script loader and its polling timeout) is not modelled. On the orders lists the model stops at the `widget-init` request that would open it and at the alert shown when that request fails.
- `payWithWompi` on the checkout pages (src/pages/CreateOrder.tsx:169-225, src/pages/CreateOrderMov.tsx:80-88) is not modelled. The model stops at the payment effect: order id, amount in cents and currency. Their `widget-init` request and its error dialog ("Respuesta no JSON de /wompicol/widget-init: …", "Error en widget-init: HTTP <status> <statusText>") are not modelled.
- The data returned by `widget-init` (`widgetParams`, `params`, the `??` aliases) is not modelled, because it only feeds the widget.
- `fetch`, `res.json()`/`JSON.parse` and `localStorage` are inputs: a reply is a thrown message, or a status with a body that did or did not parse into the shapes a page reads. A JSON `null` body, on which the pages would throw while reading a field, is not among those shapes.
- `Date.now` is a `now` parameter of the cache. `setTimeout` is left out: the mobile registration page returns whether it scheduled the way back.
- Currency and date formatting (`Intl.NumberFormat`, `toLocaleString`, `toLocaleDateString`) are not modelled, so neither are the formatted `total`, `commission` and `date` of an order row.
- Amounts are exact reals. IEEE-754 rounding of `price * qty` and of `amount * 100` is not modelled; `Math.round` is floor(x + 1/2).
- `toLowerCase`/`toUpperCase` map only the ASCII and Latin-1 letters. Other Unicode case mappings are not modelled. Strings are sequences of characters, not UTF-16 units.
- `URLSearchParams` percent-encoding of query values is not modelled. The query is its list of key/value pairs.
- HTML form validation (`required`) and buttons greyed out by CSS only are not modelled. Every `disabled` attribute that stops a handler is modelled as a guard: the save buttons, the country selects, the refresh buttons of both customer lists and of the mobile orders list, the product search boxes, the page buttons, the product cards' out-of-stock add buttons, the cancel entries of the order menus and the finalize button's `isSubmitting` (the panel's second button under `isSubmitting` has no handler). A dialog's buttons exist only while it is open (src/components/MinimalModal.tsx:46), so its confirm and cancel methods require an open dialog. The finalize button's other two conditions (an empty cart, no customer) are exactly the failures of the page's own validation (`OrderPanel.FinalizeEnabledIff`). The page methods keep that validation, as `handleFinalizeOrder` does, so its dialogs are modelled although the panel's button never reaches them.
- ParseFloat: reads only an optional sign, digits and one decimal point. Exponents ("1e3" is 1 here, 1000 in JavaScript) and "Infinity" are not read, so a text price written that way is priced differently from the app.
- NumberOf: reads only an optional sign, digits and one decimal point. Exponents, "Infinity" and the hexadecimal, octal and binary literals of `Number()` ("0x10" is 16) give NaN here.
- OutOfStock: a `null` `qty_available` is modelled like a missing one. The mobile card's `qty_available <= 0` (src/components/ProductCardMov.tsx:55) is true for `null` in JavaScript and so marks such a product out of stock; the model does not capture that.
- DisplayPrice: `listPrice` is `None` for any non-number `list_price`, so the mobile card's `Number(list_price)` (src/components/ProductCardMov.tsx:44) of a numeric string such as "12" is not modelled.
- The React re-render rule that a state setter called with the value already held changes nothing is modelled only where it matters to the outcome: the customers list's refresh button on page 1.
- The catalog cache's TTL branch (src/lib/productCache.ts:52-57) never changes the outcome, because the next test returns the same cached list. `ProductCache.StaleStillServed` states this.
- The inactivity logout, the debounced partner search, and the dashboard, message and sidebar components show only hard-coded data or timers. None of them is part of this model.
- `ProductCard.CardPrice`: a non-empty text price is handed to the currency formatter as text. What the formatter prints for it is not modelled.

## Findings

| source | as written | input that shows it | evidently intended | confidence | as-written member | corrected member |
|---|---|---|---|---|---|---|
| src/components/ProductCardMov.tsx:24-26 | the name is split on single spaces and the first characters of the first two parts are joined; an empty part's first character is `undefined`, which prints as "undefined" | the name "A  B" (two spaces) gives "AUNDEFINED" | the initials of the first two words, "AB" | not executed | ProductCardMov.GetInitialsDoubleSpace | ProductCardMov.InitialsDoubleSpace |
