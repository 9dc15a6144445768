# tiago-delivery storefront — a Dafny model

tiago-delivery is a Next.js delivery storefront.

- Customers pick a city and state, browse the stores and products there, fill a cart and check out.
- Store owners register and edit their store from a profile panel.

This project models the core of that application:

- the two API routes, `/api/stores` (list, look up by slug, create, update, delete) and `/api/orders` (checkout, read one order, list orders);
- the four client pages that drive them: the cart (`/carrinho`), the store listing (`/lojas`), the products page (`/produtos`) and the profile panel (`/painel`);
- the `StoreForm` component.

Modules, one per source file plus two shared ones:

| module | file | models |
|---|---|---|
| `Js` | `js.dfy` | the JavaScript behaviour the code relies on: truthiness of optional strings, ASCII `toLowerCase`/`toUpperCase`, `trim`, `isNaN` on short strings, `replace(/\D/g, "")`, `filter` and `find` |
| `Api` | `api.dfy` | what both routes share: caller resolution with the e-mail backfill, the response statuses, the `errors.push` step |
| `StoresApi` | `stores_api.dfy` | `src/app/api/stores/route.js` |
| `OrdersApi` | `orders_api.dfy` | `src/app/api/orders/route.js` |
| `StateCodes` | `state_codes.dfy` | the UF/IBGE state-code tables, which three files each define for themselves |
| `Cep` | `cep.dfy` | the postal-code (CEP) lookup that the panel and the store form share |
| `CartPage` | `cart_page.dfy` | `src/app/carrinho/page.js` |
| `StoreListing` | `store_listing.dfy` | `src/app/lojas/page.js` |
| `ProductsPage` | `products_page.dfy` | `src/app/produtos/page.js` |
| `PanelPage` | `panel_page.dfy` | `src/app/painel/page.js` |
| `StoreFormComponent` | `store_form.dfy` | `src/components/StoreForm.js` |

How the model maps the code:

- **Route handlers.** Each handler is a method.
  - Its inputs are the database tables, held as sequences in the order `findMany` returns them (newest first), and the caller id.
  - Its results are the response and the new tables.
  - Faults of the database, the mailer and ViaCEP are parameters.
- **Validation.** Each route's validation is a method that pushes one message per failed check, as the handlers do. A specification function lists the same errors in the same order. Lemmas prove that an error appears exactly when its check fails, in check order, at most once.
- **Client state.** Client components that keep state become classes: `CartPage.CartPageState`, `PanelPage.ProfilePanel` and `StoreFormComponent.StoreForm`.
  - A React `useState` variable becomes a field.
  - An event handler becomes a method whose `modifies` clause names the state it sets.
  - The reply of a `fetch` is a parameter of that method.
- **Amounts** are integer cents.

## Model

| member | source | states |
|---|---|---|
| `Api.ResolveCaller` | src/app/api/stores/route.js:87-100 | A session without an id but with an e-mail takes the id of the account registered with that e-mail. A caller counts only with a non-empty id. No session, or no id found, means no caller. |
| `Api.FindUserByEmail` | src/app/api/orders/route.js:114-122 | Finds an account with the e-mail; no result means no account has it. |
| `Api.Push` | src/app/api/stores/route.js:123-124 | One validation step appends its error exactly when its check failed. |
| `StoresApi.FindBySlug` | src/app/api/stores/route.js:29-31 | Finds a store carrying the slug; no result means no store has it. |
| `StoresApi.IndexOfOwner` | src/app/api/stores/route.js:368-370 | Finds the first store owned by the user; no result means the user owns none. |
| `StoresApi.ValidateStore` | src/app/api/stores/route.js:121-180 | The pushes produce exactly the specified error list, for POST and for PUT. |
| `StoresApi.CheckSlug` | src/app/api/stores/route.js:126-143 | The slug block reports "required", else "malformed", else "in use". PUT skips the uniqueness lookup for the store's own slug. |
| `StoresApi.CheckAddress` | src/app/api/stores/route.js:159-180 | Without an address object only "address required" is reported. Otherwise each of the six fields is checked. |
| `StoresApi.StoreErrorsExact` | src/app/api/stores/route.js:121-180 | Each error appears exactly when its check fails, at most once, in check order. |
| `StoresApi.StoreErrorsEmptyIff` | src/app/api/stores/route.js:182-185 | No error is reported exactly when every field check passes, in both directions. |
| `StoresApi.AtMostOneSlugError` | src/app/api/stores/route.js:126-143 | At most one of the three slug errors is reported, and each exactly under its own condition. |
| `StoresApi.OwnSlugNeverConflicts` | src/app/api/stores/route.js:316-325 | On update, resubmitting the store's own slug is never reported as in use. |
| `StoresApi.NoAddressNoFieldChecks` | src/app/api/stores/route.js:159-161 | Without an address object, none of the address-field errors is reported. |
| `StoresApi.AcceptedBodyBuildsWellFormedStore` | src/app/api/stores/route.js:204-227 | A body that passed validation builds a record with trimmed, non-empty required strings and the submitted slug unchanged. Optional blank strings and zero amounts are stored as null. |
| `StoresApi.BuildStoreRecord` | src/app/api/stores/route.js:204-227 | The record written from a body carries the given id and owner. `AcceptedBodyBuildsWellFormedStore` states the rest. |
| `StoresApi.AcceptedCreate` | src/app/api/stores/route.js:204-227 | A create that passed validation writes a well-formed store owned by the caller, with a slug not yet in the table. |
| `StoresApi.AcceptedUpdate` | src/app/api/stores/route.js:380-401 | An update that passed validation writes a well-formed store owned by the caller, under the id it rewrites. |
| `StoresApi.CreateFailure` | src/app/api/stores/route.js:229-247 | A uniqueness violation on `cnpj` answers 400 with the CNPJ message. Any other fault answers 500. |
| `StoresApi.Annotate` | src/app/api/stores/route.js:69-73 | A listed store is flagged `isOwner` exactly when a caller is present and owns it. |
| `StoresApi.MatchesQuery` | src/app/api/stores/route.js:50-61 | A store matches a truthy city filter when its city equals the trimmed filter ignoring case, and a truthy state filter when its state equals the trimmed filter exactly. A missing filter matches every store. |
| `StoresApi.Get` | src/app/api/stores/route.js:6-83 | 500 when a query throws. Otherwise, with a slug: 404 exactly when no store has the trimmed slug, else that one store. Without a slug: exactly the stores matching the city and state filters, in table order. Every listed store is flagged `isOwner` exactly when the caller owns it. |
| `StoresApi.Post` | src/app/api/stores/route.js:85-249 | 401 without a caller. 400 with the messages of the failed checks. A failing insert answers per `CreateFailure`. Otherwise 201 and the new store goes in front, well-formed, owned by the caller, with a fresh slug. The table changes only on 201. |
| `StoresApi.Put` | src/app/api/stores/route.js:251-412 | Answers, in order: 401; 500 for a body without `id`; 404; 403 for another owner's store; 400 with the failed checks; 500 when the update fails, or when the rebuilt slug is held by another row, which the unique slug column refuses. Otherwise the record is rebuilt from the body at the caller's first store. A table with unique slugs keeps them unique. |
| `StoresApi.SaveOwnStore` | src/app/api/stores/route.js:303-404 | After the ownership check: 400; or 500 on a failed update or when another row holds the rebuilt slug; or the caller's first store replaced by the well-formed rebuilt record and nothing else. Slug uniqueness of the table is preserved. |
| `StoresApi.UpdateTargetsNamedStore` | src/app/api/stores/route.js:368-382 | When the caller owns only the store named by `id`, the update lands on that store. |
| `StoresApi.UpdateKeepsSlugsUnique` | src/app/api/stores/route.js:309-401 | An accepted update by a caller who owns only the store named by `id` never meets the unique slug column, and the table keeps unique slugs. |
| `StoresApi.UpdateOfSecondStoreHitsUniqueSlug` | src/app/api/stores/route.js:287-410 | A caller who owns two stores and resubmits the second one's slug passes validation, but the write targets the first store. That slug is held by the second row, so the update is refused and PUT answers 500 with the table unchanged. |
| `StoresApi.Delete` | src/app/api/stores/route.js:414-456 | 401; 404 when the caller owns no store; 500 with the table unchanged when the delete fails. Otherwise exactly the caller's first store is removed and every other owner's store remains. |
| `StoresApi.CreateKeepsSlugsUnique` | src/app/api/stores/route.js:136-143 | A table with unique slugs keeps them unique after a create whose slug was not taken. |
| `OrdersApi.CheckoutErrors` | src/app/api/orders/route.js:147-161 | The checkout errors in check order; `CheckoutErrorsExact` states when each appears. |
| `OrdersApi.ValidateCheckout` | src/app/api/orders/route.js:147-161 | The pushes produce exactly the specified checkout error list. |
| `OrdersApi.CheckoutErrorsExact` | src/app/api/orders/route.js:147-161 | Each checkout error appears exactly when its check fails, in check order, at most once. |
| `OrdersApi.CheckoutErrorsEmptyIff` | src/app/api/orders/route.js:163-166 | No error is reported exactly when the store id is present, the items are a non-empty array, and subtotal and total are positive numbers. |
| `OrdersApi.TotalIsNotChecked` | src/app/api/orders/route.js:155-161 | Any positive total passes, whatever the subtotal and fee. |
| `OrdersApi.InconsistentTotalAccepted` | src/app/api/orders/route.js:147-166 | A body whose total differs from subtotal plus fee is accepted. |
| `OrdersApi.StoreById` | src/app/api/orders/route.js:170-172 | Finds the store with that id; no result means no store has it. |
| `OrdersApi.BuildOrder` | src/app/api/orders/route.js:186-203 | The created order is pending, owned by the caller, carries the store's name and phone, and takes a missing fee as 0. It falls back to the session name for the customer name. It has a change amount only when change is needed. |
| `OrdersApi.GreetingName` | src/app/api/orders/route.js:216 | The name in the notification is never empty: the given name, else the session name, else "Cliente". |
| `OrdersApi.ClearCart` | src/app/api/orders/route.js:230-243 | The cart table without the caller's rows for that store; `ClearCartExact` states it. |
| `OrdersApi.ClearCartExact` | src/app/api/orders/route.js:230-243 | Clearing removes exactly the caller's cart rows for that store and keeps every other row in order. |
| `OrdersApi.SideEffects` | src/app/api/orders/route.js:205-243 | A notification is sent only to a store with an e-mail, and only when the mailer does not fail. The cart is cleared unless clearing fails. |
| `OrdersApi.Post` | src/app/api/orders/route.js:107-255 | 401; 400 with the failed checks; 404 for an unknown store; 500 exactly when the insert fails after those checks pass. Otherwise 201 with the built order in front of the table. The reply is 201 exactly in that case, whatever happens to the e-mail and the cart clearing. Nothing is written unless the reply is 201. |
| `OrdersApi.OrderById` | src/app/api/orders/route.js:32-34 | Finds the order with that id; no result means no order has it. |
| `OrdersApi.FindMany` | src/app/api/orders/route.js:77-94 | Every listed order matches the `where` filter. |
| `OrdersApi.MaySeeOrder` | src/app/api/orders/route.js:44-56 | An order may be read by its customer or by the owner of its store. |
| `OrdersApi.Get` | src/app/api/orders/route.js:8-104 | 401. Then 500 when a query throws. With an `orderId`: 404, or that order when the caller is its customer or owns its store, else 403. With `asStore=true` and a store id: that store's orders for its owner, else 403. Otherwise the caller's own orders, of one store when a store id is given. |
| `OrdersApi.FindManyExact` | src/app/api/orders/route.js:77-94 | A listing holds exactly the matching orders, in table order. |
| `OrdersApi.CustomerListingIsOwn` | src/app/api/orders/route.js:81-94 | A customer listing holds only the caller's orders, of the requested store when one is given. |
| `OrdersApi.CreatedOrderReaders` | src/app/api/orders/route.js:44-56 | A created order can be read by its customer and by its store's owner, and by nobody else. |
| `StateCodes.FromEntries` | src/app/painel/page.js:109-111 | `Object.fromEntries` has exactly the keys of its entries. |
| `StateCodes.TablesHave27Entries` | src/app/painel/page.js:78-111 | The UF-to-code table and its derived inverse both have 27 entries, so no two UFs share a code. |
| `StateCodes.CodeOfUfRoundTrip` | src/app/painel/page.js:78-111 | Looking up a UF's code in the inverse table gives the UF back. |
| `StateCodes.UfOfCodeRoundTrip` | src/app/painel/page.js:78-111 | Looking up a code's UF in the forward table gives the code back. |
| `StateCodes.UfAndCodeShape` | src/components/StoreForm.js:32-60 | Every UF and every code of the table has two characters. |
| `StateCodes.CartTableIsPanelInverse` | src/app/carrinho/page.js:18-46 | The cart page's code-to-UF literal is, entry for entry, the panel's derived inverse. |
| `CartPage.StateDisplay` | src/app/carrinho/page.js:48-55 | How the cart page shows a stored state; `StateDisplaySpec` states its cases. |
| `CartPage.StateDisplaySpec` | src/app/carrinho/page.js:48-55 | A two-character non-numeric value is upper-cased. A known code becomes its UF. Anything else is shown as it is. |
| `CartPage.StateDisplayOfCode` | src/app/carrinho/page.js:48-55 | Every UF's code is displayed as that UF. |
| `CartPage.CartValuesAreUfs` | src/app/carrinho/page.js:18-46 | Every UF of the cart table is two upper-case letters. |
| `CartPage.StateDisplayIdempotent` | src/app/carrinho/page.js:48-55 | Displaying a displayed state changes nothing. |
| `CartPage.Subtotal` | src/app/carrinho/page.js:165-170 | The sum of price times quantity over the lines; the lemmas below state how it behaves. |
| `CartPage.CalculateTotal` | src/app/carrinho/page.js:165-170 | 0 without a cart or without items, else the subtotal of the items. |
| `CartPage.SubtotalAppend` | src/app/carrinho/page.js:165-170 | The total of two runs of lines is the sum of their totals. |
| `CartPage.SubtotalAfterQuantityChange` | src/app/carrinho/page.js:165-170 | Changing one line's quantity moves the total by that line's price times the change, and by nothing else. |
| `CartPage.SubtotalNonNegative` | src/app/carrinho/page.js:165-170 | With non-negative prices and positive quantities, the total is non-negative. |
| `CartPage.OrderSummary` | src/app/carrinho/page.js:450-459 | The subtotal and total lines show the same amount, the sum of the lines; 0 without items. |
| `CartPage.FailureMessage` | src/app/carrinho/page.js:97-105 | A rejected reply shows its own `error` or the fallback. A request that threw shows "Erro interno do servidor". |
| `CartPage.CartPageState.ShowsEmptyView` | src/app/carrinho/page.js:264 | The empty view shows without a cart, without items, or with no lines. |
| `CartPage.CartPageState.DecrementDisabled` | src/app/carrinho/page.js:393 | The "-" control is disabled while a request is in flight or at quantity one or less. |
| `CartPage.CartPageState.FetchCart` | src/app/carrinho/page.js:62-76 | One GET is recorded. A successful reply replaces the cart. A throw shows the load error. Loading ends. The success message is untouched. |
| `CartPage.CartPageState.UpdateQuantity` | src/app/carrinho/page.js:78-108 | Below one nothing happens at all. Otherwise one PUT is recorded. Only a successful reply replaces the cart and shows "Quantidade atualizada!". A failure leaves the cart and the success message and shows its error. |
| `CartPage.CartPageState.RemoveItem` | src/app/carrinho/page.js:110-136 | Without confirmation nothing happens. Otherwise one DELETE is recorded. Only a successful reply replaces the cart and shows "Item removido do carrinho!". A failure leaves the cart and the success message and shows its error. |
| `CartPage.CartPageState.ClearCart` | src/app/carrinho/page.js:138-163 | Without confirmation nothing happens. A successful clear drops the cart so the empty view shows, and shows "Carrinho limpo!". A failure keeps the cart and the success message and shows its error. |
| `CartPage.CartPageState.Decrement` | src/app/carrinho/page.js:389-396 | A click on the enabled "-" control always sends a PUT for one less, never a quantity below one. A successful reply replaces the cart and shows "Quantidade atualizada!". A failed one keeps the cart and the success message and shows its error. Loading is untouched. |
| `CartPage.CartPageState.Increment` | src/app/carrinho/page.js:401-405 | A click on the enabled "+" control sends a PUT for one more. A successful reply replaces the cart and shows "Quantidade atualizada!". A failed one keeps the cart and the success message and shows its error. Loading is untouched. |
| `StoreListing.Kept` | src/app/lojas/page.js:70-76 | A store is kept when it has a city equal to the searched one after lower-casing and trimming both, and exactly the searched state. |
| `StoreListing.FilterStores` | src/app/lojas/page.js:69-89 | No store list gives no stores. Every kept store matches the location. |
| `StoreListing.FilterStoresExact` | src/app/lojas/page.js:69-89 | A store is listed exactly when its city matches, ignoring case and surrounding blanks, and its state matches exactly. The list keeps the fetched order. |
| `StoreListing.NoCityNeverKept` | src/app/lojas/page.js:69-89 | A store without a city is never listed. |
| `StoreListing.KeptIgnoresSearchCase` | src/app/lojas/page.js:69-89 | How the searched city is capitalised does not change the result. |
| `StoreListing.StoresAfterFetch` | src/app/lojas/page.js:47-99 | Without a full location nothing is fetched. A reply that is not OK, or a throw, leaves the shown list as it was. |
| `StoreListing.ShownStoresMatchLocation` | src/app/lojas/page.js:47-99 | Whatever the reply, every store shown after a fetch belongs to the location, provided the list shown before did. |
| `StoreListing.FeeLine` | src/app/lojas/page.js:239-250 | No fee line for a null fee. "Grátis" exactly for a fee of zero. The amount otherwise. |
| `StoreListing.MinimumOrderLine` | src/app/lojas/page.js:230-237 | The minimum-order line appears exactly for a non-zero amount. |
| `StoreListing.SavedFeeNeverFree` | src/app/lojas/page.js:239-250 | A store built from a body the stores route accepted, as GET lists it, never reads "Grátis", because a fee of 0 is stored as null. A fee submitted as 0 shows no fee line. |
| `ProductsPage.SelectLocation` | src/app/produtos/page.js:23-40 | The URL parameters win when both are present. Else the saved city and state when both are present. Else the location stays as it was. |
| `ProductsPage.SelectedLocationIsComplete` | src/app/produtos/page.js:23-40 | A selected location always has a non-empty city and state. |
| `ProductsPage.TagAll` | src/app/produtos/page.js:91-96 | Each product keeps its fields and is tagged with the store's name and id. |
| `ProductsPage.AggregateProducts` | src/app/produtos/page.js:83-107 | The loop gathers each store's tagged products, in store order. |
| `ProductsPage.AggregatedAppend` | src/app/produtos/page.js:83-107 | Gathering over two runs of stores is gathering over each, one after the other. |
| `ProductsPage.FailedStoreContributesNothing` | src/app/produtos/page.js:85-104 | A store whose request fails or throws adds nothing, and the stores around it still add theirs. |
| `ProductsPage.AggregatedTagged` | src/app/produtos/page.js:91-97 | Every gathered product carries the name and id of one of the fetched stores. |
| `ProductsPage.FetchData` | src/app/produtos/page.js:58-113 | Without a full location nothing changes. A stores reply that is not OK, or a throw, leaves both lists as they were. Otherwise the shown stores are the filtered ones, as on the listing page, and the products are those gathered from exactly those stores, in their order. |
| `ProductsPage.ShownProductsComeFromShownStores` | src/app/produtos/page.js:69-107 | Every product shown after a fetch carries the name and id of a shown store, and that store is in the selected city and state. |
| `ProductsPage.IsOwner` | src/app/produtos/page.js:157-161 | False without a session e-mail, and false when no shown store has the id. True only if a shown store with the id is flagged as owned. |
| `ProductsPage.IsOwnerOfFirstMatch` | src/app/produtos/page.js:157-161 | With a session e-mail, the first shown store with the id decides. |
| `ProductsPage.CartButtonOf` | src/app/produtos/page.js:372-385 | An unavailable product has no button. An available one has a button, disabled exactly while its own add is in flight or for the owner of its store. |
| `ProductsPage.OwnerCannotAdd` | src/app/produtos/page.js:372-385 | An owner never gets an enabled add button for a product of their own store. |
| `Cep.CleanZip` | src/app/painel/page.js:488 | The clean-up keeps only digits and never lengthens the code. |
| `Cep.CleanZipOfMasked` | src/app/painel/page.js:488 | A masked code `ddddd-ddd` cleans to its digits, and a clean code is left as it is. |
| `Cep.ShouldLookUp` | src/app/painel/page.js:488-491 | The lookup runs exactly when the code has eight digits once everything else is removed. |
| `Cep.MaskedCodeTriggersLookup` | src/app/painel/page.js:488-491 | A fully typed masked code triggers the lookup, and a code one digit short does not. |
| `Cep.StateCodeOf` | src/app/painel/page.js:501 | A UF yields a code exactly when it is in the table, and then it yields its table code. |
| `Cep.StateCodeOfIsKnownCode` | src/app/painel/page.js:501 | A code found for a UF is displayed back as that UF. |
| `Cep.MatchCity` | src/app/painel/page.js:504-508 | A found city is in the list and matches the locality, ignoring case, and the state code. No result means no entry matches. |
| `Cep.CityOfAnswer` | src/app/painel/page.js:504-508 | An answer without a locality designates no city. |
| `Cep.CitiesOfState` | src/app/painel/page.js:265-275 | Only cities of the state are offered; `CitiesOfStateExact` states that all of them are, in order. |
| `Cep.CitiesOfStateExact` | src/app/painel/page.js:265-275 | The cities of a state are exactly the entries with its code, in list order. |
| `Cep.MatchedCityIsOffered` | src/app/painel/page.js:501-508 | A city the lookup matched is among the cities of the state the lookup filled in. |
| `PanelPage.TabAfterParam` | src/app/painel/page.js:47-52 | A `tab` parameter naming a tab selects it. Anything else keeps the current tab, so the active tab is always a tab. |
| `PanelPage.PanelCities` | src/app/painel/page.js:265-286 | No cities while no state is selected. Otherwise only cities of the selected state. |
| `PanelPage.PanelCitiesExact` | src/app/painel/page.js:265-286 | A city is offered exactly when a state is selected and the city is of that state, in list order. |
| `PanelPage.DisplayState` | src/app/painel/page.js:854 | A value that is not a known code is shown as it is; a known code is shown as its UF. |
| `PanelPage.DisplayStateOfCode` | src/app/painel/page.js:854 | A UF's code is displayed as that UF. |
| `PanelPage.DisplayAgreesWithCartPage` | src/app/painel/page.js:1027 | On a stored state code, the panel and the cart page show the same UF. |
| `PanelPage.MergeAnswer` | src/app/painel/page.js:512-519 | A usable answer fills street, neighbourhood and state where it has them. The city is the matched entry, else the locality, else the previous city. Number and complement are kept. |
| `PanelPage.AddressAfterLookup` | src/app/painel/page.js:483-526 | The typed code is stored. The merge happens only when a lookup ran and its answer is usable. |
| `PanelPage.MergeAnswerIdempotent` | src/app/painel/page.js:512-519 | Feeding the same answer twice changes nothing more. |
| `PanelPage.LookupFillsKnownState` | src/app/painel/page.js:483-526 | After a lookup, the state is the previous one or a code the panel displays as the answer's UF. A matched city is offered for that state. |
| `PanelPage.ProfilePanel.constructor` | src/app/painel/page.js:28-75 | The panel starts on the personal tab with empty forms. |
| `PanelPage.ProfilePanel.ReadTabParam` | src/app/painel/page.js:47-52 | The tab follows `TabAfterParam` and stays a valid tab. Nothing else changes. |
| `PanelPage.ProfilePanel.HandleZipCodeChange` | src/app/painel/page.js:483-526 | The address form becomes `AddressAfterLookup` of the old one. Loading ends when a lookup ran. The store form is untouched. The panel stays valid, on one of its tabs. |
| `PanelPage.ProfilePanel.HandleStoreZipCodeChange` | src/app/painel/page.js:528-579 | The store form's address becomes `AddressAfterLookup` of the old one. The store's other fields and the address form are untouched. The panel stays valid, on one of its tabs. |
| `StoreFormComponent.AmountOf` | src/components/StoreForm.js:71-72 | A missing or zero amount leaves the input empty. Otherwise the input holds the amount. |
| `StoreFormComponent.AmountRoundTrip` | src/components/StoreForm.js:71-72 | Loading an amount and submitting it unchanged gives it back, except that zero comes back as null. |
| `StoreFormComponent.FormMerge` | src/components/StoreForm.js:103-109 | Each of street, neighbourhood, city and state is set only when the answer supplies it. The city is the matched entry's name, else the locality. |
| `StoreFormComponent.FormMergeAgreesWithPanel` | src/components/StoreForm.js:103-109 | The form and the panel fill an address identically, except when an answer with an empty locality still matches a city entry. |
| `StoreFormComponent.FormAfterLookup` | src/components/StoreForm.js:83-117 | The typed code is stored. The merge happens only when a lookup ran and its answer is usable. |
| `StoreFormComponent.FillFromAnswer` | src/components/StoreForm.js:95-110 | The four conditional `set` calls produce exactly the form's merge. |
| `StoreFormComponent.PayloadIsRejectedForSlug` | src/components/StoreForm.js:119-140 | The submitted payload has no slug, so the stores route rejects it as sent with "slug required". |
| `StoreFormComponent.SyncedDetails` | src/components/StoreForm.js:63-72 | Every text field is the initial value or `""`. Every amount reads back as the initial amount, or null for zero. |
| `StoreFormComponent.SyncedAddress` | src/components/StoreForm.js:73-79 | Every address field is the initial value or `""`. With no initial address, all fields are empty. |
| `StoreFormComponent.Submitted` | src/components/StoreForm.js:119-140 | The payload carries the fields as typed. An empty amount becomes null; an entered one becomes its number. |
| `StoreFormComponent.UntouchedEditResubmits` | src/components/StoreForm.js:63-140 | Opening a store for editing and submitting it untouched sends back its own values: `""` for a missing text, null for a missing or zero amount. |
| `StoreFormComponent.StoreForm.SyncFromInitialData` | src/components/StoreForm.js:63-81 | With initial data, the inputs and the address become the synced values. Without it, nothing changes. |
| `StoreFormComponent.StoreForm.HandleZipCodeChange` | src/components/StoreForm.js:83-117 | The address becomes `FormAfterLookup` of the old one. Loading ends when a lookup ran. Only the code, street, neighbourhood, city, state and loading fields may change. |
| `StoreFormComponent.StoreForm.HandleStateChange` | src/components/StoreForm.js:369-372 | Choosing a state clears the city. |
| `StoreFormComponent.StoreForm.SubmittedPayload` | src/components/StoreForm.js:119-140 | The submitted payload carries every text and address field as typed. An amount is null exactly when its input is empty, else the entered amount. |
| `StoreFormComponent.StoreForm.CityOptions` | src/components/StoreForm.js:400-401 | Only cities of the selected state are offered. |

## Left out

- Sessions, users and e-mail transport:
  - next-auth is not part of this model; a session is a parameter of `Api.ResolveCaller`.
  - Prisma is not part of this model. The tables are sequences, and a database fault is a parameter: `queryFails` of both GET handlers, `fault` of the stores POST, `updateFails`, `deleteFails`, and `createFails` and `cartFails` of the orders POST. The unique slug column is modelled as a table check in the stores PUT.
  - The mail transport is a parameter, `emailFails`; the message text and HTML are not modelled.
- Floating point: `parseFloat`, `toFixed` and the displayed currency formatting. All amounts are integer cents.
- `request.json()` throwing on a malformed body is not modelled.
- A PUT body without `id` is modelled as the 500 the lookup's throw produces.
- Values are modelled as strings, or as absent:
  - A JSON value of an unexpected type in a string field is not modelled; a string field is a string or absent.
  - An `address` that is not an object is absent.
  - `items` that is not an array is absent.
  - `state_id.toString()` is modelled by holding the city's state id as text.
- `CartPage.StateDisplay`, `PanelPage.DisplayState`, `Cep.StateCodeOf`: the state tables are plain JavaScript objects, so a lookup by a name inherited from `Object.prototype` (such as `"constructor"`) finds a built-in function in the source. The model treats every such name as absent from the table.
- Character handling is ASCII only. `trim`, `toLowerCase` and `toUpperCase` on non-ASCII characters are not modelled.
- `isNaN` is exact only on the two-character strings where the cart page uses it.
- Cart page: the timers (`setTimeout`) that clear `successMessage` and the error list three seconds later are not modelled; the error list is left as the last request set it. The intermediate `loading`/`updating` values seen while a request is in flight are not modelled either.
- Products page:
  - `addToCart` is not modelled; the cart endpoint it calls is not part of this model.
  - The redirect to login is not modelled.
  - The loading flags are not modelled.
  - `statesData` loading is not modelled: it only fills labels.
- Store listing page:
  - The `localStorage` writes are not modelled.
  - Navigation is not modelled.
  - `statesData` loading is not modelled.
- Profile panel:
  - The profile form is not modelled: it goes through the profile and address endpoints, which are not part of this model.
  - The address list and its create, update and delete handlers are not modelled, for the same reason.
  - The country list is not modelled.
  - The store submit and delete handlers are not modelled; they call `/api/stores`, which `StoresApi` models.
  - The city list is a field; its JSON fetch is not modelled.
- Rendering (JSX) is not modelled beyond the values it displays: the state display, the fee and minimum-order lines, the cart buttons and the empty view.
- Concurrency is not modelled. Each handler runs to completion on the state it read, and a `fetch` reply is a parameter (ViaCEP's as `Option<CepData>`, `None` when the request or its JSON failed).
- `Cep.MatchThrows`: an answer without a locality throws inside the city search when the city list is non-empty. The catch block then leaves the form with only the typed code. This is modelled as an unusable answer.
- Order status changes, products, the cart endpoints and the countries route are not part of this model.
- `OrdersApi.Post`: the route never checks that the total equals the subtotal plus the delivery fee (src/app/api/orders/route.js:155-161, 186-193). The model follows the route: `OrdersApi.InconsistentTotalAccepted` exhibits an accepted order that breaks it.
- `StoresApi.Put`: the route finds the store to check by `id` (src/app/api/stores/route.js:287-301) but writes to the caller's first store (src/app/api/stores/route.js:368-382). Both are the same store when the caller owns one store (`StoresApi.UpdateTargetsNamedStore`). For an owner of two stores the write can carry the other store's slug; the unique slug column then refuses it and the route answers 500 (`StoresApi.UpdateOfSecondStoreHitsUniqueSlug`). A collision on the unique `cnpj` column in an update is left to `updateFails`.
- `StoresApi.Post`: apart from the `cnpj` target that `CreateFailure` reads, a unique-constraint violation in the insert is left to `fault`. The owner column is read with `findUnique` (src/app/api/stores/route.js:368, 432), which presupposes that it is unique, but the database schema is not part of this model, so a second store for the same owner is accepted when `fault` is absent.
- `StoresApi.Delete`: a failure of the lookup before the delete is not modelled separately; `deleteFails` stands for the delete failing once a store was found.
