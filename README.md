# Verger order flow in Dafny

This project models how a customer of the orchard ("le Verger") orders a
basket. It covers three parts of the system:

- **The ERP proxy** (`verger-odoo-proxy/server.js`). It resolves a customer
  by e-mail. It turns an order request into sale-order lines, either ad-hoc
  products or a kit expanded through its bill of materials (BOM). It then
  creates and confirms the order, ignoring a failed confirmation, and tries
  to reserve and validate each of its pickings, one by one. It also lists the kits with their composition,
  and creates four-week subscriptions.
- **The client-portal order page**
  (`verger-client-portal/src/pages/Commander.tsx`). It covers the four-step
  wizard, the name of the kit it looks up, the custom basket built from the
  products of the week, and the quantity stepper. It also covers the total
  it shows and the products it sends.
- **The earlier order page** (`src/pages/Commander.tsx`). It has three
  fixed baskets with fixed prices, a category filter on the products of the
  week, and the requests a submission sends.

The ERP is modelled as an in-memory backend, the class
`OdooProxy.Backend`. Its tables are partners, the kit catalogue (templates,
BOMs, BOM lines, products), orders, pickings and subscriptions. Each remote
call the proxy makes is one method of that class. Every call that changes
the backend, and every read of an order or a picking, is appended to
`log`, so contracts can state which calls a route makes and in what order.
Each route is a method that sequences those calls as the handler does.

Modules:

- `Wrappers`: `Option`.
- `Odoo`: catalogue records, the remote calls as data (`Rpc`), and reads by
  id.
- `Recipes`: the pure part of the proxy, which is line resolution and the
  description of one kit.
- `OdooProxy`: partners, orders, pickings, the class `Backend` with its
  calls and routes, and the specification functions the routes are proved
  against (`ResolveCustomer`, `ProcessAll`, `PickingCalls`, `Submit`).
- `Wizard`: the step guard both pages share.
- `OrderForm`: the client-portal page. `OrderPage` is the page state.
- `LegacyOrderForm`: the earlier page. `LegacyPage` is its state.

A remote-procedure error does not throw in the proxy: `odooCall` returns
`data.result`, which is then `undefined`. The model follows this. A read of
an id that does not exist gives `None`, and the route then takes its "not
found" branch. Inside the picking loop a call can fail in transport. The
map `faults` says at which call a picking's iteration fails: the read, the
moves read, `action_assign` or `button_validate`. The failing call has no
effect, and the loop's `catch` skips the rest of that iteration. A picking
that does not exist fails at its read, because `pickingBefore[0]` is
undefined. A kit whose BOM lines
cannot be read makes `bomLines.map` throw outside any `try`; the route then
never answers, which is `NoResponse`.

## Model

| member | source | states |
|---|---|---|
| Odoo.ReadAll | verger-odoo-proxy/server.js:153-157 | A read by ids succeeds exactly when every id exists. It returns the records in the order of the ids. |
| Odoo.FindTemplate | verger-odoo-proxy/server.js:141-147 | Reading one kit by id finds it exactly when a template has that id, and returns a template with that id. |
| Odoo.SearchActive | verger-odoo-proxy/server.js:166-171 | The product search returns exactly the active products among the ids asked for. |
| Recipes.AdHocLinesCopy | verger-odoo-proxy/server.js:124-136 | Ad-hoc products give one line each, in input order, with id, quantity and price copied unchanged. |
| Recipes.ProductIdsAt | verger-odoo-proxy/server.js:165 | The product ids of the BOM lines are taken one per line, in line order. |
| Recipes.KitLinesAt | verger-odoo-proxy/server.js:173-184 | Kit expansion gives one line per BOM line, in BOM-line order. Each line has the BOM quantity and the found price, or 0 when the product was not found. |
| Recipes.KitResolution | verger-odoo-proxy/server.js:138-184 | A kit id is refused as "Panier introuvable" exactly when no template has it, and as "Panier sans BOM" exactly when its template has no BOM. The only other refusal is "Nomenclature introuvable". |
| Recipes.ResolveLines | verger-odoo-proxy/server.js:121-187 | A non-empty product list wins over the kit id. A kit id only counts when it is greater than 0. With neither, the answer is the 400 "Aucun panier ni produits fournis". |
| Recipes.ResolvedLinesNonEmpty | verger-odoo-proxy/server.js:121-187 | Every successful resolution yields at least one line. |
| Recipes.KitResolutionLines | verger-odoo-proxy/server.js:138-184 | A resolved kit orders the lines of its first BOM, in order. Each line has the BOM quantity and the catalogue list price when the product is active, else 0. |
| Recipes.KitRejections | verger-odoo-proxy/server.js:141-159 | An unknown kit, a kit without BOM, and BOMs that cannot be read or whose first BOM has no lines are each refused with their own 400 message, checked in that order. |
| Recipes.KitProductsAppend | verger-odoo-proxy/server.js:307-318 | The kit composition is built line by line: composing two runs of lines is composing each run. |
| Recipes.KitProductsDropsMissing | verger-odoo-proxy/server.js:307-318 | A BOM line whose product is not found is dropped, and nothing else changes. |
| Recipes.KitProductsAllFound | verger-odoo-proxy/server.js:307-318 | When every product is found, there is one entry per BOM line, in order. Each entry has the product's id, name, category (or "" without a category) and the BOM quantity. |
| Recipes.ImageUrl | verger-odoo-proxy/server.js:324-326 | A kit has an image exactly when its template image is non-empty; the image is the base64 data URL built from it. |
| Recipes.KitEntryOf | verger-odoo-proxy/server.js:285-328 | A template without BOM has no entry. An entry carries the template's id, name and list price and its image URL. |
| Recipes.KitEntryOfCases | verger-odoo-proxy/server.js:285-328 | A template is listed exactly when it has a BOM, that BOM has lines and those lines can be read. Its entry carries the template's id, name and price and the composition of the first BOM. |
| Recipes.KitsAreKits | verger-odoo-proxy/server.js:277-280 | The listing starts from exactly the templates that are flagged as kits and not archived, since a search returns no archived record. |
| Recipes.ListKits | verger-odoo-proxy/server.js:282-331 | The listing has at most one entry per kit. |
| Recipes.ListKitsAppend | verger-odoo-proxy/server.js:284-329 | The listing handles each template on its own, in order. |
| Recipes.ListedEntriesComeFromKits | verger-odoo-proxy/server.js:282-331 | Every entry is the description of one of the kits. |
| Recipes.KitsWithEntriesAreListed | verger-odoo-proxy/server.js:282-331 | Every kit that has an entry is listed: the loop skips only the kits it `continue`s on. |
| Recipes.KitResolvesIffListed | verger-odoo-proxy/server.js:138-184 | A kit id resolves to order lines exactly when its template has a listing entry. For an active template flagged as kit, the order route and the listing therefore refuse the same kits. An archived or unflagged template is never listed, but the order route still reads it by id. |
| Recipes.ArchivedKitOrderedNotListed | verger-odoo-proxy/server.js:138-184 | An archived kit template with a BOM can still be ordered by its id, although the listing returns no entry for it. |
| OdooProxy.MatchingEmailFirst | verger-odoo-proxy/server.js:85-92 | The e-mail search finds something exactly when some partner has that e-mail. Its first result is the first such partner. |
| OdooProxy.MatchingEmailAppend | verger-odoo-proxy/server.js:85-88 | A new partner shows up in the search for its own e-mail, after the earlier matches, and in no other search. |
| OdooProxy.ResolveCustomer | verger-odoo-proxy/server.js:81-106 | With a match, nothing is created and the id is the first match's. Otherwise exactly one partner is appended, with name, e-mail, phone, customer rank 1 and the consent flag, and its id is returned. |
| OdooProxy.ResolveCustomerIdempotent | verger-odoo-proxy/server.js:81-106 | A second call with the same e-mail returns the same id and creates nothing, whatever the other fields. |
| OdooProxy.ProcessAllShape | verger-odoo-proxy/server.js:219-254 | The picking loop changes only picking states: the same pickings exist afterwards with the same moves, so every iteration issues the calls it would issue on the original pickings. |
| OdooProxy.ProcessAllAt | verger-odoo-proxy/server.js:219-254 | After the loop, each listed picking is as its own iteration leaves it. If every call succeeded it has been assigned then validated. If only the validate failed it has been assigned. If an earlier call failed it is unchanged. Every picking not listed is exactly as before. |
| OdooProxy.OutcomeIdempotent | verger-odoo-proxy/server.js:219-254 | Running one picking's iteration twice leaves it as running it once, whether or not a call fails. So a picking listed twice ends as if listed once. |
| OdooProxy.FailuresAreIsolated | verger-odoo-proxy/server.js:219-254 | A picking whose calls fail changes the outcome of no other picking. Every picking without a failing call ends as it would with no failures at all. |
| OdooProxy.ProcessAll | verger-odoo-proxy/server.js:219-254 | The picking loop creates and deletes no picking. |
| OdooProxy.PartnerExistsMeans | verger-odoo-proxy/server.js:195-201 | The backend's partner check holds exactly when a partner has the id. |
| OdooProxy.ProductsExistMeans | verger-odoo-proxy/server.js:195-201 | The backend's product check holds exactly when every line's product exists. |
| OdooProxy.Submit | verger-odoo-proxy/server.js:195-256 | The answer carries an order id exactly when the backend accepted the order. The first three calls are always the create, the confirm and the read of that order, with the id undefined when the order was refused. A failed confirmation is ignored: the order is still answered. |
| OdooProxy.SubmitAccepted | verger-odoo-proxy/server.js:195-256 | For an accepted order: the answer is its id, and the order is stored with the note "Point de retrait: " + pickup point. When the confirmation succeeds it is confirmed and its generated pickings are processed. When the confirmation fails it stays a quotation with no picking, the loop does nothing, and the id is still answered. |
| OdooProxy.SubmitOutcome | verger-odoo-proxy/server.js:195-256 | The answer carries an order id exactly when the backend accepted the order, and a refused order changes nothing. An accepted order is stored under the id answered, with the customer and the lines. It is confirmed exactly when the confirmation succeeds, and has one picking per delivery step then, and none otherwise. |
| OdooProxy.GeneratedPickings | verger-odoo-proxy/server.js:204-254 | The pickings confirmation generates are fresh, and the loop runs over exactly those. Older pickings are untouched. Each new one belongs to the order and carries its moves. It ends done exactly when its stock can be reserved and none of its calls fails. It ends reserved but not done exactly when its stock can be reserved and only its validate fails. |
| OdooProxy.NewPickingOutcome | verger-odoo-proxy/server.js:220-253 | A new, waiting picking ends done when every call succeeds and its stock can be reserved. It ends reserved when only the validate fails, and stays waiting otherwise. It keeps its order and moves. |
| OdooProxy.SubmitPickings | verger-odoo-proxy/server.js:204-256 | Older pickings are untouched. A failed confirmation adds no picking. A successful one adds new pickings for the order, each with one move per line. Each ends done exactly when its stock can be reserved and none of its calls fails. It ends reserved but not done exactly when only its validate fails. |
| OdooProxy.Backend.PartnerSearch | verger-odoo-proxy/server.js:85-88 | The partner search by exact e-mail, in backend order. |
| OdooProxy.Backend.PartnerCreate | verger-odoo-proxy/server.js:94-102 | Partner creation appends one partner under a fresh id and logs the call. |
| OdooProxy.Backend.TemplateRead | verger-odoo-proxy/server.js:141-144 | Reading a kit template by id. |
| OdooProxy.Backend.BomRead | verger-odoo-proxy/server.js:153-156 | Reading BOMs by ids. |
| OdooProxy.Backend.BomLineRead | verger-odoo-proxy/server.js:161-164 | Reading BOM lines by ids. |
| OdooProxy.Backend.ProductSearch | verger-odoo-proxy/server.js:166-171 | The product search over a list of ids. |
| OdooProxy.Backend.KitSearch | verger-odoo-proxy/server.js:277-280 | The search for templates flagged as kits returns exactly the active ones, in backend order. |
| OdooProxy.Backend.OrderCreate | verger-odoo-proxy/server.js:195-201 | An accepted order is stored as a quotation under a fresh id. A refused one leaves `orderId` undefined and changes nothing. The call is logged either way. |
| OdooProxy.Backend.OrderConfirm | verger-odoo-proxy/server.js:205 | Confirming a quotation, when the backend confirms, marks it confirmed and generates its pickings. Anything else, including a confirmation the backend refuses, changes nothing. The call is logged either way. |
| OdooProxy.Backend.OrderRead | verger-odoo-proxy/server.js:209-216 | Reading the order back gives its picking ids, or nothing when no order has that id. |
| OdooProxy.Backend.PickingRead | verger-odoo-proxy/server.js:222-231 | A picking read succeeds exactly when the picking exists and its read does not fail. |
| OdooProxy.Backend.MoveRead | verger-odoo-proxy/server.js:234-240 | The moves read fails exactly when the picking's failure point is the moves read. It is logged and changes nothing. |
| OdooProxy.Backend.PickingAssign | verger-odoo-proxy/server.js:242 | `action_assign` reserves a waiting picking whose stock is available. It fails exactly at that picking's assign failure point, and then changes nothing. |
| OdooProxy.Backend.PickingValidate | verger-odoo-proxy/server.js:245-249 | `button_validate` marks a reserved picking done. It fails exactly at that picking's validate failure point, and then changes nothing. |
| OdooProxy.Backend.SubscriptionCreate | verger-odoo-proxy/server.js:262-268 | A subscription is created for an existing partner, under a fresh id. |
| OdooProxy.Backend.CustomerOrCreate | verger-odoo-proxy/server.js:81-106 | The route returns the id `ResolveCustomer` gives and leaves the partners it gives. It issues a create call exactly when a partner was added. |
| OdooProxy.Backend.ResolveOrderLines | verger-odoo-proxy/server.js:121-187 | The branch on products and kit id computes `ResolveLines` through reads alone. |
| OdooProxy.Backend.ProcessPicking | verger-odoo-proxy/server.js:220-253 | One iteration: read, then the moves read when there are moves, then assign, then validate. The first failing call ends the iteration, so the picking ends as `Outcome` says and the calls stop at the failing one. |
| OdooProxy.Backend.ProcessPickings | verger-odoo-proxy/server.js:219-254 | The loop leaves exactly the pickings `ProcessAll` describes. It issues exactly the calls `PickingCalls` lists, in order, and creates or deletes no picking. |
| OdooProxy.Backend.OpenOrder | verger-odoo-proxy/server.js:195-216 | The order is created, then confirmed, then read back, before any picking is touched. A refused order gives no picking ids. An accepted one gives the pickings its confirmation generated, or none when the confirmation failed. |
| OdooProxy.Backend.SubmitOrder | verger-odoo-proxy/server.js:195-256 | The answer, the new orders, pickings and ids, and the calls issued are those of `Submit`. |
| OdooProxy.Backend.PlaceOrder | verger-odoo-proxy/server.js:109-257 | A refused or failed line resolution answers 400, or never answers. It then logs no call and changes nothing; its catalogue reads are not logged, see "Left out". Otherwise the route does what `Submit` says with the resolved lines. |
| OdooProxy.Backend.Subscribe | verger-odoo-proxy/server.js:260-270 | The subscription is named "Abonnement panier " + basket type and always recurs 4 times. The requested weeks and pickup point are not used. |
| OdooProxy.Backend.ListBasket | verger-odoo-proxy/server.js:285-328 | One loop iteration gives `KitEntryOf` for the template. |
| OdooProxy.Backend.ListBaskets | verger-odoo-proxy/server.js:273-331 | The route returns `ListKits` over the kit templates, in order. |
| Wizard.ValidateStep | verger-client-portal/src/pages/Commander.tsx:240-258 | Step 1 fails exactly without a pickup point, step 2 exactly without a basket type, and every other step passes. The earlier page has the same guard. |
| Wizard.Next | verger-client-portal/src/pages/Commander.tsx:260-264 | "Continuer" moves exactly one step forward when the guard passes, and stays otherwise. |
| Wizard.PressesFromStart | verger-client-portal/src/pages/Commander.tsx:240-264 | From step 1, no number of presses gets past step 2 without both choices made. With both made, every press advances one step. |
| OrderForm.TypeLabel | verger-client-portal/src/pages/Commander.tsx:48-53 | "legumes" gives "Panier légumes", "fruits" gives "Panier fruits", and any other type gives "Panier mixte". Their eighth characters differ. |
| OrderForm.PickupLabel | verger-client-portal/src/pages/Commander.tsx:55-60 | "ferme" gives "ferme", "marche-samedi" gives "marché samedi", and any other point gives "marché dimanche". |
| OrderForm.BuildOdooBasketName | verger-client-portal/src/pages/Commander.tsx:47-63 | The kit name is the type label, one space, then the pickup label. |
| OrderForm.BasketNameInjective | verger-client-portal/src/pages/Commander.tsx:47-63 | Two choices build the same kit name exactly when they have the same type label and the same pickup label. |
| OrderForm.FindBasket | verger-client-portal/src/pages/Commander.tsx:166 | The lookup returns the first basket with that name, or nothing exactly when no basket has it. |
| OrderForm.SelectedKit | verger-client-portal/src/pages/Commander.tsx:162-170 | The selection is unchanged while the pickup point, the type or the basket list is empty. Otherwise it is the first loaded basket named after the two choices, or nothing exactly when there is none. |
| OrderForm.WeeklyToBasketProducts | verger-client-portal/src/pages/Commander.tsx:182-188 | Each product of the week becomes, in order, a basket product with the same id, name, category and price, and quantity 1. |
| OrderForm.CustomBasket | verger-client-portal/src/pages/Commander.tsx:190-195 | The custom basket has id 0, price 0 and the name "Panier Personnalisé", and holds the products of the week. |
| OrderForm.QuantityOr1 | verger-client-portal/src/pages/Commander.tsx:302 | A quantity that is unset or 0 counts as 1. |
| OrderForm.PriceOr2 | verger-client-portal/src/pages/Commander.tsx:235 | A price that is absent or 0 counts as 2. |
| OrderForm.Toggled | verger-client-portal/src/pages/Commander.tsx:613-616 | The checkbox flips this product's flag and no other. |
| OrderForm.Decremented | verger-client-portal/src/pages/Commander.tsx:626-630 | "-" sets the quantity to one less than the one shown, never below 1, and changes no other quantity. |
| OrderForm.Incremented | verger-client-portal/src/pages/Commander.tsx:639-643 | "+" sets the quantity to one more than the one shown, and changes no other quantity. |
| OrderForm.StepperKeepsPositive | verger-client-portal/src/pages/Commander.tsx:626-643 | Both buttons keep every quantity at 1 or more. "+" then "-" shows the quantity shown before. |
| OrderForm.OrderProducts | verger-client-portal/src/pages/Commander.tsx:296-305 | Only selected products are sent, each with the quantity shown and the product's own price. |
| OrderForm.OrderProductsAppend | verger-client-portal/src/pages/Commander.tsx:296-305 | Products are sent in list order: the products of two runs are those of the first followed by those of the second. |
| OrderForm.OrderProductsComplete | verger-client-portal/src/pages/Commander.tsx:296-305 | Every selected product is sent. |
| OrderForm.SelectedProductsForOrder | verger-client-portal/src/pages/Commander.tsx:296-305 | Products are sent exactly for a custom basket that is loaded; otherwise the field is undefined. |
| OrderForm.SelectedSumIsOrderAmount | verger-client-portal/src/pages/Commander.tsx:230-237 | The corrected sum over the selected products equals the sum of (price, or 2) × quantity over the products sent. |
| OrderForm.TotalPriceMatchesOrder | verger-client-portal/src/pages/Commander.tsx:230-238 | A custom basket's corrected total equals the sum of (price, or 2) × quantity over the products sent, times 4 for a subscription. A kit's total is its price (0 with no kit), times 4 for a subscription. |
| OrderForm.SumAsWrittenWhenSet | verger-client-portal/src/pages/Commander.tsx:230-237 | The sum as written is a number exactly when every selected product has a quantity set. Then it equals the corrected sum. |
| OrderForm.UnsetQuantityShowsNaN | verger-client-portal/src/pages/Commander.tsx:230-237 | A product checked without touching the stepper is sent with quantity 1, while the total shown is `NaN`. |
| OrderForm.OrderRequestOf | verger-client-portal/src/pages/Commander.tsx:308-313 | The order request carries the customer, the pickup point, the selected basket's id when there is one, and the products of a custom basket. |
| OrderForm.SelectedSumAsWritten | verger-client-portal/src/pages/Commander.tsx:230-237 | The sum as written is a number exactly when every selected product has a quantity set, and 0 when nothing is selected. |
| OrderForm.SelectedSum | verger-client-portal/src/pages/Commander.tsx:230-237 | The corrected sum is 0 when nothing is selected. It is never negative when prices are not negative and quantities come from the stepper. |
| OrderForm.TotalPriceAsWritten | verger-client-portal/src/pages/Commander.tsx:230-238 | The total as written is `NaN` exactly for a custom basket that is not loaded, or that has a selected product with no quantity set. |
| OrderForm.TotalPrice | verger-client-portal/src/pages/Commander.tsx:230-238 | The corrected custom total equals the sum of (price, or 2) × quantity over the products sent, times 4 for a subscription. |
| OrderForm.OrderPage.HandleNext | verger-client-portal/src/pages/Commander.tsx:260-264 | The step becomes `Next` of the old step, and stays between 1 and 4. |
| OrderForm.OrderPage.GoBack | verger-client-portal/src/pages/Commander.tsx:526-528 | "Retour" goes back exactly one step. |
| OrderForm.OrderPage.ChoosePickupPoint | verger-client-portal/src/pages/Commander.tsx:403 | The radio group sets the pickup point. |
| OrderForm.OrderPage.ChooseBasketType | verger-client-portal/src/pages/Commander.tsx:451 | The radio group sets the basket type. |
| OrderForm.OrderPage.SetSubscription | verger-client-portal/src/pages/Commander.tsx:504-507 | The checkbox sets the subscription flag. |
| OrderForm.OrderPage.SelectKitEffect | verger-client-portal/src/pages/Commander.tsx:162-170 | The effect leaves `SelectedKit` of the current choices selected. |
| OrderForm.OrderPage.LoadBaskets | verger-client-portal/src/pages/Commander.tsx:211-227 | The fetched kits replace the basket list; a failed fetch leaves it as it was. |
| OrderForm.OrderPage.LoadWeeklyProducts | verger-client-portal/src/pages/Commander.tsx:174-209 | For a custom basket only, the products of the week become the custom basket. A failed fetch, or another basket type, changes nothing. |
| OrderForm.OrderPage.ToggleProduct | verger-client-portal/src/pages/Commander.tsx:610-616 | The selection becomes `Toggled` of the old one. |
| OrderForm.OrderPage.DecrementQuantity | verger-client-portal/src/pages/Commander.tsx:626-630 | The quantities become `Decremented` of the old ones, all still at least 1. |
| OrderForm.OrderPage.IncrementQuantity | verger-client-portal/src/pages/Commander.tsx:639-643 | The quantities become `Incremented` of the old ones, all still at least 1. |
| LegacyOrderForm.FindFixed | src/pages/Commander.tsx:82 | The lookup returns a basket with the id asked for, or nothing exactly when no basket has it. |
| LegacyOrderForm.SelectedBasketPrices | src/pages/Commander.tsx:35-39 | "fruits" selects the 10 basket, "legumes" the 15 basket and "mixte" the 20 basket; any other type selects nothing. |
| LegacyOrderForm.TotalPrice | src/pages/Commander.tsx:83 | The total is the selected basket's price, times 4 for a subscription, and 0 when the type selects no basket: 10 or 40 for "fruits", 15 or 60 for "legumes", 20 or 80 for "mixte". It is 0 exactly when no basket is selected. |
| LegacyOrderForm.TotalPriceSubscription | src/pages/Commander.tsx:83 | A subscription's total is four times a single order's. The total is never negative, and it is 0 exactly when no basket is selected. |
| LegacyOrderForm.WeeklyFilter | src/pages/Commander.tsx:367-372 | The filter keeps no more products than it is given, and only shown products it was given. |
| LegacyOrderForm.WeeklyFilterKeeps | src/pages/Commander.tsx:368-372 | The filter keeps exactly the fruits for "fruits", the vegetables for "legumes", and everything for any other type, in their order. Each kept product keeps its number of occurrences, and every other product has none. |
| LegacyOrderForm.OrderPayloadOf | src/pages/Commander.tsx:140-153 | The order carries the customer id and details, the pickup point and basket type, and the selected basket's single-order price (0 without a basket), which is the total without subscription. It carries the subscription weeks 4 exactly when subscribing. |
| LegacyOrderForm.Requests | src/pages/Commander.tsx:130-163 | A submission creates the customer from the details entered, then the order, then a four-week subscription when subscribing, and nothing else. |
| LegacyOrderForm.PayloadMatchesTotal | src/pages/Commander.tsx:83 | The total shown is the order's basket price times its subscription weeks, or the basket price alone when not subscribing. |
| LegacyOrderForm.LegacyPage.HandleNext | src/pages/Commander.tsx:105-109 | The step becomes `Next` of the old step, and stays between 1 and 4. |
| LegacyOrderForm.LegacyPage.GoBack | src/pages/Commander.tsx:337-339 | "Retour" goes back exactly one step. |
| LegacyOrderForm.LegacyPage.ChoosePickupPoint | src/pages/Commander.tsx:240 | The radio group sets the pickup point. |
| LegacyOrderForm.LegacyPage.ChooseBasketType | src/pages/Commander.tsx:282 | The radio group sets the basket type. |
| LegacyOrderForm.LegacyPage.SetSubscription | src/pages/Commander.tsx:321 | The checkbox sets the subscription flag. |
| LegacyOrderForm.LegacyPage.LoadProducts | src/pages/Commander.tsx:63-80 | The fetched products of the week replace the list; a failed fetch leaves it as it was. |
| LegacyOrderForm.LegacyPage.ShownProducts | src/pages/Commander.tsx:367-372 | Step 3 shows exactly the loaded products the filter keeps for the chosen type, in their order. |
| LegacyOrderForm.LegacyPage.Submit | src/pages/Commander.tsx:130-163 | The submit button sends exactly `Requests` of the current state. |

## Left out

- Transport and session: Express routing, `fetch`, the JSON-RPC envelope, `odooLogin` and the module-level cookie it overwrites (verger-odoo-proxy/server.js:16-53). The backend is the in-memory class instead.
- Concurrent requests: handlers run one at a time in the model. The shared cookie and interleaved requests are not modelled.
- Reads of the catalogue and of partners are not logged. Only calls that change the backend, and reads of orders and pickings, are.
- The order of `search_read` results is the order the backend stores records in. Odoo's own default ordering is not modelled, so "first match" means first in that order.
- The backend's own behaviour beyond what the proxy relies on is abstract. An order is accepted when its partner and line products exist. Confirmation either succeeds for every order or fails for every order (`confirmable`). When it succeeds it generates a fixed number of pickings (`deliverySteps`), all reservable or none (`stockAvailable`). Stock quantities, routes and validation wizards are not modelled.
- `/products` and `/customer` (verger-odoo-proxy/server.js:58-78) are not part of this model. They are plain pass-throughs to one backend call each.
- OdooProxy.Backend.ListBaskets: the `catch` that answers 500 "Impossible de récupérer les paniers" is not modelled. In the model the product search never fails, and a failed BOM or BOM-line read gives no result, so the loop skips that kit.
- The customer details form: trimming, the zod checks and the error messages are not modelled. `LegacyOrderForm.Customer` holds details that already passed them.
- Loyalty-point accrual, the order notification e-mail and the signup bonus are described for the system but not implemented in the modelled files. The client services call `/loyalty/register`, which server.js does not define. The model follows the code and leaves all of them out.
- Console logging, React rendering, toasts, navigation, loading spinners and the zod customer schemas. Both service files are left out too: one is a random, timer-based simulation and the other thin `fetch` wrappers.
- OrderForm.TotalPrice, OrderForm.TotalPriceMatchesOrder: the total shown counts 2 for a product with no price or price 0, but the proxy bills the `price` the page sends, copied unchanged (verger-odoo-proxy/server.js:133). For such products the total shown and the amount billed differ; the model relates the total only to the products sent.
- Floating point: prices and quantities are integers. JavaScript's `NaN` is `None`, and `p.price || 2` and `q || 1` treat 0 as falsy.
- OdooProxy.Backend.PickingAssign, OdooProxy.Backend.PickingValidate: a call that fails in transport is modelled as having no effect on the backend. A call that takes effect on the backend but whose answer is lost is not modelled.
- OdooProxy.Backend.Subscribe: the route's answer body is not modelled beyond the id returned.
- OdooProxy.Backend.PlaceOrder: an ad-hoc product with quantity 0 or less is passed through unchecked, as the code does. The route does not validate quantities.
- OrderForm.OrderPage.SelectKitEffect: the effect also runs for the custom type, whose kit name is the "Panier mixte" one. Whether it then replaces the loaded custom basket depends on effect timing, which is not modelled.

## Findings

| source | as written | input that shows it | evidently intended | confidence | as-written member | corrected member |
|---|---|---|---|---|---|---|
| verger-client-portal/src/pages/Commander.tsx:230-237 | The custom total multiplies each price by `customProductQuantities[p.id]` with no default, so a product whose quantity was never stepped gives `NaN`. The total is also `NaN` while no custom basket is loaded. | Check one product of price 3 without pressing "+" or "-": the order sends quantity 1, and the total reads `NaN€`. | Use the quantity the page shows and sends (`|| 1`, as at lines 302 and 586), and 0 with no basket. | not executed | OrderForm.UnsetQuantityShowsNaN | OrderForm.TotalPriceMatchesOrder |
