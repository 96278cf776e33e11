# Lanchonete ordering core, in Dafny

This project models the ordering logic of the Lanchonete snack-bar app. It has two faces:

- **The public storefront** (`PublicOrder`). A customer opens the store under its slug, filters the menu and builds a cart. The cart keeps one line per product. A customer can add add-ons (`extras`) to a line. Submitting registers the customer and commits a pending delivery order priced at the cart total.
- **The back office.** It has four parts:
  - a draft-order form (`NovoPedido`), which has lines without add-ons, chooses table or delivery, and is priced by products only;
  - the dashboard figures (`Dashboard`);
  - the order modal (`OrderModal`);
  - the public order-tracking page (`OrderTracking`).

All of these share one application store (`AppStore.Store`). It holds the customers, the products and the orders, which its actions append, replace, filter or re-status.

Modules, one per source concern:

| module | file | models |
|---|---|---|
| `Types` | types.dfy | the entity records and their enumerations |
| `Pricing` | pricing.dfy | catalogue lookups and line, cart and add-on totals, plus the lines a page can still render |
| `Items` | items.dfy | the cart rule shared by both order screens: bump or append on add, decrement or drop on remove, replace a line's add-ons |
| `ExtrasSelector` | extras_selector.dfy | the add-on panel: the offered add-ons, and add and remove on a line's selection |
| `AppStore` | store.dfy | the store's state and its eight actions (a class over `seq` fields) |
| `Dashboard` | dashboard.dfy | today's orders, the revenue figures and the status counts |
| `OrderTracking` | order_tracking.dfy | the order lookup, the four-step track, the progress bar and the tracking page |
| `OrderModal` | order_modal.dfy | the short order number, the per-line amounts and the stored total |
| `PublicOrder` | public_order.dfy | the slug, search, categories, the cart page (a class) and submit, plus submit followed by tracking |
| `NovoPedido` | novo_pedido.dfy | the draft form (a class) and its submit guard |

How values are represented:

- Prices are whole cents (`nat`).
- Quantities are `int`, kept at 1 or more by the invariants the cart methods preserve.
- Ids are strings.
- Dates are `Moment(day, millis)`, where `day` stands for the local `yyyy-MM-dd` calendar date.
- Randomly generated ids and the current time are parameters of the operations that use them.

## Model

| member | source | states |
|---|---|---|
| Pricing.FindProduto | src/pages/PublicOrder.tsx:59 | no product found exactly when no product has the id; a found product is one of the catalogue's, with that id |
| Pricing.FindExtra | src/pages/PublicOrder.tsx:62 | no add-on found exactly when no add-on has the id; a found add-on is one of the catalogue's, with that id |
| Pricing.ExtrasTotal | src/pages/PublicOrder.tsx:60-64 | a line's add-on total is never negative when its add-on quantities are not |
| Pricing.CartTotal | src/pages/PublicOrder.tsx:58-66 | the cart total is never negative when no line carries a negative quantity |
| Pricing.PlainTotal | src/pages/NovoPedido.tsx:19-22 | the draft total is never negative when quantities are not |
| Pricing.CartTotalAppend | src/pages/PublicOrder.tsx:58-66 | the cart total distributes over concatenation of line lists |
| Pricing.ExtrasTotalAppend | src/pages/PublicOrder.tsx:60-64 | the add-on total distributes over concatenation of selections |
| Pricing.PlainTotalWithoutExtras | src/pages/NovoPedido.tsx:19-22 | for lines without add-ons, the back-office total equals the storefront total |
| Pricing.PlainTotalAtMostCartTotal | src/pages/NovoPedido.tsx:19-22 | add-ons never lower a total: the back-office total is at most the storefront total |
| Pricing.UnknownExtrasFree | src/pages/PublicOrder.tsx:62-63 | add-ons missing from the catalogue are priced at 0 |
| Pricing.UnknownLineFree | src/pages/PublicOrder.tsx:59-65 | a line whose product and add-ons are all missing adds nothing to the cart total |
| Pricing.ShownLines | src/pages/OrderTracking.tsx:148-170 | at most one rendered line per order line; each has its product found in the catalogue and shows exactly that line's cart amount |
| Pricing.ShownLineFromOrder | src/pages/OrderTracking.tsx:148-155 | every rendered line is a line of the order |
| Pricing.OrderLineShown | src/pages/OrderTracking.tsx:148-155 | every order line whose product still exists is rendered |
| Pricing.ShownLinesSum | src/pages/OrderTracking.tsx:148-170 | while every product exists, all lines are rendered and their amounts add up to the cart total |
| Items.ItemIndex | src/pages/PublicOrder.tsx:69 | the first line for the product, or -1 exactly when there is none |
| Items.Increment | src/pages/PublicOrder.tsx:71-77 | same length; lines for the product gain one unit, all others are unchanged |
| Items.Decrement | src/pages/PublicOrder.tsx:102-108 | same length; lines for the product lose one unit, all others are unchanged |
| Items.ReplaceExtras | src/pages/PublicOrder.tsx:112-118 | same length; lines for the product get the new add-ons, all others are unchanged |
| Items.Without | src/pages/PublicOrder.tsx:97 | the filtered list is never longer |
| Items.WithoutMembers | src/pages/PublicOrder.tsx:97 | the filter keeps exactly the lines for other products |
| Items.WithoutAbsent | src/pages/PublicOrder.tsx:97 | filtering out a product without lines changes nothing |
| Items.AddProduct | src/pages/PublicOrder.tsx:68-92 | after an add the product has a line; the list grows by one exactly on a first add |
| Items.RemoveProduct | src/pages/PublicOrder.tsx:94-110 | removing a product without a line changes nothing |
| Items.FindItemUnique | src/pages/PublicOrder.tsx:69 | with one line per product, the lookup finds the line that holds it |
| Items.PresentIffPositive | src/pages/PublicOrder.tsx:290 | under the invariant, a product has a line exactly when its shown quantity is at least 1, and shows 0 otherwise |
| Items.FindItemByMembership | src/pages/PublicOrder.tsx:69 | with one line per product, a line is found exactly when it is in the list |
| Items.WithoutUnique | src/pages/PublicOrder.tsx:97 | filtering out the only line of a product removes exactly that position |
| Items.UniqueAfterDropping | src/pages/PublicOrder.tsx:97 | dropping one position keeps one line per product and positive quantities |
| Items.AddProductWellFormed | src/pages/PublicOrder.tsx:68-92 | adding keeps one line per product, each at quantity 1 or more |
| Items.AddProductQuantity | src/pages/PublicOrder.tsx:68-92 | adding raises that product's quantity by exactly one; every other product's line is unchanged |
| Items.AddProductAppendsOnFirstAdd | src/pages/PublicOrder.tsx:78-85 | a first add keeps the old lines in front and appends a quantity-1 line without add-ons |
| Items.AppendedLineIndex | src/pages/PublicOrder.tsx:78-97 | a line appended for a product that had none is the one the lookup finds |
| Items.RemoveProductWellFormed | src/pages/PublicOrder.tsx:94-110 | removing keeps one line per product, each at quantity 1 or more |
| Items.WithoutLookups | src/pages/PublicOrder.tsx:97 | after the filter, the product has no line and every other product's line is unchanged |
| Items.WithoutKeepsOthers | src/pages/PublicOrder.tsx:97 | with one line per product, the filter leaves every other product's lookup unchanged |
| Items.RemoveProductQuantity | src/pages/PublicOrder.tsx:94-110 | removing lowers that product's quantity by one (a line at 1 disappears) and leaves every other line unchanged |
| Items.DecrementIncrement | src/pages/PublicOrder.tsx:71-77 | the decrement map undoes the increment map |
| Items.IncrementThenRemove | src/pages/PublicOrder.tsx:68-110 | bumping an existing line and then removing a unit restores the lines |
| Items.AppendThenDrop | src/pages/PublicOrder.tsx:78-97 | appending a fresh line and then removing it restores the lines |
| Items.AddThenRemove | src/pages/PublicOrder.tsx:68-110 | for any well-formed cart, remove right after add gives back exactly the same lines |
| Items.ReplaceExtrasEffect | src/pages/PublicOrder.tsx:112-118 | replacing add-ons keeps the invariant and every quantity; only that product's line changes, and only in its add-ons |
| Items.CartLineSucc | src/pages/PublicOrder.tsx:65 | one more unit adds the product's price to the line |
| Items.CartTotalUpdate | src/pages/PublicOrder.tsx:58-66 | changing one position changes the total by the difference of its lines |
| Items.IncrementAt | src/pages/PublicOrder.tsx:71-77 | under the invariant, the increment touches exactly one position |
| Items.DecrementAt | src/pages/PublicOrder.tsx:102-108 | under the invariant, the decrement touches exactly one position |
| Items.IncrementTotal | src/pages/PublicOrder.tsx:71-77 | bumping a line raises the total by its product's price |
| Items.DecrementTotal | src/pages/PublicOrder.tsx:102-108 | lowering a line lowers the total by its product's price |
| Items.WithoutTotal | src/pages/PublicOrder.tsx:97 | dropping a line lowers the total by the whole line, add-ons included |
| Items.AddProductTotal | src/pages/PublicOrder.tsx:68-92 | every add raises the cart total by exactly the product's price (0 if it is not in the catalogue) |
| Items.RemoveProductTotal | src/pages/PublicOrder.tsx:94-110 | a remove lowers the total by the product's price, and also by the line's add-ons when the line is dropped; an absent product changes nothing |
| Items.ReplaceExtrasTotal | src/pages/PublicOrder.tsx:112-118 | replacing a line's add-ons changes the total by the difference of the two add-on totals |
| Items.ReplayQuantity | src/pages/PublicOrder.tsx:68-110 | after any sequence of add and remove presses the cart is well formed, and each product's shown quantity is the start plus the adds minus the removes (never below 0) |
| ExtrasSelector.Offered | src/components/ExtrasSelector.tsx:12 | the panel lists exactly the available add-ons, never more than the catalogue, and the whole catalogue when all are available |
| ExtrasSelector.OfferedSingle | src/components/ExtrasSelector.tsx:12 | a single add-on is kept exactly when it is available |
| ExtrasSelector.OfferedAppend | src/components/ExtrasSelector.tsx:12 | the filter distributes over concatenation, so the offered add-ons keep catalogue order |
| ExtrasSelector.SelectionIndex | src/components/ExtrasSelector.tsx:15-17 | the first entry for the add-on, or -1 exactly when there is none |
| ExtrasSelector.IncrementSel | src/components/ExtrasSelector.tsx:18-22 | same length; entries for the add-on gain one unit, all others are unchanged |
| ExtrasSelector.DecrementSel | src/components/ExtrasSelector.tsx:34-38 | same length; entries for the add-on lose one unit, all others are unchanged |
| ExtrasSelector.WithoutSel | src/components/ExtrasSelector.tsx:32-33 | the filtered selection is never longer |
| ExtrasSelector.WithoutSelMembers | src/components/ExtrasSelector.tsx:32-33 | the filter keeps exactly the entries for other add-ons |
| ExtrasSelector.WithoutSelAbsent | src/components/ExtrasSelector.tsx:32-33 | filtering out an unselected add-on changes nothing |
| ExtrasSelector.AddExtra | src/components/ExtrasSelector.tsx:14-27 | after "+" the add-on is selected; the selection grows by one exactly on its first add |
| ExtrasSelector.RemoveExtra | src/components/ExtrasSelector.tsx:29-42 | "-" does nothing (onChange is not called) exactly when the add-on is not selected |
| ExtrasSelector.FindSelectionUnique | src/components/ExtrasSelector.tsx:51 | with one entry per add-on, the lookup finds the entry that holds it |
| ExtrasSelector.FindSelectionByMembership | src/components/ExtrasSelector.tsx:51 | with one entry per add-on, an entry is found exactly when it is selected |
| ExtrasSelector.WithoutSelUnique | src/components/ExtrasSelector.tsx:32-33 | filtering out the only entry of an add-on removes exactly that position |
| ExtrasSelector.WellFormedAfterDropping | src/components/ExtrasSelector.tsx:32-33 | dropping one entry keeps one entry per add-on, each at 1 or more |
| ExtrasSelector.AddExtraWellFormed | src/components/ExtrasSelector.tsx:14-27 | "+" keeps one entry per add-on, each at quantity 1 or more |
| ExtrasSelector.AddExtraCount | src/components/ExtrasSelector.tsx:14-27 | "+" raises that add-on's count by one and leaves every other entry unchanged |
| ExtrasSelector.RemoveExtraWellFormed | src/components/ExtrasSelector.tsx:29-42 | "-" keeps one entry per add-on, each at quantity 1 or more |
| ExtrasSelector.WithoutSelLookups | src/components/ExtrasSelector.tsx:32-33 | after the filter, the add-on is unselected and every other entry is unchanged |
| ExtrasSelector.WithoutSelKeepsOthers | src/components/ExtrasSelector.tsx:32-33 | with one entry per add-on, the filter leaves every other add-on's lookup unchanged |
| ExtrasSelector.RemoveExtraCount | src/components/ExtrasSelector.tsx:29-42 | "-" lowers that add-on's count by one, drops the entry exactly when it was at 1, and leaves every other entry unchanged |
| ExtrasSelector.DecrementIncrementSel | src/components/ExtrasSelector.tsx:18-38 | the decrement map undoes the increment map |
| ExtrasSelector.IncrementThenRemoveSel | src/components/ExtrasSelector.tsx:14-42 | bumping a selected add-on and pressing "-" restores the selection |
| ExtrasSelector.AppendedEntryIndex | src/components/ExtrasSelector.tsx:23-33 | an entry appended for an add-on that had none is the one the lookup finds |
| ExtrasSelector.AppendThenDropSel | src/components/ExtrasSelector.tsx:23-33 | appending a fresh entry and pressing "-" restores the selection |
| ExtrasSelector.AddThenRemoveExtra | src/components/ExtrasSelector.tsx:14-42 | for any well-formed selection, "-" right after "+" gives back the same selection |
| ExtrasSelector.ExtrasTotalSucc | src/pages/PublicOrder.tsx:63 | one more unit of an add-on adds its price |
| ExtrasSelector.SingleExtraTotal | src/pages/PublicOrder.tsx:63 | a single entry costs its add-on's price (0 if missing) times its quantity |
| ExtrasSelector.ExtrasTotalUpdate | src/pages/PublicOrder.tsx:60-64 | changing one entry changes the add-on total by the difference of its amounts |
| ExtrasSelector.IncrementSelAt | src/components/ExtrasSelector.tsx:18-22 | under the invariant, the increment touches exactly one entry |
| ExtrasSelector.DecrementSelAt | src/components/ExtrasSelector.tsx:34-38 | under the invariant, the decrement touches exactly one entry |
| ExtrasSelector.IncrementSelTotal | src/components/ExtrasSelector.tsx:18-22 | bumping an entry adds the add-on's price to the line's add-on total |
| ExtrasSelector.DecrementSelTotal | src/components/ExtrasSelector.tsx:34-38 | lowering an entry subtracts the add-on's price |
| ExtrasSelector.WithoutSelTotal | src/components/ExtrasSelector.tsx:32-33 | dropping an entry subtracts its whole amount |
| ExtrasSelector.AddExtraTotal | src/components/ExtrasSelector.tsx:14-27 | "+" raises the line's add-on total by exactly the add-on's price |
| ExtrasSelector.RemoveExtraTotal | src/components/ExtrasSelector.tsx:29-42 | an effective "-" lowers the line's add-on total by exactly the add-on's price |
| AppStore.Replace | src/store/useStore.ts:30-33 | same length; every record with the updated record's id is replaced by it, all others are unchanged |
| AppStore.Remove | src/store/useStore.ts:34-37 | the filtered list is never longer |
| AppStore.SetStatus | src/store/useStore.ts:56-61 | same length; orders with the id take the new status, all other orders are unchanged |
| AppStore.ReplaceUnknown | src/store/useStore.ts:30-33 | updating a record whose id is absent changes nothing |
| AppStore.ReplaceIdempotent | src/store/useStore.ts:42-47 | applying the same update twice is the same as once |
| AppStore.ReplaceKeepsKeys | src/store/useStore.ts:42-47 | an update never changes which ids sit at which positions |
| AppStore.RemoveMembers | src/store/useStore.ts:48-51 | removal keeps exactly the records with other ids |
| AppStore.RemoveAppend | src/store/useStore.ts:48-51 | removal distributes over concatenation |
| AppStore.RemoveUnknown | src/store/useStore.ts:34-37 | removing an absent id changes nothing |
| AppStore.RemoveIdempotent | src/store/useStore.ts:34-37 | removing twice is the same as once |
| AppStore.SetStatusAnyTransition | src/store/useStore.ts:56-61 | any status can replace any other (no transition rule), and nothing else in the order changes |
| AppStore.SetStatusUnknown | src/store/useStore.ts:56-61 | re-statusing an absent order id changes nothing |
| AppStore.Store.constructor | src/store/useStore.ts:22-25 | starts with no customers, no orders and the seed catalogue |
| AppStore.Store.AddCliente | src/store/useStore.ts:26-29 | appends the customer; the other two lists are unchanged |
| AppStore.Store.UpdateCliente | src/store/useStore.ts:30-33 | replaces the customer(s) with that id; the other lists are unchanged |
| AppStore.Store.RemoveCliente | src/store/useStore.ts:34-37 | filters out the customer id; the other lists are unchanged |
| AppStore.Store.AddProduto | src/store/useStore.ts:38-41 | appends the product; the other lists are unchanged |
| AppStore.Store.UpdateProduto | src/store/useStore.ts:42-47 | replaces the product(s) with that id; the other lists are unchanged |
| AppStore.Store.RemoveProduto | src/store/useStore.ts:48-51 | filters out the product id; the other lists are unchanged |
| AppStore.Store.AddPedido | src/store/useStore.ts:52-55 | appends the order; the other lists are unchanged |
| AppStore.Store.UpdatePedidoStatus | src/store/useStore.ts:56-61 | re-statuses the order(s) with that id; the other lists are unchanged |
| Dashboard.PedidosHoje | src/pages/Dashboard.tsx:10-13 | today's list is never longer, and every order in it was created today |
| Dashboard.CountStatus | src/pages/Dashboard.tsx:37-42 | a status count never exceeds the number of orders and is 0 with no orders |
| Dashboard.CountStatusAppend | src/pages/Dashboard.tsx:37-42 | appending an order adds one to the count of its own status and nothing to any other status |
| Dashboard.CountStatusPositive | src/pages/Dashboard.tsx:37-42 | a status count is positive exactly when some order has that status |
| Dashboard.DashboardStats | src/pages/Dashboard.tsx:15-45 | both counts are bounded by the number of orders; with non-negative totals, 0 ≤ today's revenue ≤ the "monthly" revenue; every card is 0 with no orders |
| Dashboard.PedidosHojeMembers | src/pages/Dashboard.tsx:10-13 | an order is in today's list exactly when it is an order created today |
| Dashboard.CountStatusPartition | src/pages/Dashboard.tsx:37-42 | the four status counts add up to the number of orders |
| Dashboard.TodayAtMostAll | src/pages/Dashboard.tsx:15-16 | with non-negative totals, today's revenue is between 0 and the revenue over all orders |
| Dashboard.RevenueAppend | src/pages/Dashboard.tsx:15-16 | revenue distributes over concatenation |
| Dashboard.AllCreatedToday | src/pages/Dashboard.tsx:10-13 | when every order was created today, today's list is all orders |
| Dashboard.AddPedidoStats | src/pages/Dashboard.tsx:15-45 | a new order adds its total to the revenue, adds to today's revenue and count exactly when created today, and adds one to the "em preparo" card exactly when its status is EmPreparo |
| Dashboard.SetStatusKeepsTotal | src/pages/Dashboard.tsx:16 | a status change keeps the revenue over all orders |
| Dashboard.SetStatusThenToday | src/pages/Dashboard.tsx:10-13 | re-statusing commutes with picking today's orders, because the creation day is kept |
| Dashboard.SetStatusKeepsRevenue | src/pages/Dashboard.tsx:15-16 | a status change leaves both revenue figures and today's count unchanged |
| OrderTracking.IndexOf | src/pages/OrderTracking.tsx:44 | the first step with the status, or -1 exactly when no step has it |
| OrderTracking.StepIndex | src/pages/OrderTracking.tsx:8-13 | every status has a step, within range, that shows it |
| OrderTracking.FindPedido | src/pages/OrderTracking.tsx:23-26 | no order found exactly when no order has the id; a found order is the first stored under that id |
| OrderTracking.TrackingPage | src/pages/OrderTracking.tsx:23-206 | "not found" exactly when no order has the id; otherwise the order the lookup finds, its stored total, its step, the bar width of that step and the shown lines of its items; never more lines than the order has |
| OrderTracking.StepIndexIsRank | src/pages/OrderTracking.tsx:8-13 | the step index follows the lifecycle Pendente < EmPreparo < Pronto < Entregue |
| OrderTracking.ProgressByStatus | src/pages/OrderTracking.tsx:108 | the bar is 25·(rank+1) percent, and full exactly for delivered orders |
| OrderTracking.ProgressIncreasing | src/pages/OrderTracking.tsx:108 | the bar grows strictly along the lifecycle |
| OrderTracking.ActiveSteps | src/pages/OrderTracking.tsx:115 | a step is highlighted exactly when the order has reached it |
| OrderTracking.TotalIsSnapshot | src/pages/OrderTracking.tsx:206 | the page total does not depend on the current catalogue |
| OrderTracking.FindPedidoUnique | src/pages/OrderTracking.tsx:23-26 | with unique order ids, the lookup finds that order |
| OrderModal.ShortId | src/components/OrderModal.tsx:49 | the title is a prefix of the id, with length min(8, length of the id) |
| OrderModal.ModalLines | src/components/OrderModal.tsx:106-166 | one line per rendered order line; product amount plus add-on amount equals that line's cart amount |
| OrderModal.OrderModalView | src/components/OrderModal.tsx:49-188 | shows the stored total, a title of at most 8 characters taken from the id, and never more lines than the order has |
| OrderModal.ModalLineIsCartLine | src/components/OrderModal.tsx:106-166 | each printed line is an order line, and its amounts add up to what it added to the cart |
| OrderModal.NoExtrasZero | src/components/OrderModal.tsx:106-166 | a line without add-ons prints a zero add-on amount and its full amount as product amount |
| OrderModal.ShortIdPrefix | src/components/OrderModal.tsx:49 | ids of 8 or more characters are cut to the first 8; shorter ids are shown whole |
| PublicOrder.Lower | src/pages/PublicOrder.tsx:48 | an upper-case letter becomes the letter 32 code points above it (its lower-case form), other characters are left alone; the result is never upper case and keeps whitespace-ness |
| PublicOrder.LowerStr | src/pages/PublicOrder.tsx:48 | same length, lower-cased character by character |
| PublicOrder.Dashes | src/pages/PublicOrder.tsx:48 | the result is never longer than the input |
| PublicOrder.DashesChars | src/pages/PublicOrder.tsx:48 | every output character is a dash or a non-space character of the input |
| PublicOrder.DashesNoSpace | src/pages/PublicOrder.tsx:48 | text without whitespace is left unchanged |
| PublicOrder.DashesRun | src/pages/PublicOrder.tsx:48 | a whole whitespace run becomes a single dash |
| PublicOrder.DashesAppend | src/pages/PublicOrder.tsx:48 | replacement distributes over a join that does not split a whitespace run |
| PublicOrder.SlugClean | src/pages/PublicOrder.tsx:48 | a slug has no whitespace and no upper case, and is never longer than the name |
| PublicOrder.LowerStrClean | src/pages/PublicOrder.tsx:48 | lower-casing text without upper case changes nothing |
| PublicOrder.SlugIdempotent | src/pages/PublicOrder.tsx:48 | the slug of a slug is itself |
| PublicOrder.LowerStrAppend | src/pages/PublicOrder.tsx:48 | lower-casing distributes over concatenation |
| PublicOrder.SlugJoin | src/pages/PublicOrder.tsx:48 | two words separated by any whitespace run slug to the two slugs joined by one dash |
| PublicOrder.CanonicalSlug | src/pages/PublicOrder.tsx:44-52 | once the store is loaded, the page redirects to /404 exactly when the URL slug is not the name's slug |
| PublicOrder.IncludesWitness | src/pages/PublicOrder.tsx:150-151 | when `includes` holds, the term occurs at some position |
| PublicOrder.OccurrenceIncluded | src/pages/PublicOrder.tsx:150-151 | every occurrence of the term makes `includes` hold |
| PublicOrder.IncludesIff | src/pages/PublicOrder.tsx:150-151 | `includes` holds exactly when the term occurs at some position |
| PublicOrder.FilteredProdutos | src/pages/PublicOrder.tsx:148-152 | every product kept matches the term by name or category |
| PublicOrder.FilteredAppend | src/pages/PublicOrder.tsx:148-152 | filtering keeps the catalogue's order: filtering a concatenation is the concatenation of the filtered parts |
| PublicOrder.FilteredMembers | src/pages/PublicOrder.tsx:148-152 | a product is kept exactly when it is in the catalogue and matches |
| PublicOrder.EmptyTermKeepsAll | src/pages/PublicOrder.tsx:148-152 | an empty search shows the whole catalogue |
| PublicOrder.Categorias | src/pages/PublicOrder.tsx:154 | never more categories than products |
| PublicOrder.FirstOfCategory | src/pages/PublicOrder.tsx:154 | the first product of the category, or -1 exactly when there is none |
| PublicOrder.FirstOfCategoryAppend | src/pages/PublicOrder.tsx:154 | appending a product only matters for a category not seen before |
| PublicOrder.CategoriasSpec | src/pages/PublicOrder.tsx:154 | the categories are exactly those of the products, without repeats, in order of first appearance |
| PublicOrder.Cart.constructor | src/pages/PublicOrder.tsx:27-30 | an empty cart with the panel closed |
| PublicOrder.Cart.AddItem | src/pages/PublicOrder.tsx:68-92 | the lines become AddProduct of the old lines; the panel opens exactly on a first add of an add-on product; the invariants are kept |
| PublicOrder.Cart.RemoveItem | src/pages/PublicOrder.tsx:94-110 | the lines become RemoveProduct of the old lines; the panel closes exactly when its own line is dropped; the invariants are kept |
| PublicOrder.Cart.ChangeExtras | src/pages/PublicOrder.tsx:112-118 | the product's add-ons are replaced; the panel and the invariants are kept |
| PublicOrder.Cart.AddExtraTo | src/pages/PublicOrder.tsx:301-307 | "+" in the panel updates the line's selection, and the cart total rises by the add-on's price |
| PublicOrder.Cart.RemoveExtraFrom | src/pages/PublicOrder.tsx:301-307 | "-" in the panel updates the line's selection or does nothing, and the cart total falls by the add-on's price exactly when it acts |
| PublicOrder.Cart.OpenExtras | src/pages/PublicOrder.tsx:319-326 | opens the panel on a product that has a line |
| PublicOrder.Cart.CloseExtras | src/pages/PublicOrder.tsx:310 | closes the panel |
| PublicOrder.Cart.SubmitOrder | src/pages/PublicOrder.tsx:120-146 | appends the new customer, then a pending delivery order with those lines, that customer, and the cart total at submit time; empties the cart |
| PublicOrder.SelectionOfWellFormed | src/pages/PublicOrder.tsx:301-307 | the selection handed to the panel is well formed |
| PublicOrder.RemoveKeepsSelections | src/pages/PublicOrder.tsx:94-110 | removing keeps every line's selection well formed |
| PublicOrder.SubmitThenTrack | src/pages/PublicOrder.tsx:120-146 | after submit, tracking the new order id finds it at the first step (bar at 25%), showing the cart total from submit time whatever the catalogue later becomes |
| PublicOrder.ExampleLines | src/pages/PublicOrder.tsx:68-118 | adding a product twice and then one add-on gives one line at quantity 2 with that add-on once |
| PublicOrder.ExampleTotals | src/pages/PublicOrder.tsx:58-66 | that line costs 2×1000 + 200 cents, or 2000 once the add-on has left the catalogue |
| PublicOrder.WorkedExample | src/pages/PublicOrder.tsx:58-146 | the same cart submitted and then tracked shows 2200 |
| NovoPedido.Submit | src/pages/NovoPedido.tsx:57-73 | no order exactly when there are no lines or no client is chosen; otherwise a pending order with the new id, stamped with the current time, with those lines and client, the chosen type, a table number exactly for table orders, and the product-only total |
| NovoPedido.Draft.constructor | src/pages/NovoPedido.tsx:13-16 | no lines, table type, table 1, no client |
| NovoPedido.Draft.AddItem | src/pages/NovoPedido.tsx:24-40 | the lines become AddProduct of the old lines; no add-ons ever; other fields unchanged |
| NovoPedido.Draft.RemoveItem | src/pages/NovoPedido.tsx:42-55 | the lines become RemoveProduct of the old lines; no add-ons ever; other fields unchanged |
| NovoPedido.Draft.SetTipo | src/pages/NovoPedido.tsx:131-141 | sets the type only |
| NovoPedido.Draft.SetMesa | src/pages/NovoPedido.tsx:161 | sets the table number only |
| NovoPedido.Draft.SetClienteId | src/pages/NovoPedido.tsx:110 | sets the client only |
| NovoPedido.Draft.HandleSubmit | src/pages/NovoPedido.tsx:57-73 | appends the submitted order when there is one, otherwise leaves the store unchanged |
| NovoPedido.AddKeepsNoExtras | src/pages/NovoPedido.tsx:24-40 | adding never gives a draft line add-ons |
| NovoPedido.RemoveKeepsNoExtras | src/pages/NovoPedido.tsx:42-55 | removing never gives a draft line add-ons |
| NovoPedido.DraftAddTotal | src/pages/NovoPedido.tsx:19-40 | adding raises the draft total by exactly the product's price |
| NovoPedido.DraftRemoveTotal | src/pages/NovoPedido.tsx:19-55 | removing lowers the draft total by the product's price, or not at all for an absent product |
| NovoPedido.SubmittedTotal | src/pages/NovoPedido.tsx:57-73 | a submitted draft is priced as the storefront would price the same lines, and never negatively |

## Left out

- Rendering, styling, icons and routing are not modelled. A slug mismatch is modelled as a predicate: "the page redirects to /404".
- The client form toggle (`showClientForm`), the navigation after submit, and share links are not modelled. The same goes for the list and edit pages for customers, products and add-ons, `OrderFilters`, `Pedidos`, `Setup`, `Layout` and `App`. They are not part of this model.
- Persistence of the store in the browser's local storage is not modelled. The store's seed catalogue is a constructor parameter.
- The add-on catalogue and the store profile (`extras`, `lanchonete`) are parameters. The store type shown in `src/store/useStore.ts` does not declare them.
- Random ids and the current time are parameters: `freshId`, `orderId` and `now`. `Moment.day` stands for the local `yyyy-MM-dd` date that the dashboard formats and compares.
- Prices are whole cents. The source uses floating-point numbers, so rounding is not modelled.
- PublicOrder.Lower: `toLowerCase` is modelled for ASCII and Latin-1 upper case only, both in the slug (`PublicOrder.Slug`) and in the product search (`PublicOrder.Matches`, `PublicOrder.FilteredProdutos`, src/pages/PublicOrder.tsx:150-151). Other Unicode case mappings are not modelled, so a search that differs only in such letters is not matched as the source would match it.
- The order's `observacoes` field is carried but never set. No screen in the core writes it.
- NovoPedido.Draft.SetMesa: takes an `int`. The source's `Number(...)` of a text field can also be `NaN` or a fraction ("2.5" gives 2.5); an integer table number drops both.
- In the back-office draft, lines never carry add-ons. The source leaves the field out, and the model sets it to the empty selection. The draft total is the product-only sum, exactly as the source computes it.
- Orders keep the status they are given. Because the status is an enumeration, the step index is never -1. A status missing from the track cannot occur.
- Dashboard.DashboardStats: the "monthly" revenue is the sum over all orders, because the source applies no month filter. The model keeps that behaviour.
- PublicOrder.Cart.ChangeExtras: it requires a well-formed selection. Its only caller is the add-on panel, whose "+" and "-" produce well-formed selections (ExtrasSelector.AddExtraWellFormed and RemoveExtraWellFormed).
- PublicOrder.Cart.AddExtraTo: it does not require the add-on to be offered. The panel only shows "+" for available add-ons, and the model places no restriction beyond that.
- PublicOrder.Cart.SubmitOrder: it leaves the panel selection as it is. The source navigates away right after submitting, so a stale selection is never rendered.
- PublicOrder.Cart.OpenExtras: it requires the product to have a line. The source only renders the "add-ons" button on cart lines.
