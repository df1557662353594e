# Inventory back office: a Dafny model

This project models the core of a small inventory and order application. The application has two halves:

- an Express back end that keeps purchase orders and raw-material stock in a database;
- a React back office on top of it, with list pages for purchase, sales and work orders, the order-item forms, the stock log, the dashboard, the navigation menu, the authentication state and a set of formatting and validation helpers.

What is modelled:

- **Purchase-order controller** (`PoController`). An imperative class `PurchaseOrderStore` holds the orders, the material stock, the stock-movement log and the next id. Its methods are the handlers get-by-id, create, update, delete, receive, approve and cancel. Each has the same 404/400 guards as the handlers, and each changes state in the same order.
  - An order's items are priced by a loop (`PriceItems`).
  - A receipt is applied by a loop (`ApplyReceipt`).
  - The class keeps a ledger invariant: every material's stock equals its opening stock plus the net of the logged movements.
- **Order forms** (`OrderForm`). The item table is shared verbatim by the purchase-order and sales-order forms. It is a class `ItemTable`, with add, remove and change methods and submit-time validation. The sales form's over-stock warning is modelled too.
- **List pages** (`ListPage`, `OrderPages`).
  - One class models the page state that the three order lists share: pagination, search, filters and the status tab, and the query built from them.
  - Separate functions model each page's action buttons, status counters, the work-order shortage alert, the completion-quantity rules and the create/update decision.
- **Stock log page** (`StockLogs`): its filters and pagination as a class, the reference and SKU cells, and the CSV export rows.
- **Dashboard** (`Dashboard`): the stock-by-category chart, built by loops that group entries by name, and the summary cards.
- **Navigation** (`Sidebar`): the menu each role sees, the submenu opened for a path and the selected key.
- **Authentication** (`AuthContext`): the reducer and the session restored on mount.
- **Helpers** (`Helpers`, `Validators`, `FormatDuration`):
  - the lookup tables;
  - column defaults;
  - CSV export;
  - the string-to-colour hash, with 32-bit wrap-around written out;
  - the field validators;
  - the rate-limit duration text.

Strings are sequences of characters; JavaScript falsy fallbacks (`x || d`) are written out case by case. A value that may be `null` or `undefined` is an `Option`. The sales-order form (`frontend/src/components/forms/SalesOrderForm.jsx`) repeats lines 18-113 of POForm.jsx. The work-order list repeats the list-page handlers of PurchaseOrders.jsx at lines 138-155, and the sales-order list repeats them at lines 146-163. Each of these is modelled once and cited at the purchase-order copy.

## Model

| member | source | states |
|---|---|---|
| PoController.PriceItems | src/controllers/poController.js:106-122 | The loop creates one item row per submitted item, with subtotal quantity times price, in order. The order total is the sum of the row subtotals, which is the sum over the inputs of quantity times price. |
| PoController.LineValueIsTotal | src/controllers/poController.js:109-122 | For every input list, the total of the priced rows equals the value of the inputs, and each row's subtotal is its quantity times its price. |
| PoController.PricedIsWellPriced | src/controllers/poController.js:106-125 | An order created from any item list satisfies the pricing invariant: its total is the sum of its rows and each row is quantity times price. |
| PoController.Priced | src/controllers/poController.js:109-122 | One row per submitted item. |
| PoController.ReceiptLogs | src/controllers/poController.js:331-341 | A receipt writes exactly one "in" movement per order item, in item order. Each movement records that item's material and quantity, reference type PO, the order id, the note "Received from PO: " plus the order number, and the acting user. |
| PoController.StockInEffect | src/controllers/poController.js:321-328 | Adding a receipt to stock succeeds exactly when every item's material exists. It then raises each material by the total quantity received for it, and keeps the set of materials the same. |
| PoController.QuantityOfAbsent | src/controllers/poController.js:321-328 | A material that no order item names receives nothing. |
| PoController.NetAppend | src/controllers/poController.js:331-341 | The net movement of a material over a log is additive, so appending entries adds their net. |
| PoController.NetOfReceipt | src/controllers/poController.js:321-341 | The movements logged by a receipt net, per material, to exactly the quantity added to that material's stock. |
| PoController.LedgerAfterReceipt | src/controllers/poController.js:321-341 | If stock equals the opening stock plus the logged movements before a receipt, it still does after the receipt's stock changes and log entries. |
| PoController.ApplyReceipt | src/controllers/poController.js:320-341 | The loop fails exactly when some item's material is missing, after a stocked prefix. Otherwise it returns the new stock and the log extended by one movement per item. |
| PoController.PurchaseOrderStore.FindById | src/controllers/poController.js:53-85 | An order is found exactly when its id is stored, and the one found is the stored order. Update, delete, receive, approve and cancel answer 404 with no change exactly when it finds none. |
| PoController.PurchaseOrderStore.Create | src/controllers/poController.js:88-154 | An item list that is not iterable fails and changes nothing. Otherwise a new order is stored under a fresh id, with a generated number when the number is empty, the priced rows and their total. A `total` or `created_by` in the body gives way to the computed total and the signed-in user, so the stored total matches the rows. Stock and log stay unchanged and the ledger invariant holds. |
| PoController.PurchaseOrderStore.Update | src/controllers/poController.js:157-242 | When the order is not found it answers 404; for a received or cancelled order it answers 400; neither changes anything. Otherwise the body's columns are written and the ones it omits keep their stored values. Sent items replace the rows and set the total to their sum. The total matches the rows afterwards when items are sent, or when no total is sent and it matched before. Nothing else changes. |
| PoController.Merged | src/controllers/poController.js:185 | The header columns the body carries are written. A `notes`, `total` or `created_by` the body omits keeps its stored value. The id and the rows are untouched. |
| PoController.MergedTotal | src/controllers/poController.js:184-213 | Rows priced from sent items always match the new total. Without a sent total, a matching total stays matching. A total sent without items is stored as sent, so it may differ from the rows' sum. |
| PoController.PurchaseOrderStore.Delete | src/controllers/poController.js:245-288 | A missing order gives 404 and a received one gives 400, both with no change. Otherwise exactly that order is removed; stock and log are untouched. |
| PoController.PurchaseOrderStore.Receive | src/controllers/poController.js:291-362 | A missing order gives 404 and an order that is not approved gives 400. An unknown material makes the whole transaction roll back and nothing changes. Otherwise the stock gains the receipt, the log gains its movements and the order becomes received, with the ledger invariant kept. |
| PoController.PurchaseOrderStore.Approve | src/controllers/poController.js:365-401 | A missing order gives 404 and a non-pending order gives 400, both with no change. Otherwise only that order's status becomes approved. |
| PoController.PurchaseOrderStore.Cancel | src/controllers/poController.js:404-440 | A missing order gives 404 and a received order gives 400, both with no change. Otherwise only that order's status becomes cancelled. |
| PoController.ReceiveTwice | src/controllers/poController.js:311-345 | A received order cannot be received again. After a successful receipt, a second one is refused with 400. Stock then holds the old stock plus exactly one copy of the order's quantities, over the same materials. |
| OrderForm.Find | frontend/src/components/forms/POForm.jsx:65 | The catalogue lookup returns the first entry with the requested id, or none when no entry has it. |
| OrderForm.Without | frontend/src/components/forms/POForm.jsx:49-51 | Removal keeps only rows of the list and drops every row with the key. |
| OrderForm.KeyIndex | frontend/src/components/forms/POForm.jsx:55 | The index found is the first row with the key, or -1 exactly when no row has it. |
| OrderForm.Loaded | frontend/src/components/forms/POForm.jsx:21-32 | One editable row per stored item. |
| OrderForm.ItemTable.constructor | frontend/src/components/forms/POForm.jsx:18 | The item table starts empty. |
| OrderForm.ItemTable.Load | frontend/src/components/forms/POForm.jsx:21-32 | Opening an order with items replaces the table with those items; without items the table is kept. |
| OrderForm.ItemTable.AddItem | frontend/src/components/forms/POForm.jsx:38-47 | Adding appends one blank row (quantity 1, price 0, subtotal 0) with the new key. |
| OrderForm.ItemTable.RemoveItem | frontend/src/components/forms/POForm.jsx:49-51 | Removing leaves the table without the rows that have the key. |
| OrderForm.ItemTable.ChangeItem | frontend/src/components/forms/POForm.jsx:53-81 | Editing a field changes, through the loop over the rows, only the first row with the key, as the edit and the catalogue say. |
| OrderForm.Forwarded | frontend/src/components/forms/POForm.jsx:102-110 | One submitted item per row. |
| OrderForm.Submit | frontend/src/components/forms/POForm.jsx:83-113 | An empty table is rejected for having no items. A non-empty table is submitted exactly when every row passes. Each submitted item carries its row's item, quantity, price and subtotal, in row order. A rejection reports the first failing row's problem. |
| OrderForm.AddItemKeeps | frontend/src/components/forms/POForm.jsx:38-47 | A blank row leaves the order total unchanged and keeps every subtotal equal to quantity times price. |
| OrderForm.WithoutMembers | frontend/src/components/forms/POForm.jsx:49-51 | A row stays after removal exactly when it was present and has another key. |
| OrderForm.WithoutAppend | frontend/src/components/forms/POForm.jsx:49-51 | Removal works row by row, so it distributes over concatenation and keeps the order of the rows. |
| OrderForm.WithoutAbsent | frontend/src/components/forms/POForm.jsx:49-51 | Removing a key that no row has leaves the table as it was. |
| OrderForm.WithoutConsistent | frontend/src/components/forms/POForm.jsx:49-51 | Removal keeps every subtotal equal to quantity times price. |
| OrderForm.ChangeFrame | frontend/src/components/forms/POForm.jsx:53-81 | An edit keeps the number of rows and every row except the first one with the key. |
| OrderForm.ChangeNumberSubtotal | frontend/src/components/forms/POForm.jsx:72-77 | Editing a quantity or a price sets that field and recomputes the subtotal from the new values, where a blank field counts as 0. |
| OrderForm.ChangeItemImportsPrice | frontend/src/components/forms/POForm.jsx:63-70 | Choosing a catalogue item sets the item id. When the catalogue has the item, its price is copied and the subtotal recomputed; otherwise price and subtotal stay. |
| OrderForm.ChangeConsistent | frontend/src/components/forms/POForm.jsx:53-81 | Every edit keeps every subtotal equal to quantity times price. |
| OrderForm.LoadedConsistent | frontend/src/components/forms/POForm.jsx:21-32 | Loading stored items whose subtotals are right gives a consistent table. |
| OrderForm.AsPurchaseInputs | frontend/src/components/forms/POForm.jsx:102-110 | The submitted items become the controller's item inputs one for one. |
| OrderForm.ServerTotalIsFormTotal | frontend/src/components/forms/POForm.jsx:201 | For a consistent, valid table, the total the controller computes for the submitted items equals the total the form displays. |
| OrderForm.OverStockIsPositiveDeficit | frontend/src/components/forms/SalesOrderForm.jsx:142-156 | A sales row is flagged over stock exactly when its shortfall against the product's stock is positive, and the stock tag is red exactly then. |
| ListPage.OrderListPage.constructor | frontend/src/pages/transaction/PurchaseOrders.jsx:52-64 | A list page starts on page 1 of size 10 with no filters, no search text and the "all" tab. |
| ListPage.OrderListPage.QueryParams | frontend/src/pages/transaction/PurchaseOrders.jsx:83-95 | The request carries the page and the limit. A tab other than "all" sets the status, non-empty search text sets the search, and every other filter is passed as given. No other key appears. |
| ListPage.OrderListPage.TableChange | frontend/src/pages/transaction/PurchaseOrders.jsx:146-148 | The table's pagination replaces the page state; filters, search and tab stay. |
| ListPage.OrderListPage.Search | frontend/src/pages/transaction/PurchaseOrders.jsx:150-153 | Searching sets the text and returns to page 1; nothing else changes. |
| ListPage.OrderListPage.Filter | frontend/src/pages/transaction/PurchaseOrders.jsx:155-158 | Filtering replaces the filters and returns to page 1; nothing else changes. |
| ListPage.OrderListPage.TabChange | frontend/src/pages/transaction/PurchaseOrders.jsx:160-163 | Switching tab sets it and returns to page 1; nothing else changes. |
| ListPage.OrderListPage.Reset | frontend/src/pages/transaction/PurchaseOrders.jsx:481-485 | Reset clears filters and search and returns to page 1, keeping the tab. |
| ListPage.OrderListPage.Fetched | frontend/src/pages/transaction/PurchaseOrders.jsx:100-103 | A response only records the total number of items. |
| ListPage.AllTabAddsNoStatus | frontend/src/pages/transaction/PurchaseOrders.jsx:83-95 | On the "all" tab the status is sent exactly when a filter gives it, and with that filter's value. A fresh page asks only for its page and limit. |
| ListPage.ResetPageIsRequested | frontend/src/pages/transaction/PurchaseOrders.jsx:83-95 | After reset, search, filter or tab change, the next request asks for page 1. |
| OrderPages.PoActionTable | frontend/src/pages/transaction/PurchaseOrders.jsx:319-372 | The buttons for each purchase-order status. Pending: view, edit, approve, cancel, delete. Approved: view, receive, delete. Received and cancelled: view only. |
| OrderPages.PoActionsPassGuards | frontend/src/pages/transaction/PurchaseOrders.jsx:326-371 | Approve and receive are offered exactly when the controller allows them. Edit, cancel and delete are offered only when it allows them. Delete is offered exactly for pending and approved orders. |
| OrderPages.SoActionTable | frontend/src/pages/transaction/SalesOrders.jsx:329-384 | The buttons for each sales-order status. |
| OrderPages.WoActionTable | frontend/src/pages/transaction/WorkOrder.jsx:329-381 | The buttons for each work-order status. |
| OrderPages.Count | frontend/src/pages/transaction/PurchaseOrders.jsx:134-140 | A status count never exceeds the number of orders. |
| OrderPages.CountIsPositions | frontend/src/pages/transaction/PurchaseOrders.jsx:136-139 | A status count is the number of positions that hold that status. |
| OrderPages.PoStatsPartition | frontend/src/pages/transaction/PurchaseOrders.jsx:134-140 | The four purchase-order counters add up to the total. |
| OrderPages.SoStatsPartition | frontend/src/pages/transaction/SalesOrders.jsx:134-140 | The four sales-order counters plus the uncounted cancelled orders add up to the total. |
| OrderPages.WoStatsPartition | frontend/src/pages/transaction/WorkOrder.jsx:126-132 | The four work-order counters add up to the total. |
| OrderPages.StatsFetchKeepsZeros | frontend/src/pages/transaction/PurchaseOrders.jsx:129-144 | As written, the limit 1000 is refused, so the cards stay at zero even when a pending order exists. |
| OrderPages.CorrectedStatsCount | frontend/src/pages/transaction/PurchaseOrders.jsx:129-144 | With the largest accepted limit, the cards count every order when there are at most 100, and they always partition their total. |
| OrderPages.ShortageAlertIffRedCell | frontend/src/pages/transaction/WorkOrder.jsx:598-606 | The bill-of-materials shortage alert shows exactly when some row's shortage cell is drawn red. |
| OrderPages.CompletionAcceptsExactly | frontend/src/pages/transaction/WorkOrder.jsx:637-654 | A completed quantity is accepted exactly when it is given, a whole number of at least 1, and no more than the planned quantity. |
| OrderPages.CompletionDefaultAccepted | frontend/src/pages/transaction/WorkOrder.jsx:205-211 | The pre-filled completed quantity (the planned quantity) passes the rules exactly when the planned quantity is at least 1. |
| OrderPages.NewWorkOrderIsCreated | frontend/src/pages/transaction/WorkOrder.jsx:157-161 | A new draft is pending and is submitted as a creation. When no order is being edited the form creates. An order with a non-zero id is updated. |
| StockLogs.FilterChangedSpec | frontend/src/pages/inventory/StockLogs.jsx:66-77 | An empty or cleared value removes its key and any other value sets it; every other filter is kept. |
| StockLogs.WithoutRange | frontend/src/pages/inventory/StockLogs.jsx:83-86 | Clearing the range removes both dates and keeps every other filter. |
| StockLogs.DateRangeLosesStart | frontend/src/pages/inventory/StockLogs.jsx:79-82 | As written, choosing a range keeps the start date only if one was already set; the new start is lost and the end date wins. |
| StockLogs.DateRangeChangedSpec | frontend/src/pages/inventory/StockLogs.jsx:79-90 | Choosing a range sets both dates, clearing it removes both, and other filters are kept. |
| StockLogs.StockLogPage.constructor | frontend/src/pages/inventory/StockLogs.jsx:28-33 | The page starts on page 1 of size 10 with no filters. |
| StockLogs.StockLogPage.QueryParams | frontend/src/pages/inventory/StockLogs.jsx:42-46 | The request holds every filter and the page and limit, which a filter of the same name overrides, and nothing else. |
| StockLogs.StockLogPage.TableChange | frontend/src/pages/inventory/StockLogs.jsx:62-64 | The table's page and size replace the page state; filters stay. |
| StockLogs.StockLogPage.FilterChange | frontend/src/pages/inventory/StockLogs.jsx:66-77 | The filters become the changed filters and the page returns to 1. |
| StockLogs.StockLogPage.DateRangeChange | frontend/src/pages/inventory/StockLogs.jsx:79-90 | The filters take the chosen range, with both dates, and the page returns to 1. |
| StockLogs.StockLogPage.Fetched | frontend/src/pages/inventory/StockLogs.jsx:51-54 | A response only records the total. |
| StockLogs.ReferenceTextRoundTrip | frontend/src/pages/inventory/StockLogs.jsx:160-166 | The reference cell is "-" exactly when there is no reference type. Otherwise it splits at its first dash back into the type and the id. |
| StockLogs.OrDash | frontend/src/pages/inventory/StockLogs.jsx:101 | The notes cell is "-" exactly when the notes are missing, empty or "-". |
| StockLogs.ExportRowSpec | frontend/src/pages/inventory/StockLogs.jsx:93-104 | Each export row has the nine headers in order. Its item, reference, notes and quantity cells are the table's cells. Its SKU cell matches the table's exactly when there is no item or the SKU is non-empty. |
| StockLogs.SkuExport | frontend/src/pages/inventory/StockLogs.jsx:97 | The exported SKU matches the table's SKU cell exactly when there is no item or the SKU is non-empty. |
| StockLogs.ExportCsvHeader | frontend/src/pages/inventory/StockLogs.jsx:92-106 | Export produces nothing exactly when there are no logs; otherwise the first line is the nine headers joined by commas. |
| StockLogs.ReceiptLogExport | frontend/src/pages/inventory/StockLogs.jsx:93-104 | A movement written by a purchase-order receipt exports as raw material, incoming, with its quantity, the reference "PO-" plus the order id, and the receipt note. |
| Dashboard.FindName | frontend/src/pages/dashboard/Dashboard.jsx:66-67 | The position found is the first group with that name, or the end of the list when there is none. |
| Dashboard.GroupSpec | frontend/src/pages/dashboard/Dashboard.jsx:65-68 | Grouping gives distinct names, exactly the names of the entries, and per name the sum of its entries. The grand total is kept. The result is empty only for no entries. |
| Dashboard.AddKeepsGrouped | frontend/src/pages/dashboard/Dashboard.jsx:66-67 | Adding one entry to a correct grouping gives a correct grouping of the longer list. |
| Dashboard.GroupInto | frontend/src/pages/dashboard/Dashboard.jsx:65-68 | The accumulation loop computes the grouping. |
| Dashboard.PushAll | frontend/src/pages/dashboard/Dashboard.jsx:81-93 | The loop appends every group to the chart data in order. |
| Dashboard.StockByCategory | frontend/src/pages/dashboard/Dashboard.jsx:60-98 | The chart data built by the loops is the grouped materials, then the grouped products, or the placeholder when there is none. |
| Dashboard.CategoryDataSpec | frontend/src/pages/dashboard/Dashboard.jsx:60-98 | Material groups come first, are distinct and each sums its category; product groups have distinct names among the three types. The chart's total is the whole stock. No entries gives exactly the placeholder. |
| Dashboard.CategoryTotal | frontend/src/pages/dashboard/Dashboard.jsx:60-98 | The chart's values add up to the stock of every material and every product, a missing stock counting 0. |
| Dashboard.CardsSpec | frontend/src/pages/dashboard/Dashboard.jsx:247-272 | There are four cards. The material and product cards show their counts, 0 when missing. The low-stock card is the sum of the two low-stock counts and the total-stock card the sum of the two stock totals, a missing one counting 0. The total-stock card equals the chart's total when the summary agrees with the lists. |
| Sidebar.MenuByRole | frontend/src/components/common/Sidebar.jsx:114-139 | A viewer sees only the dashboard. An admin sees the base menu and then user management, last. Any other role sees the base menu. User management appears exactly for an admin. |
| Sidebar.SelectedEntryIsInMenu | frontend/src/components/common/Sidebar.jsx:114-152 | For every role but viewer, a submenu page's group is in that role's menu, the page's own key is the selected one, and that group is the one opened. |
| Sidebar.DashboardSelected | frontend/src/components/common/Sidebar.jsx:114-152 | The dashboard page's selected key is an item of every role's menu, and it opens no group. |
| Sidebar.OpenKeyIsPrefixGroup | frontend/src/components/common/Sidebar.jsx:30-36 | At most one submenu opens: a group whose key prefixes the path. None opens exactly when no group key does. |
| Sidebar.ChildPageOpensItsGroup | frontend/src/components/common/Sidebar.jsx:30-111 | Visiting any submenu entry's page opens exactly that entry's group. |
| AuthContext.ReduceEffects | frontend/src/context/AuthContext.jsx:16-71 | Each action's effect, as follows. Login success signs in with the payload and stops loading. Failure and logout sign out. Set-loading changes only the flag. Update-user merges the payload over the previous user, payload fields winning, and changes nothing else. Unknown actions change nothing. |
| AuthContext.RunKeepsCoherent | frontend/src/context/AuthContext.jsx:16-71 | No sequence of actions leads from a state without a token while signed out to a signed-out state holding a token. |
| AuthContext.FromInitialCoherent | frontend/src/context/AuthContext.jsx:9-14 | From the initial state, a signed-out state never holds a token. |
| AuthContext.UpdateUserWhileSignedOut | frontend/src/context/AuthContext.jsx:61-67 | Updating the user while signed out leaves a user object in a signed-out state. |
| AuthContext.SessionRestoredIff | frontend/src/context/AuthContext.jsx:81-99 | On mount the session is restored exactly when a non-empty token and a user are stored, with those values; otherwise the state is signed out. Loading ends either way. |
| Helpers.StatusColorTable | frontend/src/utils/helpers.js:19-34 | A status in the table gets its colour and any other gets "default". Every order status is in both the colour and the text table. |
| Helpers.PoStatusesMapped | frontend/src/utils/helpers.js:37-51 | Every purchase-order status has its own text. |
| Helpers.TextLookupsFallBackToInput | frontend/src/utils/helpers.js:37-104 | Every text lookup returns the key itself for a key its table does not map. |
| Helpers.TextLookupsUseTable | frontend/src/utils/helpers.js:37-104 | Every text lookup returns its table's text for a key the table maps, since no text in the tables is empty. |
| Helpers.GenerateTableColumns | frontend/src/utils/helpers.js:107-113 | One column per column given. |
| Helpers.GenerateTableColumnsSpec | frontend/src/utils/helpers.js:107-113 | Every column keeps its other properties and gets sortable and ellipsis, which default to true unless the column sets them. Applying the defaults twice changes nothing. |
| Helpers.Keys | frontend/src/utils/helpers.js:119 | One header per field of the first row. |
| Helpers.RowCells | frontend/src/utils/helpers.js:121-126 | One cell per header. |
| Helpers.CsvLines | frontend/src/utils/helpers.js:118-128 | A header line and then one line per row. |
| Helpers.ExportCsv | frontend/src/utils/helpers.js:116-128 | Nothing is produced exactly for empty data. |
| Helpers.CsvColumnsRoundTrip | frontend/src/utils/helpers.js:116-128 | When the first row has a field and no header or printed cell holds a comma or a line break, splitting the export at line breaks and then at commas gives back the headers, and for each row its cells in the first row's field order. |
| Helpers.CellQuoting | frontend/src/utils/helpers.js:122-126 | A string with a comma is wrapped in double quotes. Any other string is written as is, and a number as its decimal text. |
| Helpers.CsvSplitsIntoLines | frontend/src/utils/helpers.js:118-128 | When no cell holds a newline, splitting the export at newlines gives back its lines. |
| Helpers.ToInt32 | frontend/src/utils/helpers.js:170 | A 32-bit wrap gives a signed 32-bit value congruent to its input. |
| Helpers.HashByte | frontend/src/utils/helpers.js:175 | Each colour component is a byte. |
| Helpers.Hex2 | frontend/src/utils/helpers.js:176 | A byte is written as two hex digits denoting it. |
| Helpers.StringToColor | frontend/src/utils/helpers.js:167-180 | The loops compute the hash colour: "#" followed by six hex digits. |
| Helpers.HashColor | frontend/src/utils/helpers.js:173-177 | The second loop writes "#" and then the two hex digits of each of the hash's three low bytes, lowest first. |
| Helpers.ColorIsLow24Bits | frontend/src/utils/helpers.js:173-177 | The three colour bytes are the low 24 bits of the hash, in little-endian order. |
| Helpers.LowBitsOfWrapped | frontend/src/utils/helpers.js:170 | Wrapping to 32 bits does not change the low 24 bits. |
| Validators.IsRequiredExactly | frontend/src/utils/validators.js:14-16 | Only undefined, null and the empty string count as missing; 0 and false count as given. |
| Validators.LengthRules | frontend/src/utils/validators.js:39-57 | Lengths are `.length`, counted in UTF-16 code units. Minimum length holds exactly for a given, non-empty value that is long enough. Maximum length fails exactly for a non-empty value that is too long. A password is valid exactly when it has at least 6 code units. |
| Validators.Utf16LengthBounds | frontend/src/utils/validators.js:40 | `.length` lies between the number of characters and twice that. It equals the number of characters exactly when no character lies outside the Basic Multilingual Plane. It is zero only for the empty string. |
| Validators.ThreeEmojiPassword | frontend/src/utils/validators.js:54-57 | Three emoji (three characters, six code units) make a valid password. |
| Validators.IsEmailMatchesPattern | frontend/src/utils/validators.js:2-5 | The scan accepts exactly the texts the e-mail pattern matches. |
| Validators.EmailHasOneAt | frontend/src/utils/validators.js:2-5 | An accepted address has exactly one "@". |
| Validators.IsInRangeInclusive | frontend/src/utils/validators.js:19-51 | Only a number can be in range: undefined, null and booleans fail `isNumber`. For a number the range is closed at both ends, and it is empty when the minimum exceeds the maximum. |
| Validators.PositiveIntegerRule | frontend/src/utils/validators.js:34-36 | A positive integer is a whole number of at least 1, which is the same test the completion form applies. |
| FormatDuration.FormatDuration | frontend/src/utils/formatDuration.js:6-19 | A duration always renders to a non-empty text. |
| FormatDuration.FormatRateLimitMessage | frontend/src/utils/formatDuration.js:26-29 | The message is the fixed prefix, the rendered duration and the fixed suffix. |
| FormatDuration.RoundTripUnderMinute | frontend/src/utils/formatDuration.js:7-9 | Under a minute the text reads back as the seconds. |
| FormatDuration.RoundTripWholeMinutes | frontend/src/utils/formatDuration.js:11-15 | Whole minutes read back as the seconds. |
| FormatDuration.RoundTripMixed | frontend/src/utils/formatDuration.js:11-18 | Minutes with seconds read back as the seconds. |
| FormatDuration.FormatDurationRoundTrip | frontend/src/utils/formatDuration.js:6-19 | Every duration can be read back exactly from its text. |
| FormatDuration.RateLimitMessageRoundTrip | frontend/src/utils/formatDuration.js:26-29 | The wait can be read back from the message. |

## Left out

- Database, network, `localStorage`, timers and the browser: the controller works on in-memory maps. A database transaction is one method call, and a rollback leaves the state unchanged. Calls to the API services become the parameters or results of the page methods.
- `updateStock` and `logStockMovement` are not part of this model. Receiving stock adds the quantity to the material, and a material missing from the stock table aborts the receipt. The logged movement holds exactly the fields the controller passes.
- The create, update, delete and receive handlers open their transaction as `t` but pass an undeclared `transaction` to their queries. As written, each would throw at its first query and answer 500 without changing anything. The model takes `transaction` to mean `t`.
- The list query and the search of the purchase-order index handler, and the database constraints on stored rows, are not modelled.
- The sales-order and work-order controllers are not part of this model. Their list pages are modelled on the client side only.
- Request-body validation middleware is not part of this model. Create and update take the status and the items as given. Body columns other than the header fields, `notes`, `total` and `created_by` (an `id` or timestamps, say) are not modelled.
- Validators.IsInRangeInclusive: the source's `isNumber` accepts a string holding a decimal numeral. The model treats every string as not a number.
- PoController.PurchaseOrderStore.Create: the generated order number is a parameter; the clock-based generator is left out.
- Numbers as text: `parseInt` and `parseFloat` of form text, `NaN`, and floating-point money are left out. Quantities and prices are integers, and the validators take real numbers.
- The dashboard reads summary totals that the server may send as strings. The model takes integers; it also leaves out the monthly chart, which is mock data.
- The pagination middleware is modelled only through its `limit` rule (LimitAccepted). The catalogue fetches with a limit of 1000 fail the same way as the statistics fetch: suppliers and materials on the purchase-order page, customers and products on the sales-order page, products on the work-order page. Their empty dropdowns are not modelled. Only the purchase-order cards are modelled for the statistics finding; the sales-order and work-order cards fail the same way.
- Dates: `formatDateTime` and the dayjs formatting of the range picker are parameters.
- Currency formatting, debounce and the download through a Blob are left out, and so are the remaining validators (phone, positive number).
- Tag colours of the stock log, the opened-submenu handler of the menu, icons, layout and every other piece of rendering are left out.
- Dashboard.StockByCategory: categories are grouped in first-seen order. JavaScript's `Object.keys` lists integer-like names such as "2" or "10" first, in ascending order, so the chart order differs for such categories. A category named after an inherited property, such as "constructor" or "__proto__", starts from that inherited value rather than 0 and is not modelled.
- Object key order: a row is a sequence of fields in insertion order. JavaScript orders integer-like keys first; no header here is integer-like.
- Table lookups: a key that names an inherited property of a JavaScript object (such as "constructor") is treated as unknown.
- Helpers.StringToColor: characters are code points rather than UTF-16 code units. The hash is kept as an exact integer, with only the shift wrapped to 32 bits. A JavaScript double holds the same value until the hash passes 2^53, which takes strings millions of characters long.
- Helpers.ExportCsv: a cell with a quote or a newline is not escaped, as in the source; `CsvSplitsIntoLines` and `CsvColumnsRoundTrip` therefore assume no newline (and, for columns, no comma) in any header or cell.
- OrderForm.Loaded: when an order is opened for editing, the form reads its `items` field. A purchase order fetched from the server carries its rows as `POItems`, so the form may see none. The model takes the stored rows as given.
- StockLogs.StockLogPage.DateRangeChange: it uses the corrected range behaviour; the behaviour as written is below.
- Dashboard.CategoryDataSpec: the placeholder case is stated two ways round but not as an if-and-only-if. A real category named "Tidak Ada Data" with stock 0 would look the same as the placeholder.

## Findings

| source | as written | input that shows it | evidently intended | confidence | as-written member | corrected member |
|---|---|---|---|---|---|---|
| frontend/src/pages/inventory/StockLogs.jsx:79-82 | Choosing a range calls the filter handler twice. Each call copies the same stale `filters` and sets one date, so the second update replaces the first and the chosen start date is lost. | Filters `{}`, dates `2024-01-01` and `2024-01-31`: the page ends with only `end_date = 2024-01-31`. | Both `start_date` and `end_date` are set. | not executed | StockLogs.DateRangeLosesStart | StockLogs.DateRangeChangedSpec |
| frontend/src/pages/transaction/PurchaseOrders.jsx:131 | `fetchStats` asks for `limit: 1000`. The list route's `validatePagination` (src/middleware/validation.js:132) refuses any limit above 100 with a 400. The `catch` then only logs, so the stat cards keep their initial zeros. The catalogue fetches at lines 113 and 122, and the same calls on the sales-order and work-order pages, fail the same way. | One stored pending order: the cards show total 0 and pending 0. | The cards count the stored orders, asking for a limit the route accepts. | not executed | OrderPages.StatsFetchKeepsZeros | OrderPages.CorrectedStatsCount |
