# Kitchen dashboard: a Dafny model

This project models the logic of the kitchen dashboard of a drinks ordering
platform (`client/src/pages/Kitchen.tsx`). Kitchen staff see the open orders
in three columns by status (accepted, preparing, ready). An accepted or
preparing order, and a ready pickup order, has one action button; a ready
delivery order has none. The preparing and ready buttons move the order one
step forward. The accepted button may instead open a dialog in which staff
record which stock products (ice, beer) were used for the order's first item.

The model separates what the page computes from what it changes:

- Pure functions, with lemmas about them:
  - joining orders with their items and users;
  - the three status columns;
  - the next-action table;
  - the ingredient candidate filter;
  - the edits to the staged ingredient selection;
  - the effects of "start production" and "confirm";
  - the live-channel event to notification mapping and the poll interval;
  - the WhatsApp phone normaliser.
- A class, `KitchenPage.Dashboard`, for the page's mutable state:
  - the connection flag;
  - the dialog target, the staged selection and the search text;
  - the two "request in flight" flags;
  - a log of the requests sent and the notifications shown.

  Its methods are the page's event handlers. "Confirm" sends one request per
  staged ingredient in a loop.

Network calls are not performed. Each is an entry appended to
`Dashboard.requests`:

- `UpdateStatus` stands for `PATCH /api/orders/{id}/status`;
- `AddIngredient` stands for `POST /api/orders/{id}/items/{itemId}/ingredients`.

Fetched data (orders, items, users, products, categories) enters as plain
sequences. Statuses and order types are strings, as in the source, so a status
outside the four known ones can occur and lands in no column.

Modules, one file each:

- `Seqs`: `filter` and `slice`.
- `Text`: ASCII case mapping, `includes`, `startsWith`, `\d`.
- `Domain`: records and requests.
- `Board`, `Ingredients`, `Selection`, `Dialog`, `Channel`, `Phone`: the pure parts.
- `KitchenPage`: the page state.

Some behaviours of the code that the model keeps:

- The action buttons share one page-wide "in flight" flag for status
  requests, which disables all of them (`Kitchen.tsx:176`, `190`, `205`).
  Nothing is tracked per order: a duplicate click is absorbed only because the
  button is disabled. The confirm button is not guarded by that flag. It is
  disabled only while an ingredient request is in flight (`Kitchen.tsx:354`),
  including when it sends the "preparing" status request for an empty
  selection (`Kitchen.tsx:346-348`).
- The deduct-stock checkbox sets the flag to the checkbox's new value. It does
  not negate the stored value (`Kitchen.tsx:311`).
- Confirming with staged ingredients sends no status request, so the order
  stays "accepted". A later "start production" click on an order with items
  opens the dialog again (`Dialog.OnStartProduction`). The order reaches
  "preparing" only through a confirm with nothing staged, or a second click
  while the dialog is already on that item.
- The category test is a substring test on the upper-cased name. Any category
  whose name contains "ICE" counts, for example "Juices"
  (`Ingredients.SubstringAdmitsJuices`).

## Model

| member | source | states |
|---|---|---|
| `Board.FindUser` | client/src/pages/Kitchen.tsx:107 | finds a user exactly when one has the order's user id; the one found is the first with that id |
| `Board.ItemsOf` | client/src/pages/Kitchen.tsx:110 | an item is attached to an order exactly when its `orderId` equals the order's id |
| `Board.ItemsOfKeepsOrder` | client/src/pages/Kitchen.tsx:110 | the items of an order keep response order: the filter distributes over concatenation and keeps a single item exactly when it belongs to the order, so `items[0]` (`:169`) is the order's first item in the response |
| `Board.Attach` | client/src/pages/Kitchen.tsx:106-114 | the view keeps the order; its items are `ItemsOf` the response for the order's id, so exactly its items in response order; name and WhatsApp are present exactly when a user with that id exists, and both come from the first such user |
| `Board.Join` | client/src/pages/Kitchen.tsx:106-114 | one view per order, in list order, each holding exactly the items whose `orderId` matches; the view at each index is `Attach` of the order there, so it carries that order's user name and WhatsApp number as `Attach` states |
| `Board.Column` | client/src/pages/Kitchen.tsx:152-154 | an order is in a status column exactly when it is in the list and has that status |
| `Board.OffBoard` | client/src/pages/Kitchen.tsx:152-154 | the orders that are in no column: exactly those whose status is not accepted, preparing or ready |
| `Board.ColumnKeepsOrder` | client/src/pages/Kitchen.tsx:152-154 | a column is an order-preserving filter: it distributes over concatenation and keeps a single order exactly when its status matches |
| `Board.ColumnsPartition` | client/src/pages/Kitchen.tsx:152-154 | the three column sizes plus the number of orders in no column add up to the number of orders |
| `Board.ColumnsDisjoint` | client/src/pages/Kitchen.tsx:152-154 | no order is in two columns |
| `Board.NextAction` | client/src/pages/Kitchen.tsx:162-216 | every action moves the status exactly one step along accepted → preparing → ready → delivered; no action exactly for a ready delivery order and for every status other than accepted, preparing and ready; a delivery order is never marked delivered |
| `Board.Lifecycle` | client/src/pages/Kitchen.tsx:162-216 | from accepted the actions lead to preparing, then ready; a pickup order then gets "customer picked up", a delivery order gets nothing; delivered gets nothing |
| `Board.OrderItemsQuery` | client/src/pages/Kitchen.tsx:92-104 | no orders, an empty joined id list or a failed response give no items; any items returned are the response's; with orders whose joined id list is not empty and an ok response, the result is exactly the response's items |
| `Board.Ids` | client/src/pages/Kitchen.tsx:92 | one id per order, the id of the order at the same index (`orders.map(o => o.id)`) |
| `Board.JoinIdsEmpty` | client/src/pages/Kitchen.tsx:92-97 | about `JoinIds` of `Ids`, the comma-joined id list (`join(',')`): it is empty exactly when there are no orders, or one order whose id is empty |
| `Ingredients.AllowedCategoryIds` | client/src/pages/Kitchen.tsx:219-226 | an id is allowed exactly when some category with that id has an upper-cased name containing "ICE" or "CERVEJAS" |
| `Ingredients.Matching` | client/src/pages/Kitchen.tsx:228-233 | a product matches exactly when its lower-cased name contains the lower-cased search, its stock is positive and its category is allowed |
| `Ingredients.MatchingKeepsOrder` | client/src/pages/Kitchen.tsx:228-233 | the matches keep product-list order: matching distributes over concatenation and keeps a single product exactly when it qualifies |
| `Ingredients.Candidates` | client/src/pages/Kitchen.tsx:228-234 | at most 10 entries; each is in stock, in an allowed category and contains the search text ignoring case; the list is a prefix of all matches in product order; its length is the number of matches capped at 10, so a match is left out only when 10 are shown |
| `Ingredients.EmptySearchMatchesAll` | client/src/pages/Kitchen.tsx:230 | an empty search text puts no constraint on the name |
| `Ingredients.ExampleCandidates` | client/src/pages/Kitchen.tsx:219-234 | with Gelo (ICE, stock 5), Cerveja X (CERVEJAS, stock 0) and Suco (SUCOS, stock 10) and an empty search, only Gelo is listed |
| `Ingredients.SubstringAdmitsJuices` | client/src/pages/Kitchen.tsx:223 | a category named "Juices" is an allowed category, because "JUICES" contains "ICE" |
| `Selection.Removed` | client/src/pages/Kitchen.tsx:298 | exactly the entries with a different product id remain; the removed id is no longer staged |
| `Selection.RemovedKeepsOrder` | client/src/pages/Kitchen.tsx:298 | removal keeps the order of what remains: it distributes over concatenation and drops a single entry exactly when it has the id |
| `Selection.Toggled` | client/src/pages/Kitchen.tsx:265-271 | the product's staged state flips; a staged product is removed: the result is `Removed` of the old list, so exactly the other entries remain, in their old order; an unstaged one is appended with quantity 1 and deduct set, after the unchanged old list |
| `Selection.WithDeduct` | client/src/pages/Kitchen.tsx:308-314 | same length, order, ids and quantities; only entries with the product id take the new deduct value |
| `Selection.RemovedKeepsUnique` | client/src/pages/Kitchen.tsx:298 | removing keeps staged product ids unique |
| `Selection.ToggledKeepsInvariant` | client/src/pages/Kitchen.tsx:265-271 | toggling keeps ids unique and quantities at 1 |
| `Selection.WithDeductKeepsInvariant` | client/src/pages/Kitchen.tsx:308-314 | setting the deduct flag keeps ids unique and quantities at 1 |
| `Selection.ToggleTwiceRestores` | client/src/pages/Kitchen.tsx:265-271 | toggling an unstaged product twice gives back the original selection |
| `Dialog.OnStartProduction` | client/src/pages/Kitchen.tsx:168-175 | opens the dialog for (order id, first item id) exactly when the order has a first item and the dialog is not already on that item; otherwise sends one "preparing" request for the order |
| `Dialog.IngredientRequests` | client/src/pages/Kitchen.tsx:333-341 | one add-ingredient request per staged ingredient, in selection order, each with the target's order and item id and the entry's product, quantity and deduct flag |
| `Dialog.IngredientRequestsAppend` | client/src/pages/Kitchen.tsx:333-341 | the requests for a selection extended by one entry are the old requests followed by that entry's request |
| `Dialog.Confirmation` | client/src/pages/Kitchen.tsx:330-352 | a closed dialog sends nothing; an open one sends the ingredient requests when some are staged, else exactly one "preparing" request for the target's order |
| `Dialog.NoStatusRequests` | client/src/pages/Kitchen.tsx:333-341 | a list made only of add-ingredient requests holds no status request |
| `Dialog.ConfirmationCounts` | client/src/pages/Kitchen.tsx:330-352 | confirming with N ≥ 1 staged sends N requests and no status request; with none staged, exactly one status request |
| `Dialog.StartThenConfirm` | client/src/pages/Kitchen.tsx:330-352 | after "start production" opens the dialog on an order with items, confirming sends requests only for that order: one "preparing" request when nothing is staged, else one ingredient request per entry for its first item |
| `Channel.Reaction` | client/src/pages/Kitchen.tsx:59-72 | a new order gives one three-tone notification; a status change gives one single-tone notification for "accepted" or "ready" and none otherwise; connection events give none |
| `Channel.PollInterval` | client/src/pages/Kitchen.tsx:77 | 30000 ms exactly when connected, 5000 ms exactly when not |
| `Phone.Digits` | client/src/pages/Kitchen.tsx:157 | the cleaned number holds exactly the characters of the input that are digits |
| `Phone.DigitsConcat` | client/src/pages/Kitchen.tsx:157 | cleaning keeps every digit in order and with its multiplicity: it distributes over concatenation, keeps a single digit and drops a single non-digit |
| `Phone.WhatsAppNumber` | client/src/pages/Kitchen.tsx:157-158 | only digits; starts with "55"; ends with the cleaned digits; is 2 longer than them exactly when they did not start with "55" |
| `Phone.DigitsOfDigits` | client/src/pages/Kitchen.tsx:157 | cleaning an all-digit string leaves it unchanged |
| `Phone.WhatsAppNumberIdempotent` | client/src/pages/Kitchen.tsx:157-158 | normalising a normalised number changes nothing |
| `KitchenPage.Dashboard.constructor` | client/src/pages/Kitchen.tsx:50-54 | disconnected, dialog closed, nothing staged, empty search, nothing in flight, nothing sent |
| `KitchenPage.Dashboard.OnEvent` | client/src/pages/Kitchen.tsx:56-73 | connect and disconnect set the connection flag; order events append their notifications; nothing else changes |
| `KitchenPage.Dashboard.SendStatus` | client/src/pages/Kitchen.tsx:116-119 | appends one status request and marks a status request in flight |
| `KitchenPage.Dashboard.StartProductionClick` | client/src/pages/Kitchen.tsx:168-175 | opens the dialog or sends the "preparing" request, as `OnStartProduction` decides |
| `KitchenPage.Dashboard.ActionClick` | client/src/pages/Kitchen.tsx:162-216 | nothing happens while a status request is in flight or when no action applies; otherwise start production, or exactly one "ready" or "delivered" request |
| `KitchenPage.Dashboard.Toggle` | client/src/pages/Kitchen.tsx:263-271 | the selection becomes `Toggled` of the old one and stays unique |
| `KitchenPage.Dashboard.Remove` | client/src/pages/Kitchen.tsx:298 | the selection becomes `Removed` of the old one |
| `KitchenPage.Dashboard.SetDeduct` | client/src/pages/Kitchen.tsx:307-314 | the selection becomes `WithDeduct` of the old one |
| `KitchenPage.Dashboard.SetSearch` | client/src/pages/Kitchen.tsx:253 | the search text becomes the typed text |
| `KitchenPage.Dashboard.Close` | client/src/pages/Kitchen.tsx:238-243 | target, selection and search are reset |
| `KitchenPage.Dashboard.Confirm` | client/src/pages/Kitchen.tsx:330-354 | while an ingredient request is in flight or the dialog is closed, nothing changes; otherwise appends `Confirmation` of the old target and selection to the sent requests and resets target, selection and search |
| `KitchenPage.Dashboard.StatusSettled` | client/src/pages/Kitchen.tsx:176 | the action buttons are enabled again |
| `KitchenPage.Dashboard.IngredientsSettled` | client/src/pages/Kitchen.tsx:354 | the confirm button is enabled again |
| `KitchenPage.DuplicateClickSendsOnce` | client/src/pages/Kitchen.tsx:185-195 | two "order ready" clicks before the first request settles send exactly one "ready" request |
| `KitchenPage.StartProductionFlow` | client/src/pages/Kitchen.tsx:168-175 | "start production" on an order with items sends nothing; confirming then sends two ingredient requests in staging order, or one "preparing" request when nothing was staged |

## Left out

- `client/src/components/layout/Header.tsx`: presentational only. Its `formatPrice` wraps `Intl.NumberFormat`, which is not part of this model.
- Rendering, the dialog and command widgets, icons, badges and routing. This includes the role redirect at `Kitchen.tsx:147-150` and logout.
- React Query caching, refetching and `invalidateQueries`. The fetched lists are plain inputs. Only the refetch interval (`Channel.PollInterval`) and the order-items guard (`Board.OrderItemsQuery`) are modelled.
- The server and the stock store. A request is only recorded as sent. What the server does with it, and whether it succeeds, is outside the model.
- `encodeURIComponent`, toasts, sound playback, `window.open` and the live-channel transport. Only the event-to-notification mapping is modelled.
- Unicode case mapping: `toUpperCase` and `toLowerCase` are modelled on ASCII letters only.
- Editing an ingredient's quantity: no code path changes it from 1.
- The dialog target's `categoryName`: it is always the empty string and never read.
- `KitchenPage.Dashboard.StatusSettled`: does not model when react-query's `isPending` turns false. The model keeps one flag per mutation hook and clears it when the caller says the in-flight request settled. With several ingredient requests in flight, react-query follows only the latest call.
- `KitchenPage.Dashboard.Toggle`, `Remove`, `SetDeduct` and `SetSearch` require the dialog to be open. Their controls exist only inside the open dialog.
