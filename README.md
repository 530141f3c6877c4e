# Ghar ka Khana — a verified model of the ordering site's logic

Ghar ka Khana is a home-kitchen ordering site. A customer browses a vegetarian menu, filters, searches and sorts it, and adds dishes to a cart kept in the browser. The customer then fills an order form and submits. The order goes to a small server. The page also offers a WhatsApp link that carries the order text to the kitchen.

The kitchen works from an admin dashboard, which exists in three versions:
- a scoring dashboard that ranks orders by urgency and changes statuses optimistically;
- a plain dashboard that changes a status only once the server has accepted it;
- a local preview that reads a static orders file.

This project models that logic in Dafny and proves what the scripts promise. Each script becomes one module:

| module | file | models |
|---|---|---|
| `Text`, `Html`, `Uri` | text.dfy, html.dfy, uri.dfy | the shared helpers: trimming, lower-casing, substring search, phone sanitising, `safeTxt`, `encodeRFC3986` (with its decoder), number labels |
| `OrderStatus` | status.dfy | the next-status table and the lifecycle it allows |
| `Priority` | priority.dfy | the triage score |
| `AdminDashboard`, `AdminDashboardV2`, `AdminLocal` | admin.dfy, admin_v2.dfy, admin_local.dfy | the three dashboards |
| `EventBus`, `ShopCart`, `Recommendations`, `WhatsApp` | events.dfy, cart.dfy, recommender.dfy, whatsapp.dfy | the storefront script |
| `Catalog`, `MenuView`, `MenuPage`, `MenuPageV2` | catalog.dfy, menu_view.dfy, menu_local.dfy, menu_v2.dfy | the menu pipeline and the two menu pages |
| `Checkout`, `OrderPage`, `OrderPageV2` | checkout.dfy, order_page.dfy, order_page_v2.dfy | the two order pages |
| `OrderServer` | server.dfy | the express server's order handling |
| `Orders`, `Seqs` | orders.dfy, seqs.dfy | shared records, and sequence tools such as the stable sort |

The model takes the form of the code. Where a script updates state, the model is a class whose methods modify its fields:
- the cart;
- the event bus;
- the recommender's counters;
- each dashboard and each page;
- the server's order list.

Each such method is specified by pure functions of the old state. The properties are proved about those functions. Pure helpers are functions and lemmas. Loops become `while` loops with invariants:
- the event bus's emit;
- the recommender's counting and scoring;
- the WhatsApp line builders;
- the admin dashboard's prioritize pass.

A value the browser or the host supplies is an input of the model:
- clock time is integer milliseconds, and the hour is a parameter;
- the answer to a confirmation dialog is a boolean;
- a fetch or file-write outcome is a boolean or a small datatype;
- `formatINR` is a function `fmt`;
- `localeCompare` is a rank function `collate`.

A missing string field is `""`. Scores are exact reals.

Where the design and the code disagree, the model follows the code:
- **Transition table not enforced.** The design says the optimistic dashboard checks every transition against the table. Its `updateStatus` never does: the `l` shortcut moves a PLACED order straight to DELIVERED (`AdminDashboard.ShortcutSkipsTable`).
- **Revert is partial.** The design says a failed transition restores the order exactly. The code restores only `status`, and `updatedAt` keeps the new stamp (`AdminDashboard.Dashboard.UpdateStatus`).
- **Confirmation.** The design asks for a confirmation on every transition. The plain dashboard asks only before CANCELLED (`AdminDashboardV2.Dashboard.OnOrdersClick`).
- **Server lifecycle.** The server's status route applies any of the five statuses to any order, even a delivered one (`OrderServer.PatchIgnoresLifecycle`).

## Model

| member | source | states |
|---|---|---|
| Text.TrimFacts | js/order.js:165-167 | `trim()` yields a piece of the input, no longer than it, whose first and last characters are not whitespace; it is empty exactly when the input is all whitespace |
| Text.IsNonEmptyMeans | js/main.js:62 | `isNonEmpty` holds exactly when the text has a non-whitespace character |
| Text.Lower | js/admin.js:406 | lower-casing keeps the length, maps A–Z to a–z and leaves every other character as it is |
| Text.Utf16Length | js/order.js:170-172 | `length` counts UTF-16 code units: at least one and at most two per character |
| Text.Utf16LengthBmp | js/order.js:170-172 | the count equals the number of characters exactly when no character lies outside the Basic Multilingual Plane |
| Text.LowerIdempotent | js/admin.js:406 | lower-casing twice is lower-casing once |
| Text.DigitsOnly | js/main.js:61 | `replace(/\D/g, '')` keeps only digits and never lengthens the text |
| Text.DigitsOnlyOfDigits | js/main.js:61 | text made of digits is left unchanged |
| Text.KeepLast | js/main.js:61 | `slice(-n)` is the suffix of length min(n, length) |
| Text.SanitizePhone | js/main.js:61 | `phoneSanitize` gives only digits, at most `keep` of them, and they are the last digits of the input |
| Text.SanitizePhoneIdempotent | js/order.js:197 | sanitising a sanitised phone changes nothing, so the order page's second pass is harmless |
| Text.SanitizePhoneOfDigits | js/order.js:24 | a phone of at most 12 digits is kept as it is |
| Text.ParseNatToString | public/js/admin.js:24 | the decimal label of a count reads back as that count |
| Html.EscapeChar | js/main.js:71 | each of `< > & " '` becomes an entity `&…;`; every other character is kept |
| Html.SafeTxt | js/main.js:70-72 | the escaped text contains no raw `<`, `>`, `"` or `'` and is at least as long as the input |
| Html.SafeTxtAppend | js/main.js:70-72 | escaping works character by character: it distributes over concatenation |
| Html.SafeTxtPlain | js/main.js:70-72 | text without special characters is unchanged |
| Html.SafeTxtGrows | js/main.js:70-72 | any of the five special characters makes the escaped text longer |
| Html.SafeTxtUnchanged | js/main.js:70-72 | escaping leaves a text unchanged exactly when it holds none of the five special characters |
| Html.UnescapeSafeTxt | js/main.js:70-72 | decoding the five entities gives back exactly the original text |
| Html.SafeTxtInjective | js/main.js:70-72 | different texts escape to different strings |
| Uri.Utf8 | js/main.js:64 | the UTF-8 form of a character, as encodeURIComponent writes it: one to four bytes, a single byte exactly for ASCII |
| Uri.EncodeChar | js/main.js:63-65 | one character's encoding is never empty and uses only unreserved characters, `%` and hex digits; a character stays itself exactly when it is unreserved |
| Uri.EncodeRFC3986 | js/main.js:63-65 | the output holds only unreserved characters, `%` and hex digits, so none of `! ' ( ) *` survives |
| Uri.EncodeUnreserved | js/main.js:63-65 | text of unreserved characters is left unchanged |
| Uri.PercentDecodeEncode | js/main.js:63-65 | percent-decoding the output gives the UTF-8 bytes of the input |
| Uri.Utf8AllDecodes | js/main.js:64 | decoding the UTF-8 bytes of a text gives the text back |
| Uri.EncodeRoundTrip | js/main.js:63-65 | decodeURIComponent(encodeRFC3986(s)) == s for every text |
| Uri.EncodeInjective | js/main.js:63-65 | different messages give different encodings |
| OrderStatus.NextStatuses | js/admin.js:251-257 | the next-map: only known, non-PLACED targets; empty exactly for DELIVERED, CANCELLED and unknown statuses; CANCELLED offered exactly from PLACED and CONFIRMED; at most two choices |
| OrderStatus.NextAdvances | js/admin.js:251-257 | every move leaves a known status for a strictly later stage |
| OrderStatus.NoExitFromTerminal | js/admin.js:255-256 | a status has no moves exactly when it is terminal or unknown |
| OrderStatus.RunAdvances | js/admin.js:251-257 | along any chain of moves the stage rises at every step, so a chain holds at most four statuses |
| OrderStatus.RunNeverRepeats | js/admin.js:251-257 | no status appears twice in a chain of moves |
| OrderStatus.AllReachable | js/admin.js:251-257 | PLACED→CONFIRMED→DISPATCHED→DELIVERED and PLACED→CANCELLED are chains of moves |
| OrderStatus.StatusButtons | js/admin.js:259-263 | one status button per next status, in table order |
| Priority.MinutesSince | js/admin.js:93 | the minutes since placement are never negative: elapsed ms / 60000, or 0 for a future timestamp |
| Priority.ValueScore | js/admin.js:96 | at most 1; non-negative for a non-negative total; 1 exactly when the total is at least 1000; total/1000 below that |
| Priority.StalenessScore | js/admin.js:99 | at most 1; non-negative for non-negative minutes; 1 exactly from 90 minutes on; minutes/90 below that |
| Priority.StatusWeight | js/admin.js:20-26 | a weight between 0 and 5, and 0 for an unknown status |
| Priority.StatusScore | js/admin.js:102-103 | weight/5 lies in [0, 1] and equals 1 exactly for PLACED |
| Priority.Explain | js/admin.js:93-113 | `_priorityExpl`: each sub-score as above; keyword boost 2 exactly when a lower-cased item name contains paneer, thali, dal or sabzi; rush boost 1 exactly for hours 12–15 and 19–22 |
| Priority.ScoreBounds | js/admin.js:116-122 | for a non-negative total the score lies in [0, 4.8], and reaches 4.8 only when every sub-score is at its maximum |
| Priority.TransitionLowersStatusScore | js/admin.js:20-26 | every move of the table lowers the status score strictly |
| Priority.TerminalScoresLowest | js/admin.js:102-103 | terminal and unknown statuses score at most 0.2; any status with a move left scores at least 0.4 |
| Priority.ScoreExample | js/admin.js:116-122 | total 500, 30 minutes old, PLACED, a paneer dish, hour 13: 0.25 + 0.1 + 1 + 2 + 1 = 4.35 |
| AdminDashboard.OrdersOf | js/admin.js:143 | the orders behind the annotated list, in order |
| AdminDashboard.Rescored | js/admin.js:89-125 | `prioritize` keeps the orders in place and annotates each with its score and explanation |
| AdminDashboard.IndexOf | js/admin.js:156 | `find` by id: the first order with that id, none exactly when no order has it |
| AdminDashboard.ViewContents | js/admin.js:289-300 | the rendered list holds only orders that pass the status filter and search, and every passing order with its full multiplicity |
| AdminDashboard.ViewOrder | js/admin.js:303-309 | AI sorts by score descending, Newest and Oldest by createdAt, High Value by total descending; orders with equal keys keep their order; any other mode keeps the filtered order |
| AdminDashboard.KeyToStatus | js/admin.js:351-354 | keys c, d, l and x (in either case) map to a known non-PLACED status; every other key maps to none |
| AdminDashboard.ShortcutSkipsTable | js/admin.js:352-354 | the shortcut `l` asks for DELIVERED, which the table does not offer from PLACED |
| AdminDashboard.Actions | js/admin.js:250-271 | the status buttons of the table, then WhatsApp and Print; a terminal order gets only those two |
| AdminDashboard.Dashboard.constructor | js/admin.js:35-43 | the initial state: no key, no orders, filter ALL, sort AI, polling off, no render yet, no error notice |
| AdminDashboard.Dashboard.Render | js/admin.js:274-309 | an unforced render with an unchanged hash changes nothing, so an error notice stays; otherwise the shown list is the filtered, sorted view and the error notice is gone; in both cases the hash recorded is the current one |
| AdminDashboard.Dashboard.Prioritize | js/admin.js:89-125 | the orders are rescored in place at the given time and hour; nothing else changes |
| AdminDashboard.Dashboard.FetchOrders | js/admin.js:139-152 | with no key nothing changes. A failed request puts the error notice in place of the cards and keeps the orders, the shown list and the render hash. Otherwise the orders are the response, scored, and a forced render follows |
| AdminDashboard.Dashboard.ReplaceAt | js/admin.js:164-167 | one order is replaced, all are rescored and a forced render follows |
| AdminDashboard.Dashboard.UpdateStatus | js/admin.js:154-184 | an unknown status or id, or a declined confirmation, changes nothing. Otherwise the order gets the new status and stamp first; a failed request restores only the old status and keeps the new stamp. Other orders keep their data; scores and view are recomputed |
| AdminDashboard.Dashboard.OnKeydown | js/admin.js:351-355 | a key without a status changes nothing; a mapped key has updateStatus's outcome and new state for that status: ignored for an unknown id, declined without confirmation, otherwise the stamped, rescored and re-rendered list, with the status put back after a failed request; the table is not consulted |
| AdminDashboard.Dashboard.OnSearchInput | js/admin.js:405-408 | the search is the trimmed, lower-cased input, and a forced render follows |
| AdminDashboard.Dashboard.OnFilterClick | js/admin.js:411-417 | the filter is the button's status or ALL, and a forced render follows |
| AdminDashboard.Dashboard.OnAdminKeyChange | js/admin.js:392-395 | the key is the trimmed input |
| AdminDashboard.Dashboard.StartPolling | js/admin.js:369-373 | polling is on afterwards, whether or not it was on before |
| AdminDashboard.Dashboard.StopPolling | js/admin.js:375-380 | polling is off afterwards, whether or not it was on before |
| AdminDashboard.Dashboard.TogglePolling | js/admin.js:382-384 | the polling flag flips |
| AdminDashboardV2.GetNextActions | js/admin.v2.js:213-220 | PLACED→[CONFIRMED, CANCELLED], CONFIRMED→[DISPATCHED, CANCELLED], DISPATCHED→[DELIVERED], anything else→[] |
| AdminDashboardV2.VisibleMeans | js/admin.v2.js:151-165 | the visible list is a subsequence of the orders holding exactly the orders that pass, each as often as it was loaded; with filter ALL and no search it is all of them |
| AdminDashboardV2.EmptyFieldsIrrelevant | js/admin.v2.js:157-164 | for a non-empty search, dropping empty fields changes nothing: an order passes when its status matches and some lower-cased id, name, phone, address or item name contains the search |
| Orders.SearchFields | js/admin.v2.js:157-159 | the searched fields: id, name, phone, address, then each item's name |
| AdminDashboardV2.Dashboard.constructor | js/admin.v2.js:76-79 | the saved key and filter are restored and remain the stored values; a missing filter is ALL; no timer is armed; the screen is the empty-state message |
| AdminDashboardV2.Dashboard.Render | js/admin.v2.js:148-173 | the cards of the visible orders, or the no-match message when none passes |
| AdminDashboardV2.Dashboard.Refresh | js/admin.v2.js:131-145 | with no key nothing changes. A failure keeps the orders and shows the error. A non-array response empties the list. An array replaces the orders and a render follows |
| AdminDashboardV2.Dashboard.Submit | js/admin.v2.js:82-88 | the key becomes the trimmed input. An empty key fetches nothing, stores nothing and leaves the screen. A non-empty key is stored and the refresh follows: the error screen on failure, otherwise the new orders rendered |
| AdminDashboardV2.Dashboard.SetFilter | js/admin.v2.js:106-113 | `GKKAdmin.filter` and the filter buttons: an empty status means ALL; the choice is stored, and the screen shows the cards that pass it |
| AdminDashboardV2.Dashboard.SetSearch | js/admin.v2.js:127 | `GKKAdmin.search`: the search is the lower-cased text, and the screen shows the cards that pass it |
| AdminDashboardV2.Dashboard.OnSearchInput | js/admin.v2.js:92-95 | the search is the trimmed, lower-cased input, and the screen shows the cards that pass it |
| AdminDashboardV2.Dashboard.OnOrdersClick | js/admin.v2.js:223-252 | an unknown id or missing next status changes nothing. Only CANCELLED asks for confirmation. Status and stamp change only after the server accepts, and then the screen is re-rendered; a decline or rejection leaves every order and the screen as they were |
| AdminDashboardV2.Dashboard.TogglePolling | js/admin.v2.js:255-263 | the old timer is cleared first, so at most one timer is armed, and none when auto-refresh is off |
| AdminDashboardV2.Dashboard.OnAutoRefreshChange | js/admin.v2.js:100-103 | auto-refresh follows the checkbox, and exactly one timer runs when it is on |
| AdminLocal.ViewMeans | public/js/admin.js:76-94 | only orders that pass the status filter and the joined-text search are shown, each with its multiplicity; Newest sorts by createdAt descending and keeps orders of the same time in loaded order; any other mode keeps the fetched order |
| AdminLocal.HaystackParts | public/js/admin.js:85-87 | the searched text is the lower-cased id, name, phone and address joined by spaces |
| AdminLocal.FieldMatchFound | public/js/admin.js:84-89 | a query found in one of the four fields is found in the joined text |
| AdminLocal.SpanningMatch | public/js/admin.js:84-89 | the joined text also matches a query that spans two fields, which no single field contains |
| AdminLocal.ItemNamesNotSearched | public/js/admin.js:85 | a query that occurs only in an item name finds nothing |
| AdminLocal.RenderActions | public/js/admin.js:137-157 | the table's status buttons, then WhatsApp; DELIVERED and CANCELLED get only WhatsApp |
| TimeAgo.TimeAgo | public/js/admin.js:20-27 | "just now" exactly under a minute; whole minutes with "m ago" under an hour; whole hours with "h ago" from an hour on |
| TimeAgo.TimeAgoReadsBack | public/js/admin.js:20-27 | the number in the label reads back as the whole minutes or whole hours elapsed |
| AdminLocal.Page.constructor | public/js/admin.js:8-13 | no orders, filter ALL, no search, sort Newest; the screen is the "No orders found" notice |
| AdminLocal.Page.Render | public/js/admin.js:71-135 | the cards of the view, or "No orders found" when it is empty |
| AdminLocal.Page.FetchOrders | public/js/admin.js:30-41 | a failure keeps the orders and shows the error; a success replaces them and renders |
| AdminLocal.Page.UpdateStatus | public/js/admin.js:44-51 | an unknown id or status, or a declined confirmation, changes neither the orders nor the screen. Otherwise the first order with that id gets the status and a stamp, with no table check, and the screen is re-rendered |
| AdminLocal.Page.OnSearchInput | public/js/admin.js:177-180 | the search is the trimmed input, lower-cased only when compared, and the screen shows the resulting view |
| AdminLocal.Page.OnFilterClick | public/js/admin.js:181-186 | the filter is the button's status, or ALL, and the screen shows the resulting view |
| EventBus.TargetsMeans | js/main.js:89-90 | one call per listener of the snapshot, in order |
| EventBus.AfterEmit | js/main.js:88-92 | an emit touches only the list of its own event |
| EventBus.RemoveFirstMeans | js/main.js:81-84 | removing an absent listener changes nothing; otherwise the list is one shorter |
| EventBus.RemoveFirstAt | js/main.js:83 | `splice(indexOf(fn), 1)` removes exactly the first occurrence |
| EventBus.OnThenOff | js/main.js:76-84 | `on` then `off` restores the list when the listener was new; when it was already there, the earlier copy goes |
| EventBus.SurvivorsAreFilter | js/main.js:85-92 | after an emit exactly the plain listeners remain, in order: every `once` wrapper removes itself |
| EventBus.SurvivorsPlain | js/main.js:85-87 | no `once` wrapper survives an emit |
| EventBus.EmitEnd | js/main.js:89-91 | after the whole snapshot has run, the calls made are its targets in order and the list is what survives |
| EventBus.SecondEmitKeeps | js/main.js:85-92 | a second emit removes nothing more |
| EventBus.Bus.constructor | js/main.js:23 | no listeners |
| EventBus.Bus.On | js/main.js:76-80 | the listener is appended to its event's list (created when missing), and the returned handle names that event and listener |
| EventBus.Bus.Off | js/main.js:81-84 | an unknown event changes nothing; otherwise the first occurrence of the listener is removed |
| EventBus.Bus.Unsubscribe | js/main.js:79 | the handle returned by `on` acts as `off` for that event and listener |
| EventBus.Bus.OnceOn | js/main.js:85-87 | a fresh wrapper of the target is appended |
| EventBus.Bus.Emit | js/main.js:88-92 | the targets of a snapshot of the list are called in order; the once wrappers are gone afterwards |
| ShopCart.CleanLine | js/main.js:140-144 | a saved line keeps id and name; price ≥ 0; quantity in [1, 99]; values already in range are kept |
| ShopCart.Cleaned | js/main.js:140-144 | `save` cleans every line, in order |
| ShopCart.CleanedIdempotent | js/main.js:140-144 | saving a saved cart changes nothing, and a clean cart is saved as it is |
| ShopCart.AddedMeans | js/main.js:155-162 | a known id raises that line to min(99, old + clamped qty), other lines unchanged; a new id is appended at the end; ids stay unique |
| ShopCart.CleanedKeepsIds | js/main.js:140-145 | saving keeps the ids, in order, and their uniqueness |
| ShopCart.RemovedMeans | js/main.js:166-169 | every line with the id goes, the others stay in order with their multiplicity, and ids stay unique |
| ShopCart.WithQty | js/main.js:173 | only the lines with the id get the new quantity |
| ShopCart.Items | js/main.js:177-182 | one view per line, with lineTotal = price × qty |
| ShopCart.TotalIsSumOfItems | js/main.js:176-182 | `total()` equals the sum of the items' line totals |
| ShopCart.TotalFacts | js/main.js:176 | the total of a clean cart is non-negative; appending a line adds price × qty |
| ShopCart.Cart.constructor | js/main.js:132-137 | the cart is the stored one |
| ShopCart.Cart.Save | js/main.js:139-149 | the cart becomes the cleaned lines, and `cart:updated` is emitted |
| ShopCart.Cart.Clear | js/main.js:150 | the cart is empty, and `cart:updated` is emitted |
| ShopCart.Cart.AddItem | js/main.js:151-165 | a missing id, a blank name or no price changes nothing. Otherwise the cart is the merged, cleaned lines; `cart:updated` is emitted; the add is tracked once |
| ShopCart.Cart.RemoveItem | js/main.js:166-169 | the cart loses every line with the id |
| ShopCart.Cart.UpdateQty | js/main.js:170-175 | the quantity is clamped to [0, 99]; 0 removes the line; otherwise only the matching lines change |
| Recommendations.TimeTag | js/main.js:219 | breakfast before 11, lunch from 11 to 15, dinner from 16 |
| Recommendations.Explain | js/main.js:258-263 | "Popular at " followed by the time tag |
| Recommendations.CoAfterCounts | js/main.js:205-210 | after tracking x, count(x, y) grows by the number of cart lines with id y ≠ x; every other count stays |
| Recommendations.CoAfterRows | js/main.js:208 | a row for x appears only when the cart holds another dish; other rows are untouched |
| Recommendations.PriceNorm | js/main.js:240-244 | the price bonus lies in [0, 1]; it is 1 at ₹200 and 0 for a missing price or one ₹300 or more away |
| Recommendations.ItemScore | js/main.js:228-245 | a score is never negative; it is at least 5 when the dish carries the current time tag; it is at least twice the session adds plus the co-occurrence counts with the cart |
| Recommendations.ScoresMeans | js/main.js:226-247 | only ids that are present, not excluded and scoring above 0 are scored, and every such item is |
| Recommendations.Take | js/main.js:252 | `slice(0, n)` is the prefix of exactly min(n, length) items; a negative n drops that many items from the end |
| Recommendations.RankedMeans | js/main.js:249-252 | exactly min(max(1, limit), number of scored dishes) scored menu dishes, best first; no scored dish left out scores above a dish kept; dishes with equal scores keep their menu order |
| Recommendations.RankedLeavesNoBetter | js/main.js:249-252 | a scored menu dish the ranking leaves out scores no higher than any dish it keeps |
| Recommendations.TopOfSorted | js/main.js:250-252 | the first n of a stable descending sort: exactly min(n, length) elements, sorted, none left out with a larger key, ties in the original order |
| Recommendations.SuggestionsMeans | js/main.js:214-255 | suggestions exclude the cart and the excluded ids and all score above 0; they are exactly the min(max(1, limit), number of scored dishes) best-scoring dishes, best first, equal scores in menu order |
| Recommendations.Recommender.constructor | js/main.js:197 | no session adds; the co-occurrence map is the stored one |
| Recommendations.Recommender.TrackAdd | js/main.js:199-212 | the add count of the dish grows by one, and the co-occurrence counts grow as CoAfterCounts states |
| Recommendations.Recommender.ScoreMenu | js/main.js:224-247 | the loop fills exactly the score map of the specification |
| Recommendations.Recommender.Suggest | js/main.js:214-256 | an empty menu gives no suggestions and no event; otherwise the ranking is returned and `ai:suggest` is emitted |
| WhatsApp.DestMeans | js/main.js:287 | the destination is a non-empty run of digits: the sanitised number, or 91 when it has no digits |
| WhatsApp.DestLink | js/main.js:285-288 | a link to that destination is not empty and reads back as the destination and the message |
| WhatsApp.PlaceholderDest | js/order.js:240 | the placeholder number +91XXXXXXXXXX sends to 91 |
| WhatsApp.LinkRoundTrip | js/main.js:285-288 | splitting the link at `?text=` and decoding gives back the destination digits and the exact message |
| WhatsApp.JoinContains | js/main.js:285 | every line of a message joined with newlines occurs in it |
| WhatsApp.OrderLinesNameItems | js/main.js:272-283 | the message has one line per dish, with name, quantity and line total |
| WhatsApp.OrderLinesV2NameItems | js/order.v2.js:267-274 | the same for the second order page's message |
| WhatsApp.PaymentLineIff | js/order.v2.js:267-274 | the message ends with "Payment:" exactly when a payment method is given, and with the address otherwise |
| WhatsApp.AiLinkMeans | js/main.js:265-289 | "" exactly for a missing or empty item list or an incomplete customer; otherwise the link reads back as the destination and the order lines, with a zero total replaced by the cart total |
| WhatsApp.FallbackLinkMeans | js/order.js:268-282 | "" exactly for a missing item list or an incomplete customer, so an empty list is accepted; otherwise the link reads back as the destination and the lines |
| WhatsApp.FallbackLinkV2Means | js/order.v2.js:265-278 | "" exactly for a missing or empty item list or an incomplete customer; otherwise the link reads back as the destination and the lines |
| WhatsApp.PushItemLines | js/main.js:273-278 | the loop appends one line per dish, in order |
| WhatsApp.BuildAiLink | js/main.js:265-289 | the storefront builder, guards then pushes, yields exactly AiLink |
| WhatsApp.BuildFallbackLink | js/order.js:268-282 | the first order page's builder yields exactly FallbackLink |
| WhatsApp.BuildFallbackLinkV2 | js/order.v2.js:265-278 | the second order page's builder yields exactly FallbackLinkV2 |
| Catalog.OnlyVegMeans | menu.v2.js:151-153 | exactly the dishes with `veg === true`, in order |
| Catalog.FilterItemsMeans | menu.v2.js:256-260 | "all" in any case keeps everything; otherwise exactly the dishes whose lower-cased category equals the lower-cased filter, in order |
| Catalog.SearchItemsMeans | menu.v2.js:262-268 | an empty search keeps everything; otherwise exactly the dishes whose lower-cased name, description or category contains it, in order |
| Catalog.SortItemsMeans | menu.v2.js:270-279 | a permutation of its input. priceLow: prices non-decreasing. priceHigh: non-increasing. name: by collation. Dishes with equal keys keep their order; any other mode returns the input order |
| Catalog.PipelineMeans | menu.v2.js:252-254 | every dish shown passes filter and search, and every passing dish appears with its full multiplicity |
| Catalog.FilterSearchMeans | public/js/menu.js:238-250 | search after filter keeps exactly the dishes passing both |
| Catalog.PictureURL | menu.v2.js:184-189 | with a menu path, the intended address as given; without one, the intended /images/<id>.jpeg already escaped once |
| Catalog.PictureURLEscaped | public/js/menu.js:196-201 | the intended address escaped exactly once, in both branches |
| Catalog.ImagesPathEscaped | menu.v2.js:185-188 | escaping the fallback address escapes only the id |
| Catalog.PictureSrc | menu.v2.js:199-202 | the text in `srcset` and `src` cannot end the attribute, and the browser reads pictureURL back from it |
| Catalog.PictureSrcAsWritten | menu.v2.js:184-202 | with a menu path the browser gets the intended address; without one it gets it exactly when the id holds none of the five special characters |
| Catalog.PictureSrcAmpersand | menu.v2.js:184-202 | for the id `a&b` with no menu path the browser does not ask for /images/a&b.jpeg |
| Catalog.PictureSrcOnce | public/js/menu.js:196-214 | escaping the address once cannot end the attribute, reads back as the intended address, and is the plain menu page's pictureURL |
| MenuView.Received | menu.v2.js:126 | a non-array body is taken as an empty menu |
| MenuView.FilterChoice | menu.v2.js:109 | `f \|\| 'All'` is never empty and selects the same dishes as `f` |
| MenuView.SortChoice | menu.v2.js:111 | `s \|\| 'featured'` is never empty |
| MenuView.SortChoiceSame | menu.v2.js:90 | defaulting an empty sort to featured orders every list the same way |
| MenuView.SearchTerm | menu.v2.js:81 | the search box value trimmed and lower-cased; empty exactly for a blank box |
| MenuView.ShownMeans | menu.v2.js:162-173 | "no dishes" exactly when no dish passes; otherwise the cards are dishes of the menu that pass, all of them |
| MenuPage.ScreenMeans | public/js/menu.js:160-177 | skeleton exactly while loading, else the error when there is one, else the cards exactly when some dish passes |
| MenuPage.OnClickAdd | public/js/menu.js:105-118 | the dish goes to addItem with quantity 1; the cart refuses a missing id, blank name or missing price |
| MenuPage.Page.constructor | public/js/menu.js:28-36 | stored filter and sort, or All and featured; no search; loading |
| MenuPage.Page.Render | public/js/menu.js:146-179 | the grid is the screen of the state; `filtered` is recomputed only when the pipeline runs |
| MenuPage.Page.LoadMenu | public/js/menu.js:121-143 | an unforced load with a menu only re-renders. Otherwise one fetch. A failure keeps the menu and sets the error. A success stores the body and clears the error. Loading ends either way |
| MenuPage.Page.Settle | public/js/menu.js:128-141 | the end of a load: loading off, then the error or the new menu, then a render |
| MenuPage.Page.SetFilter | public/js/menu.js:99 | the filter is `f \|\| 'All'`, stored, and rendered |
| MenuPage.Page.OnSearchInput | public/js/menu.js:73-76 | the search is the trimmed, lower-cased input |
| MenuPage.Page.SetSearch | public/js/menu.js:100 | the search is lower-cased but not trimmed |
| MenuPage.Page.SetSort | public/js/menu.js:101 | the sort is `s \|\| 'featured'`, stored, and rendered |
| MenuPageV2.LoadSuggestionsMeans | menu.v2.js:129-134 | at most three suggestions, all vegetarian menu dishes with an id that are not in the cart |
| MenuPageV2.DoubleTrackCounts | menu.v2.js:307-308 | tracking an add twice counts it twice, and doubles its co-occurrence counts |
| MenuPageV2.OnAddClickAsWritten | menu.v2.js:298-315 | as written: a valid click adds the dish, announces `cart:updated` and tracks the dish twice; a blank name changes neither the cart nor the events but tracks once |
| MenuPageV2.OnAddClick | menu.v2.js:298-315 | corrected: a valid click adds the dish and tracks it once |
| MenuPageV2.Page.constructor | menu.v2.js:37-45 | stored filter and sort, or All and featured; no search; loading; no suggestions |
| MenuPageV2.Page.Render | menu.v2.js:156-176 | the skeleton while loading; otherwise the pipeline's cards and the suggestion strip |
| MenuPageV2.Page.LoadMenu | menu.v2.js:115-149 | an unforced load with a menu only re-renders. Otherwise one fetch: a failure keeps the menu, clears suggestions and shows the error; a success keeps the vegetarian dishes and computes suggestions |
| MenuPageV2.Page.Loaded | menu.v2.js:125-136 | the vegetarian part of the body becomes the menu; suggestions are ranked, with `ai:suggest` emitted only when a dish has an id; a render follows |
| MenuPageV2.Page.AskSuggestions | menu.v2.js:129-134 | the suggestions are the ranking of the dishes with an id, limit 3, against the cart; `ai:suggest` is announced only when such a dish exists |
| MenuPageV2.Page.SetFilter | menu.v2.js:67-74 | the filter is the button's value or All, stored, and rendered |
| MenuPageV2.Page.OnSearchInput | menu.v2.js:80-83 | the search is the trimmed, lower-cased input |
| MenuPageV2.Page.SetSearch | menu.v2.js:110 | the search is lower-cased but not trimmed |
| MenuPageV2.Page.SetSort | menu.v2.js:89-93 | the sort is the choice or featured, stored, and rendered |
| Checkout.ValidateForm | js/order.js:160-182 | ok exactly when the error list is empty, which lists one message per broken rule in order; returns the trimmed name and address, the sanitised phone and the payment method |
| Checkout.RuleChecks | js/order.js:170-172 | each test on the trimmed or sanitised value is the rule as stated: name at least 2 and address at least 10 UTF-16 code units, phone at least 10 digits |
| Checkout.CollectErrors | js/order.js:164-173 | the pushes give the error list of the specification |
| Checkout.ErrorsMeans | js/order.js:164-181 | no errors exactly when all four rules hold, and each message is present exactly when its rule fails |
| Checkout.ErrorListMeans | js/order.js:170-173 | the list is empty exactly when every rule holds, and each message appears exactly when its rule fails |
| Checkout.ErrorListOrdered | js/order.js:170-173 | the errors come in the order name, phone, address, payment |
| Checkout.Increase | js/order.js:119 | min(q + 1, 99): a quantity in [1, 99] stays there |
| Checkout.Decrease | js/order.js:120 | max(q − 1, 1): never below 1, and a quantity in [1, 99] stays there |
| Checkout.StepMeans | js/order.js:117-121 | a step changes only that line's quantity, by one where room remains, and keeps the cart clean |
| Checkout.ClickedCartMeans | js/order.js:106-137 | an unknown line or other button does nothing. A stepper changes only that line. A removal waits for confirmation only above 3, and then drops the line |
| Checkout.WaItemsTotal | js/order.js:237 | the WhatsApp line totals add up to the cart total |
| OrderPage.BuildWhatsAppLink | js/order.js:262-283 | the storefront builder when present, otherwise the page's fallback |
| OrderPage.OrderPayloadMeans | js/order.js:195-200 | the phone sent is the validated one despite the second pass; the items are the cart's ids and quantities in order |
| OrderPage.SubmitLinkMeans | js/order.js:236-241 | after a valid submit the link is never empty, goes to 91 and names every dish of the cart |
| OrderPage.Page.constructor | js/order.js:36-76 | the remembered name and phone; nothing sent |
| OrderPage.Page.OnCartClick | js/order.js:106-137 | the cart becomes what the click gives, with `cart:updated`, or stays |
| OrderPage.Page.OnCartKeydown | js/order.js:139-157 | + and − step the line, Backspace and Delete remove it, other keys do nothing |
| OrderPage.Page.HandleSubmit | js/order.js:185-259 | nothing for an empty cart or invalid form. Otherwise the payload is posted and the customer remembered. On success the link is built from the cart and total taken before it is emptied; on failure the cart stays |
| OrderPage.Page.Post | js/order.js:203-258 | the post and its outcome, as above |
| OrderPageV2.BuildWhatsAppLink | js/order.v2.js:259-279 | the storefront builder when present, otherwise the page's fallback with the payment line |
| OrderPageV2.SubmitLinkMeans | js/order.v2.js:229-238 | after a valid submit the link is never empty, goes to 91 and names every dish of the cart |
| OrderPageV2.Page.constructor | js/order.v2.js:35-73 | the remembered name and phone; nothing sent |
| OrderPageV2.Page.OnCartClick | js/order.v2.js:104-131 | as on the first page |
| OrderPageV2.Page.OnCartKeydown | js/order.v2.js:133-151 | as on the first page |
| OrderPageV2.Page.HandleSubmit | js/order.v2.js:179-256 | nothing for an empty cart or invalid form; otherwise the payload carries the sanitised phone, and the cart is emptied only after success |
| OrderPageV2.Page.Post | js/order.v2.js:196-255 | the post and its outcome |
| OrderServer.MenuMapLookup | css/server.js:54 | the map knows exactly the menu's ids, and a repeated id maps to its last dish |
| OrderServer.BodyError | css/server.js:129-137 | valid exactly with a non-empty item list, a complete customer and a payment method; the checks run in that order |
| OrderServer.NormItem | css/server.js:140-147 | id kept; qty at least 1, and kept when it is at least 1; a client price wins, and with no client price and no menu entry the price is 0; a client name wins, and the name is empty only for an empty id |
| OrderServer.Normalized | css/server.js:140-147 | each item normalised, in order |
| OrderServer.NormalizedIdempotent | css/server.js:140-147 | normalising normalised items changes nothing |
| OrderServer.ItemsTotalBounds | css/server.js:150 | the total of valid items is non-negative and at least each item's qty × price |
| OrderServer.NewOrderMeans | css/server.js:152-165 | status PLACED with the given id and time; the phone is at most 12 digits and already sanitised; one item per posted item, with its id and a quantity of at least 1; the total is non-negative when all prices are |
| OrderServer.NewestFirstMeans | css/server.js:78-80 | a permutation by createdAt descending, ties in stored order |
| OrderServer.CheckPatch | css/server.js:105-115 | 403 before 400 before 404; otherwise the first order with the id |
| OrderServer.PatchIgnoresLifecycle | css/server.js:108-117 | a delivered order can be put back to PLACED, which the table forbids |
| OrderServer.Server.constructor | css/server.js:50-54 | the menu, its id map, the stored orders and the admin key |
| OrderServer.Server.GetMenu | css/server.js:65-69 | exactly the vegetarian dishes, in order |
| OrderServer.Server.GetOrders | css/server.js:72-82 | 403 on a key mismatch; otherwise every order newest first, orders created together in stored order; the stored list is untouched |
| OrderServer.Server.GetOrder | css/server.js:84-92 | 403 on a key mismatch, 404 for an unknown id, otherwise the first order with that id |
| OrderServer.Server.PatchStatus | css/server.js:102-122 | the checks in order. Otherwise only that order's status changes, with no table check and no stamp, and stays changed even when the write fails (500) |
| OrderServer.Server.PostOrder | css/server.js:125-175 | 400 with the first failing check and no change; otherwise the new order is appended and kept in memory even when the write fails (500) |

## Findings

| source | as written | input that shows it | evidently intended | confidence | as-written member | corrected member |
|---|---|---|---|---|---|---|
| menu.v2.js:307-308 | the Add handler calls `Cart.addItem`, which already calls `AI.trackAdd` (js/main.js:164), and then calls `AI.trackAdd` again | a click on Add for a valid dish while the cart holds another dish: the session count of the dish grows by 2, and its co-occurrence count with the other dish grows by 2 (MenuPageV2.DoubleTrackCounts) | every add counted once, as the plain menu page does | not executed; high | MenuPageV2.OnAddClickAsWritten | MenuPageV2.OnAddClick |
| menu.v2.js:184-202 | `pictureURL` escapes the id into the fallback address `/images/<id>.jpeg`, and the card and suggestion templates escape the whole address again inside `srcset="…"` and `src="…"` | a dish with id `a&b` and no image path: the attribute holds `/images/a&amp;amp;b.jpeg`, so the browser asks for `/images/a&amp;b.jpeg` (Catalog.PictureSrcAsWritten, Catalog.PictureSrcAmpersand) | escape the address once, as public/js/menu.js:196-214 does | not executed; medium | Catalog.PictureSrc | Catalog.PictureSrcOnce |

## Left out

- Page rendering: HTML templates, class toggles, focus, toasts, `printInvoice`, the clipboard and `window.open`. Screens are small datatypes.
- `fetch`, express routing and middleware, the 404 catch-all, body parsing, CORS and static files are left out. Each request's outcome is an input.
- File and storage access: the `fs` reads and writes and `localStorage` are left out. Stored values are constructor parameters and fields, and a write outcome is a boolean. Cross-tab `storage` sync is not modelled, and neither is the storefront re-reading the cart from storage when it is empty.
- Timers and concurrency: `setInterval`, `setTimeout`, `debounce` and `queueMicrotask` are left out. So are races between a poll and an in-flight status change. Polling is a flag or a set of armed handles, and every handler runs to completion.
- `toFixed(2)`, `Intl.NumberFormat` (`formatINR`, a parameter `fmt`) and `localeCompare` (a rank `collate`). Also `Date` parsing and the NaN an invalid date or price gives. Times are integers and scores exact reals.
- ShopCart.Cart.constructor: the cart's event bus and its recommender's bus are two objects in the model, with nothing tying them together. In js/main.js both are the one `GKK` bus, so the model does not state how `cart:updated` and `ai:suggest` interleave on that one list.
- Dishes and orders are records with typed fields. A missing string is `""` and a missing price is `None`. Non-string ids, `null` entries, `String(…)` coercions and `Number(…)` of text are not modelled. Quantities are whole numbers: a fractional quantity such as 2.5, which the cart's clamp keeps, is not modelled.
- `api/orders/*.js` and `api/dbtest.js` are thin wrappers over a SQL client with no logic of their own.
- The `Math.random` choice between page variants is not modelled.
- `whatsAppURL` of both admin dashboards (js/admin.js:187-204, public/js/admin.js:54-68) is left out. It is string assembly with no guard, and the order links it builds are covered by `WhatsApp`.
- The `print` and `wa` actions of the dashboards open windows; only their buttons are modelled.
- AdminDashboard.Dashboard.UpdateStatus: the request URL and method (`POST …:status`) do not match the server's `PATCH …/status` route. The model takes the request's outcome as an input and does not connect the two.
- AdminDashboard.Dashboard.constructor starts from an empty key and the ALL filter. Restoring them from storage at start-up is `OnAdminKeyChange` and `OnFilterClick` applied to the stored values.
- MenuPage.Page.constructor and MenuPageV2.Page.constructor do not load the menu. The load that `init` starts is a separate `LoadMenu` call.
- OrderPage.BuildWhatsAppLink and OrderPageV2.BuildWhatsAppLink choose between the storefront builder and the fallback by a flag. A storefront builder that throws, which makes the page fall back, is not modelled. When the storefront builder is used, the second page's payment method is dropped, as the code does.
- The pages' `window.Cart` missing case, where the handlers return early, is not modelled: the cart is always present.
- A menu file on the server that is not an array is not modelled: the menu is a sequence.
- Text.Lower: only A–Z are mapped. The full Unicode mapping of toLowerCase is not modelled: other capitals, the final sigma, and `İ`, which grows to two characters. So the case-insensitive searches, filters and keyword checks agree with the scripts on ASCII text only.
- EventBus.Bus.Emit: listeners are identities, and emit returns the identities it calls, in order. The payload handed to them and what a listener does are not modelled. That includes a listener that throws, or one that registers or removes listeners while the emit runs.
- Uri.EncodeRFC3986: characters are Unicode scalar values. A lone surrogate, on which encodeURIComponent throws, cannot occur.
