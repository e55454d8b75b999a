# evnt-ticket: a verified model of the ticketing core

evnt-ticket is an event-ticketing web application. Buyers browse events,
put ticket types in a cart and check out with a card through a payment
gateway. Tickets carry QR codes that scanners validate at the door.
Administrators manage events from a dashboard.

This project models in Dafny the parts of the application that make
decisions:

- **The ticket store** (`Store`, `Api`). These are the database tables the
  API client writes: events, ticket types, purchases and tickets. They are
  held in a class with one sequence per table. Every client operation
  becomes a method or function over that class: creating a purchase,
  updating its status, cancelling it with its ticket cascade, issuing
  tickets line by line, reporting an event's sales, and the three ticket
  and purchase queries. Each database failure is a parameter. The model
  also covers the QR identifier each ticket gets and the shared error
  handler.
- **Checkout and orders** (`CartPage`, `OrdersPage`). The cart page keeps
  the payment method on card. Its checkout checks its inputs, then writes
  one pending purchase, then issues the cart's tickets, then asks the
  gateway for a payment link and builds the order e-mail. The orders page
  covers badges and labels, which buttons appear, paying for a pending
  purchase, and the two-step cancellation.
- **The event hooks** (`UseEvents`). This is the ticket-quantity selector,
  a class over the quantity map whose key order follows insertion. It also
  covers the fetch-and-retry sequence that loads a user's tickets.
- **Access decisions** (`AuthContext`, `RoleGuard`, `AuthGuard`,
  `WithRoleProtection`). The authentication context's fallbacks and
  error classification are modelled, along with the row written for a
  first-time user and the in-progress guard around creating it. Each
  guard's redirect and render decisions are functions of the loading flag,
  the user, the role and the path.
- **Navigation** (`Breadcrumbs`, `BuyerLayout`, `AdminLayout`,
  `AdminSidebar`). Both layouts build a breadcrumb trail from the path. The
  admin sidebar filters its menu by role.
- **The profile page** (`ProfilePage`). It covers the initials drawn from a
  name and the profile built for a Google sign-in. It also covers the
  page's state, which loading, saving, cancelling and replacing the avatar
  update.

`Common` holds the JavaScript behaviour the model relies on:

- truthiness of optional strings;
- `filter`, `split`, `join` and `includes`;
- ASCII upper-casing;
- decimal rendering of timestamps.

`Sorting` holds a stable insertion sort. It stands for the database's
`ORDER BY` and for the string `sort()` of the event hooks. Under an
antisymmetric order, such as the string order of the hooks' id key, the
model proves that the result does not depend on the order of its input.
Orders by purchase time can tie. The model then keeps tied rows in table
order, a choice the database does not promise.

The clock, `Math.random`, the network, the payment gateway and the
database's failures are parameters. The pages' requests to `/api/payment`,
`/api/mails` and `/api/profile` are returned as the bodies they would
send; database queries are operations of `Store`.

## Model

| member | source | states |
|---|---|---|
| Api.RandomSuffixIsSubstring | lib/api.ts:705 | the random part of a QR code is `toString(36).substring(2, 11)` of the random number: its first nine base-36 digits |
| Api.RandomSuffixIsBase36 | lib/api.ts:705 | the random part consists of base-36 characters only |
| Api.GenerateQRCode | lib/api.ts:703-707 | a QR code records the clock reading it was made at and a random part of at most 9 characters |
| Api.QRText | lib/api.ts:706 | every stored QR string starts with `QR-` |
| Api.QRCodeRoundTrip | lib/api.ts:703-707 | the stored QR string gives back its timestamp and its random part |
| Api.QRTextInjective | lib/api.ts:703-707 | two QR codes with the same string are the same code |
| Api.HandleSupabaseError | lib/api.ts:11-18 | the error is swallowed iff a handler is registered and claims it; otherwise its message is thrown |
| Api.OrderingsArePreorders | lib/api.ts:341 | ordering by purchase time, ascending or descending, is a total preorder |
| Api.TicketsNearPurchase | lib/api.ts:326-341 | holds exactly the purchaser's tickets for the event bought within ±60 000 ms of the purchase, drawn from the table, oldest first |
| Api.EligibleTickets | lib/api.ts:541-546 | holds exactly the user's non-pending tickets, drawn from the table, newest first |
| Api.UserTicketSelection | lib/api.ts:558-569 | the result is at most `limit` long, holds only the user's non-pending tickets, and is newest first |
| Api.UserTicketSelectionKeepsNewest | lib/api.ts:566-569 | an eligible ticket is left out only when the page is full, and then it is no newer than any ticket shown |
| Api.UserPurchaseSelection | lib/api.ts:305-310 | holds exactly the user's purchases, drawn from the table, newest first |
| Api.CountOfTypeAppend | lib/api.ts:153-157 | counting tickets of a type over two lists adds the two counts |
| Store.WithPurchaseStatus | lib/api.ts:219-225 | a status update rewrites status and `updated_at` and keeps every other column |
| Store.CancelPendingTickets | lib/api.ts:250-258 | the cancel cascade keeps the tickets table's length |
| Store.CancelPendingTicketsExact | lib/api.ts:250-258 | the cascade cancels exactly the pending tickets of that purchaser for that event, keeping their id, type, price and code; paid, validated and all other tickets are unchanged |
| Store.CancelCascadeCrossesPurchases | lib/api.ts:256-258 | the cascade is keyed on purchaser and event, so it also cancels a pending ticket bought under another purchase of the same user for the same event |
| Store.SetTicketStatuses | lib/api.ts:272-276 | the bulk status update keeps the tickets table's length |
| Store.UpdatedRows | lib/api.ts:272-288 | the returned rows all belong to that user and event |
| Store.SetTicketStatusesExact | lib/api.ts:272-276 | every ticket of that user and event takes the new status, whatever its old one; no other ticket changes |
| Store.Copies | lib/api.ts:435 | `Array.from({ length: quantity })` makes max(0, quantity) copies |
| Store.NewTicket | lib/api.ts:397-408 | the inserted row carries the request's type, event, price and purchaser, the requested status or else pending, no scan time, and a fresh QR code |
| Store.InsertOutcome | lib/api.ts:399-422 | without a failure the row is inserted; with one the call returns null iff the auth handler claims the error, and throws otherwise |
| Store.InsertedRows | lib/api.ts:445-446 | only the successful inserts write rows |
| Store.InsertedRowsAppend | lib/api.ts:434-447 | the rows written by two batches of inserts are the first batch's followed by the second's |
| Store.FirstThrowOfInserts | lib/api.ts:445 | when every call wrote a row, `Promise.all` does not reject |
| Store.ReturnedTickets | lib/api.ts:446 | one returned ticket (or null) per call |
| Store.Input | lib/api.ts:436-442 | each `createTicket` call reads its own clock value, random digits and failure |
| Store.LineOutcomes | lib/api.ts:435-443 | one `createTicket` call per copy of a line |
| Store.IssueLinesHead | lib/api.ts:434-447 | a first line that threw ends the issuance with that error; otherwise the other lines follow |
| Store.IssueLinesAt | lib/api.ts:434-447 | the same holds for the line at any position |
| Store.IssueLinesStep | lib/api.ts:434-447 | each processed line either ends the issuance with its error or extends the record of calls made |
| Store.Repeat | lib/api.ts:435 | n copies of the same request |
| Store.Units | lib/api.ts:434-443 | the copies of all lines, Σ max(0, quantity) in all |
| Store.PlannedTickets | lib/api.ts:436-442 | a fault-free issuance writes one row per requested copy |
| Store.PlannedTicketsAppend | lib/api.ts:434-447 | planning two batches plans the first, then the second with later calls and ids |
| Store.PlannedTicketsFields | lib/api.ts:436-442 | planned row k is a pending, unscanned ticket for copy k with id `id + k` and the QR code of call k |
| Store.PlannedCopies | lib/api.ts:435-443 | one planned row per copy of a line |
| Store.PlannedLines | lib/api.ts:434-447 | Σ max(0, quantity) planned rows in all |
| Store.PlannedCopiesArePlanned | lib/api.ts:435-443 | planning a line's copies is planning its repeated request |
| Store.PlannedLinesHead | lib/api.ts:434-447 | the plan for a list of lines is the first line's copies followed by the plan for the rest |
| Store.PlannedLinesStep | lib/api.ts:434-447 | the same, stated for the flat list of copies |
| Store.PlannedLinesArePlanned | lib/api.ts:434-447 | planning line by line is planning the copies of every line in order |
| Store.LineOutcomesNoFault | lib/api.ts:435-445 | with no failures, every copy of a line writes its planned row |
| Store.LineIssuedInFull | lib/api.ts:435-445 | with no failures, a line writes every copy and nothing throws |
| Store.IssueHeadNoFault | lib/api.ts:434-447 | with no failures, the first line is issued in full and the issuance goes on |
| Store.IssueConsNoFault | lib/api.ts:434-447 | a fault-free issuance of the later lines extends to the whole list |
| Store.IssueLinesNoFault | lib/api.ts:434-447 | with no failures the issuance does not fail and writes the planned rows, line after line |
| Store.IssuedTicketsMatchLines | lib/api.ts:425-450 | with no failures exactly Σ max(0, quantity) tickets are written, in line order. Each is pending and unscanned, with its line's type, event, price and purchaser, and the ids are consecutive |
| Store.TicketTypeViewOf | lib/api.ts:164-168 | a reported ticket type keeps its row, carries its sold count, and reports availability equal to its total quantity, whatever was sold |
| Store.CountOfTypeAfterCancel | lib/api.ts:150-157 | tickets of every status count as sold, so the cancel cascade does not change any type's count |
| Store.CountSold | lib/api.ts:150-157 | the count map holds, for every type present, the exact number of its tickets; an absent type has none |
| Store.TicketTypeViews | lib/api.ts:162-169 | one view per ticket type, in order, with `soldCountMap[id] \|\| 0` |
| Store.IdsFreshAppend | lib/api.ts:200-208 | a new row taking the next id keeps row ids unique and below the counter |
| Store.CancelKeepsTicketIds | lib/api.ts:250-258 | the cascade keeps every ticket's id |
| Store.SetStatusesKeepsTicketIds | lib/api.ts:272-276 | the bulk update keeps every ticket's id |
| Store.UpdateKeepsPurchaseIds | lib/api.ts:219-225 | a status update keeps every purchase's id |
| Store.Database.GetPurchase | lib/api.ts:291-303 | the purchase with that id; with a failure, or with no such row, the error prefixed "Failed to get purchase: " |
| Store.Database.CreatePurchase | lib/api.ts:192-216 | exactly one new purchase: pending, with the given user, event, total and method. Tickets are untouched. A failure changes nothing and reports "Failed to create purchase: " |
| Store.Database.UpdatePurchaseStatus | lib/api.ts:218-234 | rewrites status and `updated_at` of the matching purchase only; a failure or a missing row changes nothing and reports an error |
| Store.Database.CancelPurchase | lib/api.ts:236-269 | a purchase that is not pending is refused with "Failed to cancel purchase: Cannot cancel purchase with status: …" and nothing changes. A pending one becomes cancelled and the cascade runs; a failing ticket update is ignored |
| Store.Database.UpdateTicketsByPurchase | lib/api.ts:271-289 | sets the status of every ticket of that user and event and returns them; a failure changes nothing |
| Store.Database.CreateTicket | lib/api.ts:389-423 | appends exactly the row the outcome describes, with the next id, and nothing else |
| Store.Database.CreateLineTickets | lib/api.ts:435-445 | makes the line's calls in order, appending the rows they write |
| Store.Database.CreateTicketsForPurchase | lib/api.ts:425-450 | issues line after line until a line's insert throws. Rows written before the failure stay. Without a failure, the result holds every returned ticket |
| Store.Database.TypesOfEvent | lib/api.ts:127-136 | exactly the event's ticket types |
| Store.Database.TicketsOfEvent | lib/api.ts:142-145 | exactly the event's tickets |
| Store.Database.GetEvent | lib/api.ts:126-175 | a missing event or a failed lookup is an error. Otherwise the event comes with its ticket types in order, each with the count of the event's tickets of its type (0 when the count query fails) and availability equal to its total |
| Store.Database.GetTicketsForPurchase | lib/api.ts:319-353 | any failure, including an unknown purchase, gives no tickets. Otherwise the result is the purchaser's tickets for that event within a minute of the purchase, oldest first |
| Store.Database.GetUserTickets | lib/api.ts:532-600 | a query that succeeds gives exactly the user's newest non-pending tickets, at most 50 (20 on the slow path), newest first. A failure the handler swallows gives none; any other is thrown |
| Store.Database.GetUserPurchases | lib/api.ts:305-317 | all the user's purchases, newest first, or the error prefixed "Failed to get user purchases: " |
| Store.CancelKeepsSoldCounts | lib/api.ts:147-171 | cancelling a purchase leaves every ticket type's sold count unchanged |
| Sorting.SortSorted | lib/api.ts:341 | the sorted result is ordered |
| Sorting.SortedUnique | lib/api.ts:341 | two ordered permutations of the same rows under an antisymmetric order are equal |
| Sorting.SortIgnoresInputOrder | hooks/use-events.ts:85 | under an antisymmetric order (the string order of the id key), sorting two permutations of the same values gives the same result |
| Sorting.SortMembers | lib/api.ts:341 | sorting keeps exactly the same rows |
| CartPage.LineOf | app/cart/page.tsx:72-78 | one request per cart item, with that item's type, event, unit price and quantity, and the buyer as purchaser |
| CartPage.TicketLines | app/cart/page.tsx:72-78 | the requests follow the cart items one to one, in order |
| CartPage.TicketLinesCopies | app/cart/page.tsx:72-80 | the checkout asks for exactly Σ max(0, item.quantity) tickets |
| CartPage.TicketLinesUnits | app/cart/page.tsx:72-80 | every requested copy is the request of one of the cart's items |
| CartPage.CheckoutIssuesWholeCart | app/cart/page.tsx:72-80 | with no database failures, the checkout writes one pending, unscanned ticket per requested copy. Each is owned by the buyer and carries the type, event and unit price of a cart item |
| CartPage.GatewayFailure | app/cart/page.tsx:84-145 | an answer without a payment link throws its error, or 'Failed to create payment'; a rejected `fetch` or `json()` reaches the `catch` with its own message |
| CartPage.EmailItems | app/cart/page.tsx:115-120 | one e-mail line per cart item, priced at price × quantity |
| CartPage.PaymentRequestOf | app/cart/page.tsx:89-98 | the payment request carries the amount, the user's id, the event, the purchase id and the payer's e-mail; the payer's name is the full name, or the e-mail when that is empty or missing, so a user with an e-mail is always named |
| CartPage.OrderEmailOf | app/cart/page.tsx:107-123 | the order e-mail carries the gateway's order id and QR code, the cart total, the cart's lines and the first name or '' |
| CartPage.Description | app/cart/page.tsx:161-163 | the toast shows the error's message, or 'Please try again' when it is empty |
| CartPage.Gate | app/cart/page.tsx:39-55 | the checkout goes on iff there is a user, the cart is not empty and the method is card |
| CartPage.PastGateMethodIsCard | app/cart/page.tsx:51-55 | past the checks the method is card, so the "mark paid immediately" branch cannot run |
| CartPage.CartPage.EnforceCardMethod | app/cart/page.tsx:32-36 | after the effect the payment method is card; nothing else changes |
| CartPage.CartPage.RequestPayment | app/cart/page.tsx:84-146 | the gateway is sent the payment request for the purchase, the cart's event and total. Without a payment link nothing is stored and the failure is reported. An answer reports its error or 'Failed to create payment'. A rejected request reports its own message, or 'Please try again' when that is empty. With one, the order e-mail is sent. A gateway error in the body stops there. Otherwise the purchase id and the cart are remembered and the link is shown |
| CartPage.CartPage.PlaceOrder | app/cart/page.tsx:57-166 | one pending purchase is written before the tickets and is never rolled back. Its total is the cart's total, and its event is the first item's. A ticket failure leaves it pending, and no payment request is sent. Once the tickets exist, the payment request names that purchase, its event and its total. The id counter advances by one for the purchase and one per inserted ticket. Any outcome but a shown link leaves the link, its dialog and both stored entries as they were. `isProcessing` ends false |
| CartPage.CartPage.HandlePurchaseTickets | app/cart/page.tsx:38-167 | a failed check writes nothing and sends nothing, and without a user the page goes to /auth. A non-card method is reset to card. Past the checks the method is card and the purchase stays pending whatever follows. The payment request and the id counter are as in PlaceOrder. Any outcome but a shown link leaves the link, its dialog and both stored entries as they were. `isProcessing` ends false |
| OrdersPage.PaymentMethodLabel | app/orders/page.tsx:64-79 | defined for every string and never empty |
| OrdersPage.PaymentMethodLabels | app/orders/page.tsx:64-79 | an unknown method reads as 'Credit/Debit Card', and the five stored methods get five different labels |
| OrdersPage.StatusBadge | app/orders/page.tsx:32-45 | a plain badge showing the status itself iff the status is none of the four known ones |
| OrdersPage.StatusBadgesDistinct | app/orders/page.tsx:32-45 | each of the four statuses gets its own coloured badge |
| OrdersPage.ButtonRules | app/orders/page.tsx:409-438 | Cancel is shown only with a pay button. A cancelled purchase shows neither button; a paid or validated one shows only the view button |
| OrdersPage.EmailItemOf | app/orders/page.tsx:134-139 | one unit per ticket, priced at `price_paid`, named after its type and event with 'Ticket' and 'Event' as fallbacks |
| OrdersPage.PaymentEmailItems | app/orders/page.tsx:134-152 | one line per ticket; with no tickets, a single 'Event Ticket' line at the purchase total |
| OrdersPage.TicketItemsSum | app/orders/page.tsx:134-139 | the lines of the tickets add up to the ticket count and to the price paid |
| OrdersPage.PaymentEmailTotals | app/orders/page.tsx:134-152 | the e-mail counts one unit per ticket (one without tickets), and its prices add up to what the tickets cost, or to the total without tickets |
| OrdersPage.FirstQRCode | app/orders/page.tsx:145 | '' iff there are no tickets; otherwise the first ticket's code, read back whole |
| OrdersPage.FirstName | app/orders/page.tsx:153 | first_name, else full_name, else the e-mail's local part, else ''; empty only when the first two are falsy |
| OrdersPage.PaymentEmailOf | app/orders/page.tsx:141-155 | the e-mail carries the purchase id and total, the ticket lines, the first QR code and the first name |
| OrdersPage.TypeName | app/orders/page.tsx:135 | the embedded type name is the name of a type with that id, and is missing only when there is none |
| OrdersPage.EventTitle | app/orders/page.tsx:136 | the embedded event title is the title of an event with that id, and is missing only when there is none |
| OrdersPage.OrdersPage.Details | app/orders/page.tsx:125-139 | one detail per fetched ticket, in order |
| OrdersPage.OrdersPage.OrderEmail | app/orders/page.tsx:121-176 | an e-mail is built iff the gateway answered. It is for that purchase and total, every line counts one unit, and a failed ticket lookup gives the single fallback line and no QR code |
| OrdersPage.OrdersPage.ShowPaymentResult | app/orders/page.tsx:177-199 | a payment link is remembered and shown. An answer without one reports its error or 'Failed to create payment'. A rejected request reports its own message, or 'Please try again'. The processing marker is cleared either way |
| OrdersPage.OrdersPage.HandleCompletePayment | app/orders/page.tsx:91-200 | without a user nothing happens. With one, the payment request names the purchase, its event and its stored total, and the e-mail follows every gateway answer. Only a reply with a payment link shows it. The processing marker always ends cleared |
| OrdersPage.OrdersPage.HandleViewPurchase | app/orders/page.tsx:81-89 | a purchase that is not pending goes to /tickets and changes nothing. A pending one goes through the payment flow with the same request, e-mail, link and failure message as HandleCompletePayment |
| OrdersPage.OrdersPage.HandleCancelOrder | app/orders/page.tsx:202-211 | a purchase that is not pending opens no dialog and changes nothing; a pending one opens the dialog for itself |
| OrdersPage.OrdersPage.ConfirmCancelOrder | app/orders/page.tsx:213-234 | without a target nothing happens. With one, a pending purchase is cancelled along with its purchaser's pending tickets for the event. A refusal or a failure reports the store's message and changes no table. Events, ticket types and the id counter never change. Afterwards there is no target and nothing is being cancelled |
| UseEvents.CodeUnitOrder | hooks/use-events.ts:85 | the default `sort()` order on strings is total, transitive and antisymmetric |
| UseEvents.TicketTypeIdsKey | hooks/use-events.ts:84-87 | no ticket types give the empty key |
| UseEvents.TicketTypeIdsKeyIgnoresOrder | hooks/use-events.ts:84-87 | the key depends on the ids only as a multiset, so reordering the types does not re-run the initialisation |
| UseEvents.SumAtUpdate | hooks/use-events.ts:118-120 | changing one key's quantity moves the total by the difference |
| UseEvents.SubtotalOfChosen | hooks/use-events.ts:122-136 | leaving out the unchosen types does not change the price total |
| UseEvents.QuantityIn | hooks/use-events.ts:124 | `quantities[id] \|\| 0` |
| UseEvents.TicketQuantities.Quantity | hooks/use-events.ts:124 | a missing id counts 0, and every stored quantity is at least 0 |
| UseEvents.TicketQuantities.Annotated | hooks/use-events.ts:131-134 | every type, in order, with its quantity |
| UseEvents.TicketQuantities.CalculateTotal | hooks/use-events.ts:122-127 | Σ price × quantity over the given types; no types give 0 |
| UseEvents.TicketQuantities.SelectedTickets | hooks/use-events.ts:129-136 | exactly the types with a positive quantity, each with its quantity, in input order |
| UseEvents.TicketQuantities.SelectedTicketsTotal | hooks/use-events.ts:122-136 | the checkout total can be computed from the selected tickets alone |
| UseEvents.TicketQuantities.Initialize | hooks/use-events.ts:90-102 | every given id maps to 0 and nothing else remains; an empty list clears the map |
| UseEvents.TicketQuantities.OnTicketTypes | hooks/use-events.ts:84-102 | the initialisation runs again only when the sorted id key changes |
| UseEvents.TicketQuantities.UpdateQuantity | hooks/use-events.ts:104-109 | the id becomes max(0, old-or-0 + change), other ids keep their values, and the total moves accordingly |
| UseEvents.TicketQuantities.SetQuantity | hooks/use-events.ts:111-116 | the id becomes max(0, quantity), other ids keep their values, and the total moves accordingly |
| UseEvents.TicketQuantities.Store | hooks/use-events.ts:105-114 | a new key goes last in iteration order, while an existing key keeps its place |
| UseEvents.RetryDelay | hooks/use-events.ts:186-190 | the wait before the next attempt is (retryCount + 1) × 500 ms, at least 500 |
| UseEvents.FetchErrorMessage | hooks/use-events.ts:197-204 | a timeout reads as the slow-connection advice, a network or fetch failure as the network advice, any other as its own message |
| UseEvents.RequestTimeoutIsTimeout | hooks/use-events.ts:185 | the 'Request timeout' test adds nothing to the 'timeout' test |
| UseEvents.Settle | hooks/use-events.ts:209-213 | the `finally` block clears `loading` only on the first call |
| UseEvents.FetchRunEnds | hooks/use-events.ts:156-213 | at most three attempts, with waits of 500 ms and 1000 ms. The run ends with the last attempt's tickets, or with its error message and no tickets |
| UseEvents.RetriedSuccessStaysLoading | hooks/use-events.ts:185-213 | as written, a failed first attempt followed by a successful retry leaves `loading` and `retrying` true |
| UseEvents.SettledFetchRun | hooks/use-events.ts:156-213 | corrected: every run ends with `loading` and `retrying` false, after at most three attempts, with the tickets of the attempt that loaded |
| UseEvents.SettledRunAgrees | hooks/use-events.ts:156-213 | the corrected run differs from the written one in those two flags only |
| UseEvents.SettledRunTail | hooks/use-events.ts:185-191 | the rest of a run does not depend on the two flags it starts with |
| UseEvents.UserTickets.Attempts | hooks/use-events.ts:163-213 | the state after the attempts, and the attempts and waits made, are those of the run |
| UseEvents.UserTickets.FetchTickets | hooks/use-events.ts:156-214 | without a user id (none, or empty) the list is emptied and loading ends; otherwise the attempts follow the run |
| AuthContext.EmailLocalPart | contexts/auth-context.tsx:188 | missing iff there is no e-mail; otherwise the part before the first '@' |
| AuthContext.ExtractUserName | contexts/auth-context.tsx:183-191 | the first non-empty of full_name, name, display_name and the e-mail's local part, else 'Usuario'; never empty |
| AuthContext.ExtractAvatarUrl | contexts/auth-context.tsx:194-201 | the first non-empty of avatar_url, picture and photo, else null |
| AuthContext.AuthErrorMessage | contexts/auth-context.tsx:205 | message, else error_description, else error, else '' |
| AuthContext.IsAuthErrorCharacterized | contexts/auth-context.tsx:205-216 | an error signs the user out iff its message contains one of the five phrases, or its status is 401, or its code is PGRST301 |
| AuthContext.UserRole | contexts/auth-context.tsx:334 | the users table's role, else user_metadata's, else app_metadata's, else none; never empty |
| AuthContext.UserFullName | contexts/auth-context.tsx:335 | the users table's name, else user_metadata's full_name, else its name, else none; never empty |
| AuthContext.HasAnyRoleCharacterized | contexts/auth-context.tsx:338-344 | `hasAnyRole(rs)` holds iff `hasRole(r)` holds for some r in rs; without a role it is false |
| AuthContext.NewUserRow | contexts/auth-context.tsx:118-127 | a first-time user's row has role 'buyer', is active, and takes its name, avatar, phone and verification from the provider's data |
| AuthContext.NewUserIsBuyer | contexts/auth-context.tsx:122 | read back through the role fallbacks, a first-time user is a buyer |
| AuthContext.UserDirectory.BeginCreation | contexts/auth-context.tsx:94-100 | creation proceeds iff the id is not in the set the calling closure captured; if it proceeds, the id is marked in the current set, and otherwise nothing changes |
| AuthContext.UserDirectory.FinishCreation | contexts/auth-context.tsx:129-179 | a lookup error other than PGRST116 fails. An existing user is kept. An absent one is inserted with the defaults unless the insert fails. In every case the id leaves the in-progress set |
| AuthContext.UserDirectory.CreateUserInDatabase | contexts/auth-context.tsx:92-180 | corrected: reading the current set, it returns at once when the id is already in progress. Otherwise it leaves the in-progress set as it found it, and only a successful creation adds a row |
| AuthContext.UserDirectory.CreateFromAuthEffect | contexts/auth-context.tsx:92-180 | as the authentication effect calls it, the creation always goes ahead. Its `finally` also clears another creation's mark for the id. Only a successful creation adds a row, a buyer and active |
| AuthContext.UserDirectory.AsWrittenOverlap | contexts/auth-context.tsx:94-100 | as written, two overlapping creations of the same id from the authentication effect both pass the guard |
| AuthContext.UserDirectory.GuardedOverlap | contexts/auth-context.tsx:94-100 | corrected: reading the current set, the second of two overlapping creations of the same id is refused |
| RoleGuard.RouteIndex | components/auth/role-guard.tsx:168 | the first table entry equal to the path, if any |
| RoleGuard.FirstRouteAbove | components/auth/role-guard.tsx:173-177 | the first route, in table order, with route + '/' or route + '?' a prefix of the path |
| RoleGuard.RolesForCharacterized | components/auth/role-guard.tsx:166-181 | an exact entry gives its own roles, even []. Otherwise the first route in table order that the path lies under decides. Otherwise no role is required |
| RoleGuard.RolesForNoRoute | components/auth/role-guard.tsx:180 | a path that is no route and lies under none requires no role |
| RoleGuard.RootIsNeverAbove | components/auth/role-guard.tsx:174 | `/` lies above a path only through `//` or `/?` |
| RoleGuard.DefaultRoute | components/auth/role-guard.tsx:36-40 | admin → /resumen, scanner → /escaner, anyone else → / |
| RoleGuard.RoleRedirect | components/auth/role-guard.tsx:51-90 | no navigation while loading or without a user. A denied user goes to their role's home. Otherwise only an admin or a scanner on `/` is sent on |
| RoleGuard.RoleGuardView | components/auth/role-guard.tsx:93-162 | a spinner iff loading; the denied card iff a signed-in user lacks every required role of a non-empty set |
| RoleGuard.DeniedViewRedirects | components/auth/role-guard.tsx:64-72 | the denied card always comes with a redirect to the role's home |
| RoleGuard.RootRedirects | components/auth/role-guard.tsx:76-87 | on `/` an admin goes to /resumen and a scanner to /escaner, while a buyer stays; any other role is denied and sent to `/` |
| RoleGuard.RootRoles | components/auth/role-guard.tsx:32 | `/` requires buyer, admin or scanner |
| RoleGuard.RequiredRolesExamples | components/auth/role-guard.tsx:166-181 | /auth needs no role, /tickets/x needs a buyer and /orders needs no role |
| RoleGuard.AuthRoles | components/auth/role-guard.tsx:31 | the exact entry `/auth` gives [], so no role is required |
| RoleGuard.TicketPageRoles | components/auth/role-guard.tsx:173-177 | /tickets/x lies under /tickets and needs a buyer |
| RoleGuard.OrdersRoles | components/auth/role-guard.tsx:180 | /orders matches no route and needs no role |
| RoleGuard.UnderRouteStartsWith | components/auth/role-guard.tsx:174 | a path under a route starts with it |
| AuthGuard.ProtectingRoute | components/auth/auth-guard.tsx:44 | the first protected route that is a raw prefix of the path, if any |
| AuthGuard.IsProtectedCharacterized | components/auth/auth-guard.tsx:44 | a path is protected iff some listed route is a raw string prefix of it |
| AuthGuard.ProtectionExamples | components/auth/auth-guard.tsx:8-28 | /eventsX is protected; /, /auth and /orders are not |
| AuthGuard.AuthRedirect | components/auth/auth-guard.tsx:39-60 | /auth iff loaded, signed out and on a protected path; / iff loaded, signed in and on /auth; nothing else |
| AuthGuard.AuthGuardView | components/auth/auth-guard.tsx:63-83 | the children render iff loaded and either signed in or on an open path |
| AuthGuard.SpinnerMeansSignIn | components/auth/auth-guard.tsx:48-83 | once loaded, a spinner shows exactly while a signed-out user is sent to /auth |
| AuthGuard.ProtectedRoutesNeedRoles | components/auth/auth-guard.tsx:8-28 | every protected page is also one the role guard requires a role for |
| WithRoleProtection.ProtectionRedirect | components/auth/with-role-protection.tsx:27-50 | no navigation while loading, and /auth without a user. A user without an allowed role goes to the truthy `redirectTo`, else their role's home |
| WithRoleProtection.ProtectionView | components/auth/with-role-protection.tsx:52-128 | a spinner iff loading or a disallowed user with the denied card off. The denied card iff loaded and a signed-in user is disallowed with it on |
| WithRoleProtection.ViewsComeWithRedirect | components/auth/with-role-protection.tsx:27-128 | once loaded, a spinner or the denied card shows only while a signed-in user is sent away |
| WithRoleProtection.SignedOutSeesWrapped | components/auth/with-role-protection.tsx:128 | as written, a signed-out visitor gets the wrapped page while being sent to /auth |
| WithRoleProtection.GuardedProtectionView | components/auth/with-role-protection.tsx:52-128 | corrected: the page renders iff loaded and a signed-in user holds an allowed role |
| WithRoleProtection.GuardedViewAgrees | components/auth/with-role-protection.tsx:52-128 | the correction changes nothing while loading or for a signed-in user |
| WithRoleProtection.ConvenienceRoles | components/auth/with-role-protection.tsx:133-143 | admin lets in admins; scanner lets in admins and scanners; buyer lets in buyers; authenticated lets in any of the three. All four show the denied card |
| WithRoleProtection.NoRoleTurnedAway | components/auth/with-role-protection.tsx:133-143 | a user without a role is denied by every ready-made wrapper and sent to / |
| Breadcrumbs.Segments | components/buyer-layout.tsx:25 | the segments are non-empty and contain no '/' |
| Breadcrumbs.HrefExtends | components/buyer-layout.tsx:44 | each href is the previous one followed by '/' and the next segment |
| Breadcrumbs.SegmentCrumbs | components/buyer-layout.tsx:42-51 | one crumb per segment, in order |
| Breadcrumbs.TrailShape | components/buyer-layout.tsx:42-51 | home first, then exactly one crumb per segment, each labelled from the map (else capitalised), linking to its prefix, active only when last |
| Breadcrumbs.HrefsNest | components/buyer-layout.tsx:44 | each href is a proper prefix of the next |
| Breadcrumbs.RootHasNoSegments | components/buyer-layout.tsx:25 | `/` has no segments |
| Breadcrumbs.OneSegment | components/buyer-layout.tsx:25 | `/w` has the one segment w |
| BuyerLayout.GenerateBreadcrumbs | components/buyer-layout.tsx:24-54 | the loop builds exactly the trail |
| BuyerLayout.BuyerCrumbsShape | components/buyer-layout.tsx:29-51 | Home (active iff on /) first, then one crumb per segment, only the last active, each href extending the one before |
| BuyerLayout.HomeTrail | components/buyer-layout.tsx:29 | on / the trail is Home alone, active |
| AdminLayout.KeptCrumbs | components/admin-layout.tsx:43-50 | at most one crumb per segment |
| AdminLayout.GenerateBreadcrumbs | components/admin-layout.tsx:24-53 | the loop builds exactly the trail |
| AdminLayout.PushKeptCrumbs | components/admin-layout.tsx:43-50 | the loop appends exactly the kept segments' crumbs |
| AdminLayout.KeptCount | components/admin-layout.tsx:43-50 | one crumb per segment other than `resumen` |
| AdminLayout.KeptSound | components/admin-layout.tsx:43-50 | every crumb comes from a segment other than `resumen`, at its original index |
| AdminLayout.KeptComplete | components/admin-layout.tsx:43-50 | every segment other than `resumen` has its crumb |
| AdminLayout.NoneActiveBefore | components/admin-layout.tsx:47 | before the last segment no crumb is active |
| AdminLayout.ActiveCrumb | components/admin-layout.tsx:47 | only the last crumb can be active, and it is iff the path's last segment is not `resumen` |
| AdminLayout.HrefKeepsSkippedSegment | components/admin-layout.tsx:46 | a skipped `resumen` still appears in the hrefs after it |
| AdminLayout.DashboardTrail | components/admin-layout.tsx:29 | on /resumen the trail is the active Dashboard crumb alone |
| AdminSidebar.VisibleItems | components/admin-sidebar.tsx:75-80 | an admin sees the whole list. Anyone else sees exactly the items that are not admin-only. Either way the result is an order-preserving subsequence |
| AdminSidebar.MenuSizes | components/admin-sidebar.tsx:24-80 | an admin sees all seven items; anyone else sees the four that are not Create Event, Analytics or Registration |
| AdminSidebar.EveryoneMenu | components/admin-sidebar.tsx:24-80 | the non-admin menu is Dashboard, My Events, Attendees, Scanner, in that order |
| AdminSidebar.AdminUrlsDistinct | components/admin-sidebar.tsx:24-60 | the menu's urls are distinct |
| AdminSidebar.AtMostOneActive | components/admin-sidebar.tsx:109 | whatever the role and path, at most one item is highlighted |
| ProfilePage.FirstChars | app/profile/page.tsx:182 | the first character of each word, '' for an empty word |
| ProfilePage.Words | app/profile/page.tsx:181 | a name's words are non-empty and contain no space |
| ProfilePage.InitialsAreFirstLetters | app/profile/page.tsx:181-183 | the joined first characters are the first letters of the non-empty words, in order; empty words add nothing |
| ProfilePage.GetInitials | app/profile/page.tsx:179-186 | at most two characters: the upper-cased first letters of the first two words |
| ProfilePage.TwoWords | app/profile/page.tsx:181 | a first and a last name, each without spaces, one space apart, are the name's two words |
| ProfilePage.TwoWordInitials | app/profile/page.tsx:179-186 | a first and a last name one space apart give their two upper-cased initials |
| ProfilePage.BlankNameInitials | app/profile/page.tsx:179-186 | a name of spaces only has no initials |
| ProfilePage.GoogleProfile | app/profile/page.tsx:65-77 | name: full_name, else name, else the e-mail's local part, else 'Usuario'. Role: the provider's when truthy, else 'buyer'. Avatar: avatar_url, else picture, else ''. The profile is active and marked as Google's. Missing times read as now |
| ProfilePage.GoogleProfileAgreesWithContext | app/profile/page.tsx:68-70 | the page's name agrees with the authentication context's unless only a display_name was sent; the avatar agrees unless only a photo was sent |
| ProfilePage.FormOf | app/profile/page.tsx:156-160 | the form shows the profile's name, and its phone and avatar or '' |
| ProfilePage.EditableFields | app/profile/page.tsx:348-470 | no inputs outside edit mode; in it, the phone and the avatar, and the name only for a user not from Google |
| ProfilePage.ProfilePage.LoadProfile | app/profile/page.tsx:54-101 | a Google user gets the built profile, anyone else the fetched one, and the form follows it. A failed fetch keeps both. Loading ends |
| ProfilePage.ProfilePage.StartEditing | app/profile/page.tsx:254-270 | the Edit button enters edit mode and changes nothing else |
| ProfilePage.ProfilePage.HandleSave | app/profile/page.tsx:103-152 | without a user or a profile nothing happens. For a Google user only the phone and the update time change, and the phone is sent iff it differs from the stored one. A failed send is ignored and editing ends. Anyone else's whole form is sent, and the reply becomes the profile; a failed reply keeps the profile and edit mode. Saving ends |
| ProfilePage.ProfilePage.HandleCancel | app/profile/page.tsx:154-163 | the form is reset from the profile ('' for missing fields), if any, and edit mode ends |
| ProfilePage.ProfilePage.HandleAvatarUpdate | app/profile/page.tsx:165-177 | nothing without a profile. Otherwise the new URL goes into both the profile (with a new update time) and the form, and the rest is unchanged |
| ProfilePage.AvatarUpdateKeepsStep | app/profile/page.tsx:165-177 | replacing the avatar keeps a form that matched its profile matching it |
| ProfilePage.GoogleSaveKeepsStep | app/profile/page.tsx:112-131 | after a Google save the stored phone reads back as the one typed |
| ProfilePage.GoogleNameFixed | app/profile/page.tsx:348 | a Google user is never offered a name input |

## Left out

- Rendering is not modelled: markup, icons, toasts, `alert`, `console` output, and the confirmation and payment dialogs. Where a view decides between outcomes, that choice is modelled as a datatype.
- Navigation with `router.push` is modelled as a returned target. `router.back` and the `refetch` after a cancellation are not modelled.
- The network, Supabase and the payment gateway are not modelled. `/api/payment`, `/api/mails` and `/api/profile` are replaced by parameters: the database's failure for each query, the gateway's reply, and the profile endpoint's reply. Avatar upload and deletion are not modelled.
- The order e-mail is returned as the request the page would send. The e-mail endpoint's own failure is ignored by the source, so it is not a parameter.
- The clock, `Date.now()`, `new Date().toISOString()` and `Math.random` are parameters. Timestamps are milliseconds since the epoch, and ISO strings are assumed to order the same way.
- One `now` parameter stands for a group of separate clock reads. In `createPurchase`, the two `new Date()` calls for `purchased_at` and `updated_at` (lib/api.ts:204-205) share one value. In `createTicket`, the `Date.now()` inside `generateQRCode` and the `new Date()` for `purchased_at` (lib/api.ts:397, 405, 703-707) share one value. The source's values can differ by the time between the reads.
- `setTimeout` is not modelled as time. A retry follows immediately, with its delay recorded. The payment dialog opens as if the 500 ms delay had passed.
- Store.Input: an issuance's calls past the supplied list read clock 0, no random digits and no failure. This is a totality convention, not behaviour of the source.
- `formatPrice`, `formatDate`, the environment's base URL in e-mail links, and the `Promise.race` 1-second timeout message are not modelled. That the hook's own timeout message lacks "timeout", and so is retried, is not proved.
- Prices are integers in the smallest currency unit; floating-point arithmetic is not modelled.
- `toUpperCase` is modelled for ASCII letters only. Other characters are left unchanged.
- Objects used as maps (`pathMap`, `ROUTE_PERMISSIONS`, `DEFAULT_REDIRECTS`, the quantities record) are modelled as maps and sequences. Keys that hit `Object.prototype` members (`constructor`, `toString`) are not modelled. Neither is the numeric-key-first iteration order of JavaScript objects.
- Ties in the database's `ORDER BY purchased_at` are left in table order. The database leaves their order unspecified, so the model fixes one of the orders it may return.
- Strings are sequences of characters (code points). JavaScript indexes UTF-16 code units. Above U+FFFF the two differ in `charAt(0)` of the initials, in the breadcrumb capitalisation, in `substring(2, 11)` of the QR suffix, in `split` and in lengths. Below it they agree.
- UseEvents.CodeUnitLe compares characters by code point, where JavaScript's `sort()` compares UTF-16 code units. The two orders differ only above U+FFFF. The key-equality behaviour is the same either way, since both orders are antisymmetric.
- RoleGuard.RoutePermissions lists the routes in declaration order. This is the order `Object.entries` yields for these non-numeric keys.
- Store.Database.UpdateTicketsByPurchase filters on a `user_id` column that ticket rows do not declare. The model reads that column as the purchaser column. The source's only caller of this operation is the unreachable "mark paid" branch of checkout.
- CartPage.CartPage.HandlePurchaseTickets: the "mark paid immediately" branch is unreachable past the card check, so the model contains no code for it.
- The cart context's `getTotalPrice`, `getSubtotal` and `getTaxes` are not part of this model. The total is a parameter of checkout.
- The ticket-status labels `active`, `used` and `transferred` in the ticket-creation hook are not modelled: the store knows only pending, paid, validated and cancelled.
- Concurrency is not modelled beyond one ordering of calls. Two overlapping user creations are two guard calls made before either finishes. The interleaving of React state updates and of `Promise.all`'s inserts is not modelled; insertion order is taken to be the call order.
- AdminLayout.PushKeptCrumbs takes the "not `resumen`" test as a parameter, and AdminLayout.GenerateBreadcrumbs passes the source's test.
- AuthContext.UserDirectory.FinishCreation: a PGRST116 lookup error is read as "no such row", which is what `.single()` reports for a missing id. The model reports the existing row when that fault is passed while the row exists. The source would then see `existingUser` null and attempt the insert. The combination does not arise from a real lookup.
- ProfilePage.ProfilePage.LoadProfile: a profile fetched from the API is taken to have a string name. A null name is not modelled.

## Findings

| source | as written | input that shows it | evidently intended | confidence | as-written member | corrected member |
|---|---|---|---|---|---|---|
| contexts/auth-context.tsx:94-100 | the guard tests the `creatingUser` Set its closure captured. Both callers sit in the effect with dependencies `[router]` (lines 254, 296, 324). That closure keeps the first render's empty Set, and `setCreatingUser` replaces the Set rather than changing it, so the guard never refuses | a new user signs in while the initial-session check creates the same user, so two creations overlap | a creation already in progress for the id makes the second call return at once | not executed | AuthContext.UserDirectory.AsWrittenOverlap | AuthContext.UserDirectory.GuardedOverlap |
| hooks/use-events.ts:185-213 | the `finally` block clears `loading` only for retry count 0, and nothing clears `retrying` when a retry succeeds | first attempt rejects with "Network error", the retry loads the tickets | a run that ends, by success or by giving up, leaves `loading` and `retrying` false | not executed | UseEvents.RetriedSuccessStaysLoading | UseEvents.SettledFetchRun |
| components/auth/with-role-protection.tsx:30-128 | the denied and spinner branches need a user, so a signed-out visitor falls through to the wrapped component | not loading, no user, any allow-list | a signed-out visitor sees a spinner while being sent to /auth; the page renders only for a signed-in user with an allowed role | not executed | WithRoleProtection.SignedOutSeesWrapped | WithRoleProtection.GuardedProtectionView |
