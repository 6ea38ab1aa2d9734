# Genbuddy core, modelled in Dafny

Genbuddy (ゲンバディ) is a field-service web application. Headquarters
staff register cases (案件), assign them to handymen and issue invoices
and estimates. Handymen see the cases assigned to them. End users follow
their own cases through LINE, and pay invoices through a Stripe checkout.

This project models the server-side core of that application:

- the store: cases, invoices and users, each kept in a map keyed by its id
  (`Db.Database`);
- the API handlers for listing and creating cases and invoices, the
  dashboard statistics, the LINE case list, the Stripe checkout and the
  Stripe webhook;
- the sign-in callbacks that find or create a user on first login, and
  the request middleware;
- the invoice editor's line-item arithmetic, and the pure label tables
  used by the pages and the LINE message templates.

Each handler is a method over the store that returns the HTTP status
code, or, for the checkout, which writes nothing, a function over the
tables it reads that returns the response. Its `ensures` says which code
is returned on which input and exactly how the store changes. Anything the handler cannot see is a
parameter:

- the clock is `now` or `todayStart`;
- fresh database ids are `id` or `newId`;
- a store operation that raises is `fault`;
- the payment gateway's answer is an `Option`.

The store invariant `Database.Valid()` says three things:

- every record is keyed by its own id;
- every invoice names an existing case (the relation's foreign key);
- Cognito ids and LINE user ids are unique among users.

Every handler that writes the store preserves `Valid()`.

The model follows the code as written; in particular:

- The Stripe webhook has no guard on the invoice's prior status. A repeated
  `checkout.session.completed` stamps `paidAt` again, and a CANCELLED
  invoice becomes PAID (`WebhookRoute.PriorStatusIgnored`,
  `WebhookRoute.RepeatedDelivery`).
- A webhook naming an unknown invoice makes the update raise, so the handler
  answers 500 rather than acknowledging with 200 (`WebhookRoute.Reconcile`).
- A case created with a handyman is still stored as PENDING
  (`CasesRoute.NewCaseIsPending`).
- The invoice total is the sum of the `amount` fields the client sends. The
  server does not recompute it from quantity and unit price
  (`InvoicesRoute.TotalNotRecomputed`). It equals the subtotal when every
  item was priced by the editor (`InvoicesRoute.CreatedTotalOfPricedItems`).

## Model

| member | source | states |
|---|---|---|
| Domain.ParseCaseStatus | src/app/api/cases/route.ts:23 | a status filter string denotes a case status exactly when it is one of the five enum names, and parsing a status's name gives that status back |
| Domain.TotalOfPriced | src/app/headquarters/invoices/new/page.tsx:53-65 | when every line item's amount is quantity × unit price, the sum of the amounts equals the sum of quantity × unit price |
| Listing.InsertNewest | src/app/api/cases/route.ts:29 | inserting a record into a newest-first list adds exactly that record (multiset of the result is the old multiset plus the record) |
| Listing.InsertKeepsOrder | src/app/api/cases/route.ts:29 | insertion keeps a list ordered by creation time, newest first |
| Listing.InsertKeepsDistinct | src/app/api/cases/route.ts:29 | insertion of a record not yet listed keeps the list free of duplicates |
| Listing.InsertBounded | src/app/api/cases/route.ts:29 | insertion keeps every element's creation time under a bound both inputs respect |
| Listing.FindMany | src/app/api/cases/route.ts:16-30 | a `findMany` with a filter and `orderBy createdAt desc` returns exactly the stored records that pass the filter, each once, newest first |
| Listing.FindFirst | src/app/api/liff/cases/route.ts:17-19 | a `findUnique` returns a stored record satisfying the condition if there is one, and nothing otherwise |
| InvoicesRoute.Post | src/app/api/invoices/route.ts:28-79 | 401 unless headquarters; 400 when type, case or items are missing; 500 when the store raises or the case does not exist; otherwise 201 and exactly one new DRAFT invoice under the fresh id, with nothing else changed |
| InvoicesRoute.List | src/app/api/invoices/route.ts:6-25 | 401 unless headquarters; 500 when the store raises; otherwise every stored invoice, each once, newest first |
| InvoicesRoute.CreatedIsDraftSnapshot | src/app/api/invoices/route.ts:50-73 | a created invoice is a DRAFT, neither issued nor paid, with the items stored as sent and in order, and without a note when none was sent |
| InvoicesRoute.CreatedTotalOfPricedItems | src/app/api/invoices/route.ts:45-48 | when every sent item is priced, the stored total equals the sum of quantity × unit price |
| InvoicesRoute.TotalNotRecomputed | src/app/api/invoices/route.ts:45-48 | a request whose amount disagrees with quantity × unit price is stored with the client's total, not the subtotal |
| InvoiceEditor.EmptyItem | src/app/headquarters/invoices/new/page.tsx:22-27 | a new line item has an empty name, quantity 1, unit price 0 and amount 0, and is priced |
| InvoiceEditor.Edit | src/app/headquarters/invoices/new/page.tsx:48-56 | editing one field sets that field, keeps the others, and recomputes the amount as quantity × unit price, so the result is always priced |
| InvoiceEditor.Without | src/app/headquarters/invoices/new/page.tsx:62 | removing by index drops exactly that position and keeps the others in order |
| InvoiceEditor.Editor.constructor | src/app/headquarters/invoices/new/page.tsx:32-40 | the form starts as an INVOICE for the case named in the query, with one empty item, an empty note and no error |
| InvoiceEditor.Editor.UpdateItem | src/app/headquarters/invoices/new/page.tsx:48-56 | only the edited row changes, it becomes the edited item, and every item stays priced |
| InvoiceEditor.Editor.AddItem | src/app/headquarters/invoices/new/page.tsx:58 | exactly one empty item is appended after the existing rows, and every row stays priced |
| InvoiceEditor.Editor.RemoveItem | src/app/headquarters/invoices/new/page.tsx:60-63 | with one item nothing changes; otherwise the item at the index is dropped and the rest keep their order |
| InvoiceEditor.Editor.TotalAmount | src/app/headquarters/invoices/new/page.tsx:65 | the displayed total equals the subtotal of quantity × unit price over the items |
| InvoiceEditor.Editor.Submit | src/app/headquarters/invoices/new/page.tsx:67-78 | without a case the error "案件を選択してください" is set and nothing is sent; otherwise the error is cleared and the body sent is the form's type, case, items and note |
| InvoiceEditor.SubmittedBodyIsAccepted | src/app/headquarters/invoices/new/page.tsx:74-78 | a body the form sends (a case and at least one item) passes the server's 400 check, and its stored total equals the displayed total |
| InvoiceEditor.EditOfAmountIsRecomputed | src/app/headquarters/invoices/new/page.tsx:51-53 | typing an amount directly is overwritten by quantity × unit price |
| InvoiceEditor.TotalAfterUpdate | src/app/headquarters/invoices/new/page.tsx:48-65 | replacing one row changes the total by the difference between the new and old amounts |
| InvoiceEditor.TotalAfterRemove | src/app/headquarters/invoices/new/page.tsx:60-65 | removing one row lowers the total by that row's amount |
| CasesRoute.HandymanScope | src/app/api/cases/route.ts:19-21 | a handyman's listing is restricted to cases carrying their user id; other roles are not restricted |
| CasesRoute.List | src/app/api/cases/route.ts:6-36 | 401 without a session; 500 when the store raises or the status filter is not a status name; otherwise exactly the cases in scope with the requested status, each once, newest first |
| CasesRoute.Create | src/app/api/cases/route.ts:39-71 | 401 unless headquarters; 400 without title or description; 500 when the store raises; otherwise 201 and exactly one new case under the fresh id |
| CasesRoute.NewCaseIsPending | src/app/api/cases/route.ts:56-65 | a new case is PENDING even when a handyman is named, has no completion time, keeps an absent address or handyman absent, and has a schedule exactly when a non-empty one was given |
| Gateway.CompletionEvent | src/lib/stripe.ts:62 | the completion event of a checkout carries the invoice id put in its metadata |
| WebhookRoute.Target | src/app/api/stripe/webhook/route.ts:24-30 | only a `checkout.session.completed` event with a non-empty invoice id names an invoice to update |
| WebhookRoute.Reconcile | src/app/api/stripe/webhook/route.ts:12-53 | the answer is 200 or 500; 500 exactly when an invoice is named and the update raises or the invoice is unknown, and then nothing is written; without a named invoice nothing is written either; on success the named invoice becomes PAID at the current time and every other invoice is unchanged |
| WebhookRoute.Handle | src/app/api/stripe/webhook/route.ts:12-53 | the handler's code and new invoice table are those of the reconciliation, and the store invariant is kept |
| WebhookRoute.NoEventIsAcknowledged | src/app/api/stripe/webhook/route.ts:19-21 | without a verified event the answer is 200 and nothing changes |
| WebhookRoute.PriorStatusIgnored | src/app/api/stripe/webhook/route.ts:33-39 | a completion marks the invoice PAID whatever its prior status, CANCELLED and PAID included |
| WebhookRoute.RepeatedDelivery | src/app/api/stripe/webhook/route.ts:33-39 | delivering the same event twice leaves the invoice PAID with the second delivery's time as `paidAt` |
| WebhookRoute.PaymentMarksCheckedOutInvoice | src/app/api/stripe/webhook/route.ts:24-39 | the completion of a checkout for an existing invoice marks that invoice PAID and leaves every other invoice alone |
| CheckoutRoute.ChargeFor | src/app/api/stripe/checkout/route.ts:35-43 | the checkout request carries the invoice's id, total and case title; both return URLs start with the application URL and end with the invoice id, and they differ |
| CheckoutRoute.PlanCheckout | src/app/api/stripe/checkout/route.ts:10-43 | 401 without a session; then 400 without an invoice id; then 500 when the lookup raises; then 404 for an unknown invoice; then 400 exactly for a PAID one; a charge is planned exactly when none of these holds, for the invoice's request |
| CheckoutRoute.Checkout | src/app/api/stripe/checkout/route.ts:10-57 | a refused plan answers with its own code and no URL; a planned charge answers 503 when the gateway gives no URL or an empty one, and 200 with exactly the gateway's URL otherwise |
| CheckoutRoute.OnlyPaidIsRefused | src/app/api/stripe/checkout/route.ts:31-43 | for a signed-in request on an existing invoice, the checkout is refused exactly when the invoice is PAID |
| CheckoutRoute.RefusalIgnoresGateway | src/app/api/stripe/checkout/route.ts:10-33 | a refused request gets the same response whatever the gateway would answer |
| CheckoutRoute.CheckoutNamesItsInvoice | src/app/api/stripe/checkout/route.ts:37-43 | the completion event of a planned checkout names the invoice that was requested |
| Auth.Jwt | src/lib/auth.ts:37-78 | without a sign-in the token is returned as is; when the lookup or insert raises the sign-in is aborted and no user is stored; otherwise a known Cognito or LINE subject signs the token with that user's role and id, an unknown one creates exactly one user under the fresh id and signs with it, and the token names a stored user with that subject and that user's role; the store invariant is kept |
| Auth.FirstLoginRoles | src/lib/auth.ts:41-70 | a first Cognito login creates a HEADQUARTERS user and a first LINE login a HANDYMAN, each holding the subject as its identity, named from the token or by default "本部スタッフ" and "便利屋ユーザー" |
| Auth.SessionOf | src/lib/auth.ts:80-86 | the session carries the token's role and database id |
| Auth.SignedSessionNamesUser | src/lib/auth.ts:72-85 | a session from a token signed for a user names that user's role and id |
| Middleware.PublicMeansListedPrefix | src/middleware.ts:7-13 | a path is public exactly when it starts with one of the six listed prefixes |
| Middleware.Decide | src/middleware.ts:4-41 | public paths pass; any other path passes exactly when a session is found, and is otherwise redirected to "/login"; no request is ever redirected to "/dashboard" |
| Middleware.PublicIgnoresLookup | src/middleware.ts:15-18 | public paths are decided without looking at the session |
| Middleware.PrefixNotSegment | src/middleware.ts:7-13 | the test is on string prefixes, so "/liffx", "/payments-x" and "/loginpage" are public while "/dashboard" and "/api/cases" are not |
| Middleware.LoginNotRedirectedAsWritten | src/middleware.ts:28-31 | a signed-in visit to "/login" is let through rather than redirected to "/dashboard" |
| Middleware.DecideAsIntended | src/middleware.ts:28-31 | with the "/login" check ahead of the public-path test, a signed-in visit to "/login" goes to "/dashboard" and every other request is decided as before |
| DashboardRoute.StatsPartition | src/app/api/dashboard/route.ts:16-22 | PENDING, ASSIGNED and IN_PROGRESS counts are disjoint parts of the non-cancelled total, and completions today are counted within it |
| DashboardRoute.Get | src/app/api/dashboard/route.ts:5-37 | 401 unless headquarters; 500 when a query raises; otherwise the statistics are the counts over all cases, and the recent list holds at most five non-cancelled cases, each once, newest first, with any non-cancelled case left out no newer than the fifth |
| LiffCasesRoute.Summary | src/app/api/liff/cases/route.ts:28-34 | a summary carries the case's id, title, status, scheduled time and address |
| LiffCasesRoute.List | src/app/api/liff/cases/route.ts:8-41 | 400 without a LINE user id; 500 when the store raises; an unknown user gets an empty list; otherwise the summaries of exactly that user's cases, newest first |
| LineMessages.CaseStatusChanged | src/lib/line.ts:61-69 | the notice starts with the brand and the quoted case title |
| LineMessages.NewMessage | src/lib/line.ts:72-74 | the notice starts with the brand, the quoted case title and then the sender's name |
| LineMessages.CaseAssigned | src/lib/line.ts:77-79 | the notice starts with the brand and the case title verbatim inside 「」 after 新しい案件 |
| LineMessages.StatusShownInMessage | src/lib/line.ts:61-69 | for a case status, the status part of the notice is the Japanese wording for the four mapped statuses and the raw status for PENDING |
| LineMessages.CaseAssignedDeterminesTitle | src/lib/line.ts:77-79 | two assignment notices are equal only for equal case titles |
| LineMessages.SendLineMessage | src/lib/line.ts:24-54 | without an access token nothing is sent; otherwise one push goes to the user with the single text message and a bearer header; a request that fails raises, and a non-OK response is logged |
| StatusBadge.StatusOfLabel | src/components/cases/StatusBadge.tsx:3-24 | a badge text read back as a status is that status's label |
| StatusBadge.LabelIdentifiesStatus | src/components/cases/StatusBadge.tsx:3-24 | reading a status's badge label gives that status back, so distinct statuses have distinct labels |
| InvoicesPage.StatusStyle | src/app/headquarters/invoices/page.tsx:43 | a status outside the table is shown with the DRAFT style |
| InvoicesPage.TypeLabel | src/app/headquarters/invoices/page.tsx:50 | "請求書" is shown exactly for INVOICE, and "見積書" for every other type |
| InvoicesPage.EveryStatusHasOwnLabel | src/app/headquarters/invoices/page.tsx:6-11 | every invoice status is in the table, and distinct statuses get distinct labels |
| InvoicesPage.Render | src/app/headquarters/invoices/page.tsx:13-23 | non-headquarters visitors go to "/login"; headquarters see one row per stored invoice, each once, newest first |
| DashboardPage.Landing | src/app/dashboard/page.tsx:5-22 | no session goes to "/login"; headquarters, handymen and end users go to their own dashboards, and a session without a role to "/login" |
| DashboardPage.LandingSeparatesRoles | src/app/dashboard/page.tsx:12-18 | different roles land on different pages |

## Findings

| source | as written | input that shows it | evidently intended | confidence | as-written member | corrected member |
|---|---|---|---|---|---|---|
| src/middleware.ts:16-31 | the public-path test comes first and lets every path starting with "/login" through, so the later redirect of a signed-in "/login" visit to "/dashboard" can never run | a signed-in request for "/login" | a signed-in visitor of "/login" is sent to "/dashboard", as the comment above that branch says | high, not executed | Middleware.LoginNotRedirectedAsWritten | Middleware.DecideAsIntended |

## Left out

- Case and invoice detail handlers (`src/app/api/cases/[id]/route.ts`, `src/app/api/invoices/[id]/route.ts`, the message routes) are not part of this model. No status transition graph is assumed beyond what the modelled handlers write.
- Page rendering, JSX, the router, `Link`s, date formatting and the chat and LIFF hooks are left out. Only the data each modelled page selects is modelled.
- The related records the store joins into a response (case title, handyman and issuer names) are left out. Handlers return the stored records themselves.
- The store's own checks of enum columns and of the case's handyman and client keys are left out. Only the invoice-to-case key is checked, and it is the 500 path of `InvoicesRoute.Post`.
- `Promise.all` and concurrent requests are left out. Every handler runs atomically against the store.
- Clocks: the current time and the local start of today are parameters.
- Fresh ids: the store's id generator is a parameter that must not already be in use.
- Number parsing: quantities, prices and amounts are mathematical integers. Floating point, `NaN` from an empty input field, and JSON values of the wrong type are not modelled.
- `scheduledAt` is kept as the sent string. Date parsing is not modelled.
- `CheckoutRoute.Checkout`: a gateway call that raises (a 500 in the source) is not modelled. The gateway either returns a URL, possibly empty, or returns none. The product name, currency and payment mode of the gateway request are left out.
- `WebhookRoute.Handle`: signature verification is the gateway library's. The handler receives the already verified event, or none.
- `LineMessages.SendLineMessage`: the network call is reduced to the push request it builds. Its outcome is a parameter: the request fails and raises, or the response is OK or not. Console logging is the `Logged` outcome only.
- `InvoicesPage.StatusStyle`: the DRAFT fallback is stated for every string outside the table. The source looks the status up on a plain object, where an inherited key such as "constructor" is found, so no fallback happens and the label is undefined. The model does not capture that lookup. The page only passes stored invoice statuses, and each of those has its own table entry (`InvoicesPage.EveryStatusHasOwnLabel`).
- `LineMessages.StatusShownInMessage`: stated for the five case status names only. `LineMessages.CaseStatusChanged` falls back to the raw status for every string outside the table, but the source looks the status up on a plain object, where inherited keys such as "toString" or "__proto__" are found and shown. The model does not capture that lookup.
- The NextAuth provider configuration from environment variables and the sign-in pages are left out. `Auth.Jwt` receives the account's provider name.
- The middleware `matcher` regular expression is left out. `Middleware.Decide` is applied to every path the matcher selects.
- The per-role dashboard pages and layouts repeat the session and role gate of `DashboardPage.Landing` and are left out.
- `InvoiceEditor.Editor.UpdateItem` requires an index within the list. The form only passes the index of a rendered row. An out-of-range index in the source would add a row whose amount is `NaN`.
- The editor's plain field setters (type, case, note) and the server's error message shown after a failed submit are left out. `InvoiceEditor.Editor.Submit` stops at the request body it sends.
