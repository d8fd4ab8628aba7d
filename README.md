# QuickFeedback in Dafny

QuickFeedback is a small SaaS product. Site owners embed a widget that
collects visitor feedback. The server stores each submission and e-mails its
owner. Owners sign in, read their feedback on a dashboard, and pay through a
payment processor for a `pro` or `lifetime` plan.

This project models the decision logic of that product:

- **Payment events.** The payment-event webhook works as a state machine
  over the `users` table. A verified event either writes nothing or sets
  `plan` on exactly the rows it selects by id or by e-mail (module `Webhook`).
- **Checkout sessions.** The checkout endpoint validates its configuration
  and request, then builds the parameter record sent to the processor: mode,
  line item, coupon discount and metadata (module `Checkout`).
- **Feedback.** The feedback endpoint validates a submission, stores it
  with its owner, and picks the notification address with a fallback. Its
  listing filters by owner and sorts newest first (module `FeedbackApi`).
- **Identity bootstrap.** A find-or-create over `users`, which is
  idempotent when calls run one after the other (module `Identity`).
- **Client rules.** The sign-in and sign-up validators and form state
  (module `AuthPage`).
- **Dashboard.** The pro check, the embed snippet, the upgrade error
  messages, the count label, and the feedback list kept in step with the
  table (module `Dashboard`).
- **Widget request.** The request the embeddable widget sends
  (module `Widget`).

The database is the class `Store.Database`: two tables held as sequences of
rows, and one method for each write the handlers issue and for the user
lookup by key. The two feedback reads of the dashboard and of the listing
endpoint are stated directly on the table with `Store.OwnedBy`. `.single()` is
modelled as `Store.Single`, which fails with the not-found code unless
exactly one row matches. All services outside the repository are
parameters:

- the processor's signature check (`constructEvent`);
- the session creation call;
- customer retrieval;
- the mail provider;
- the authentication provider.

Backend failures (`DbError` values) and the ids and timestamps the
database assigns are parameters too. Every endpoint is modelled as one
sequential call.

Shared vocabulary lives in module `Common`: `Option`/`Result`, JavaScript
truthiness of strings, `filter`, `trim` (the ECMAScript whitespace set),
ASCII `toUpperCase`/`toLowerCase`, `includes`, and decimal rendering of
numbers.

## Model

| member | source | states |
|---|---|---|
| Webhook.NextPlan | app/api/stripe/webhook/route.ts:48-58 | The granted plan is never `free`. It is `lifetime` exactly when the metadata says `lifetime`, or when the metadata does not say `pro` and the mode is `payment`. |
| Webhook.CheckoutAction | app/api/stripe/webhook/route.ts:39-46 | A completed checkout writes iff it names a user id or a customer e-mail. The write selects by id when an id is present, else by e-mail, and sets the resolved plan. |
| Webhook.Verify | app/api/stripe/webhook/route.ts:13-33 | An event is obtained only from a request with a non-empty signature. |
| Webhook.HandleWebhook | app/api/stripe/webhook/route.ts:10-141 | No signature gives 400 and a failed verification gives 400, and neither changes `users`. A verified event gives 200 and leaves `users` as the decided write makes it, whether or not that write fails. The update error is reported exactly when a write was issued. The feedback table is never touched. |
| Webhook.CheckoutIgnoresEmailGivenUserId | app/api/stripe/webhook/route.ts:64-90 | With a metadata user id, the customer e-mails do not affect the write. |
| Webhook.CheckoutByIdTouchesOnlyThatUser | app/api/stripe/webhook/route.ts:64-76 | A checkout carrying a user id changes the plan of that row only. Every other row stays as it was, and the table keeps its length. |
| Webhook.CheckoutWithoutIdentityIsNoOp | app/api/stripe/webhook/route.ts:43-46 | A checkout with neither a user id nor an e-mail leaves the table unchanged. |
| Webhook.ShouldDowngrade | app/api/stripe/webhook/route.ts:119-121 | A status revokes the plan iff it is `canceled`, `unpaid` or `past_due`. The statuses of a live subscription (`active`, `trialing`, `incomplete`, `paused`) never do. |
| Webhook.SubscriptionAction | app/api/stripe/webhook/route.ts:98-139 | A subscription event writes iff all of these hold: the status revokes the plan; there is a customer id; the customer is retrieved (not deleted) with a non-empty e-mail. The write sets `free` on the rows with that e-mail. |
| Webhook.Decide | app/api/stripe/webhook/route.ts:35-141 | A checkout takes the checkout write and both subscription events take the subscription write. Any other event writes nothing. A write sets `free` iff the event is not a checkout, so checkouts only grant paid plans and subscription events only downgrade. |
| Webhook.Apply | app/api/stripe/webhook/route.ts:66-82 | No write, or a failed write, leaves the table as it was. A successful write sets the plan on exactly the selected rows, keeps all other rows, and keeps the length. |
| Webhook.SubscriptionDowngradesExactly | app/api/stripe/webhook/route.ts:98-139 | On the table, a subscription event sets `free` on exactly the rows whose e-mail is the retrieved customer's non-empty e-mail, when the status revokes the plan. Every other row, and every row for any other event, stays as it was. |
| Webhook.OtherEventsAreNoOps | app/api/stripe/webhook/route.ts:141 | Events whose type is none of the three handled types leave the table unchanged. |
| Webhook.WriteToAbsentUserIsNoOp | app/api/stripe/webhook/route.ts:64-90 | The webhook never creates a user: a write whose filter selects no row leaves the table as it was. |
| Webhook.SetPlanIdempotent | app/api/stripe/webhook/route.ts:66-69 | Setting the same plan on the same selection twice has the effect of setting it once. |
| Webhook.RedeliveryIsIdempotent | app/api/stripe/webhook/route.ts:36-139 | Processing an event again after it succeeded leaves the table as the first processing did. |
| Webhook.ApplyKeepsInvariants | app/api/stripe/webhook/route.ts:66-82 | Plan writes keep ids and e-mails unique. |
| Store.SetPlan | app/api/stripe/webhook/route.ts:66-69 | An update by key changes the plan of selected rows only, leaves other rows untouched, and keeps the length. |
| Store.Single | app/api/auth/route.ts:18-24 | `.single()` succeeds iff exactly one row matches, yielding that row. Otherwise it fails with the not-found code `PGRST116`. |
| Store.Inserted | app/api/auth/route.ts:42-58 | An insert succeeds iff there is no backend fault and the id is free, and then returns the given row. A fault is returned as is. |
| Store.UniqueEmailsMatchAtMostOne | app/api/auth/route.ts:18-22 | With unique e-mails, an e-mail filter selects at most one row. |
| Store.MatchingById | app/api/feedback/route.ts:105-109 | With unique ids, the filter by a row's id selects exactly that row. |
| Store.MatchingByEmail | app/api/auth/route.ts:18-22 | With unique e-mails, the filter by a row's e-mail selects exactly that row. |
| Store.OwnedBy | app/api/feedback/route.ts:56-58 | A row is kept iff it is in the table and its owner is the given one. |
| Store.WithoutId | app/dashboard/page.tsx:210-223 | A row is kept iff its id differs from the deleted one. |
| Store.WithoutAbsentId | app/dashboard/page.tsx:223 | Deleting an id no row has returns the list unchanged. |
| Store.WithoutIdAppend | app/dashboard/page.tsx:223 | Deletion keeps the surviving rows in their order (it distributes over concatenation). |
| Store.WithoutIdOwnedBy | app/dashboard/page.tsx:210-223 | Deleting by id and then selecting an owner's rows gives the same list as doing the two in the other order. |
| Store.InsertByDate | app/api/feedback/route.ts:60 | Inserting into a newest-first list keeps it newest first and adds exactly that row (multiset). |
| Store.SortNewestFirst | app/api/feedback/route.ts:60 | The result is ordered by `created_at`, newest first, and is a permutation of the input. |
| Store.SortKeepsMembers | app/api/feedback/route.ts:60 | Sorting keeps exactly the rows given. |
| Store.Database.SelectUser | app/api/auth/route.ts:18-22 | A read returns the fault, or `.single()` of the selected rows, and changes nothing. |
| Store.Database.UpdatePlan | app/api/stripe/webhook/route.ts:66-69 | On success `users` becomes `SetPlan` of the old table. On failure nothing changes. The error is the fault. |
| Store.Database.InsertUser | app/api/auth/route.ts:42-51 | The insert result is `Inserted` of the new row. On success exactly that row is appended to `users`. |
| Store.Database.InsertFeedback | app/api/feedback/route.ts:117-129 | The insert result is `Inserted` of the row. On success exactly that row is appended to `feedback`. |
| Store.Database.DeleteFeedback | app/dashboard/page.tsx:210-213 | On success `feedback` loses exactly the rows with that id. On failure nothing changes. |
| Checkout.NormalizedPlan | app/api/create-checkout-session/route.ts:41-57 | The plan is the lifetime deal iff `planType` is exactly `lifetime`. An absent field gives the monthly plan. |
| Checkout.LaunchCouponCode | app/api/create-checkout-session/route.ts:108-109 | The expected coupon code is never empty. |
| Checkout.CouponMatches | app/api/create-checkout-session/route.ts:111-115 | A coupon matches only when a coupon id is configured and a code was sent. The trimmed code is then non-empty and as long as the expected code. |
| Checkout.CouponIgnoresCase | app/api/create-checkout-session/route.ts:114 | Lower-casing the submitted code does not change whether it matches. |
| Checkout.CouponIgnoresPadding | app/api/create-checkout-session/route.ts:114 | Surrounding whitespace on the submitted code does not change whether it matches. |
| Checkout.LaunchCodeIsTrimmed | app/api/create-checkout-session/route.ts:114 | `launch50` is unchanged by trimming. |
| Checkout.TrimPaddedLaunchCode | app/api/create-checkout-session/route.ts:114 | Trimming ` launch50 ` gives `launch50`. |
| Checkout.UpperLaunchCode | app/api/create-checkout-session/route.ts:108-109 | Upper-casing `launch50` gives the default code, and upper-casing the default code leaves it unchanged. |
| Checkout.DefaultLaunchCodeMatches | app/api/create-checkout-session/route.ts:108-118 | With the default code and a coupon id configured, ` launch50 ` matches and `LAUNCH5` does not. |
| Checkout.StripeErrorMessage | app/api/create-checkout-session/route.ts:151-159 | The error text is chosen in this order: an authentication error gives the authentication message; an API error gives `Stripe API error: <message>`; otherwise the error's own message, or the default. The text is never empty. |
| Checkout.ErrorReply | app/api/create-checkout-session/route.ts:161-167 | The catch reply is a 500 error body that carries `details` only in development. |
| Checkout.CreateCheckoutSession | app/api/create-checkout-session/route.ts:19-140 | The checks run in this order: missing key (500), missing URL (500), unreadable body (catch reply), then missing user id or e-mail (400). The processor is called iff all pass, with the record `BuildSessionParams` promises. A session without a URL gives 500, and processor errors give the catch reply. |
| Checkout.BuildSessionParams | app/api/create-checkout-session/route.ts:57-119 | The record sent is card, the e-mail, and `<base>/dashboard?success=true` and `<base>/dashboard` as the URLs. Metadata holds the user id and normalized plan. There is one usd line item: 4900 with mode `payment` for lifetime, or 1000 monthly with mode `subscription`. A discount is present iff the plan is monthly and the coupon matches; with it, metadata gains the trimmed code. |
| Checkout.AnswerSession | app/api/create-checkout-session/route.ts:121-140 | A created session with a URL gives 200 with its id and URL; one without a URL gives 500 with the no-URL message; a failed creation gives the catch reply. |
| FeedbackApi.CorsHeaders | app/api/feedback/route.ts:31-37 | Exactly the three CORS headers are set, with origin `*`. |
| FeedbackApi.CheckSubmission | app/api/feedback/route.ts:86-100 | A missing name, e-mail or message is rejected first. Only then is a missing project id rejected. Otherwise the submission is valid. All three are iff statements. |
| FeedbackApi.OwnerEmail | app/api/feedback/route.ts:102-114 | The notification address is never empty. It is either the fallback address or the e-mail of a user whose id is the project id. Without a working lookup it is the fallback. |
| FeedbackApi.OwnerEmailOfKnownOwner | app/api/feedback/route.ts:102-114 | When the lookup works and the owner row has an e-mail, notifications go to that e-mail. |
| FeedbackApi.OwnerEmailFallback | app/api/feedback/route.ts:103 | Without an owner row, notifications go to the hard-coded fallback address. |
| FeedbackApi.NewFeedbackRow | app/api/feedback/route.ts:119-126 | The stored row's owner is the project id. `site_url` is null when the site URL is falsy. The three fields are stored as sent. |
| FeedbackApi.PostFeedback | app/api/feedback/route.ts:81-202 | An unreadable body gives 500 and validation failures give 400, with nothing stored or sent. An insert error gives 500 `success: false`. Otherwise exactly the new row is appended and the reply is 200 `success: true` whatever the mail provider does. Two mails go out: the confirmation to the submitter and the notification to the owner's address. `users` is never changed, and every reply carries the CORS headers. |
| FeedbackApi.ListFeedback | app/api/feedback/route.ts:39-79 | No read client gives 500 and a query error gives 500. Otherwise the reply is 200 with rows newest first: exactly the owner's rows when an owner is given, else all rows, as a permutation of that selection. |
| FeedbackApi.Preflight | app/api/feedback/route.ts:204-208 | The preflight reply is 200 with no body and the CORS headers. |
| FeedbackApi.SubmittedFeedbackIsListedForOwner | app/api/feedback/route.ts:53-129 | A stored valid submission appears in its owner's listing. |
| Identity.Bootstrap | app/api/auth/route.ts:4-72 | The table grows by at most one row. When it grows, the body had an e-mail, the added row is `{newId, email, free}`, and the reply is 200 with that row. An unreadable body gives 500 and a missing e-mail gives 400 "Email is required", both with no change. A read error whose code is not `PGRST116` gives 500 "Error checking user: <message>" with no change. |
| Identity.FetchFaultDistinction | app/api/auth/route.ts:18-64 | After a failed read, a user is created iff the failure carries the not-found code `PGRST116` and the insert then succeeds. Any other code gives 500 naming the read error. |
| Identity.FindOrCreate | app/api/auth/route.ts:4-72 | The reply and the new `users` table are those of `Bootstrap`. `feedback` is untouched. |
| Identity.ExistingUserIsReturned | app/api/auth/route.ts:33-39 | With unique e-mails, an existing user is returned unchanged and nothing is inserted. |
| Identity.UnknownUserIsCreated | app/api/auth/route.ts:41-64 | For an unknown e-mail, when the insert succeeds, exactly one `free` row is appended and returned. Otherwise the reply is 500 and the table is unchanged. |
| Identity.BootstrapKeepsInvariants | app/api/auth/route.ts:18-51 | When fetch errors are not disguised as not-found, unique ids and unique e-mails are preserved. |
| Identity.SuccessfulBootstrapStoresUser | app/api/auth/route.ts:33-64 | When fetch errors are not disguised as not-found, a 200 reply carries a row of the new table with the requested e-mail. |
| Identity.BootstrapIsIdempotent | app/api/auth/route.ts:18-51 | After a successful call, a second call with the same e-mail returns the same reply and adds nothing. Two calls add at most one row. |
| AuthPage.SignUpCheck | app/auth/page.tsx:24-37 | The three sign-up messages, each as an iff, in order: empty field, then a password shorter than 6 (only when both fields are filled), then a mismatch (only when the length passes). The form passes iff none applies. |
| AuthPage.SignInCheck | app/auth/page.tsx:69-72 | Sign-in rejects exactly an empty e-mail or password, with the fill-in message. |
| AuthPage.SignInIsLaxer | app/auth/page.tsx:24-72 | Every form sign-up accepts is accepted by sign-in. Sign-in also accepts a 5-character password that sign-up rejects. |
| AuthPage.SignInFailureMessage | app/auth/page.tsx:86-101 | A rejection shows its message, or the Spanish credentials message when that is empty. A thrown value shows the connection message when its text contains `fetch` or `network`, else `Error inesperado: <text>`. A non-`Error` value reads as `Error desconocido`. |
| AuthPage.NetworkFailuresReadAsConnectionErrors | app/auth/page.tsx:95-100 | A thrown `Failed to fetch` shows the connection message, and a thrown non-`Error` shows `Error inesperado: Error desconocido`. |
| AuthPage.AuthForm.SelectTab | app/auth/page.tsx:135-208 | The header tabs switch the tab and clear both messages. The footer links only switch the tab. |
| AuthPage.AuthForm.HandleSignUp | app/auth/page.tsx:18-61 | A rejected form sets the check's message and changes neither the fields nor the loading flag. Otherwise loading ends false. Success sets the confirmation message and clears the e-mail, the password and the confirmation. A rejection or a crash sets its message and keeps the fields. |
| AuthPage.AuthForm.HandleSignIn | app/auth/page.tsx:63-104 | A rejected form sets the fill-in message. Otherwise the page goes to `/dashboard` iff sign-in succeeds, and a failure is shown with `SignInFailureMessage`. |
| Dashboard.IsPro | app/dashboard/page.tsx:59-65 | The pro flag is set iff the plan read found a row whose plan is `pro`. A `lifetime` plan or a failed read is not pro. |
| Dashboard.ProjectId | app/dashboard/page.tsx:193 | The snippet's project id is the user id, or empty. |
| Dashboard.EmbedCode | app/dashboard/page.tsx:193 | The snippet starts with the script tag that loads the widget and ends with the closing tag. |
| Dashboard.SplitAtQuote | app/dashboard/page.tsx:193 | Reading a quote-free value back from `value"rest` gives `value` and `rest`. |
| Dashboard.EmbedRoundTrip | app/dashboard/page.tsx:193 | Parsing the snippet gives back the project id, and the pro attribute is present iff the user is pro. The id must contain no double quote. |
| Dashboard.ProEmbedContainsAttribute | app/dashboard/page.tsx:193 | A pro snippet contains ` data-pro="true"`. |
| Dashboard.CountLabel | app/dashboard/page.tsx:308 | The label is `response` iff the count is 1, else `responses`. |
| Dashboard.ServerErrorMessage | app/dashboard/page.tsx:133 | The message is the first non-empty of `error`, `message` and `details`, else `Error <status>: <statusText>`. |
| Dashboard.FriendlyMessage | app/dashboard/page.tsx:141-152 | Only status 500 is reworded: text containing `Stripe is not configured` maps to one administrator message; text containing `NEXT_PUBLIC_URL` maps to the other; anything else becomes `Server error: <text>`. |
| Dashboard.Prefix200 | app/dashboard/page.tsx:128 | The quoted text is the first 200 characters, or all of it when shorter. |
| Dashboard.Upgrade | app/dashboard/page.tsx:80-185 | The page redirects iff all of these hold: the user has an id and an e-mail; the answer is OK JSON without `error`; it has a `url`. It redirects to that URL. A missing user or missing id alerts before any request. Non-JSON alerts with the first 200 characters. A failed status alerts with the reworded server message. |
| Dashboard.UpgradeRequest | app/dashboard/page.tsx:107-110 | The page sends only the id and e-mail, so the checkout endpoint always builds the monthly plan and never applies a coupon. |
| Dashboard.SecretKeyMessageHasHint | app/api/create-checkout-session/route.ts:24 | The missing-key message contains `Stripe is not configured`. |
| Dashboard.PublicUrlMessageHasHint | app/api/create-checkout-session/route.ts:32 | The missing-URL message contains `NEXT_PUBLIC_URL` and not `Stripe is not configured`. |
| Dashboard.SecretKeyErrorIsReworded | app/dashboard/page.tsx:143-145 | The checkout endpoint's missing-key 500 reaches the owner as the processor-not-configured alert. |
| Dashboard.PublicUrlErrorIsReworded | app/dashboard/page.tsx:146-148 | The checkout endpoint's missing-URL 500 reaches the owner as the incomplete-configuration alert. |
| Dashboard.CreatedSessionRedirects | app/dashboard/page.tsx:162-167 | A created session's 200 answer redirects to its URL. |
| Dashboard.DashboardState.CheckUser | app/dashboard/page.tsx:50-78 | With no user, the page goes to `/auth`. Otherwise the pro flag is set iff the plan read finds the user's row on the `pro` plan; a failed read counts as not pro. The list becomes the owner's rows newest first, in step with the table, and is kept when the read fails. |
| Dashboard.DashboardState.LoadFeedback | app/dashboard/page.tsx:67-77 | When the read works, the list becomes the owner's rows newest first, in step with the table. A failed read keeps the list. No other field changes. |
| Dashboard.DashboardState.HandleDelete | app/dashboard/page.tsx:199-233 | The user, the pro flag and the loading flag never change. Without confirmation nothing else changes either. With confirmation, the table and then the list lose exactly the rows with that id; a delete error leaves both unchanged. The spinner ends cleared. A list in step with the table stays in step. |
| Widget.WidgetBody | public/widget.js:290-312 | The widget sends the trimmed fields and no project id. |
| Widget.WidgetSubmissionsAreRejected | public/widget.js:307-312 | No widget submission passes the endpoint's checks. A filled-in form gets "Missing project ID". |
| Widget.WidgetBodyFor | public/widget.js:290-312 | A corrected body carries the snippet's `data-project-id`. |
| Widget.ProjectBodyIsAccepted | app/api/feedback/route.ts:86-126 | With a project id and filled-in fields, the corrected body passes and is stored under that project. |
| Widget.SnippetFeedbackReachesOwner | app/dashboard/page.tsx:193 | Feedback submitted through an owner's snippet, with the corrected body, is stored and appears in that owner's newest-first list. |
| Common.Filter | app/api/feedback/route.ts:56-58 | `filter` keeps exactly the elements satisfying the predicate, in multiset terms never more than the input. |
| Common.Contains | app/dashboard/page.tsx:144-146 | `includes` holds iff the part occurs at some index. |
| Common.Decimal | app/dashboard/page.tsx:133 | A rendered number is a non-empty string of digits with no leading zero, and the digits read back as the number. |

## Left out

- Network and process I/O are not modelled, nor is where the JSON bodies
  come from. JSON parsing is replaced by `Option`/`Result` inputs, and
  `JSON.stringify(data)` by the given string `dataJson`.
- The HMAC signature scheme is an uninterpreted `constructEvent` parameter.
  The processor's session creation and customer retrieval, the mail
  provider and the authentication provider are parameters too. A thrown
  customer retrieval is the `RetrieveFailed` answer.
- The webhook's outer 500 reply (app/api/stripe/webhook/route.ts:142-148) is
  not modelled: no step of the modelled handler throws.
- `getStripeClient` (app/api/create-checkout-session/route.ts:7-17) is not modelled as a separate
  failure: it throws only for a missing key, which the endpoint rejects
  earlier. Its lazy caching changes no observable result.
- Client creation (app/api/feedback/route.ts:11-28) is the boolean
  `readConfigured`. The write client is assumed present.
- The mail HTML bodies are left out. Mail results are ignored, as in the
  source.
- Concurrency is left out. Two simultaneous find-or-create calls could both
  insert; only sequential calls are modelled.
- Timers, `alert`, the clipboard, console logging, the success banner and
  React rendering are left out. `HandleDelete` ends with `deletingId`
  cleared: both the 300 ms timer and the 5 s safety timer clear it. The
  loading flags are modelled only in their final state.
- The widget's DOM, styles, events and `data-pro` branding are left out. Only
  the request body is modelled.
- The marketing pages, the layout and the static header configuration are
  left out: they contain no decisions.
- Common.Upper: `toUpperCase` and `toLowerCase` are modelled on ASCII
  letters only. Non-ASCII case mappings, such as `'ß'.toUpperCase()`, are
  not captured.
- AuthPage.SignUpCheck: `password.length` counts UTF-16 code units in the
  source. The model counts characters, so characters outside the BMP count
  once instead of twice.
- Store.Database: the `users` table is a sequence of rows rather than a map
  by id, so that `.single()` over several matches can be stated. The id
  uniqueness the database enforces becomes the `UniqueIds` invariant, and
  an insert that would break it fails.
- Store.SortNewestFirst: rows with equal `created_at` keep their table
  order. The database guarantees no order for ties, so only the ordering
  and the permutation are promised.
- Dashboard.Prefix200: `substring(0, 200)` counts UTF-16 code units in the
  source. The model takes the first 200 characters, so text with characters
  outside the BMP keeps more characters than the source does, and the
  source may cut a surrogate pair in half.
- Dashboard.EmbedRoundTrip requires an id without a double quote. The
  source interpolates the id unescaped, and database ids are UUIDs.

## Findings

| source | as written | input that shows it | evidently intended | confidence | as-written member | corrected member |
|---|---|---|---|---|---|---|
| public/widget.js:307-312 | The widget posts `name`, `email`, `message` and `siteUrl` but no `projectId`. The endpoint rejects a body without it (app/api/feedback/route.ts:95-100). | Any filled-in widget form, e.g. name `Ana`, e-mail `a@b.co`, message `Hi`: the endpoint answers 400 "Missing project ID" and stores nothing. | Send the `data-project-id` of the embed snippet as `projectId`, so the feedback is stored under its owner and shows on the owner's dashboard. | high (not executed) | Widget.WidgetSubmissionsAreRejected | Widget.SnippetFeedbackReachesOwner |
