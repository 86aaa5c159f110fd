# Festival registration: a verified model

The application sells festival passes. Visitors browse the events of two festival days and open an event. They choose a pass, tick up to four events (or any number with the two-day pass), add team members and register. The registration is stored as PENDING. The payment gateway's signed confirmation then turns it PAID. Administrators log in with a bearer token, manage the events table and list the registrations. On start-up the server creates and seeds the tables.

The back end exists twice, once as Netlify functions and once as an Express server. The model writes the shared logic once, as functions from a database snapshot to a `Step` (the response plus the database it leaves). Each copy is a thin layer over that logic, and lemmas state where the two copies agree and where they differ.

Modules:

- `Wrappers`: `Option` and `Result`.
- `Text`: the JavaScript string operations the application relies on. These are `toLowerCase` (ASCII letters), `includes`, `startsWith`, `trim`, the `<` order on strings, `split(' ')` and `join(', ')`, with the splitting that undoes the join.
- `JsValues`: JavaScript truthiness, template interpolation of missing values, and decimal ids.
- `Schema` and `Store`: the two tables, their CHECK constraints and SERIAL sequences. Also the `Database` class, whose methods are the SQL statements the handlers issue. An `online` flag stands for a reachable database: when it is false, every query fails.
- `Payment` and `Http`: the gateway signature check and the create-order request, plus requests, responses and steps.
- `Auth`: `verifyAdminToken` of the Netlify functions and `requireAdminAuth` of the Express server.
- `Registration`: registering (a PENDING insert) and confirming a payment (the PAID transition). Both are specification functions, with methods on `Database` proved against them.
- `Admin`: creating, updating, deleting and listing events, and listing registrations.
- `Netlify` and `Express`: the two back ends, with their agreement lemmas.
- `Bootstrap`: `initDb`. It backfills days, seeds the built-in events into an empty table, and fills NULL rules and coordinators.
- `Selection`: the event picker of the registration modal. It covers the pass-to-filter mapping, the filter, the sort, and a checklist class whose boxes are an array, capped at four checked for a single-day pass.
- `Form`: the rest of the page. It covers the day panels of the home page, the auto-selected pass, the fee and amount, the event string, the team inputs, the posted body and the image slider.

Behaviour the proofs bring out:

- A second confirmation of a PAID registration succeeds and overwrites its payment id (`Registration.ReverificationOverwrites`).
- When neither admin credential is configured, a login request without fields receives a token (`Express.UnconfiguredLoginAdmitsEmptyRequest`).
- A bad token gets 403 from Express and 401 from Netlify (`Express.AdminEndpointsAgree`).
- Seeded events only get their day on the second start, because the backfill runs before the seeding (`Bootstrap.SecondBootAssignsDays`).
- The home page matches days exactly, but the picker ignores case. An event whose day is "day 1" is therefore offered but never shown (`Form.PickerListsWhatHomeHides`).
- With no pass chosen, the form shows ₹0 but posts 250 (`Form.EmptyPassFee`).
- Netlify lists the events to an admin GET and answers 400 to a PUT or DELETE without an id. Express has no such route and answers with its 404 page (`Express.AdminEndpointsDiffer`).
- Ids, event ids and amounts beyond PostgreSQL's 32-bit `INTEGER` make the query fail, so such a request gets a 500 and changes nothing (`Admin.IdParam`, `Registration.Register`).

## Model

| member | source | states |
|---|---|---|
| Text.ToLower | public/js/script.js:232-233 | lower-casing keeps the length and lowers every letter, character by character |
| Text.ToLowerIdempotent | public/js/script.js:232-233 | lower-casing an already lower-cased string changes nothing |
| Text.IncludesIffOccurs | public/js/script.js:471-473 | `includes` holds exactly when the needle occurs at some position |
| Text.Trim | public/js/script.js:559 | `trim` yields text with no white space at either end |
| Text.TrimIsPiece | public/js/script.js:559 | what `trim` keeps is a contiguous piece of the input, and only white space is cut off either side |
| Text.TrimKeepsVisible | public/js/script.js:559 | an input with a visible character never trims to the empty string |
| Text.TrimIdempotent | public/js/script.js:559 | trimming twice is trimming once |
| Text.LexLeTotal | public/js/script.js:263-271 | any two strings are ordered one way or the other |
| Text.LexLeTransitive | public/js/script.js:263-271 | the string order is transitive |
| Text.LexLeAntisymmetric | public/js/script.js:263-271 | strings ordered both ways are equal |
| Text.SplitJoin | public/js/script.js:532 | splitting the `', '`-join of separator-free titles gives the titles back |
| Text.SplitOnAfterWord | netlify/functions/_auth.js:15 | splitting `w + ' ' + rest` on spaces gives `w` followed by the fields of `rest` |
| Text.SplitOnFirstField | netlify/functions/_auth.js:15 | the first field of a split is the text up to the first separator |
| JsValues.ParseId | netlify/functions/admin-events.js:61-64 | an id parses exactly when it is a non-empty run of digits |
| JsValues.ParseShow | netlify/functions/admin-events.js:61-64 | the decimal text of a number parses back to that number |
| Schema.EventRow | database.js:57-71 | a row built from admissible columns satisfies the category and type CHECK constraints |
| Schema.ProgressTransitive | netlify/functions/verify-payment.js:100-103 | the registrations only ever gain rows or move rows to PAID, over any sequence of requests |
| Store.MarkPaid | netlify/functions/verify-payment.js:100-103 | the UPDATE keeps the keys, makes the named row PAID with the given payment id, keeps its applicant data, and leaves every other row as it was |
| Store.AddEventMeaning | netlify/functions/admin-events.js:45-48 | the INSERT always advances the sequence; it adds one row under the old sequence value exactly when the columns are admissible, and keeps every other row and the consistency of the tables |
| Store.Rewritten | netlify/functions/admin-events.js:70-74 | the nine-column UPDATE keeps the row's id and fee and satisfies the CHECK constraints |
| Store.RewriteEvent | netlify/functions/admin-events.js:70-74 | the UPDATE fails exactly when it matches a row and the columns are not admissible; it keeps the keys and every other row, and the matched row keeps its id and fee |
| Store.IdsDescending | netlify/functions/admin-registrations.js:28 | the ids in range, each once, strictly decreasing |
| Store.IdsAscending | netlify/functions/admin-events.js:27-30 | the ids in range, each once, strictly increasing |
| Store.RegistrationsNewestFirst | netlify/functions/admin-registrations.js:28-33 | every registration once, in descending id order |
| Store.EventsOldestFirst | netlify/functions/admin-events.js:27-30 | every event once, in ascending id order |
| Store.NewestFirstUnique | server.js:304 | two newest-first listings of the same rows are the same listing |
| Store.Database.constructor | database.js:24-43 | a new database has empty tables and both sequences at 1 |
| Store.Database.InsertRegistration | netlify/functions/register.js:48-54 | the row is stored under the next sequence value, which is returned |
| Store.Database.FindRegistration | netlify/functions/verify-payment.js:93-96 | the row with that id, or none when there is none |
| Store.Database.UpdatePaid | netlify/functions/verify-payment.js:100-103 | the tables become the `MarkPaid` update of the old ones |
| Store.Database.FindEventTitle | netlify/functions/register.js:40-46 | the title of the event with that id, or none |
| Store.Database.InsertEvent | netlify/functions/admin-events.js:45-48 | the sequence always advances; the row is added and its id returned exactly when the columns are admissible |
| Store.Database.UpdateEvent | netlify/functions/admin-events.js:70-74 | the rewrite happens exactly when the new values are admissible, and a missing id is a successful no-op |
| Store.Database.DeleteEvent | netlify/functions/admin-events.js:86-88 | only the row with that id disappears, whether or not it existed |
| Payment.SignatureIsExact | netlify/functions/verify-payment.js:76-87 | for given order and payment ids, any signature other than the accepted one is refused |
| Payment.SignedMessageDeterminesIds | netlify/functions/verify-payment.js:76-79 | when the order id has no bar, the signed message (order id, a bar, payment id) determines both ids |
| Payment.OrderRequestFor | netlify/functions/create-order.js:23-35 | the gateway is asked for exactly the requested rupees in paise, in INR unless another currency is named, with the receipt unchanged |
| Auth.BearerTokenIsNextWord | netlify/functions/_auth.js:15 | the token checked is the text after "Bearer " up to the next space |
| Auth.VerifyAdminToken | netlify/functions/_auth.js:10-22 | valid exactly when a header with the case-sensitive Bearer prefix carries a token that verifies; "No token provided." without that prefix, "Invalid or expired token." otherwise |
| Auth.LowerCaseHeaderFirst | netlify/functions/_auth.js:11 | a non-empty lower-case `authorization` header decides alone; `Authorization` counts only when it is missing or empty |
| Auth.RequireAdminAuth | server.js:77-90 | the route runs exactly when the lower-case header has the Bearer prefix and its token verifies; otherwise 401 or 403 |
| Auth.GatesAgree | server.js:77-90 | the two gates admit the same requests; Express answers a bad token with 403 and Netlify with 401 |
| Registration.SuppliedNameWins | netlify/functions/register.js:33 | a supplied event name is stored unchanged, whatever the events table holds |
| Registration.IdLookupWithoutName | netlify/functions/register.js:40-46 | without a name, the title is that of the event with the given id, and is missing when no event has it |
| Registration.Register | netlify/functions/register.js:23-64 | status 200 exactly when all required fields are truthy, the event id (when looked up) and the amount fit PostgreSQL's `INTEGER`, and a title resolves; otherwise 400 "Please fill all required fields.", 500 when the store is unreachable or a number is out of range, or 400 "Invalid Event ID", each leaving the store as it was; success adds exactly one PENDING row with no payment id under a fresh key, holding every submitted field, and echoes that key and the amount |
| Registration.VerifyPayment | netlify/functions/verify-payment.js:73-113 | a bad signature gives 400 before any store access; success exactly when the signature is genuine and the row exists; an unknown id gives 500 "Registration not found.", and an id beyond `INTEGER` or an unreachable store a 500 query error; only a success changes anything, and it changes only that row, to PAID with the given payment id |
| Registration.ReverificationOverwrites | netlify/functions/verify-payment.js:93-103 | a second genuine confirmation of a PAID row succeeds again and replaces its payment id |
| Registration.TicketNotice | netlify/functions/verify-payment.js:106-107 | the e-mail goes to the registrant and names the event and the registration |
| Registration.NoticeUnaffectedByUpdate | netlify/functions/verify-payment.js:93-107 | the row read before the update yields the same e-mail as the updated row |
| Registration.CreateRegistration | netlify/functions/register.js:23-73 | the response and new state are those `Register` specifies |
| Registration.ConfirmPayment | netlify/functions/verify-payment.js:73-122 | the response and new state are those `VerifyPayment` specifies; an e-mail is produced exactly on success and cannot change either |
| Admin.IdParam | netlify/functions/admin-events.js:61-64 | an id is read exactly when it is a run of digits of value at most 2147483647, the largest `INTEGER`; the decimal text of any such id reads back as that id, and a larger number is a query error |
| Admin.ParseShowAll | netlify/functions/admin-events.js:61-64 | every decimal rendering of a number parses to that number |
| Admin.CreateEvent | netlify/functions/admin-events.js:37-53 | fee 250 whatever the request says; 200 exactly when online and the columns are admissible; an id is used up even when a constraint refuses the row; other rows unchanged |
| Admin.UpdateEvent | netlify/functions/admin-events.js:56-78 | keys and fees never change and other rows are untouched; success exactly when online and the id is absent or the columns are admissible; an absent id changes nothing |
| Admin.DeleteEvent | netlify/functions/admin-events.js:81-92 | success whenever online; the id is gone and nothing else changes |
| Admin.UpdateEventById | server.js:340-356 | an id PostgreSQL cannot read as an `INTEGER`, including any number above 2147483647, is a 500 with no change; otherwise it is `UpdateEvent` |
| Admin.DeleteEventById | server.js:359-367 | an id PostgreSQL cannot read as an `INTEGER`, including any number above 2147483647, is a 500 with no change; otherwise it is `DeleteEvent` |
| Admin.DeleteIdempotent | netlify/functions/admin-events.js:86-88 | deleting twice is deleting once |
| Admin.CreatedFeeSurvivesUpdates | server.js:329-348 | an event created with fee 250 keeps it through any later update |
| Admin.ListEvents | netlify/functions/admin-events.js:27-34 | all events, oldest first, when online; 500 otherwise |
| Admin.ListRegistrations | netlify/functions/admin-registrations.js:26-41 | all registrations, newest first, when online; 500 otherwise; read-only |
| Admin.RegistrationListingDetermined | netlify/functions/admin-registrations.js:28 | any newest-first sequence of the table's rows is exactly the listing returned |
| Netlify.PostGate | netlify/functions/register.js:8-21 | OPTIONS gives an empty 200, any method but POST gives 405, a body that does not parse gives 400; only a POST whose body parses gets through |
| Netlify.RegisterHandler | netlify/functions/register.js:8-73 | a gated request leaves the store unchanged; an admitted one is `Register` |
| Netlify.VerifyPaymentHandler | netlify/functions/verify-payment.js:58-122 | a gated request changes nothing; registrations change only for a parsed POST with a genuine signature |
| Netlify.CreateOrderHandler | netlify/functions/create-order.js:8-50 | after gating, 200 with the gateway's order or 500 with its error message, from a single gateway call |
| Netlify.AdminEvents | netlify/functions/admin-events.js:8-95 | preflight first; every other method needs a valid token, else 401 and no change; existing fees never change and new rows get fee 250; GET, POST, PUT and DELETE as in `Admin`; PUT or DELETE without an id gives 400; any other method gives 405 |
| Netlify.MissingIdChangesNothing | netlify/functions/admin-events.js:61-64 | a PUT or DELETE without an id answers 400 and leaves the table alone |
| Netlify.AdminRegistrations | netlify/functions/admin-registrations.js:8-41 | preflight, then 405 for anything but GET, then the token check with 401; an authorised GET gets exactly the listing response, so the newest-first rows when the store is up and 500 when it is down |
| Netlify.HandleRegister | netlify/functions/register.js:8-73 | against the live database: response and state as `RegisterHandler` specifies |
| Netlify.HandleVerifyPayment | netlify/functions/verify-payment.js:58-122 | against the live database: as `VerifyPaymentHandler` specifies, with the e-mail exactly on success |
| Netlify.HandleAdminEvents | netlify/functions/admin-events.js:8-95 | against the live database: as `AdminEvents` specifies |
| Express.Login | server.js:286-299 | a token exactly when both fields strictly equal the configured values, else 401 "Invalid credentials" |
| Express.UnconfiguredLoginAdmitsEmptyRequest | server.js:286-299 | with no configured credentials, a request without fields receives a token |
| Express.ConfiguredLoginNeedsBothFields | server.js:286-299 | with configured credentials, omitting either field is refused |
| Express.CreateOrderRoute | server.js:219-234 | 200 with the gateway's order exactly when it succeeds, else 500 with its message |
| Express.PublicEndpointsAgree | server.js:173-275 | for a parsed POST, register, verify-payment and create-order behave as their Netlify copies |
| Express.Guarded | server.js:77-90 | a refused request leaves the store unchanged; an admitted one is the route |
| Express.AddEventRoute | server.js:322-337 | a refused request changes nothing, with 401 or 403; a new row appears exactly when admitted, online and admissible, under the next sequence value with fee 250 and every other row kept; an admitted failure is a 500 that adds no row |
| Express.UpdateEventRoute | server.js:340-356 | a refused request changes nothing, with 401 or 403; no row is added or removed and no fee changes; success exactly when admitted, online, the id reads as an `INTEGER`, and the row is absent or the columns admissible; only the named row is rewritten; an admitted failure is a 500 with no change |
| Express.DeleteEventRoute | server.js:359-367 | a refused request changes nothing, with 401 or 403; success exactly when admitted, online and the id reads as an `INTEGER`, and then just that row is gone; an admitted failure is a 500 with no change |
| Express.RegistrationsRoute | server.js:302-309 | the newest-first listing behind `requireAdminAuth` |
| Express.EventsRoute | server.js:322-367 | only POST on the collection and PUT or DELETE with an id path segment reach a route; anything else gets Express's 404 page and changes nothing |
| Express.AdminEndpointsAgree | server.js:77-90 | for a POST, or a PUT or DELETE with an id, authorised requests have the same effect on both back ends; refused ones change nothing, with 401 from Netlify and 403 or 401 from Express |
| Express.AdminEndpointsDiffer | netlify/functions/admin-events.js:27-30 | a GET, or a PUT or DELETE without an id, gets Express's 404 page with no change; with a valid token, Netlify lists the events (200 when online) or answers 400 "Missing event id in query params" |
| Express.RegistrationListingsAgree | server.js:302-309 | both listings admit the same requests and list the same rows in the same order |
| Express.Contact | server.js:370-400 | 400 unless name, email and message are all truthy; then 200 exactly when the mail transport delivers, 500 otherwise |
| Bootstrap.BackfillMeaning | database.js:78-79 | only rows without a day change, and only their day: technical rows get "Day 1", non-technical and sports rows "Day 2" |
| Bootstrap.BackfillIdempotent | database.js:78-79 | a second backfill changes nothing |
| Bootstrap.MapEvents | database.js:196-197 | an UPDATE without a key condition rewrites every row and keeps every key |
| Bootstrap.FillMeaning | database.js:189-199 | the filling pass writes rules and coordinators only where they are NULL, and leaves neither NULL |
| Bootstrap.CatalogFacts | database.js:114-166 | the built-in list has thirteen entries, six technical then seven non-technical, all of admissible type and with rules and coordinators |
| Bootstrap.SeedAllRows | database.js:170-185 | the loop adds the entries in order under consecutive ids, with fee 500 and `'[]'` for missing rules or coordinators |
| Bootstrap.Backfill | database.js:78-79 | every row gets the backfilled day, and nothing else changes |
| Bootstrap.Seed | database.js:97-111 | an empty table gets the built-in list; a populated one gets the filling pass |
| Bootstrap.Boot | database.js:78-81 | the backfill, then the seeding; registrations are never touched |
| Bootstrap.BootPopulated | database.js:78-111 | on a populated table no key changes, and each row is backfilled and filled |
| Bootstrap.SeededShape | database.js:113-187 | seeding an empty table gives thirteen consecutive rows with the listed values |
| Bootstrap.FirstBootSeeds | database.js:78-187 | the first start seeds thirteen events with fee 500 and no day |
| Bootstrap.SecondBootAssignsDays | database.js:78-79 | the second start gives the seeded events their days, technical Day 1 and the rest Day 2, and changes nothing else |
| Bootstrap.RebootFillsDays | database.js:78-79 | a start over dayless rows that have rules and coordinators only assigns days |
| Bootstrap.BackfillDays | database.js:78-79 | against the live database: as `Backfill` specifies |
| Bootstrap.InsertEvents | database.js:113-187 | against the live database: one INSERT per built-in entry, in order |
| Bootstrap.FillMissingData | database.js:189-199 | against the live database: the two filling UPDATEs |
| Bootstrap.SeedEvents | database.js:97-111 | against the live database: as `Seed` specifies |
| Bootstrap.InitDb | database.js:78-81 | against the live database: as `Boot` specifies |
| Selection.ModeFor | public/js/script.js:214-228 | ALL exactly for the two-day pass; any value other than the three passes falls back to Day 1 for a technical primary event and to Day 2 otherwise |
| Selection.PassesChooseDays | public/js/script.js:217-223 | each exact pass string gives its own mode, whatever the primary event |
| Selection.KeepMeaning | public/js/script.js:231-255 | both directions of the single-day filter: the day matches without case, or the day is missing and the category is (Day 1) or is not (Day 2) technical |
| Selection.SingleDaysPartition | public/js/script.js:231-255 | no event is listed for both days, and a dayless event is listed for exactly one |
| Selection.FallbackAgreesWithBackfill | public/js/script.js:244-252 | for a dayless row, the category fallback keeps the same events as the day the start-up backfill writes |
| Selection.Filter | public/js/script.js:231-255 | exactly the events the predicate keeps |
| Selection.KeyLeTotal | public/js/script.js:263-271 | the comparator orders any two events one way or the other |
| Selection.KeyLeTransitive | public/js/script.js:263-271 | the comparator is transitive, by day and then by title in ALL mode |
| Selection.Sort | public/js/script.js:263-271 | the sorted list is ordered by the comparator and is a permutation of its input |
| Selection.Listing | public/js/script.js:231-271 | the listed events are sorted and are exactly the kept events, each as often as it occurs |
| Selection.AllModeListsEverything | public/js/script.js:235 | the two-day pass lists every event |
| Selection.EventChecklist.constructor | public/js/script.js:273-304 | one box per listed event; exactly the events with the primary event's id are pre-checked, and a single-day list starts within the cap |
| Selection.EventChecklist.CheckedCount | public/js/script.js:307 | the number of checked boxes |
| Selection.EventChecklist.Click | public/js/script.js:306-314 | unchecking always works; checking works with the two-day pass or while fewer than four are checked; the four-box cap is kept |
| Selection.Marked | public/js/script.js:528-529 | the checked positions, each once, in increasing list order, as many as there are checked boxes |
| Selection.ChosenTitles | public/js/script.js:528-532 | the titles of the checked boxes, one per checked box, in list order |
| Selection.SingleDayChoosesAtMostFour | public/js/script.js:306-314 | a single-day pass submits at most four titles |
| Form.OnDay | public/js/script.js:106 | the events whose day is exactly that text |
| Form.InCategory | public/js/script.js:111 | the events of one category, compared without case |
| Form.SectionsShow | public/js/script.js:110-135 | an event of the day appears in some section exactly when its category has a heading |
| Form.DayViewShows | public/js/script.js:94-140 | an event is shown under a day exactly when its day is that exact text and its category is one of the three headings |
| Form.NoteMeansEmptyDay | public/js/script.js:137-139 | the "no events" note appears exactly when no event has that day |
| Form.PickerListsWhatHomeHides | public/js/script.js:106 | an event whose day is "day 1" is listed for a Day 1 pass but shown on neither day panel |
| Form.AppendSections | public/js/script.js:110-135 | the sections built heading by heading are the non-empty category groups in display order |
| Form.RenderDay | public/js/script.js:104-140 | a day's container holds the note or the non-empty sections |
| Form.AutoPass | public/js/script.js:409-412 | the auto-selected pass is always one of the two single-day passes |
| Form.AutoPassListsPrimary | public/js/script.js:409-415 | the auto-selected pass filters like the category fallback, and lists the event itself when its day is missing or agrees with its category |
| Form.FindEvent | public/js/script.js:535 | the first event whose id the text spells, or none when there is none |
| Form.FindsTheEvent | public/js/script.js:336 | under distinct ids, looking up an event's own id finds that event |
| Form.EventString | public/js/script.js:528-537 | when some titles are checked and none contains ", ", the event field splits back into the checked titles, in order; with none checked it is the title of the first event the form's id finds, and "Unknown Event" when no event has that id |
| Form.NoBoxNamesFormEvent | public/js/script.js:533-536 | with no box checked and distinct ids, the form's own event id puts that event's title in the request |
| Form.SubmittedAmount | public/js/script.js:522 | 400 exactly when the pass contains "400", 250 otherwise |
| Form.FeeShownIsCharged | public/js/script.js:469-478 | the fee shown equals the amount posted exactly when the pass names one of 250 and 400 but not both |
| Form.SingleDayPassFee | public/js/script.js:469-478 | a single-day pass shows and posts 250 |
| Form.TwoDaysPassFee | public/js/script.js:469-478 | the two-day pass shows and posts 400 |
| Form.EmptyPassFee | public/js/script.js:469-478 | with no pass chosen, the fee shown differs from the 250 posted |
| Form.NonBlank | public/js/script.js:557-561 | never more members than inputs |
| Form.NonBlankTrimmed | public/js/script.js:559 | every posted member is non-empty and already trimmed |
| Form.NonBlankKeeps | public/js/script.js:559 | every input with a visible character is posted, trimmed |
| Form.NonBlankFromInputs | public/js/script.js:559 | every posted member is the trimmed text of some input |
| Form.TeamInputs.constructor | public/js/script.js:455-458 | the modal starts with no team inputs |
| Form.TeamInputs.Add | public/js/script.js:489-506 | a new empty input exactly when fewer than four exist; never more than four |
| Form.TeamInputs.Remove | public/js/script.js:502 | removes just that input |
| Form.TeamInputs.Enter | public/js/script.js:501 | typing changes just that input |
| Form.TeamInputs.Clear | public/js/script.js:455-458 | closing the modal removes every input |
| Form.TeamInputs.Collect | public/js/script.js:556-561 | the posted members are the trimmed non-blank inputs when the team section is visible, none otherwise, and at most four |
| Form.Submission | public/js/script.js:539-553 | the posted body carries the pass, the amount it implies, the event string and the team |
| Form.SubmissionRecordsChoice | public/js/script.js:528-553 | once the server accepts the body, the stored registration splits back into the checked titles, with the amount the pass implies, the posted team, and status PENDING |
| Form.NextSlide | public/js/script.js:692 | the next slide index is always in range |
| Form.SlidesInOrder | public/js/script.js:687-696 | the first ticks show the slides in order |
| Form.SlidesRepeat | public/js/script.js:687-696 | after as many ticks as there are slides, the slider is back where it was |

## Left out

- Sending e-mail is not modelled: `sendTicketEmail`, the nodemailer transport and the contact mail. A confirmation produces a `Notice` value that cannot affect the response or the tables. The contact route takes the transport's outcome as a parameter.
- HMAC-SHA256, `jsonwebtoken` and the Razorpay SDK are foreign code. They are function-typed parameters: the signer, the token verifier and the order gateway.
- The database server is not modelled beyond the queries the handlers issue. Its availability is the `online` flag.
- The following are not modelled: CREATE TABLE, ADD COLUMN, the pool, helmet, rate limiting, body parsing, static files, uploads, the server start-up, and `/api/config` and `/api/events`.
- Concurrency is not modelled: simultaneous confirmations, or `seedEvents` running unawaited beside later requests. Every request is one atomic step.
- The creation timestamp of a registration is not modelled.
- Registration.Register: the team is stored as the list rather than as its JSON text. JSON `null` and a missing field are not told apart. An `eventId` sent as text is taken as the number it spells. Amounts and event ids are whole numbers; a fractional one, which PostgreSQL refuses for an `INTEGER`, is not modelled.
- Admin.IdParam: reads only plain digit strings as ids. PostgreSQL also accepts a sign and surrounding blanks, so `-1` or ` 5` would be a query error in the model but an ordinary id in the source.
- Form.FindEvent: counts `e.id == text` as a match when the text is a run of decimal digits whose value is the id, leading zeros included. JavaScript's loose `==` also accepts surrounding blanks, a sign, a decimal point, and hexadecimal and exponent forms (" 5", "+5", "5.0", "0x5", "5e0"), which the model does not match.
- Text.ToLower: lower-cases only ASCII letters. Categories are ASCII by their CHECK constraint, but the days and titles an admin writes may hold other letters; the model leaves those unchanged where `toLowerCase` would lower them.
- Selection.Sort: does not state that equal keys keep their input order, which `Array.prototype.sort` guarantees.
- Selection.KeyLe: compares titles by code point where the page uses `localeCompare`, which is locale-dependent and ignores case at its first level. The page therefore sorts "apple" before "Zebra", while the model puts "Zebra" first, and accented letters sort by code point rather than next to their base letters. Days in ALL mode are compared with `<`, which JavaScript applies to UTF-16 code units, while the model compares code points; the two orders differ only when a character above U+FFFF meets one in U+E000 to U+FFFF.
- Text.Trim: removes the ASCII blanks, no-break space, byte-order mark and the two line separators, not the other Unicode space separators.
- The DOM is not modelled: markup, styles, alerts, modal view switching, the theme toggle, scrolling, the checkout widget, timers and the rule and coordinator lists of the modal. The event picker's `[day] title` labels are not modelled either.
- The second, top-level copy of `setupEventSelection` at the end of public/js/script.js is not modelled. The page always calls the copy inside the loaded handler.
- The pass fallback in `openModal` (public/js/script.js:421-428) is not modelled. It never runs, because the pass select has just been set to a non-empty value.
- Netlify.PostGate: a body that parses to JSON `null` is let through. In the source the destructuring that follows throws outside the `try`, so the function fails without a response (register.js, verify-payment.js and create-order.js). The same holds for `admin-events` POST and PUT.
- Payment.OrderRequestFor: `currency: null` is not modelled. The default applies only to a missing field, so the source passes `null` on to the gateway instead of INR.
- Express.Login: `username: null` or `password: null` is not modelled. Such a field is never strictly equal to a configuration value, set or unset, so the request is always refused; the model has no null to send.
- Payment.SignedMessage: a `null` id is not modelled. It reads "null" in the signed text, where a missing id reads "undefined".
- Express.EventsRoute: OPTIONS is left out. Express's router answers it on its own with the allowed methods.
- The maintenance scripts, the Netlify login, config, events and database-pool helpers are not part of this model.
