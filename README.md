# Marhabteen dashboard — a verified model of its core

The Marhabteen dashboard is the admin web application of a holiday-rental
platform. Admins use it to review properties, users, bookings and vouchers,
all stored in a hosted document store. Its server routes:

- start and confirm card payments through an external payment gateway;
- push notifications to a user's phone.

This project models that core in Dafny and proves what it promises:

- **JavaScript values** (`js.dfy`) become a datatype of JSON-like values. It
  comes with the few operators the code relies on:
  - truthiness and `||`;
  - `String()`, with a round trip for decimal numbers;
  - a property read that throws on `null`/`undefined`;
  - destructuring, and object spread (including spreading a string or an array).
- **Text helpers** (`text.dfy`): JavaScript `trim`, ASCII lower-casing,
  `includes`, `split` and `join`.
- **Form encoding** (`form_encoding.dfy`): `URLSearchParams` with its UTF-8
  percent encoder. Parsing the serialised query gives back every pair.
- **The three server routes** (`payment_initiate.dfy`, `payment_verify.dfy`,
  `send_notification.dfy`), over a shared gateway configuration
  (`gateway.dfy`).
  - Each handler is a function from the request body and its external
    answers (the gateway's reply, the recipient document, the send outcome)
    to the call it issues and the response it returns.
  - The value-stringifying loop of the notification route is a method proved
    against a specification function.
- **The data service** (`service.dfy`): a `Store` class with three
  collections of documents. Each helper is a method:
  - whether a remote operation fails is an input, except for the four
    reads without a `try` (properties, users and the two statistics),
    whose rejection is not modelled (see "Left out");
  - the method states the new collections and its boolean or `null` result.
  Voucher codes are generated from given random draws, in a loop.
- **The admin pages**, as page state plus pure handlers:
  - `list_search.dfy` (shared search and delete), `users_page.dfy`,
    `properties_page.dfy`;
  - `vouchers_page.dfy`, including the CSV export loop;
  - `bookings_page.dfy`, `dashboard_page.dfy`.
- **The admin guard** (`dashboard_layout.dfy`): a class with its
  `loading`/`isAdmin` state and the redirects it issues.
- **The service-account loader** (`firebase_admin.dfy`): a class holding the
  module's `serviceAccount` variable and the newline fix-up of its private
  key.

Outside calls are inputs to the model, and every path through the catching
`try` blocks is modelled, including a gateway body that cannot be read as
text or as JSON, and a gateway status that the route's own JSON response
cannot carry. The outside calls are the gateway `fetch`, the
document store, authentication, push messaging, `JSON.parse`,
`Math.random` and `Timestamp.now`.

## Model

| member | source | states |
|---|---|---|
| Js.GetProp | src/app/api/payment/initiate/route.js:80 | reading a property fails exactly on `null`/`undefined`; on an object it yields the field or `undefined` |
| Js.Destructure | src/app/api/payment/initiate/route.js:11 | destructuring throws exactly on a `null`/`undefined` body; an object gives its fields, any other value none |
| Js.NatToDecimalRoundTrip | src/app/api/payment/initiate/route.js:45 | `amount.toString()` of a non-negative integer is a non-empty digit string without leading zeros that parses back to the amount |
| Js.NatToDecimalInjective | src/app/api/payment/initiate/route.js:45 | distinct amounts print differently |
| Js.IndexEntries | src/app/api/send-notification/route.js:55 | spreading a list yields one entry per index, named by its decimal index |
| Text.TrimEmptyIffBlank | src/app/dashboard/users/page.tsx:29 | `query.trim()` is empty iff the query is all JavaScript whitespace |
| Text.Lower | src/app/dashboard/users/page.tsx:32 | lower-casing keeps the length and maps each letter A–Z to a–z, leaving other characters |
| Text.IncludesIffOccurs | src/app/dashboard/users/page.tsx:36 | `includes` holds iff the query occurs at some position |
| Text.SplitJoin | src/app/dashboard/vouchers/page.tsx:68-71 | splitting a join of separator-free parts gives the parts back |
| FormEncoding.EncodeAlphabet | src/app/api/payment/initiate/route.js:43-51 | an encoded name or value never contains `&` or `=` |
| FormEncoding.DecodeEncode | src/app/api/payment/initiate/route.js:43-51 | percent-decoding an encoded ASCII text gives it back |
| FormEncoding.ParseSerialize | src/app/api/payment/initiate/route.js:43-53 | parsing the serialised query gives back every pair, in order |
| FormEncoding.LookupAt | src/app/api/payment/initiate/route.js:43-53 | looking a name up in a parsed query finds its first pair |
| PaymentInitiate.ThrownMessage | src/app/api/payment/initiate/route.js:87 | the error text is the exception's message, or "Internal server error" when that is empty |
| PaymentInitiate.Translate | src/app/api/payment/initiate/route.js:58-89 | a thrown fetch, an unreadable body or a null payload is a 500 with the thrown message; a non-2xx reply is that status with the gateway-failed error, or a 500 when reading its text for the log rejects or when the status is one a JSON response cannot carry (304, or outside 200-599); only a readable 2xx reply gives 200 with `data.url` and the booking id |
| PaymentInitiate.Initiate | src/app/api/payment/initiate/route.js:8-91 | the checks run in order (body, required fields 400, credentials 500, amount 400); the gateway is called iff every check passes, with the built URL and bearer token |
| PaymentInitiate.ValidationStatus | src/app/api/payment/initiate/route.js:14-36 | without a gateway call the status is 400 iff a field is missing or the amount is invalid, and 500 iff credentials are missing |
| PaymentInitiate.GatewayReadsQuery | src/app/api/payment/initiate/route.js:39-53 | the gateway reads back the id, amount, phone (empty when absent), email, both return URLs and the booking id as `custom_ref` |
| PaymentInitiate.GatewayReadsAmount | src/app/api/payment/initiate/route.js:45 | the amount text the gateway receives is all digits and parses to the requested amount |
| PaymentInitiate.EmptyBodyIsBadRequest | src/app/api/payment/initiate/route.js:14-19 | an empty object body is a 400 with no gateway call |
| PaymentInitiate.NonPositiveAmountRejected | src/app/api/payment/initiate/route.js:31-36 | a zero or negative amount never reaches the gateway |
| PaymentVerify.Translate | src/app/api/payment/verify/route.js:40-65 | a non-2xx reply is still 200 and unverified; a readable reply is 200 with the ref and details, verified iff `result` is "success"; a thrown fetch, an unreadable body or a null payload is a 500 with the thrown message |
| PaymentVerify.Verify | src/app/api/payment/verify/route.js:7-67 | a missing ref is a 400 and missing credentials a 500, both without a call; otherwise the gateway is called on the receipt URL |
| PaymentVerify.RefIsNotEncoded | src/app/api/payment/verify/route.js:27 | a reference containing `&` is pasted unencoded, so the query splits into more than two pieces |
| PaymentVerify.EmptyBodyIsBadRequest | src/app/api/payment/verify/route.js:12-17 | an empty body is a 400 with no gateway call |
| PaymentVerify.UnknownRefIsUnverified | src/app/api/payment/verify/route.js:40-46 | a failing gateway status yields 200 with `verified: false` |
| SendNotification.Merge | src/app/api/send-notification/route.js:53-56 | the data has `type` plus every own entry of `data`, with `data` overriding `type` |
| SendNotification.StringValue | src/app/api/send-notification/route.js:60-62 | null and undefined stay; every other value becomes its string |
| SendNotification.StringifyValues | src/app/api/send-notification/route.js:59-63 | the loop leaves exactly the stringified map |
| SendNotification.StringifiedProperties | src/app/api/send-notification/route.js:59-63 | the keys are kept, every non-null value becomes a string, and stringifying again changes nothing |
| SendNotification.Notify | src/app/api/send-notification/route.js:4-117 | required fields are checked before the lookup (400); the lookup reads the `users` document named by `recipientId`; then existence (404), opt-in (200 disabled) and token (400); only then is a message sent to that user's token; a failed lookup or a failed send is a 500 with its message |
| SendNotification.SentDataHasType | src/app/api/send-notification/route.js:53-63 | the data sent always has a `type` entry, from `data` when it has one |
| Service.AlphabetShape | src/app/service.tsx:226 | the alphabet is the 26 capitals then the ten digits |
| Service.GenerateVoucherCode | src/app/service.tsx:225-232 | the code is the alphabet symbols the draws pick, twelve of them |
| Service.CodesMatchDraws | src/app/service.tsx:225-232 | every twelve-symbol code over the alphabet comes from exactly one sequence of draws |
| Service.WithId | src/app/service.tsx:9-12 | a listed document carries its fields and `id`, with a stored `id` field winning |
| Service.Snapshot | src/app/service.tsx:9-12 | one entry per listed document, in listing order |
| Service.ListingSize | src/app/service.tsx:9-12 | a listing has exactly one entry per document |
| Service.Store.FetchProperties | src/app/service.tsx:6-13 | every property with its id, one per document |
| Service.Store.FetchUsers | src/app/service.tsx:27-34 | every user with its id, one per document |
| Service.Store.FetchVouchers | src/app/service.tsx:156-164 | every voucher with its id; `[]` when the read fails |
| Service.Store.FetchPropertyById | src/app/service.tsx:96-112 | the property with its id when it exists and the read succeeds, otherwise `null` |
| Service.Store.FetchPropertyStats | src/app/service.tsx:50-64 | the property count and at most five newest properties, newest first; no dated property left out is newer than the last one shown |
| Service.Store.FetchUserStats | src/app/service.tsx:67-73 | the number of users |
| Service.Store.DeletePropertyById | src/app/service.tsx:16-24 | true iff the delete succeeds, and then only that property is gone |
| Service.Store.DeleteUserById | src/app/service.tsx:37-45 | true iff the delete succeeds, and then only that user is gone |
| Service.Store.DeleteVoucher | src/app/service.tsx:194-204 | true iff the delete succeeds, and then only that voucher is gone |
| Service.Store.UpdatePropertyTitle | src/app/service.tsx:130-140 | on success only `locationTitle` of that property changes; a missing property or failed write is false with nothing changed |
| Service.Store.UpdatePropertyDescription | src/app/service.tsx:143-153 | on success only `locationDescription` of that property changes |
| Service.Store.DeletePropertyImage | src/app/service.tsx:115-127 | on success every copy of the url leaves `images` and nothing else changes |
| Service.WithoutElement | src/app/service.tsx:119 | `arrayRemove` leaves an array without the element, keeping every other one as often as it occurs and in its order; a non-array field becomes empty |
| Service.Store.UpdateVoucherExportStatus | src/app/service.tsx:207-221 | true iff every update succeeds; exactly the vouchers with a successful update get `exported = true` |
| Service.Store.AddVouchers | src/app/service.tsx:167-191 | one write per unit of a positive quantity; true iff every write succeeds; the store gains exactly the vouchers whose write succeeded |
| Service.Store.WriteVoucher | src/app/service.tsx:173-181 | one loop turn: a fresh code, then the voucher is stored under its new id unless the write fails |
| Service.IssuedContents | src/app/service.tsx:172-182 | the issued vouchers are exactly those of the successful writes, each under its own id |
| Service.IssuedVouchersShape | src/app/service.tsx:174-180 | every issued voucher is unredeemed, has a valid code, and carries the given value and export flag |
| Service.IssuedCount | src/app/service.tsx:172-186 | with no failed write exactly `quantity` vouchers are issued |
| Service.Store.CreateAdminUser | src/app/service.tsx:235-255 | true iff both the account and the document are created; then `users/<uid>` is `{email, role: "admin", createdAt}` |
| Lists.FilterSpec | src/app/dashboard/users/page.tsx:34-38 | a filter keeps each passing element as often as it occurs, drops the others, and keeps the order |
| ListSearch.FieldVerdict | src/app/dashboard/users/page.tsx:36-37 | a missing field does not match, a string matches by lowercase containment, anything else throws |
| ListSearch.RecordVerdict | src/app/dashboard/users/page.tsx:35-37 | a record matches when its first field does or, failing that, its second; missing both fields never matches |
| ListSearch.SearchIsFilter | src/app/dashboard/users/page.tsx:33-39 | the search throws iff some record's test throws, otherwise it is the filter by the test |
| ListSearch.HandleSearch | src/app/dashboard/users/page.tsx:27-41 | the query is stored; a blank query shows the full list; otherwise the full list, never the previous result, is filtered |
| ListSearch.SearchResultIsSubsequence | src/app/dashboard/properties/page.tsx:29-36 | a search shows exactly the matching records, each as often as it occurs, in their original order |
| ListSearch.WithoutIdSpec | src/app/dashboard/vouchers/page.tsx:56 | removing an id keeps every other entry as often as before, in order, and no entry with that id |
| ListSearch.HandleDelete | src/app/dashboard/users/page.tsx:43-52 | only a confirmed, successful delete changes anything; it drops exactly the entries with that id from both lists, keeping every other entry as often as before and in order, and leaves the query and loading flag |
| ListSearch.Load | src/app/dashboard/users/page.tsx:16-24 | both lists are set to what was read and loading ends; a rejected read leaves the page loading |
| UsersPage.Search | src/app/dashboard/users/page.tsx:27-41 | search over `1_name` and `2_email`: a blank query shows all; otherwise exactly the matching users, as often as they occur and in order; a throwing test leaves the shown list; nothing else on the page changes |
| UsersPage.Delete | src/app/dashboard/users/page.tsx:43-52 | a confirmed, successful delete drops exactly that user's entries from both lists, keeping the others with their multiplicity and order; nothing else on the page changes |
| UsersPage.CreateAdmin | src/app/dashboard/users/page.tsx:56-77 | mismatched passwords attempt nothing; otherwise `createAdminUser` is called with the entered email and password; a failure changes nothing; success toggles the popup, clears the three inputs and reloads both lists |
| PropertiesPage.Search | src/app/dashboard/properties/page.tsx:24-38 | search over `locationTitle` and `locationDescription`: a blank query shows all; otherwise exactly the matching properties, as often as they occur and in order; a throwing test leaves the shown list; loading is untouched |
| PropertiesPage.Delete | src/app/dashboard/properties/page.tsx:40-49 | a confirmed, successful delete drops exactly that property's entries from both lists, keeping the others with their multiplicity and order; query and loading are untouched |
| VouchersPage.Normalise | src/app/dashboard/vouchers/page.tsx:26-33 | `id` is kept and each falsy field takes its default (`""`, `{seconds: 0}`, false, null, 0) |
| VouchersPage.NormaliseIdempotent | src/app/dashboard/vouchers/page.tsx:26-33 | normalising twice is normalising once |
| VouchersPage.Load | src/app/dashboard/vouchers/page.tsx:24-36 | the list is the normalised vouchers, in order, and loading ends; the popup and its inputs are untouched |
| VouchersPage.Create | src/app/dashboard/vouchers/page.tsx:42-49 | the list is refreshed only on success and the popup closes either way |
| VouchersPage.Delete | src/app/dashboard/vouchers/page.tsx:51-59 | a confirmed, successful delete removes exactly the entries with that id, in order; only the list changes; otherwise nothing changes |
| VouchersPage.RowsAppend | src/app/dashboard/vouchers/page.tsx:69-71 | appending a voucher appends its row |
| VouchersPage.DownloadCsv | src/app/dashboard/vouchers/page.tsx:61-76 | no export for an empty list; otherwise the header followed by one row per voucher in order |
| VouchersPage.CsvLines | src/app/dashboard/vouchers/page.tsx:68-71 | the export splits into the header line, one line per voucher, and a final empty piece |
| VouchersPage.RowColumns | src/app/dashboard/vouchers/page.tsx:70 | a row splits into the code, the value with "LYD", and "Redeemed" iff `isRedeemed` else "Active" |
| BookingsPage.Load | src/app/dashboard/bookings/page.tsx:26-32 | exactly the bookings not billed "external" are kept, including those with no billing method, in order |
| BookingsPage.StatusText | src/app/dashboard/bookings/page.tsx:15-20 | a known code shows its label, any other string status is shown as it is, a missing one as `""` |
| BookingsPage.StatusColour | src/app/dashboard/bookings/page.tsx:63 | red iff the status is `notCheckedIn`, `canceled` or `CanceledFirst`, else green |
| BookingsPage.DesktopGuestColourAsWritten | src/app/dashboard/bookings/page.tsx:64 | the desktop guest column is red in both branches |
| BookingsPage.DesktopGuestColourDisagrees | src/app/dashboard/bookings/page.tsx:64-86 | for every non-alert status the desktop guest colour differs from the mobile one |
| BookingsPage.Cells | src/app/dashboard/bookings/page.tsx:83-86 | both status columns show their labels, each red exactly for the alert statuses and green exactly otherwise |
| DashboardPage.JsAdd | src/app/dashboard/page.tsx:22 | `+` concatenates once either side is textual and adds numbers otherwise |
| DashboardPage.Paid | src/app/dashboard/page.tsx:22 | `paid || 0` is the paid value when truthy and 0 otherwise |
| DashboardPage.EarningsIsSum | src/app/dashboard/page.tsx:22 | with numeric or falsy `paid` values the earnings are the number summing them, falsy counting 0 |
| DashboardPage.TextualPaidMakesText | src/app/dashboard/page.tsx:22 | one textual `paid` makes the total a string |
| DashboardPage.BookingTotals | src/app/dashboard/page.tsx:20-22 | the count and earnings are over the non-external bookings; an empty list gives 0 and 0 |
| DashboardPage.BookingCount | src/app/dashboard/page.tsx:20-21 | the booking count is the list length minus the external bookings |
| DashboardPage.LoadStats | src/app/dashboard/page.tsx:16-29 | loading ends only when all three reads succeed, and then the totals are set |
| DashboardPage.AuthChanged | src/app/dashboard/page.tsx:34-45 | the email shown is the signed-in user's, or empty; nothing else changes |
| DashboardLayout.AdminGuard.constructor | src/app/dashboard/layout.tsx:11-12 | the guard starts loading and not admin |
| DashboardLayout.AdminGuard.CheckAdmin | src/app/dashboard/layout.tsx:15-32 | no user means a redirect and no read, and loading stays; an admin document sets `isAdmin`; anything else redirects; loading ends after the read |
| FirebaseAdmin.FixNewlines | src/lib/firebase-admin.js:13 | each backslash-`n` becomes a newline; the text never grows |
| FirebaseAdmin.FixNewlinesRemovesAll | src/lib/firebase-admin.js:13 | no backslash-`n` remains after the replacement |
| FirebaseAdmin.FixNewlinesKeepsPlainText | src/lib/firebase-admin.js:13 | a key without backslash-`n` is unchanged |
| FirebaseAdmin.FixNewlinesIdempotent | src/lib/firebase-admin.js:13 | fixing twice is fixing once |
| FirebaseAdmin.FixUndoesEscape | src/lib/firebase-admin.js:13 | a key whose newlines were escaped comes back exactly |
| FirebaseAdmin.Loaded | src/lib/firebase-admin.js:5-20 | a missing or non-string variable is left as it is; invalid JSON or a null document gives null; a truthy string key has its escapes replaced and nothing else changes; a truthy non-string key gives null; a falsy or absent key leaves the parsed value as it is |
| FirebaseAdmin.LoadedKeyIsFixed | src/lib/firebase-admin.js:9-14 | a loaded object keeps its other fields; a truthy string key becomes the original with its escapes replaced and no backslash-`n` left; a falsy key leaves the object as parsed |
| FirebaseAdmin.ServiceAccount.FixUp | src/lib/firebase-admin.js:7-20 | the block leaves exactly the loaded value in `serviceAccount` |

## Left out

- Numbers are integers: floating-point amounts, `paid` values, `NaN`, and the exponent notation of `toString()` are not modelled. `Number(e.target.value)` on the vouchers page is taken to give an integer.
- Lower-casing is ASCII only, and the query round trip is proved for ASCII names and values. Encoding non-ASCII text is modelled (UTF-8 bytes) but its decoding is not.
- Spreading a string indexes it by character, not by UTF-16 code unit.
- Built-in properties of strings, arrays and prototypes (`length`, `constructor`, …) are not fields of the modelled values. A status such as `"constructor"` is treated as unknown.
- SendNotification.Notify: the 500 response keeps `error.message` but not `error.stack` as `details`. The Android/APNs constants of the payload are not modelled.
- The gateway's and the document store's behaviour is an input: reply status and JSON, document found or not, success or failure of each write.
- Service.Store.FetchProperties, Service.Store.FetchUsers, Service.Store.FetchPropertyStats and Service.Store.FetchUserStats: these helpers have no `try`, so a rejected read propagates as an exception; it is not modelled inside the store. The pages model it as a missing read, which leaves them loading (DashboardPage.LoadStats for the two statistics reads).
- Service.Store.FetchPropertyStats: ordering compares `createdAt.seconds` only, and the documents' order is an input. The unused seven-days cutoff computed at src/app/service.tsx:58 is not modelled.
- `Promise.all` concurrency in `addVouchers` and `updateVoucherExportStatus` is modelled as a sequence of writes with an all-succeeded result. A write that succeeds stays even when another fails.
- `fetchBookings` is imported by the bookings and dashboard pages but is not defined in src/app/service.tsx. Its result is an input list.
- `handleCreateVoucher` calls `addVouchers` with two arguments (src/app/dashboard/vouchers/page.tsx:43), so `exported` is `undefined`. The page model takes the outcome of the call as an input.
- Rendering, CSS classes other than the status colours, `alert`/`confirm` dialogs (`confirm` is an input), `saveAs`, and logging.
- `initializeApp`, `cert` and the Firebase clients built from the loaded service account.
- The payment routes have no callback handler, no retry limit, no idempotency store and no payment state machine; each route makes at most one gateway call per request.

## Findings

| source | as written | input that shows it | evidently intended | confidence | as-written member | corrected member |
|---|---|---|---|---|---|---|
| src/app/dashboard/bookings/page.tsx:64 | the desktop guest column's colour falls back to "text-red-700", so every guest status is red | a booking with `guestStatus: "checkedIn"`: red on desktop, green (line 86) on mobile | red only for `notCheckedIn`/`canceled`/`CanceledFirst`, green otherwise, as for the host column and the mobile view | high; not executed | BookingsPage.DesktopGuestColourAsWritten, BookingsPage.DesktopGuestColourDisagrees | BookingsPage.StatusColour, BookingsPage.Cells |
