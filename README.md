# Premium membership pipeline — a Dafny model

This project models the payment-to-premium pipeline of a Supabase web application
for financial education, together with the premium-access check of its education
pages and the rules of two admin screens:

- `create-payment` (edge function): authenticates the caller from the bearer token,
  checks the package (`monthly` / `yearly`), prices it (40 000 / 400 000 rupiah),
  builds the order id `premium-<user id>-<milliseconds>`, inserts a `pending`
  transaction row and only then asks the payment gateway (Midtrans Snap) for a
  checkout session.
- `midtrans-webhook` (edge function): maps the gateway's `transaction_status` /
  `fraud_status` to `pending` / `paid` / `failed`, overwrites the transaction row and,
  on a payment, makes the owner premium until one calendar month (`setMonth`) or one
  year (`setFullYear`) after the moment of processing, then asks for a welcome e-mail.
- The education list and detail pages: the access predicate (role premium and
  `premium_until` absent or later than now), the search / category / access filter,
  the detail page's deny-or-show decision, media block, type badge and topic tags.
- The users admin screen (role / expiry update record, search, badge, counters) and
  the premium-packages admin screen (schema, number-input coercion, create-or-update,
  edit form).

The tables are maps in `Database.Store` (`transactions` by order id, `profiles` by
user id, plus the log of requested e-mails). Each handler is an imperative method on
the store, proved equal to a specification function; the lemmas state what the
functions promise. Dates are civil dates `(year, month, day)` with the JavaScript
`MakeDay` normalisation, so 31 January plus one month is 2 or 3 March, not the end
of February.

The code is modelled as written where it departs from the intended design:

- The webhook reads no stored status before writing. A `pending` notification that
  arrives after the settlement resets a paid row to `pending`, and a replayed
  settlement upgrades again and requests a second e-mail
  (`MidtransWebhook.StalePendingResetsPaidRow`, `MidtransWebhook.DuplicateSettlementReextends`,
  `MidtransWebhook.ReplayEmailsPerUpgrade`). The intended design ignores notifications
  for paid or failed rows.
- The new expiry counts from the moment of processing, not from
  `max(now, current expiry)`, so an early renewal discards the remaining time
  (`MidtransWebhook.EarlyRenewalRestartsFromNow`).
- One month after 31 January 2024 is 2 March 2024, not 29 February
  (`MidtransWebhook.MonthEndSettlementSpills`).
- Any package other than `monthly` / `yearly` sets the expiry to `now` itself, so the
  user gets role premium without access.
- The package price is fixed in the function; the `premium_packages` table edited on
  the admin screen is not read by the payment pipeline.

## Model

| member | source | states |
|---|---|---|
| MidtransWebhook.Decide | supabase/functions/midtrans-webhook/index.ts:53-69 | upgrade iff paid; paid iff settlement or capture with fraud status accept; failed iff deny, expire or cancel; everything else pending |
| MidtransWebhook.Expiry | supabase/functions/midtrans-webhook/index.ts:92-99 | the expiry is a valid date after `now` for monthly and yearly, and `now` itself for any other package |
| MidtransWebhook.Handle | supabase/functions/midtrans-webhook/index.ts:28-149 | answers 200 or 500; never adds or removes rows; only the addressed transaction row can change; keys stay consistent; at most one e-mail is appended and earlier ones are kept |
| MidtransWebhook.UpgradeOwner | supabase/functions/midtrans-webhook/index.ts:88-132 | the upgrade leaves transactions alone, changes no profile but the owner's, and appends at most one e-mail |
| MidtransWebhook.ProcessWebhook | supabase/functions/midtrans-webhook/index.ts:28-140 | the handler's if-chain and writes leave the store exactly as `Handle` describes and return its status code |
| MidtransWebhook.UpgradeUser | supabase/functions/midtrans-webhook/index.ts:88-132 | the upgrade branch (expiry by setMonth/setFullYear, profile update, e-mail) leaves the store as `UpgradeOwner` describes |
| MidtransWebhook.IncompletePayloadRejected | supabase/functions/midtrans-webhook/index.ts:37-39 | a body without a truthy order_id or transaction_status is answered 500 with nothing changed |
| MidtransWebhook.UnknownOrderRejected | supabase/functions/midtrans-webhook/index.ts:42-51 | an order id with no transaction row is answered 500 with nothing changed |
| MidtransWebhook.RowOverwritten | supabase/functions/midtrans-webhook/index.ts:72-80 | the row takes the implied status and the incoming transaction id and payment type whatever its previous status; absent fields keep their column |
| MidtransWebhook.UpgradeSetsOwnerOnly | supabase/functions/midtrans-webhook/index.ts:101-109 | on a payment only the owner's profile changes: role premium and the expiry from `now`, discarding the old expiry; one e-mail request for the row's user, package and amount |
| MidtransWebhook.NoUpgradeKeepsProfiles | supabase/functions/midtrans-webhook/index.ts:88-140 | a notification that is not a payment leaves profiles and e-mails unchanged and is answered 200 |
| MidtransWebhook.EmailFailureHarmless | supabase/functions/midtrans-webhook/index.ts:119-131 | a failing e-mail call changes neither the status code nor the tables |
| MidtransWebhook.ProfileFailureAfterRowWritten | supabase/functions/midtrans-webhook/index.ts:111-114 | a failing profile update answers 500 although the row is already paid; profiles and e-mails unchanged |
| MidtransWebhook.ReplayLastWins | supabase/functions/midtrans-webhook/index.ts:72-80 | after any sequence of clean deliveries for an order, the row's status is the one the last notification implies |
| MidtransWebhook.ReplayEmailsPerUpgrade | supabase/functions/midtrans-webhook/index.ts:118-131 | a sequence of clean deliveries requests exactly one e-mail per settlement or accepted capture in it |
| MidtransWebhook.ReplayKeepsKeys | supabase/functions/midtrans-webhook/index.ts:72-80 | any sequence of deliveries keeps the sets of transaction and profile keys and their consistency |
| MidtransWebhook.StalePendingResetsPaidRow | supabase/functions/midtrans-webhook/index.ts:65-80 | a pending notification after the settlement resets the paid row to pending; the owner stays premium and one e-mail was requested |
| MidtransWebhook.DuplicateSettlementReextends | supabase/functions/midtrans-webhook/index.ts:92-131 | a settlement delivered twice recomputes the expiry from the second delivery and requests two e-mails |
| MidtransWebhook.EarlyRenewalRestartsFromNow | supabase/functions/midtrans-webhook/index.ts:92-96 | renewing monthly on 1 March 2024 with access until 10 March gives 1 April 2024 |
| MidtransWebhook.MonthEndSettlementSpills | supabase/functions/midtrans-webhook/index.ts:95-96 | a monthly settlement on 31 January 2024 gives 2 March 2024 |
| CivilDate.MakeDay | supabase/functions/midtrans-webhook/index.ts:95-98 | the month carry into the year and the day spill into the next month always give a valid date |
| CivilDate.SetMonthNext | supabase/functions/midtrans-webhook/index.ts:95-96 | setMonth(getMonth() + 1) is a later date: the same day of the next month (December to January of the next year), or the overflow days counted into the month after |
| CivilDate.SetFullYearNext | supabase/functions/midtrans-webhook/index.ts:97-98 | setFullYear(getFullYear() + 1) is a later date: the same month and day a year on, except 29 February becomes 1 March |
| CivilDate.JanuaryEndPlusMonthLeap | supabase/functions/midtrans-webhook/index.ts:96 | 31 January 2024 plus one month is 2 March 2024 |
| CivilDate.JanuaryEndPlusMonth | supabase/functions/midtrans-webhook/index.ts:96 | 31 January 2023 plus one month is 3 March 2023 |
| CivilDate.DecemberPlusMonth | supabase/functions/midtrans-webhook/index.ts:96 | 31 December 2024 plus one month is 31 January 2025 |
| CivilDate.AddMonthNotMonotone | supabase/functions/midtrans-webhook/index.ts:96 | adding a month does not preserve order: 31 January goes past 1 February's result |
| CivilDate.FormatIsoDate | src/components/admin/UsersManager.tsx:120 | the `YYYY-MM-DD` text has length 10 with dashes at positions 4 and 7 |
| CivilDate.ParseIsoDate | src/components/admin/UsersManager.tsx:84 | a parsed date is a valid date in years 0000..9999 |
| CivilDate.ParseFormat | src/components/admin/UsersManager.tsx:118-121 | parsing the formatted date gives the date back |
| CivilDate.FormatParse | src/components/admin/UsersManager.tsx:83-84 | a text that parses is exactly the formatted form of its date |
| Database.ActivePremiumEarlier | src/pages/Edukasi.tsx:93-95 | an entitlement active now was active at every earlier moment |
| CreatePayment.BearerTokenOfBearer | supabase/functions/create-payment/index.ts:32 | the header `Bearer t` yields the token `t` |
| CreatePayment.BearerTokenWithoutScheme | supabase/functions/create-payment/index.ts:32 | a header without `Bearer ` is used whole as the token |
| CreatePayment.AmountFor | supabase/functions/create-payment/index.ts:47 | the price of an accepted package is positive |
| CreatePayment.YearlyCostsTenMonths | supabase/functions/create-payment/index.ts:47 | the yearly price is ten monthly prices |
| CreatePayment.OrderId | supabase/functions/create-payment/index.ts:50 | the order id starts with `premium-`, the user id and `-`, and ends with digits |
| CreatePayment.OrderIdInjective | supabase/functions/create-payment/index.ts:50 | for user ids of equal length, equal order ids mean the same user and millisecond |
| CreatePayment.CallbackUrl | supabase/functions/create-payment/index.ts:94-98 | a callback URL ends with `?order_id=` and the order id |
| CreatePayment.FirstName | supabase/functions/create-payment/index.ts:85 | the first name is never empty and is the profile's name when that is non-empty |
| CreatePayment.SnapPayload | supabase/functions/create-payment/index.ts:76-99 | gross amount equals the items' total and the amount; the order id is the given one; the first name is non-empty |
| CreatePayment.CallbacksCarryOrderId | supabase/functions/create-payment/index.ts:94-98 | all three callback URLs end with the order id as `order_id` parameter |
| CreatePayment.PendingRow | supabase/functions/create-payment/index.ts:60-68 | the inserted row is pending, under the order id, priced for the package |
| CreatePayment.Create | supabase/functions/create-payment/index.ts:27-136 | profiles and e-mails untouched; existing rows kept; a new row only on success or gateway failure; keys consistent; success returns the new row's order id and posts its amount |
| CreatePayment.CreatePaymentHandler | supabase/functions/create-payment/index.ts:27-136 | the handler's steps leave the store and return the outcome and posted request exactly as `Create` describes |
| CreatePayment.EarlyFailuresChangeNothing | supabase/functions/create-payment/index.ts:27-73 | every refusal before the insert, and a failed insert, leaves the tables unchanged and posts nothing |
| CreatePayment.UnauthenticatedRefused | supabase/functions/create-payment/index.ts:27-37 | a missing header or an unknown token is refused as unauthorised |
| CreatePayment.InvalidPaketRefused | supabase/functions/create-payment/index.ts:42-44 | a package other than monthly or yearly is refused with nothing changed |
| CreatePayment.CreatedRecordsPendingRow | supabase/functions/create-payment/index.ts:50-68 | success inserts exactly the caller's pending row under `OrderId(user, now)` |
| CreatePayment.GatewayFailureLeavesPendingRow | supabase/functions/create-payment/index.ts:102-116 | when the gateway refuses, the new pending row stays |
| CreatePayment.SameMillisecondCollides | supabase/functions/create-payment/index.ts:50-73 | a repeat of the same request in the same millisecond fails at the insert |
| Edukasi.FilteredEducations | src/pages/Edukasi.tsx:86-98 | the result is an order-preserving sub-list holding exactly the items that match search, category and access, each as often as fetched |
| Edukasi.EmptyQueryMatchesAll | src/pages/Edukasi.tsx:87-88 | an empty query matches every item |
| Edukasi.SearchIgnoresQueryCase | src/pages/Edukasi.tsx:87-88 | lower-casing the query does not change the match |
| Edukasi.TitlePrefixFound | src/pages/Edukasi.tsx:87-88 | a title starting with the query in any case is found |
| Edukasi.NoFilterShowsViewable | src/pages/Edukasi.tsx:86-98 | with query "" and tab 'semua' the list is the items the viewer may see |
| Edukasi.NoFilterShowsViewableRec | src/pages/Edukasi.tsx:86-98 | the filter by all three conditions equals the filter by access alone when search and tab are neutral |
| Edukasi.FilteringNarrows | src/pages/Edukasi.tsx:86-98 | a query or a tab never lengthens the list |
| Edukasi.PremiumItemAccess | src/pages/Edukasi.tsx:93-95 | a premium item is viewable iff the role is premium and the expiry is absent or later than now; never for admins, ordinary users or no profile |
| Edukasi.AccessHoldsEarlier | src/pages/Edukasi.tsx:93-95 | what may be viewed now may be viewed at any earlier moment |
| Edukasi.PremiumHiddenFromInactive | src/pages/Edukasi.tsx:93-97 | a viewer without active premium gets no premium item in the list |
| Edukasi.CardTags | src/pages/Edukasi.tsx:204 | one or two tags, the first words of the topic |
| Edukasi.CardTagsOfWords | src/pages/Edukasi.tsx:204 | a topic `a b` gives tags a, b and a third word is cut |
| Edukasi.ExpiredPremiumSeesNeither | src/pages/Edukasi.tsx:233 | an expired premium user sees neither the call to action nor any premium item |
| Edukasi.CtaAudience | src/pages/Edukasi.tsx:233 | whoever sees the call to action cannot view premium items; active premium users never see it |
| EdukasiDetail.DetailPage.constructor | src/pages/EdukasiDetail.tsx:29-31 | the page starts with no item, loading, not denied |
| EdukasiDetail.DetailPage.FetchEducation | src/pages/EdukasiDetail.tsx:39-76 | a fetched item is denied or stored according to the access predicate; an error or no row sets neither; loading ends in every path |
| EdukasiDetail.Visit | src/pages/EdukasiDetail.tsx:126-183 | exactly one outcome: the article iff the item is fetched and viewable, the premium notice iff fetched and not viewable, a redirect iff nothing was fetched |
| EdukasiDetail.DetailAgreesWithList | src/pages/EdukasiDetail.tsx:56-58 | the detail page admits exactly the items the unfiltered list shows |
| EdukasiDetail.RenderMedia | src/pages/EdukasiDetail.tsx:96-124 | nothing without a media URL or for other types; an iframe iff video; an image for gambar; the source is the media URL and the title or alt the item's title |
| EdukasiDetail.TypeIcon | src/pages/EdukasiDetail.tsx:78-85 | the play icon iff video, the image icon iff gambar, the file icon for unknown types |
| EdukasiDetail.TypeColor | src/pages/EdukasiDetail.tsx:87-94 | grey iff the type is unknown |
| EdukasiDetail.TypeColorsDistinct | src/pages/EdukasiDetail.tsx:87-94 | the three known types have three different colours |
| EdukasiDetail.TypeLabel | src/pages/EdukasiDetail.tsx:202 | same length; first character upper-cased, rest unchanged |
| EdukasiDetail.TypeLabelKeepsLowerCase | src/pages/EdukasiDetail.tsx:202 | the label equals the type up to case |
| EdukasiDetail.VideoLabel | src/pages/EdukasiDetail.tsx:202 | the label of video is Video |
| EdukasiDetail.DetailTags | src/pages/EdukasiDetail.tsx:231 | at least one tag, none containing a space |
| EdukasiDetail.DetailTagsCoverTopic | src/pages/EdukasiDetail.tsx:231 | joining the tags with spaces gives the topic back |
| EdukasiDetail.CardTagsArePrefix | src/pages/Edukasi.tsx:204 | the card's tags are the first tags of the detail page |
| UsersManager.UpdateRecord | src/components/admin/UsersManager.tsx:80-87 | the record always has the role; premium with a date sets the date (none if unparsable); premium without a date keeps the expiry; other roles clear it |
| UsersManager.ApplyUpdate | src/components/admin/UsersManager.tsx:89-92 | the row takes the role; the expiry is kept, cleared or set as the record says |
| UsersManager.Submit | src/components/admin/UsersManager.tsx:76-92 | no user being edited means no change; with one, the submit succeeds iff the record builds and the update does not fail; the edited row becomes `ApplyUpdate` of its old value and the record; no other row changes; a failed submit changes nothing |
| UsersManager.OnSubmit | src/components/admin/UsersManager.tsx:76-113 | building `updateData` key by key and updating the row leaves the profiles as `Submit` describes; transactions and e-mails unchanged |
| UsersManager.DemotionClearsExpiry | src/components/admin/UsersManager.tsx:85-86 | a non-premium role clears the expiry, so no entitlement and no Expired marker remain |
| UsersManager.PromotionWithoutDateStaysExpired | src/components/admin/UsersManager.tsx:82-87 | promoting without a date keeps the stored expiry; a past one leaves role premium without access |
| UsersManager.PromotionWithDateGrantsAccess | src/components/admin/UsersManager.tsx:83-84 | promoting with a future date grants access until that date |
| UsersManager.EditForm | src/components/admin/UsersManager.tsx:115-123 | the role is copied; the date field parses back to the stored expiry, or keeps its old text when there is none |
| UsersManager.EditThenSaveUnchanged | src/components/admin/UsersManager.tsx:115-123 | saving the edit form unchanged keeps a premium row and clears the expiry of other rows |
| UsersManager.FilteredUsers | src/components/admin/UsersManager.tsx:72-74 | an order-preserving sub-list holding exactly the users whose name contains the query, ignoring case |
| UsersManager.EmptySearchListsAll | src/components/admin/UsersManager.tsx:72-74 | an empty search lists every user |
| UsersManager.RoleBadge | src/components/admin/UsersManager.tsx:139-165 | admin badge iff admin; premium badge iff premium; active premium badge iff the entitlement is active |
| UsersManager.ExpiredMarkerAgreesWithBadge | src/components/admin/UsersManager.tsx:264 | for premium users the Expired marker iff the greyed badge; never beside an active entitlement; possible beside an admin |
| UsersManager.CountsWithinTotal | src/components/admin/UsersManager.tsx:208-229 | active-premium count plus admin count is at most the total |
| UsersManager.ActiveCountMatchesBadges | src/components/admin/UsersManager.tsx:218 | the active-premium count equals the number of active premium badges |
| PremiumPackagesManager.Validate | src/components/admin/PremiumPackagesManager.tsx:28-35 | name, duration and price errors each iff their rule fails; no repeated error |
| PremiumPackagesManager.ValidIff | src/components/admin/PremiumPackagesManager.tsx:28-35 | a form passes iff name non-empty, duration at least 1 and price at least 1000 |
| PremiumPackagesManager.DefaultFormRefused | src/components/admin/PremiumPackagesManager.tsx:48-55 | the default form fails with name required and price too low |
| PremiumPackagesManager.DefaultFormNeedsPrice | src/components/admin/PremiumPackagesManager.tsx:48-55 | with a name typed, the default form passes iff the price is at least 1000 |
| PremiumPackagesManager.CoerceDuration | src/components/admin/PremiumPackagesManager.tsx:232 | the coerced duration is never 0 and is the parsed number when that is non-zero |
| PremiumPackagesManager.CoercePrice | src/components/admin/PremiumPackagesManager.tsx:252 | the coerced price is the parsed number, or 0 when nothing parses |
| PremiumPackagesManager.DurationOfNumber | src/components/admin/PremiumPackagesManager.tsx:232 | typing n months gives n, typing 0 gives 1 |
| PremiumPackagesManager.NegativeDurationRefused | src/components/admin/PremiumPackagesManager.tsx:232 | a negative duration passes the coercion and fails the schema |
| PremiumPackagesManager.PriceOfNumber | src/components/admin/PremiumPackagesManager.tsx:252 | typing a number as price gives it back |
| PremiumPackagesManager.NonNumericPriceRefused | src/components/admin/PremiumPackagesManager.tsx:252 | a price without digits becomes 0 and fails the price rule |
| PremiumPackagesManager.CoercedDurationRefusedOnlyWhenNegative | src/components/admin/PremiumPackagesManager.tsx:232 | the schema refuses a coerced duration iff it is negative |
| PremiumPackagesManager.RowOf | src/components/admin/PremiumPackagesManager.tsx:85-103 | the written row carries every form field under the given id |
| PremiumPackagesManager.SavePackage | src/components/admin/PremiumPackagesManager.tsx:83-124 | an invalid form or failing call changes nothing; editing succeeds, keeps the keys and writes `RowOf(id, form)` to the edited row; creating succeeds iff the new id is free, adds exactly it and writes `RowOf(newId, form)` there; other rows are unchanged |
| PremiumPackagesManager.SavedRowsValid | src/components/admin/PremiumPackagesManager.tsx:83-110 | every row a save writes satisfies the schema |
| PremiumPackagesManager.EditForm | src/components/admin/PremiumPackagesManager.tsx:126-135 | all six fields are copied, a missing description as "" |
| PremiumPackagesManager.EditThenSaveUnchanged | src/components/admin/PremiumPackagesManager.tsx:126-135 | saving an opened package unchanged rewrites the same row, a missing description as "" |
| PremiumPackagesManager.EditFormValidIff | src/components/admin/PremiumPackagesManager.tsx:126-135 | the edit form passes iff the stored package satisfies the schema |
| Pipeline.SettledPaymentUnlocksPremium | supabase/functions/midtrans-webhook/index.ts:88-131 | a created payment followed by its settlement makes the payer premium until `Expiry(now, paket)`, grants every premium item now, and requests one e-mail at the package price |
| Pipeline.CancelledPaymentChangesNoProfile | supabase/functions/midtrans-webhook/index.ts:67-68 | a created payment followed by a cancellation is failed and leaves profiles and e-mails unchanged |
| Text.ParseIntOfNatToString | src/components/admin/PremiumPackagesManager.tsx:252 | `parseInt` reads back the decimal text of any non-negative integer |
| Text.ParseIntOfNegative | src/components/admin/PremiumPackagesManager.tsx:232 | `parseInt` reads `-` followed by the decimal text of n as -n |
| Text.JoinSplit | src/pages/EdukasiDetail.tsx:231 | joining the pieces of `split` with the separator gives the text back |
| Text.ReplaceFirstAtFront | supabase/functions/create-payment/index.ts:32 | replacing the first occurrence of a prefix by "" removes that prefix |
| Seqs.Filter | src/pages/Edukasi.tsx:86 | `Array.filter` keeps, in order, exactly the elements satisfying the predicate, each as often as it occurs |

## Left out

- Time of day and time zones: `now` and every expiry are calendar days in UTC, and `>` is the order on days; an expiry on the current day counts as passed.
- Text.Lower: case mapping covers ASCII letters only, not the full Unicode `toLowerCase`.
- EdukasiDetail.TypeLabel: upper-casing the first character (`Text.UpperChar`) covers ASCII letters only, not the full Unicode `toUpperCase`.
- Text.ParseInt: the `0x` prefix that makes `parseInt` read hexadecimal is not modelled; of the white space it skips at the front only the ASCII characters (space, tab, line feed, vertical tab, form feed, carriage return) are, not the other Unicode spaces and line terminators.
- CivilDate.ParseIsoDate: only the `YYYY-MM-DD` form a date input yields is read; other text `new Date` accepts is treated as invalid.
- UsersManager.EditForm: requires a stored expiry in years 0000..9999, the range `toISOString` writes with four digits.
- CreatePayment.OrderIdInjective: stated for user ids of equal length (fixed-length UUIDs); ids containing `-` of different lengths are not covered.
- The `updated_at` / `created_at` columns, the response bodies and messages, logging, toasts and all rendering.
- CORS preflight handling and malformed JSON bodies; a body field is a string or absent.
- Supabase queries, `auth.getUser`, the Snap API and `functions.invoke` are maps and success/failure inputs; the e-mail function's own work (`send-premium-email`) is not part of this model, only its request is logged.
- Concurrency: parallel webhook deliveries are modelled as one sequential order (`MidtransWebhook.Replay`).
- The detail page without an `id` in the route never fetches; `EdukasiDetail.Visit` models a page opened with one.
- The profile `nama` lookup in `create-payment` is assumed to succeed when the profile exists; the code ignores that lookup's error, which the model has no input for.
- Fetching, ordering and deleting rows on the admin screens, the category screen, and the profile and premium pages (which repeat the access predicate).
