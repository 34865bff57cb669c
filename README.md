# Raisely and Action Network webhooks against NationBuilder, in Dafny

This project models the four webhook routes that keep a NationBuilder nation
in step with two outside systems, and the URL helper every CRM call goes
through:

- **Raisely membership payment** (`donation.succeeded`): find or create the
  payer, update a person that was found, then create the campaign's
  membership or extend the existing one. An extension runs from the later of
  its old expiry and the payment date, by the campaign's months plus one day.
- **Raisely subscription cancellation** (`subscription.cancelled`): find the
  payer and mark their one membership with the campaign's name as cancelled
  as of the event time. Then tag the person `membership_cancelled_via_api`.
- **Raisely donation payment** (`donation.succeeded`): find or create the
  payer, update a person that was found, and record a donation with a note,
  a tracking slug and an optional recurrence field.
- **Action Network signature or submission**: find or create the signer with
  their address and the item's tags. A person who was found gets those tags
  appended to their own.
- **`GenerateURL` and `GenerateHeaders`**: the URL and headers of every call
  to NationBuilder.

The CRM is a scripted stub (module `Crm`). Each kind of call takes its next
reply from its own queue and is appended to a call log. A route is a
function from its settings, the request, the script and the log so far to a
`Response`: the HTTP status, how far the script was read, and the log
afterwards. Each route also exists as a method against the class
`Crm.Directory`, a mutable stub with the same replies. The method's
`ensures` states that its status and the stub's new state are the ones the
route function gives. Lemmas about the route functions state what the routes
promise:

- the order of the guards;
- which calls are made, how many of each kind, and in which order;
- the fields of every record sent to the CRM;
- the membership date arithmetic;
- the email repair.

Supporting modules:

- `Text`: the JavaScript string built-ins used, over ASCII.
- `EmailNormalizer`: the lower-case, trim and `.con`/`.comp`/`.como`/`.vom`
  repair shared by all routes.
- `EcmaDate`: the `Date` arithmetic of section 21.4.1 of ECMA-262 (DayFromYear,
  MakeDay, TimeClip), plus `setMonth`, `setDate`, `>` and `toISOString`.
- `FieldMapping`: payload fields to person, membership and donation records.
- `IdentityResolver`: the match-or-create loop with three attempts.
- `MembershipPeriod`: create, extend or cancel a membership.
- `Webhook`: the steps the routes share.

Where the documented design and the code differ, the model follows the code:

- **More than one membership with the name.** The code answers 500 and
  writes nothing.
- **Cancellation.** It cancels only when exactly one membership has the
  name. With none, it answers 200 and writes nothing.
- **Extension base.** The comparison is a strict `>`. An expiry that does not
  parse is an Invalid Date, so the extension runs from the payment date.
- **Subscription event type or status.** Another event type or status is
  answered 200, not 400.
- **Action Network update.** A found person is sent back whole, with the new
  tags appended to theirs. This is not a merge of new fields.
- **Action Network email choice.** The route uses the FIRST email address
  whenever ANY address is marked primary. The postal address is chosen the
  same way.
- **One response per event.** Some routes send a second response after a
  400. The model keeps the first status (see "Left out").

## Model

Source paths: `routes/memberships-raisely-payment.js` (membership payment), `routes/memberships-raisely-subscription.js` (cancellation), `routes/donations-raisely-payment.js` (donation), `routes/people-create-action-network.js` (Action Network), and the three API wrappers under `nationbuilder-api/`.

| member | source | states |
|---|---|---|
| Text.Lower | routes/memberships-raisely-payment.js:164 | `toLowerCase` keeps the length and lowers each upper-case ASCII letter, leaving every other character |
| Text.LowerIsLower | routes/memberships-raisely-payment.js:164 | a lowered string has no upper-case letter |
| Text.LowerOfLowerIsFixed | routes/memberships-raisely-payment.js:164 | lowering a lower-case string changes nothing |
| Text.Trim | routes/memberships-raisely-payment.js:164 | `trim` gives the slice of the input left once the white space at both ends is removed: the removed ends are all white space, the result has none at either end, and a lower-case input stays lower-case |
| Text.TrimmedIsFixed | routes/memberships-raisely-payment.js:164 | trimming a trimmed string changes nothing |
| Text.Prefix | routes/memberships-raisely-payment.js:238 | `substring(0, 10)` is the first min(length, 10) characters |
| Text.RemoveAll | routes/donations-raisely-payment.js:306 | removing every `'` leaves none, shortens the string by exactly the number of `'` in it, and keeps every other character as often as it occurred |
| Text.RemoveAllAppend | routes/donations-raisely-payment.js:306 | removing a character from two strings put together removes it from each part |
| Text.RemoveAllAbsent | routes/donations-raisely-payment.js:306 | a string without the character is left as it is |
| Text.ReplaceAll | routes/donations-raisely-payment.js:306 | replacing every space by `_` keeps the length and changes exactly the spaces |
| Text.Split | routes/memberships-raisely-payment.js:212 | `split("/")` gives at least one piece, and no piece holds the separator |
| Text.Reverse | routes/memberships-raisely-payment.js:212 | `reverse()` keeps the length and puts the i-th element from the end at i |
| Text.JoinSplit | routes/memberships-raisely-payment.js:212 | joining the pieces of a split with the same separator gives back the string |
| Text.Decimal | routes/memberships-raisely-payment.js:190 | a month count is written as a non-empty string of digits |
| Text.DecimalRoundTrip | routes/memberships-raisely-payment.js:190 | that string reads back as the number, with no leading zero |
| Text.Digits | routes/memberships-raisely-payment.js:360-361 | a zero-padded field of `toISOString` has exactly its width in digits |
| Text.DigitsRoundTrip | routes/memberships-raisely-payment.js:360-361 | a zero-padded field reads back as the number when it fits the width |
| EmailNormalizer.TyposExclusive | routes/memberships-raisely-payment.js:165-168 | no string ends in two of the four typo suffixes |
| EmailNormalizer.RepairCases | routes/memberships-raisely-payment.js:165-168 | a string ending in `.con`, `.comp`, `.como` or `.vom` has that suffix replaced by `.com`; any other string is unchanged; at most one replacement fires |
| EmailNormalizer.NormalizeCases | routes/memberships-raisely-payment.js:162-168 | the repaired email is the lower-cased, trimmed address with a typo suffix replaced by `.com`, and otherwise that address |
| EmailNormalizer.AtMostOneRewrite | routes/memberships-raisely-payment.js:165-168 | at most one of the four replacement lines changes the address |
| EmailNormalizer.NormalizedShape | routes/memberships-raisely-payment.js:162-168 | a repaired email is lower-case, trimmed and ends in none of the typos |
| EmailNormalizer.Idempotent | routes/memberships-raisely-payment.js:162-168 | repairing a repaired email changes nothing |
| EcmaDate.DayFromYearStep | routes/memberships-raisely-payment.js:357 | each year is 366 days when it is a Gregorian leap year and 365 otherwise |
| EcmaDate.MonthLengths | routes/memberships-raisely-payment.js:357 | every month has 28 to 31 days, and the months add up to the year |
| EcmaDate.MakeDayCarry | routes/memberships-raisely-payment.js:357 | a month number outside 0..11 carries whole years into the year |
| EcmaDate.NormalizeDay | routes/memberships-raisely-payment.js:359 | a day number past the end of its month rolls into the calendar date that falls on the same day |
| EcmaDate.DayOfOrdered | routes/memberships-raisely-payment.js:412 | distinct calendar dates fall on distinct days, in calendar order |
| EcmaDate.DayOfInjective | routes/memberships-raisely-payment.js:412 | a day has exactly one calendar date |
| EcmaDate.TimeClipDay | routes/memberships-raisely-payment.js:357 | TimeClip keeps exactly the time values within 1e8 days of the epoch, on the same day |
| EcmaDate.SetMonthDay | routes/memberships-raisely-payment.js:357 | `setMonth` lands on day MakeDay(year, month, date), or on an Invalid Date outside the range |
| EcmaDate.AddMonthsCalendar | routes/memberships-raisely-payment.js:357 | `setMonth(getMonth() + n)` lands in the carried month and keeps the day when that month is long enough; otherwise the surplus days roll into the next month; the time of day is kept |
| EcmaDate.NextDayIsOneDayLater | routes/memberships-raisely-payment.js:359 | `setDate(getDate() + 1)` is exactly one day later, across month and year ends |
| EcmaDate.ExtendByLater | routes/memberships-raisely-payment.js:355-359 | extending a date by n >= 0 months and a day ends strictly later than the date, or on an Invalid Date |
| EcmaDate.AddMonthsNotEarlier | routes/memberships-raisely-payment.js:413 | moving a date on by n >= 0 months never lands on an earlier day |
| EcmaDate.LaterIsCalendarOrder | routes/memberships-raisely-payment.js:412 | `>` on two dates is the calendar order of their fields and time of day |
| EcmaDate.TimeOfDayFields | routes/memberships-raisely-payment.js:360-361 | "HH:mm:ss" reads back as the second of the day |
| EcmaDate.IsoDateFields | routes/memberships-raisely-payment.js:216 | `toISOString().split('T')[0]` reads back as the year, month and day for a four-digit year |
| EcmaDate.IsoSecondsFields | routes/memberships-raisely-payment.js:360-361 | `toISOString().split(".")[0]` holds every field of the date at its fixed position for a four-digit year |
| EcmaDate.JanuaryThirtyFirstPlusOneMonth | routes/memberships-raisely-payment.js:357 | 31 January 2024 plus one month is 2 March 2024 |
| EcmaDate.TwelveMonthsAndADay | routes/memberships-raisely-payment.js:355-359 | 15 January 2024 plus twelve months and a day is 16 January 2025 |
| EcmaDate.IsoSecondsExample | routes/memberships-raisely-payment.js:361 | midnight UTC on 16 January 2025 is written "2025-01-16T00:00:00" |
| FieldMapping.PickPrefersStandard | routes/memberships-raisely-payment.js:221-224 | `standard ?? alternate ?? ""` takes the standard key whenever it is set, even to "" |
| FieldMapping.BillingAddressFields | routes/memberships-raisely-payment.js:221-240 | the billing address exists iff some field is non-empty; it has exactly those keys, with the suburb as `address2` and `zip` cut to ten characters |
| FieldMapping.DobReversed | routes/memberships-raisely-payment.js:210-213 | a date of birth D/M/Y is rewritten Y-M-D |
| FieldMapping.DobExample | routes/memberships-raisely-payment.js:210-213 | "15/01/1990" becomes "1990-01-15" |
| FieldMapping.BirthdateCases | routes/memberships-raisely-payment.js:208-218 | a birthdate is sent iff a date of birth is given and its rewritten text parses, and it is that date as "YYYY-MM-DD" |
| FieldMapping.RaiselyPersonDataFields | routes/memberships-raisely-payment.js:197-202 | the collected person fields carry the "recurring_membership" tag exactly for a recurring payment, and no email or names yet |
| FieldMapping.CampaignLookup | routes/memberships-raisely-payment.js:176-187 | both Young AJP campaigns select the Young AJP membership; only the monthly one buys one month instead of twelve |
| FieldMapping.MessageExamples | routes/memberships-raisely-payment.js:190-193 | the payment and cancellation `status_reason` texts, on examples |
| FieldMapping.DonationNoteShape | routes/donations-raisely-payment.js:294-300 | the note is the description (or ""), then " - " and the message when the message is not empty |
| FieldMapping.SlugShape | routes/donations-raisely-payment.js:304-310 | in slug mode the slug has no apostrophe, space or upper-case letter; otherwise it is the profile name or "" |
| FieldMapping.SlugExample | routes/donations-raisely-payment.js:304-310 | "Jo's Run" becomes "jos_run" |
| FieldMapping.DonationRecordFields | routes/donations-raisely-payment.js:294-316 | the donation carries the donor, the amount in cents, "Credit Card", the date, the note and the slug; a configured recurrence field is always false |
| FieldMapping.FirstIfAnyPrimaryCases | routes/people-create-action-network.js:104 | an entry is chosen iff some entry is marked primary, and it is always the first entry |
| FieldMapping.SecondPrimaryPicksFirst | routes/people-create-action-network.js:104 | with only the second address primary, the first address is chosen |
| FieldMapping.PostCodeRule | routes/people-create-action-network.js:123-129 | the post code is cut to ten characters and dropped for a US code shorter than five |
| FieldMapping.HomeAddressFields | routes/people-create-action-network.js:167-175 | the home address exists iff a zip or a country code remains, with a key for each value that is set |
| FieldMapping.NewPersonNames | routes/people-create-action-network.js:161-166 | a missing name becomes "Unknown" while an empty one is kept; the email and the tags are the ones given |
| Crm.Match | nationbuilder-api/people-api.js:6-37 | `matchByEmail` logs one lookup for the email and reads one lookup reply |
| Crm.Create | nationbuilder-api/people-api.js:39-60 | `createPerson` logs one create with the fields and reads one create reply |
| Crm.Update | nationbuilder-api/people-api.js:62-83 | `updatePerson` logs one person update and reads one update reply |
| Crm.List | nationbuilder-api/memberships-api.js:6-34 | `getMemberships` logs one listing for the person and reads one listing reply |
| Crm.Store | nationbuilder-api/memberships-api.js:37-94 | a membership create or update, or the donation create of donations-api.js:8-33, logs the call and reads one write reply: accepted, or refused when the wrapper throws |
| Crm.Directory.MatchByEmail | nationbuilder-api/people-api.js:6-37 | the stub answers and logs exactly as `Crm.Match` says |
| Crm.Directory.CreatePerson | nationbuilder-api/people-api.js:39-60 | the stub answers and logs exactly as `Crm.Create` says |
| Crm.Directory.UpdatePerson | nationbuilder-api/people-api.js:62-83 | the stub answers and logs exactly as `Crm.Update` says |
| Crm.Directory.GetMemberships | nationbuilder-api/memberships-api.js:6-34 | the stub answers and logs exactly as `Crm.List` says |
| Crm.Directory.Write | nationbuilder-api/donations-api.js:8-33 | for the donation create, and for the membership writes of memberships-api.js:37-94, the stub answers and logs exactly as `Crm.Store` says |
| IdentityResolver.Prepared | routes/memberships-raisely-payment.js:268-278 | before a Raisely create the fields get the email, the names and one more copy of the route's tag; Action Network sends its fresh record |
| IdentityResolver.Attempt | routes/memberships-raisely-payment.js:254-293 | one pass makes one or two calls, settles only on a person the CRM replied with, and never ends the loop unresolved |
| IdentityResolver.TryOnce | routes/memberships-raisely-payment.js:254-293 | one pass against the stub does what `Attempt` says |
| IdentityResolver.Resolve | routes/memberships-raisely-payment.js:248-296 | the loop against the stub ends and calls exactly as the three-attempt specification says |
| IdentityResolver.FirstCallIsLookup | routes/memberships-raisely-payment.js:252-258 | the loop always starts with a lookup for the email |
| IdentityResolver.AttemptsBounded | routes/memberships-raisely-payment.js:252-296 | at most three lookups and three creates, however the CRM answers; no other kind of call |
| IdentityResolver.CallsAlternate | routes/memberships-raisely-payment.js:252-296 | lookups and creates alternate, so a create only follows a lookup that found nobody; every lookup is for the same email |
| IdentityResolver.LookupFailureIsLast | routes/memberships-raisely-payment.js:258-264 | a lookup that throws ends the loop without a person and is the last call |
| IdentityResolver.StopsWhenSettled | routes/memberships-raisely-payment.js:252-293 | the loop stops as soon as it has a person: a matched one answered the last call, a lookup; a created one answered the last call, a create |
| IdentityResolver.PersonFromReplies | routes/memberships-raisely-payment.js:256-285 | the person the loop settles on is a lookup's match or a create's result |
| IdentityResolver.FieldsAmendedPerCreate | routes/memberships-raisely-payment.js:268-278 | the fields the loop leaves are the initial ones amended once per create attempt |
| IdentityResolver.AmendedTags | routes/memberships-raisely-payment.js:275-278 | after k > 0 creates the tags are the initial ones followed by k copies of the route's tag, with the route's email and names |
| IdentityResolver.AmendedFresh | routes/people-create-action-network.js:159-175 | the Action Network fields stay the fresh record whatever the number of creates |
| IdentityResolver.FreshCreates | routes/people-create-action-network.js:159-179 | every create the Action Network loop makes sends exactly the fresh record |
| MembershipPeriod.WithName | routes/memberships-raisely-payment.js:338 | the filter keeps exactly the memberships with the name, each as many times as it occurs, so the count the ambiguity test reads is the number of memberships with the name |
| MembershipPeriod.PlanPaymentCases | routes/memberships-raisely-payment.js:336-418 | the plan depends only on how many memberships have the name and whether the one has an expiry: ambiguous (more than one), create (none), leave alone (no expiry), extend |
| MembershipPeriod.NewMembership | routes/memberships-raisely-payment.js:350-369 | a new membership is active, named, starts on the payment date and expires months and a day later, strictly after the payment |
| MembershipPeriod.ExtendedMembership | routes/memberships-raisely-payment.js:403-418 | an extension keeps every field but three: active, the payment message, and an expiry months and a day after the later of the old expiry and the payment, so strictly after both |
| MembershipPeriod.FirstMembershipExample | routes/memberships-raisely-payment.js:355-369 | a first twelve-month membership paid on 15 January 2024 runs to "2025-01-16T00:00:00" |
| MembershipPeriod.PlanCancelCases | routes/memberships-raisely-subscription.js:210-232 | cancellation is ambiguous iff more than one membership has the name and a no-op iff none has; otherwise that one is cancelled as of `updatedAt` with no extra day, keeping its other fields |
| Webhook.SecretRule | routes/memberships-raisely-payment.js:119-123 | an unset secret never rejects; a configured one rejects a missing or different secret and nothing else |
| Webhook.RefreshCases | routes/memberships-raisely-payment.js:304-318 | a matched person is updated once with the collected fields, and the route goes on only with the person the CRM returned; a created person is not updated |
| Webhook.RefreshPerson | routes/memberships-raisely-payment.js:304-318 | the update step against the stub does what `Refresh` says |
| Webhook.Written | routes/memberships-raisely-payment.js:371-389 | a record write appends exactly that call, and is answered with the success status when the CRM returns the record and 403 otherwise |
| Webhook.WriteRecord | routes/memberships-raisely-payment.js:371-389 | the write against the stub does what `Written` says |
| MembershipPayment.HandlePayment | routes/memberships-raisely-payment.js:59-445 | the route against the stub answers and calls exactly as `Handle` says |
| MembershipPayment.SettleWith | routes/memberships-raisely-payment.js:298-318 | the steps after the loop against the stub do what `Settle` says |
| MembershipPayment.RecordMembership | routes/memberships-raisely-payment.js:320-439 | the membership step against the stub does what `Memberships` says |
| MembershipPayment.GuardOrder | routes/memberships-raisely-payment.js:76-158 | empty body 200; missing token or membership name 403; wrong secret 403 only when one is set; schema, type or status error 400; an event without its inner `data` object 503; no CRM call before the guards pass |
| MembershipPayment.MembershipShape | routes/memberships-raisely-payment.js:320-439 | the membership step lists once, then writes at most one membership, a create or an update of the person's, and never answers 404 |
| MembershipPayment.MembershipStep | routes/memberships-raisely-payment.js:320-439 | 500 iff the listing failed or the name is ambiguous; no expiry is left alone with 200; a create iff no membership has the name; the created and extended records; 201 or 200 when the write is accepted and 403 otherwise |
| MembershipPayment.SettleStep | routes/memberships-raisely-payment.js:298-334 | no person is 404 with no further call; a matched person whose update the CRM does not return is 404 with no listing; otherwise the next call lists the memberships of the person the CRM returned, the created one or the updated one; a 404 here means no listing and no write |
| MembershipPayment.PaidStartsWithLookup | routes/memberships-raisely-payment.js:248-258 | a payment that passed the guards starts its calls with the lookup for the repaired email |
| MembershipPayment.SettleCalls | routes/memberships-raisely-payment.js:298-439 | after the loop: the person update exactly when matched, at most one listing and at most one write |
| MembershipPayment.PaidCalls | routes/memberships-raisely-payment.js:248-439 | at most three lookups and creates; `updatePerson` exactly when matched; at most one listing and one write, so never both a create and an update of a membership; no write unless the answer is 200, 201 or 403 |
| MembershipPayment.PaidWithoutPerson | routes/memberships-raisely-payment.js:252-302 | a loop without a person is 404 with nothing called after it: a failed lookup is the last call, and three failed creates mean exactly three lookups and creates |
| MembershipPayment.PaymentFields | routes/memberships-raisely-payment.js:197-278 | the fields sent are the collected ones, plus the email, the names and one "created_via_membership_payment" tag per create attempt; phone, birthdate and billing stay as collected |
| MembershipPayment.CreatedMembership | routes/memberships-raisely-payment.js:350-383 | a 201 means the last call created the campaign's membership: active, started on the payment date, expiring months and a day later |
| MembershipSubscription.HandleCancellation | routes/memberships-raisely-subscription.js:41-275 | the route against the stub answers and calls exactly as `Handle` says |
| MembershipSubscription.CancelWith | routes/memberships-raisely-subscription.js:192-268 | the membership step against the stub does what `Cancellation` says |
| MembershipSubscription.GuardOrder | routes/memberships-raisely-subscription.js:58-149 | empty body 200; missing token or name 403; wrong secret 403 only when one is set; schema error 400; another type or status 200; an event without its inner `data` object 503; no user 503; no CRM call before the lookup |
| MembershipSubscription.CancellationShape | routes/memberships-raisely-subscription.js:192-264 | the step lists once, writes at most one membership, then updates the person at most once |
| MembershipSubscription.CancellationStep | routes/memberships-raisely-subscription.js:192-268 | 500 iff the listing failed or the name is ambiguous; none is 200 with no write; the one is cancelled as of `updatedAt`; the person is tagged only after an accepted write; a refused write is 403 |
| MembershipSubscription.SingleLookup | routes/memberships-raisely-subscription.js:168-198 | exactly one lookup and no create; a failed lookup is 404 and nobody found is 200, both with no later call; a found person's memberships are listed next |
| DonationPayment.HandleDonation | routes/donations-raisely-payment.js:57-342 | the route against the stub answers and calls exactly as `Handle` says |
| DonationPayment.GiveWith | routes/donations-raisely-payment.js:268-337 | the steps after the loop against the stub do what `Give` says |
| DonationPayment.GuardOrder | routes/donations-raisely-payment.js:83-159 | empty body 200; missing token 403; wrong secret 403 only when one is set; schema, type or status error 400; an event without its inner `data` object 503; no CRM call before the guards pass |
| DonationPayment.GiveStep | routes/donations-raisely-payment.js:268-337 | the donor is the created person or the matched one as its update returned it; no donor is 404 with no further call; otherwise exactly one donation for the donor, 201 when accepted and 403 otherwise |
| DonationPayment.GiveCalls | routes/donations-raisely-payment.js:274-337 | after the loop: the person update exactly when matched, and one write exactly when the answer is not 404 |
| DonationPayment.DonatedCalls | routes/donations-raisely-payment.js:216-337 | at most three lookups and creates, `updatePerson` exactly when matched, no membership call, one donation create iff the answer is 201 or 403; the answer is 201, 403 or 404 |
| DonationPayment.DonationFields | routes/donations-raisely-payment.js:174-248 | the fields sent are the collected ones with no tags, plus the email, the names and one "created_via_donation_payment" tag per create attempt |
| DonationPayment.RecordedDonation | routes/donations-raisely-payment.js:294-337 | a 201 means the last call created the donation for the created person or the updated matched person: the amount in cents, by credit card, on the payment date, with the note, the slug, and the recurrence field false |
| ActionNetwork.HandleAction | routes/people-create-action-network.js:41-232 | the route against the stub answers and calls exactly as `Handle` says |
| ActionNetwork.TagWith | routes/people-create-action-network.js:197-227 | the tag step against the stub does what `TagFound` says |
| ActionNetwork.GuardOrder | routes/people-create-action-network.js:61-110 | missing token 403 whatever the body; schema error 400; neither signature nor submission 503; no usable email 400; a signature wins over a submission; exactly these answers come with no CRM call |
| ActionNetwork.EmailChoice | routes/people-create-action-network.js:104-110 | an email is chosen exactly when some entry is primary, and then it is the first entry's address, whichever entry is primary |
| ActionNetwork.TagStep | routes/people-create-action-network.js:197-227 | no person is 404; a created person, or a found one with no tags, is 200 with no call; a found person with tags is sent back once with their tags followed by the new ones, and 200 iff the CRM returns the person |
| ActionNetwork.JoinedCalls | routes/people-create-action-network.js:139-227 | at most three lookups and creates; one person update exactly when a found person has tags; no membership or donation call; the answer is 200 or 404 |
| ActionNetwork.CreatesSendRecord | routes/people-create-action-network.js:113-179 | every create sends the same record: the repaired email, names or "Unknown", the tags, and a home address with the post code rules |
| ApiUtilities.UrlShape | nationbuilder-api/api-utilities.js:6-26 | the URL starts with the base URL and the path, then `?`, then the call's parameters and `&` when it has any, and ends with the API parameters |
| ApiUtilities.UrlSeparators | nationbuilder-api/api-utilities.js:12-21 | the helper adds exactly one `?`, and one `&` exactly when the call has parameters |
| ApiUtilities.DefaultUrl | routes/memberships-raisely-payment.js:71-72 | with the overrides unset every URL goes to the nation's hosted API and ends with its access token |
| ApiUtilities.GenerateHeaders | nationbuilder-api/api-utilities.js:28-35 | the headers are exactly `Accept` and `Content-Type`, both "application/json" |

## Left out

- Logging (`console.log`, `console.dir`) and the payload pruning done for logs: they do not affect any answer or CRM call.
- The joi schemas: each is an input boolean `valid`. Fields the schema requires are typed, for example a date is a `ValidDate`. The inner `data` object of the three Raisely events, which the schemas leave optional, is an `Option`, and its absence is answered 503 as the routes' catch-all does.
- Reading `process.env`: the settings are parameters of each route. `SITE_SLUG` and `PERSON_CREATE_ACTION_NETWORK_FIELD_WHITELIST` are read but never used.
- `server.js` (routing, body parsing, the listening server) is not part of this model.
- The HTTP client: each API wrapper is its reply queue in the scripted stub. A wrapper that throws is a failure reply. No pagination; `getMemberships` asks for 100 results, and the listing reply is whatever the CRM returns.
- The link between `GenerateURL` and the calls in the log: the stub logs which call was made, not its URL.
- Second responses: after a 400 some routes try to send again (memberships-raisely-payment.js:156; donations-raisely-payment.js:156-157; people-create-action-network.js:107-113, where the missing email then throws). The model's status is the first one sent.
- Concurrency between deliveries: each request runs alone against its script; only the three-attempt retry that handles races is modelled.
- Unicode: `toLowerCase` and `trim` are modelled on ASCII letters and ASCII white space.
- Milliseconds and time zones: a date is held to the second, in UTC. The membership dates are cut at the seconds by the route itself, but the donation's `succeeded_at` is the parsed payment `Date`, which the HTTP client writes with its milliseconds and a trailing `Z`; the model's `succeededAt` holds that date to the second only, so those milliseconds are not modelled. A `>` between two dates in the same second that differ only in milliseconds is not modelled.
- `new Date(string)`: parsing a date text is the parameter `parse`, and `None` stands for an Invalid Date.
- `amount`: an integer number of cents; a fractional number from the payload is not modelled.
- A recurrence field name that equals one of the donation's own keys, and so overwrites it, is not modelled.
- Action Network lists: a missing `email_addresses` or `postal_addresses` is an empty list.
- Action Network email: an empty address string is treated like a missing one (400 with no call). The schema rejects empty strings, so it cannot reach the route.
- Action Network found person: the CRM's person always carries a tag list. A person without one would make the spread throw (503).
- In-place mutation of `person_data` and of the membership object: modelled as record updates. The repeated tag that the mutation leaves after failed creates is kept and proved.
- Stage transitions (the membership plan, the donation record) are passed to the generic steps as function values. Each route fixes its own.
