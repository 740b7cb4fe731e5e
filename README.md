# Contact intake and catalogue filters of a portfolio site, in Dafny

The portfolio site collects messages through a contact form. Four backends
can receive them. Each is modelled in its own module:

- **`Worker`** models the production Cloudflare Worker (`worker/src/index.ts`).
  - It rate-limits each client address through a counter in a key-value
    namespace.
  - It checks the body against the loose e-mail pattern.
  - It sanitises the fields and stores each record under `contact:<id>`.
  - It lists the records for an administrator holding the admin key.
  - It counts analytics events per day.
- **`WorkerBundle`** models the older worker build served by `wrangler dev`.
  - It keeps every message in one JSON array under `contact_messages`.
  - It uses the strict e-mail pattern and a ten-character message floor.
- **`FlaskApp`** models the Flask development server (`app.py`).
  - It strips the fields, then validates them.
  - It appends to a list of messages.
  - It deletes and marks messages by id.
- **`ApiContact`** models the Vercel function (`api/contact.py`), which only
  validates and mails.
- **`LocalServer`** models the local server (`local_server.py`). It shares
  `ApiContact`'s validation, which that file repeats word for word.

Three more modules cover the browser side:

- **`ContactForm`** is the check the site runs before posting.
- **`Certifications`** and **`Projects`** are the catalogue pages' category
  filters and the grouping of certifications by category.

The shared modules are:

- `Text` (JavaScript `trim` and Python `strip`, the bracket filter).
- `EmailPatterns`, the two regular expressions read as split points, each
  with a direct characterisation.
- `Decimal`, for `Number`/`String` on counters.
- `Http`, for request bodies as maps of string members.
- `Seqs`, for order-preserving subsequences.

State that the source updates in place is held in classes:

- the KV namespace in `Worker.Store` and `WorkerBundle.Store`;
- the message list in `FlaskApp.MessageLog`.

Each state-changing method gives its response and its new state in terms
of the old state. Each handler's effect is one predicate
(`ContactEffect`, `MessagesAnswer`, `AnalyticsEffect`, `ListingOf`). The
router's contract repeats that predicate under the route's guard. The
properties are lemmas about these predicates and the functions they use.

The clock, generated ids, the client address header and the outcomes of
e-mail delivery are parameters. Outgoing mail is returned as a value, so
the contracts can say who is mailed and what.

## Model

| member | source | states |
|---|---|---|
| Worker.Sanitize | worker/src/index.ts:36-38 | the result has no `<` or `>`, is at most `max` long, and does not start with white space; it is a prefix of the trimmed, bracket-free text, and equals it unless it was cut at `max`; it only holds characters of the input |
| Worker.SanitizeNotIdempotent | worker/src/index.ts:36-38 | cutting after trimming can leave trailing white space: `sanitize("a b", 2)` is `"a "`, and sanitising that again gives `"a"` |
| Worker.SanitizeIdempotentUntruncated | worker/src/index.ts:36-38 | when nothing is cut off, sanitising twice is the same as once |
| Worker.BracketsOnlySanitizeToEmpty | worker/src/index.ts:146-149 | a field of only angle brackets, which the required check lets through, sanitises to the empty string |
| Worker.NewRecord | worker/src/index.ts:145-155 | the record carries the given id and time and is unread; every field is within its cap (100, 150, 150, 2000, 100, 50) and holds no angle bracket |
| Worker.HasRequiredFields | worker/src/index.ts:136 | definition, no contract of its own: the four required members are present and non-empty; `Acceptable` adds the loose pattern, and `ValidFormAcceptedByWorker` relates it to the browser check |
| Worker.CountAt | worker/src/index.ts:79 | definition, no contract of its own: a missing counter reads as 0, stored text as `Number(text)`; `RateRunCounts` and `NumberRoundTrip` state what it reads back |
| Worker.RateLimited | worker/src/index.ts:77-88 | definition, no contract of its own: the namespace after the limiter; `RateLimitedFrame` states its frame and `Store.RateLimit` its admission rule |
| Worker.Authorized | worker/src/index.ts:177-179 | definition, no contract of its own: the `X-Admin-Key` header is present and equal to the configured key; a missing header never matches, even with no key configured; `MessagesAnswer` gives 401 otherwise |
| Worker.RouteOf | worker/src/index.ts:112-217 | definition, no contract of its own: OPTIONS first, health and the listing by path alone, contact and analytics by path and POST; `Store.Fetch` states each route's answer |
| Worker.KeySpaces | worker/src/index.ts:156 | rate, contact and analytics keys never collide; only contact keys carry the `contact:` prefix that the listing enumerates |
| Worker.ContactViewIgnores | worker/src/index.ts:181 | writing any key outside the `contact:` prefix leaves the set of listed records unchanged |
| Worker.RateLimitedFrame | worker/src/index.ts:77-88 | the rate limiter writes only `rate:<ip>`, so every other key and every contact record is unchanged |
| Worker.RateRunCounts | worker/src/index.ts:79-85 | after `n` admitted requests from one address, starting from nothing, the stored count reads back as `n` |
| Worker.ElevenAllowedThenRejected | worker/src/index.ts:81 | counts 0 to 10 are admitted, so eleven requests pass; the twelfth sees 11, is rejected, and writes nothing |
| Worker.NaNCounterNeverLimits | worker/src/index.ts:79-85 | a counter stored as the text "NaN" never exceeds the threshold and is written back as the same "NaN", so it never limits |
| Worker.NonNumericCounterBecomesNaN | worker/src/index.ts:79-85 | any other counter text that is not a number also never exceeds; the limiter rewrites it as "NaN", and a second request then leaves the namespace unchanged |
| Worker.AcceptedAddsOneUnread | worker/src/index.ts:127-196 | an accepted contact adds exactly one listed record and one unread record to what the admin listing reports |
| Worker.Store.RateLimit | worker/src/index.ts:77-88 | admits exactly when the stored count is not above 10, and the new namespace is the old one with the counter bumped |
| Worker.Store.Contact | worker/src/index.ts:127-173 | `ContactEffect`: 429 when rate-limited, with the namespace unchanged and no mail; otherwise the new namespace is the old one with the counter bumped, and then: 500 for a malformed body, 400 "Missing fields", 400 "Invalid email", each with no mail; or 200 with, in addition, the sanitised record stored under `contact:<id>`, and a notification and a confirmation mailed; 200 exactly for an admitted, acceptable body; nothing but a success changes the listed records |
| Worker.Store.Messages | worker/src/index.ts:176-197 | `MessagesAnswer`: 401 without the admin key; 500 if some `contact:` value is not a record; otherwise 200 with total equal to the number of contact keys, the unread count, and the records in enumeration order; the namespace is not changed |
| Worker.Store.Collect | worker/src/index.ts:181-191 | succeeds exactly when every contact key holds a record; then returns one record per key, in the order it visited them, with the count of unread ones |
| Worker.Store.Analytics | worker/src/index.ts:200-211 | `AnalyticsEffect`: a malformed body gives 500 and changes nothing; otherwise 200, and the new namespace is the old one with only the counter for the day and event bumped; the contact records are untouched |
| Worker.Store.Fetch | worker/src/index.ts:107-220 | OPTIONS gives 200 with no body and health gives 200, both changing nothing; unknown routes give 404; the contact route satisfies `ContactEffect`, the listing route `MessagesAnswer` with the namespace unchanged, the analytics route `AnalyticsEffect`; only the contact route mails; only a successful contact changes the listed records |
| Decimal.DecimalString | worker/src/index.ts:83 | `String(n)` is a non-empty run of digits, and is "0" exactly for zero |
| Decimal.DecimalRoundTrip | worker/src/index.ts:79-83 | `Number(String(n)) == n` for every natural `n` |
| Decimal.NumberRoundTrip | worker/src/index.ts:79-83 | reading back a written counter (a number or NaN) gives the same value |
| EmailPatterns.LooseEmail | worker/src/index.ts:30-34 | definition, no contract of its own: some split at an `@` and a later `.` with runs of non-space, non-`@` characters between; `LooseEmailShape` characterises it |
| EmailPatterns.StrictEmail | worker/.wrangler/tmp/dev-CuDjMT/index.js:25-28 | definition, no contract of its own: some split into the pattern's three character classes; `StrictEmailShape` characterises it |
| EmailPatterns.PyStrictMatch | app.py:30-34 | definition, no contract of its own: Python `re.match` of the strict pattern, whose `$` also matches before one final newline; `PythonTrailingNewline` and `PyStrictMatchNoNewline` relate it to `StrictEmail` |
| EmailPatterns.LooseEmailShape | worker/src/index.ts:30-34 | the loose pattern accepts exactly the strings with one `@`, no white space, a non-empty local part, and a `.` in the domain with characters on both sides |
| EmailPatterns.StrictEmailShape | worker/.wrangler/tmp/dev-CuDjMT/index.js:25-28 | the strict pattern accepts exactly a non-empty local part of `[a-zA-Z0-9._%+-]`, one `@`, and a domain of `[a-zA-Z0-9.-]` ending in a dot and at least two letters |
| EmailPatterns.StrictImpliesLoose | worker/.wrangler/tmp/dev-CuDjMT/index.js:25-28 | every address the strict pattern accepts, the loose one accepts too |
| EmailPatterns.LooseButNotStrict | worker/.wrangler/tmp/dev-CuDjMT/index.js:25-28 | `a@b.c` passes the loose pattern but not the strict one |
| EmailPatterns.PythonTrailingNewline | app.py:30-34 | Python's `re.match` with `$` also accepts one trailing newline: `a@b.co\n` matches in Python but not in JavaScript |
| EmailPatterns.PyStrictMatchNoNewline | app.py:30-34 | without a trailing newline, the Python and JavaScript readings of the strict pattern agree |
| EmailPatterns.PyStrippedNoNewline | app.py:58 | a stripped address never ends in a newline |
| EmailPatterns.StrictNotBlank | api/contact.py:19-22 | no accepted address is all white space |
| EmailPatterns.BlankNotStrict | api/contact.py:19-22 | an all-white-space string never matches |
| Text.TrimEmptyIffBlank | app.py:57-63 | stripping gives the empty string exactly when the input is all white space |
| Text.TrimIdempotent | worker/src/index.ts:37 | trimming twice is the same as trimming once |
| Text.TrimSubset | worker/src/index.ts:37 | trimming only removes characters |
| Text.TrimEnds | app.py:57-60 | a non-empty trimmed string starts and ends with a non-space |
| Text.TrimPadded | app.py:58 | trimming one space on each side of an unpadded core gives the core |
| Text.StripBrackets | worker/src/index.ts:37 | keeps exactly the characters other than `<` and `>`, never lengthening |
| Text.StripBracketsCounts | worker/src/index.ts:37 | each character other than `<` and `>` is kept as many times as it occurs; the brackets occur zero times |
| Text.StripBracketsSubsequence | worker/src/index.ts:37 | the kept characters stay in their order |
| Text.StripBracketsConcat | worker/src/index.ts:37 | stripping a concatenation strips each part, so the result is fixed character by character |
| Text.JsTrim | worker/src/index.ts:37 | definition, no contract of its own: `Trim` with JavaScript white space; the `Trim*` lemmas state its properties |
| Text.PyStrip | app.py:57-60 | definition, no contract of its own: `Trim` with Python white space; the `Trim*` lemmas state its properties |
| Text.StripBracketsOfClean | worker/src/index.ts:37 | text without angle brackets passes through unchanged |
| Text.Take | worker/src/index.ts:202 | `slice(0, n)` is the prefix of length `min(n, |s|)` |
| WorkerBundle.CountUnread | worker/.wrangler/tmp/dev-CuDjMT/index.js:451 | the unread count is at most the list length, and is zero exactly when every record is read |
| WorkerBundle.CountUnreadAppend | worker/.wrangler/tmp/dev-CuDjMT/index.js:338 | pushing a record adds one to the unread count when it is unread |
| WorkerBundle.AcceptedByProductionWorker | worker/.wrangler/tmp/dev-CuDjMT/index.js:306-323 | every body this build accepts, the production worker accepts too |
| WorkerBundle.StricterThanProductionWorker | worker/.wrangler/tmp/dev-CuDjMT/index.js:312-317 | a body the production worker accepts is rejected here with "Invalid email format" |
| WorkerBundle.ListingAfterAccept | worker/.wrangler/tmp/dev-CuDjMT/index.js:336-339 | appending an unread record raises the total and the unread count by one each |
| WorkerBundle.EmptyStoreListsNothing | worker/.wrangler/tmp/dev-CuDjMT/index.js:449-451 | a missing key reads as the empty list, with no unread messages |
| WorkerBundle.Store.Contact | worker/.wrangler/tmp/dev-CuDjMT/index.js:304-363 | `ContactEffect`: a body that is not JSON, or stored text that is not JSON, gives 500; the first failing validation rule gives 400 with its message; none of these writes or mails; otherwise the record is appended to the loaded list (a non-array value is replaced), the list read back is the old one plus the record, both mails are sent, and the 200 body reports both mail outcomes |
| WorkerBundle.ListingOf | worker/.wrangler/tmp/dev-CuDjMT/index.js:448-462 | 200 exactly when the stored value loads, with the loaded list, its length, and an unread count that is zero exactly when every message is read; otherwise 500 |
| WorkerBundle.Store.Messages | worker/.wrangler/tmp/dev-CuDjMT/index.js:448-462 | no key check; answers `ListingOf` the namespace, with the unread count at most the total |
| WorkerBundle.Store.Fetch | worker/.wrangler/tmp/dev-CuDjMT/index.js:283-476 | OPTIONS gives 200; health, projects and skills give their constant 200 answers; every route needs both its exact path and its method, otherwise 404; the contact route satisfies `ContactEffect` and the listing route answers `ListingOf`; only the contact route writes or mails, and only on success |
| WorkerBundle.FirstError | worker/.wrangler/tmp/dev-CuDjMT/index.js:306-323 | no error exactly when the four fields are present, the address matches the strict pattern, and the message has at least 10 characters; an error is one of the three messages the handler uses |
| WorkerBundle.Loaded | worker/.wrangler/tmp/dev-CuDjMT/index.js:336-337 | definition, no contract of its own: a missing key or a non-array value loads as the empty list, text that is not JSON fails; `EmptyStoreListsNothing` and `ContactEffect` use it |
| WorkerBundle.NewRecord | worker/.wrangler/tmp/dev-CuDjMT/index.js:324-334 | definition, no contract of its own: the raw fields, `company` and `project_type` defaulting to empty, unread |
| WorkerBundle.RouteOf | worker/.wrangler/tmp/dev-CuDjMT/index.js:287-466 | definition, no contract of its own: OPTIONS first, then each route by exact path and method; `Fetch` states each route's answer |
| FlaskApp.StrippedIsClean | app.py:57-60 | a non-empty stripped field has no white space at either end |
| FlaskApp.AcceptedFieldsPresent | app.py:57-72 | an accepted body has four non-empty stripped fields, a stripped address matching the strict pattern, and a message of at least 10 characters |
| FlaskApp.AcceptedRecordIsClean | app.py:57-83 | the record stored for an accepted body holds the stripped fields: each is non-empty and unpadded, the address is strict, and the message has at least 10 characters |
| FlaskApp.BlankFieldIsMissing | app.py:57-64 | a required field of only white space is rejected as missing |
| FlaskApp.StripPaddedAddress | app.py:58 | `" a@b.co "` strips to `"a@b.co"` |
| FlaskApp.ShortAddressMatches | app.py:30-34 | `a@b.co` matches the strict pattern |
| FlaskApp.PaddedAddressNotStrict | worker/.wrangler/tmp/dev-CuDjMT/index.js:312 | the padded address fails the strict pattern as the bundle applies it, unstripped |
| FlaskApp.PaddedEmailAccepted | app.py:58-68 | Flask strips before matching, so it accepts a padded address that the bundle rejects |
| FlaskApp.RemoveId | app.py:129 | keeps exactly the messages whose id differs, never lengthening the list |
| FlaskApp.RemoveIdKeepsOrder | app.py:129 | the survivors keep their order |
| FlaskApp.RemoveIdCounts | app.py:129 | each message with another id is kept as many times as it occurs; messages with the id occur zero times |
| FlaskApp.RemoveIdConcat | app.py:129 | deleting from a concatenation deletes from each part |
| FlaskApp.FirstError | app.py:54-72 | definition, no contract of its own: the handler's ladder (empty body, a blank stripped field, the address, the message length); `AcceptedFieldsPresent` and `BlankFieldIsMissing` state its meaning |
| FlaskApp.NewRecord | app.py:75-83 | definition, no contract of its own: the stripped fields, unread; `AcceptedRecordIsClean` states what an accepted record holds |
| FlaskApp.RemoveAbsentId | app.py:128-130 | deleting an unknown id leaves the list unchanged |
| FlaskApp.RemoveIdIdempotent | app.py:129 | deleting twice is the same as deleting once |
| FlaskApp.MarkFirst | app.py:145-148 | marking never changes the length |
| FlaskApp.MarkFirstAt | app.py:145-148 | only the first message with the id becomes read; everything else is unchanged |
| FlaskApp.MarkFirstAbsent | app.py:145-148 | an unknown id changes nothing |
| FlaskApp.MarkFirstIdempotent | app.py:145-148 | marking twice is the same as marking once |
| FlaskApp.MessageLog.HandleContact | app.py:48-109 | 500 for a body that is not JSON; 400 with the first failing rule's message and the list unchanged; otherwise 200 with the new record appended at the end |
| FlaskApp.MessageLog.GetMessages | app.py:112-120 | 200 with the whole list and its length |
| FlaskApp.MessageLog.DeleteMessage | app.py:125-135 | the new list is the old one without the id's messages, always with 200 |
| FlaskApp.MessageLog.MarkAsRead | app.py:140-155 | the loop with `break` marks exactly the first message with the id, always with 200 |
| ApiContact.LowerOfLower | api/contact.py:32 | lower-casing text with no capital letters changes nothing |
| ApiContact.CapitalizeLower | api/contact.py:32 | `capitalize` upper-cases a lower-case first letter and keeps a lower-case rest |
| ApiContact.NameLabel | api/contact.py:29-32 | the label for `name` is `Name` |
| ApiContact.EmailLabel | api/contact.py:29-32 | the label for `email` is `Email` |
| ApiContact.MessageLabel | api/contact.py:29-32 | the label for `message` is `Message` |
| ApiContact.ValidateInput | api/contact.py:24-46 | the append loop over the required fields, then the three conditional checks, builds exactly the violation list of the body |
| ApiContact.RequiredErrorsUnfold | api/contact.py:29-32 | the required-field errors come in the order name, email, message, one per blank field |
| ApiContact.Capitalize | api/contact.py:32 | the result has the input's length, a first character that is not a lower-case letter, and no upper-case letter after it |
| ApiContact.Violations | api/contact.py:24-46 | definition, no contract of its own: the required-field errors, then the address, message and name checks, in that order; `ValidIff` states when it is empty |
| ApiContact.MailFor | api/contact.py:144-150 | definition, no contract of its own: the stripped name, address and message; `MailedFieldsMeetFloors` states what they satisfy |
| ApiContact.ValidIff | api/contact.py:24-46 | no violation exactly when name, email and message are non-blank, the raw address matches, the stripped message has at least 5 characters, and the stripped name at least 2 |
| ApiContact.TitleIgnored | api/contact.py:29 | the title and every other extra member have no effect on validation |
| ApiContact.BlankEmailReportedTwice | api/contact.py:31-36 | an address of spaces is reported both as required and as invalid |
| ApiContact.EmptyBodyErrors | api/contact.py:29-32 | an empty object gets the three required-field errors in order |
| ApiContact.StripUnpadded | api/contact.py:145-147 | stripping text with no white space at either end changes nothing |
| ApiContact.TestRequestValid | test_contact.py:17-21 | the test's request body has no violations |
| ApiContact.TestNamePasses | test_contact.py:18 | the test name is non-blank and long enough |
| ApiContact.TestMessagePasses | test_contact.py:20 | the test message is non-blank and long enough |
| ApiContact.TestAddressPasses | test_contact.py:19 | the test address is non-blank and valid |
| ApiContact.TestAddressMatches | test_contact.py:19 | the test address matches the strict pattern |
| ApiContact.MailedFieldsMeetFloors | api/contact.py:144-150 | the stripped fields handed to the mailer meet the name and message floors, and the address is non-empty |
| ApiContact.Handler | api/contact.py:96-178 | OPTIONS gives 200 `{}`; any other non-POST gives 405; a non-JSON body gives 500; an empty one gives 400; violations give 400 with the list; otherwise exactly one mail of the stripped fields, then 200 or 500 by its outcome |
| LocalServer.Contact | local_server.py:117-160 | the same ladder without the method checks; 200 exactly when a mail was attempted and succeeded |
| ContactForm.ValidateForm | script.js:272-290 | a passing form has every control filled and a message of at least 10 characters |
| ContactForm.ValidateFormIff | script.js:272-290 | the form passes exactly when all four controls are non-empty, the address has the loose shape, and the untrimmed message has at least 10 characters |
| ContactForm.BlankMessagePasses | script.js:285-287 | ten spaces pass as a message |
| ContactForm.Posted | script.js:201-206 | the posted body reads back each control as its member, and has no other members |
| ContactForm.ValidFormAcceptedByWorker | script.js:272-290 | every form the browser lets through is a body the production worker accepts |
| Certifications.WithCategory | src/pages/Certifications.jsx:14 | keeps exactly the certifications whose category equals the one given, never lengthening |
| Certifications.FilterCerts | src/pages/Certifications.jsx:12-14 | `'All'` gives the list unchanged; any other category gives exactly the certifications with that category |
| Certifications.WithCategorySubsequence | src/pages/Certifications.jsx:14 | the filter keeps the catalogue order |
| Certifications.FilterCertsSubsequence | src/pages/Certifications.jsx:12-14 | every filter result is an order-preserving subsequence |
| Certifications.AiMlIsEmpty | src/pages/Certifications.jsx:14 | 'AI/ML' is offered as a filter but selects no certification |
| Certifications.WithCategoryAppend | src/data/certifications.js:58 | a certification added at the end joins only its own category's group, at the end |
| Certifications.CategoryOrder | src/data/certifications.js:55-57 | definition, no contract of its own: the keys in order of first occurrence; `CategoryOrderExact` and `CategoryOrderDistinct` characterise it |
| Certifications.CategoryOrderExact | src/data/certifications.js:55-57 | the group keys are exactly the categories that occur |
| Certifications.CategoryOrderDistinct | src/data/certifications.js:55-57 | no key is created twice |
| Certifications.GroupStep | src/data/certifications.js:55-58 | one callback step (create the array if missing, then push) extends the grouping of the prefix to the grouping of the longer prefix |
| Certifications.GroupByCategory | src/data/certifications.js:54-60 | the `reduce` returns the keys in first-occurrence order, and maps each key to exactly its category's certifications, in catalogue order |
| Certifications.GroupOfEach | src/data/certifications.js:54-60 | every certification is in the group of its own category and in no other |
| Certifications.GroupNonEmpty | src/data/certifications.js:55-58 | no group is empty |
| Certifications.GroupingPartitions | src/data/certifications.js:54-60 | the group sizes add up to the number of certifications |
| Certifications.CatalogGroups | src/data/certifications.js:2-60 | the actual catalogue groups into 'Development' and then 'Cybersecurity', the latter holding the last two entries in order |
| Projects.FilterProjects | src/pages/Projects.jsx:12-14 | `'All'` gives every project in order; any other category gives exactly the projects whose category list contains it, never lengthening |
| Projects.FilterProjectsSubsequence | src/pages/Projects.jsx:12-14 | the result is an order-preserving subsequence of the projects |
| Projects.FilterProjectsCounts | src/pages/Projects.jsx:12-14 | each selected project is kept as many times as it occurs; the others occur zero times |
| Projects.FilterProjectsConcat | src/pages/Projects.jsx:12-14 | filtering a concatenation filters each part |

## Left out

- Character counting: strings are sequences of Unicode scalar values. The
  Python lengths agree; JavaScript `length` counts UTF-16 units and differs
  for characters outside the Basic Multilingual Plane.
- JSON members:
  - A null member, an absent member and a member of a non-string type are
    all treated as absent.
  - A non-string member makes Flask's `strip` and the Vercel function's
    `strip` raise, and the server answers 500. The model treats the member
    as absent instead.
  - JavaScript's `!body.x` on non-strings is not modelled.
- JavaScript `Number()` is modelled on digit strings only. Any other
  stored counter text reads as NaN, including text with spaces, signs,
  exponents or hexadecimal. `Decimal.NumberRoundTrip` covers the values
  the worker itself writes.
- The production worker's listing parses each record back with
  `JSON.parse`. A stored value is either a record or text. The JSON
  encoding of a record is not modelled character by character.
- TTLs (`expirationTtl` of 60 seconds and 90 days) and KV eventual
  consistency are not modelled: entries never expire.
- KV `list` order: `Worker.Store.Collect` visits the contact keys in an
  order it chooses. The contract fixes the records to that order, not to
  the lexicographic order KV promises.
- Concurrent requests are not modelled. Each request runs alone against
  the store, so the read-modify-write races of both workers and of Flask's
  JSON file are not captured.
- E-mail content:
  - The HTML templates, subjects, the Resend HTTP call and the SMTP
    session are left out.
  - A send is an outcome given as a parameter, or a value recorded in
    `mails`.
  - The production worker ignores both outcomes, and the bundle reports
    them.
- Identifiers and time:
  - `crypto.randomUUID()`, `Date.now()` and Flask's millisecond id are
    parameters.
  - Ids are assumed fresh: `contact:<id>` is not already present.
- Flask's file I/O: `load_contact_messages` and `save_contact_messages`
  are the class field. A missing file is the empty list, and a file
  unreadable as JSON is not modelled.
- The text of server-error replies (`Server error: …` with the exception
  message) is reduced to a 500 status with an error body.
- Fixed data: the projects and skills lists of the bundle and of Flask,
  and the health endpoint's text fields, are reduced to constant
  responses. CORS headers are not modelled.
- ApiContact.Capitalize: `str.capitalize` is modelled for ASCII letters
  only, which covers the three field names it is applied to.
- Flask's other routes (health, projects, skills, the 404 and 500
  handlers) return constants and are not modelled.
- JavaScript object keys: the certification grouping keeps keys in
  insertion order. JavaScript lists integer-like keys first, and no
  category is integer-like. The grouping object is a plain `{}`, so a
  category named like an `Object.prototype` member (`constructor`,
  `toString`) would find an inherited value at
  src/data/certifications.js:55-58 and not get a fresh array. The model's
  map has no inherited members, and no category in the catalogue has
  such a name.
- Request bodies that are JSON but not an object are not representable:
  a body is either malformed or an object of string members.
  - In both workers `null` makes the member access throw, giving 500
    (worker/src/index.ts:136 and 201,
    worker/.wrangler/tmp/dev-CuDjMT/index.js:306).
  - An array, number or string has no `name`, so the workers answer 400.
  - The Python servers answer "No data …" with 400 for a falsy value
    (`0`, `""`, `[]`) and 500 for a truthy one, whose `.get` raises
    (app.py:54, api/contact.py:121, local_server.py:123).
- ApiContact.Handler: an object whose members are all null or non-string,
  such as `{"title": null}`, is read as the empty object and answered
  "No data received". The source sees a non-empty, truthy dictionary and
  answers 400 with the three "… is required" errors.
- LocalServer.Contact: the same reading of an all-null object applies; it
  shares `ApiContact`'s body check.
- Worker.Store.Messages: KV `list` returns at most 1000 keys per call, and
  the handler (worker/src/index.ts:181) does not follow the cursor. With
  more than 1000 contact records the source lists only the first 1000 and
  reports that many as the total. The model lists every contact key, so
  its total is the number of all contact keys.
- Worker.Store.Collect: the same 1000-key page is not modelled. Any stored
  value under a `contact:` key that is not a record makes the listing
  answer 500. In the source, text that is valid JSON but not a record
  (a number, `null`, an array) parses without error and is listed.
- The page markup (`groupedCertifications` rendered by
  `Object.entries`, the form's loading state and notifications) is not
  part of this model.

Where the documentation and the code disagree, the model follows the code:

- Both workers answer OPTIONS with `new Response(null, …)`, whose status
  is 200, not 204.
- The production worker's analytics route answers 500 when the body is
  not JSON, because the parse throws inside the `try`.
- The production worker answers `/api/health` and `/api/messages` for any
  method.
