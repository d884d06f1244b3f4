# Relief-aid distribution: application review and pickup vouchers

A Dafny model of the core of a Django/DRF relief-aid portal. Citizens submit an
application for a relief package. Supervisors approve or reject it. Approval
issues one pickup voucher: a `GCR` code, carried in a QR payload, that a scanner
verifies and a supervisor completes. The model also covers the package stock
counters and their restock endpoint, the configuration table, soft deletion, and
the client-side rules of the three browser scripts.

Layout (one module per source file, plus shared vocabulary):

- `common.dfy`, `text.dfy`, `numerals.dfy`, `lists.dfy`, `patterns.dfy`,
  `requests.dfy`, `accounts.dfy`: shared vocabulary.
  - Day numbers, clock readings and the random draws a request makes.
  - Python `str.strip` and JavaScript white-space removal.
  - Python `int()` and JavaScript `parseInt`.
  - The phone and e-mail regular expressions.
  - Django's `User`.
- `store.dfy`: `Store.Database`, the tables (applications, pickups, packages),
  kept as maps.
  - `Valid()` states the unique constraints: reference numbers, pickup codes,
    the one-to-one pickup link, and package types.
  - `Lifecycle()` states what every `save()` assigns and no form can edit:
    - every pickup has its code and QR image (read-only in the admin);
    - every stored application has a reference number (read-only in the
      admin).
  - `PickupsFollowApproval()` states that every pickup belongs to an approved
    or picked-up application. The admin can edit an application's status, so
    no view assumes it; every modelled view keeps it when it held.
  - `StockWithinTotal` states `available_quantity <= total_quantity`. The
    package management views write both counters freely, so no view assumes
    it; allocation and restocking keep it when it held.
- `application_models.dfy`, `application_serializers.dfy`,
  `application_views.dfy`: applications/.
- `package_models.dfy`, `package_views.dfy`: packages/.
- `pickup_models.dfy`, `pickup_serializers.dfy`, `pickup_views.dfy`: pickups/.
- `core_models.dfy`: core/models.py.
- `js_main.dfy`, `js_application_form.dfy`, `js_supervisor.dfy`: the three
  scripts under static/js/.

The model is shaped like the source:

- The Django models whose fields the code assigns step by step are classes:
  `Application`, `Pickup`, `Package`, the soft-delete flags and the
  configuration table.
  - Their `Save` methods write a row into `Store.Database`.
  - Each of these methods states the exact new row and table.
- Views that change the database are methods over `Database`. Their `ensures`
  give every response and every resulting table, guard by guard.
- `verify_qr_code` only reads, so it is a function.
- The browser classes (`MultiStepForm`, `PackageFilter`,
  `ApplicationFormHandler`, `ApplicationManager`, `PackageManager`) are classes
  whose methods update their fields as the scripts do.

Behaviours of the code that the model keeps as written:

- Submission runs the serializer validators only; nothing limits how often a
  phone number may apply.
- Nothing retries when a generated pickup code or reference number collides.
  - The unique constraint fails, and the view answers 500.
  - In `approve_application`, the failure comes after the application was
    already saved as approved. `ApplicationViews.ApproveApplication` states
    that outcome.
- Completing a pickup is not atomic: `complete_pickup` saves the pickup, then
  the application. The model performs the two writes in sequence. A later
  failure (for example JSON `null` notes, which violate the NOT NULL `notes`
  column) leaves both writes in place.
- The completion endpoints check "already completed" and "expired" only. A
  cancelled pickup that has not expired can be completed
  (`PickupViews.CancelledCanBeCompleted`).
- The pickup code is `GCR` and twelve upper-case hexadecimal characters, not
  arbitrary alphanumerics.
- The phone number reaches `validate_phone` after DRF's `CharField` trims its
  ends (`trim_whitespace`).
  - The model applies that trim (`ApplicationSerializers.SubmissionErrors`).
  - A number with a space inside is still refused.
  - The form script removes every space, so such a number passes in the
    browser and fails on the server
    (`ClientApplicationForm.SpacedNumberPassesFormNotServer`).

Dates are day numbers. "Today", `timezone.now()`, `uuid4()` and
`get_random_string` are parameters. A `confirm()` or `prompt()` answer in the
browser scripts is a parameter too.

## Model

| member | source | states |
|---|---|---|
| Accounts.User.FullName | pickups/views.py:202 | `get_full_name()` of the completing user: first and last name around one space, trimmed, so it is empty when both names are |
| Accounts.User.DisplayName | pickups/views.py:253 | the scanner's `completed_by`: the full name, or the username when the full name is empty |
| Accounts.FullNameOfPlainNames | pickups/views.py:202 | two non-empty names without white space give exactly `first + " " + last` |
| ApplicationModels.GenerateReferenceNumber | applications/models.py:87-92 | `GCR`, then two-digit year, two-digit month and the four random digits: 11 characters, within `max_length` 20, all digits after the prefix |
| ApplicationModels.ReferenceNumberRoundTrip | applications/models.py:87-92 | parsing a generated reference gives back the year modulo 100, the month and the random digits |
| ApplicationModels.ParsedReferenceIsGenerated | applications/models.py:87-92 | every string that parses as a reference is the one generated from its month and its digits |
| ApplicationModels.ParseReferenceNumber | applications/models.py:87-92 | reads back the year, month and digits of a reference number; only an 11-character string starting with `GCR` parses |
| ApplicationModels.FullName | applications/models.py:79-80 | `get_full_name()`: first name, one space, last name, untrimmed |
| ApplicationModels.Application.constructor | applications/models.py:17-64 | a new application is `PENDING`, has no reference number and no review fields yet |
| ApplicationModels.Application.Load | applications/models.py:15-64 | the instance holds the stored row |
| ApplicationModels.Application.Save | applications/models.py:82-85 | the reference is generated only when empty and never replaced; the row is written unless its id or reference is taken; nothing else changes |
| ApplicationSerializers.SubmitterCannotSetReviewState | applications/serializers.py:8-28 | the submission fields are exactly the reported fields minus the read-only `id`, `reference_number`, `status`, `created_at`, so a submitter cannot set them |
| ApplicationSerializers.ValidateTermsAgreement | applications/serializers.py:30-33 | passes exactly a true value and returns it; otherwise the terms message |
| ApplicationSerializers.ValidatePhone | applications/serializers.py:35-40 | passes exactly what `re.match` accepts, returning the value unchanged; otherwise the phone message |
| ApplicationSerializers.ValidateTecMember | applications/serializers.py:42-45 | passes exactly `yes` and `no`, returning the value; otherwise the membership message |
| ApplicationSerializers.PhoneValidatorLanguage | applications/serializers.py:38 | without a trailing newline, the pattern accepts exactly `0`+10, `234`+10 or `+234`+10 characters of the form `[789][01]` and eight digits, so of length 11, 13 or 14 |
| ApplicationSerializers.SpacedPhoneRefused | applications/serializers.py:35-40 | a value with a space before its last character is refused |
| ApplicationSerializers.SubmissionErrors | applications/serializers.py:30-45 | a field error exactly when its validator refuses the (trimmed) value; an omitted `terms_agreement` is not validated |
| ApplicationSerializers.CleanedDetails | applications/serializers.py:22-28 | the saved details are the submitted ones with the phone trimmed and an omitted terms flag stored as false |
| ApplicationSerializers.OmittedTermsPass | applications/serializers.py:30-33 | a submission that leaves out `terms_agreement` passes validation and is stored with the flag false |
| ApplicationSerializers.TrimmedPhoneValidatorLanguage | applications/serializers.py:35-40 | the submitted phone is accepted exactly when its trimmed text is a Nigerian number |
| ApplicationViews.SubmitApplication | applications/views.py:9-36 | invalid data: 400 with the field errors and no write; valid data: exactly one new `PENDING` row with a fresh reference, answered with that reference, name, phone and package; a taken id or reference: 500 and no write; the pickup-approval link is kept when it held |
| ApplicationViews.Reviewed | applications/views.py:72-114 | the reviewed row has the new status and the reviewer, time and notes, and keeps reference, details and creation time |
| ApplicationViews.IssuedPickup | applications/views.py:79-84 | the issued pickup is `SCHEDULED` on the preferred date and time, carries a generated code and its QR payload, and is not yet collected |
| ApplicationViews.ReviewGuard | applications/views.py:66-126 | unknown id gives 404, a non-pending application the "Only pending applications can be ..." 400, and only a pending one passes |
| ApplicationViews.MarkReviewed | applications/views.py:72-115 | the application's row becomes `Reviewed(...)`; the other tables are untouched; from a pending application, the pickup-approval link is kept when it held |
| ApplicationViews.IssuePickup | applications/views.py:79-84 | one pickup row is inserted under the next id exactly when its code is free and the application holds no pickup yet (the one-to-one link); nothing else changes; the pickup-approval link is kept when it held |
| ApplicationViews.ApproveApplication | applications/views.py:60-96 | guard failures change nothing; otherwise the application is approved with its review stamp and exactly one pickup is created, whose code is returned; a code collision, or an application that already holds a pickup, answers 500 after the approval was saved; `null` notes answer 500 before any write; the pickup-approval link is kept when it held |
| ApplicationViews.RejectApplication | applications/views.py:99-126 | guard failures change nothing; otherwise the application is rejected with its review stamp and no pickup is created; the pickup-approval link is kept when it held |
| ApplicationViews.ApproveTwice | applications/views.py:66-90 | after a successful approval a second one is refused as not pending and the pickup table still holds only the first pickup; the pickup-approval link is kept when it held |
| CoreModels.SoftDeletable.constructor | core/models.py:15-23 | a new row is not deleted and has no deletion time or user |
| CoreModels.SoftDeletable.SoftDelete | core/models.py:28-33 | sets deleted, the time and the user |
| CoreModels.SoftDeletable.Restore | core/models.py:35-39 | resets the three flags to not deleted, none, none |
| CoreModels.SetValueRows | core/models.py:70-85 | `set_value` creates an active row for a new key and otherwise overwrites value, description and user, keeping `is_active`; other keys keep their rows |
| CoreModels.GetAfterSet | core/models.py:62-85 | after `set_value`, `get_value` returns the new value, unless the key existed and was inactive, in which case it returns the default |
| CoreModels.SetKeepsOtherKeys | core/models.py:62-85 | `set_value` on one key does not change what `get_value` answers for another |
| CoreModels.SetTwiceIsSetOnce | core/models.py:70-85 | two `set_value` calls on a key leave the table as the second alone would |
| CoreModels.ConfigTable.constructor | core/models.py:42-52 | the table starts empty |
| CoreModels.ConfigTable.SetValue | core/models.py:70-85 | the table becomes `SetValueIn` of the old one, the returned setting is the key's row, and a following `get_value` answers as `GetAfterSet` says |
| PackageModels.OutOfStockFlags | packages/models.py:33-40 | a package with nothing available is low on stock and not available |
| PackageModels.Allocated | packages/models.py:42-47 | succeeds exactly when stock is positive, then takes one unit; the total never changes; on failure nothing changes |
| PackageModels.Restocked | packages/models.py:49-52 | adds the quantity to both available and total and changes nothing else |
| PackageModels.ReplayKeepsStockInvariant | packages/models.py:21-52 | any sequence of allocations and restocks keeps `available <= total`, and `total - available` grows by exactly the units handed out |
| PackageModels.AllocateUntilEmpty | packages/models.py:42-47 | `n` allocations on a package holding at least `n` units all succeed and take exactly `n` |
| PackageModels.Package.Load | packages/models.py:21-23 | the instance holds the stored row |
| PackageModels.Package.Save | packages/models.py:45-52 | the row is written back and no other table changes |
| PackageModels.Package.Allocate | packages/models.py:42-47 | the instance and its row become `Allocated(old)` and the result is its success flag; the row is written only on success |
| PackageModels.Package.Restock | packages/models.py:49-52 | the instance and its row become `Restocked(old, quantity)` |
| PackageModels.StockStaysWithinTotal | packages/models.py:42-52 | replacing one package by its allocated or restocked row keeps every package within its total |
| PackageViews.RequestedQuantity | packages/views.py:54 | a missing quantity reads as 0; otherwise Python `int()` of the value |
| PackageViews.RestockGuard | packages/views.py:42-79 | an anonymous request gets the permission class's 403 before the view runs, a non-staff user the staff 403, an unknown package 404, and only a staff request for a known package with a positive integer quantity passes |
| PackageViews.RestockPackage | packages/views.py:41-79 | a refusal changes nothing; success restocks exactly that package by the quantity and reports the new available count; `available <= total` is kept when it held |
| PackageViews.AddStock | packages/views.py:62-67 | restocks the package in place, keeps the table constraints, keeps `available <= total` when it held, and returns the new available count |
| PackageViews.BadQuantityRefused | packages/views.py:54-79 | for a staff user and a known package, a non-positive or unparsable quantity gives 400 |
| PackageViews.GuardOrder | packages/views.py:46-74 | for a non-staff user or an unknown package the response is 403 or 404 whatever the quantity |
| PickupModels.GeneratePickupCode | pickups/models.py:25-65 | `GCR` and 12 upper-case hexadecimal characters: 15 characters, within `max_length` 50 |
| PickupModels.PickupCodeFromUuid | pickups/models.py:63-65 | the code is `GCR` and the upper-cased first twelve hexadecimal digits of the UUID, hyphens removed |
| PickupModels.ExpiryThreshold | pickups/models.py:109-112 | the later of scheduled date + 1 and creation date + 7 |
| PickupModels.ExpiredIff | pickups/models.py:106-113 | expired exactly when today is past both scheduled + 1 and created + 7 |
| PickupModels.ExpiredMonotone | pickups/models.py:106-113 | once expired, expired on every later day |
| PickupModels.NotExpiredWithinWeek | pickups/models.py:109-113 | never expired within seven days of creation, whatever the scheduled date |
| PickupModels.ThresholdIsLastValidDay | pickups/models.py:106-113 | not expired on the threshold day, expired the day after |
| PickupModels.ReportedExpiryMatchesOnlyWhenScheduledOnCreation | pickups/models.py:109-112 | the reported `expiry_date` (scheduled + 7) is the real threshold exactly when the pickup was scheduled on its creation day |
| PickupModels.CitedDateMatchesOnlyWhenScheduledLate | pickups/models.py:109-112 | the date the expired message cites (scheduled + 1) is the real threshold exactly when scheduled six or more days after creation |
| PickupModels.QrPayloadOf | pickups/models.py:68-75 | the payload has exactly the keys code, application_id, name, package, date, time, filled from the pickup and its application |
| PickupModels.Pickup.constructor | pickups/models.py:20-41 | a new pickup is `SCHEDULED`, has no code, no QR image, no completion and empty notes |
| PickupModels.Pickup.Load | pickups/models.py:20-41 | the instance holds the stored row |
| PickupModels.Pickup.WriteRow | pickups/models.py:59 | inserts under the next id or updates in place, unless the code or the application is already taken by another pickup |
| PickupModels.Pickup.GenerateQrCode | pickups/models.py:67-94 | stores the payload of the pickup's current fields and writes the row |
| PickupModels.Pickup.Save | pickups/models.py:56-61 | a code is assigned only when empty and never replaced; the QR payload is generated only when missing; a collision saves nothing |
| PickupModels.Pickup.SaveCompleted | pickups/models.py:97-100 | the pickup becomes `COMPLETED` with time and supervisor and keeps its other fields |
| PickupModels.Pickup.CompletePickup | pickups/models.py:96-104 | the pickup becomes `COMPLETED` with time and supervisor and its application `PICKED_UP`, whatever the prior status; nothing else changes |
| PickupSerializers.ValidatePickupCode | pickups/serializers.py:21-30 | unknown code: "Invalid QR code."; completed: "already been used"; otherwise expired: "expired"; otherwise the code is returned unchanged |
| PickupSerializers.UsedBeforeExpired | pickups/serializers.py:24-27 | a completed pickup is reported as used even when it has also expired |
| PickupSerializers.CancelledPasses | pickups/serializers.py:21-30 | a cancelled pickup that has not expired passes |
| PickupViews.GetPackageName | pickups/views.py:80-88 | the label of each of the five known package types, the key itself otherwise |
| PickupViews.GetTimeDisplay | pickups/views.py:137-143 | the hours of each of the three slots, the key itself otherwise |
| PickupViews.LabelsEchoOnlyUnknownKeys | pickups/views.py:80-143 | a label equals its key exactly when the key is unknown |
| PickupViews.IncludedEntries | pickups/views.py:99-105 | a list contributes its elements, a dict its values in order, anything else nothing |
| PickupViews.ItemEntries | pickups/views.py:108-111 | one `quantity item_name` entry per package item |
| PickupViews.CashEntries | pickups/views.py:114-115 | one cash entry exactly when the cash amount is positive |
| PickupViews.ContentEntries | pickups/views.py:99-115 | the entries are the included items, then one per item, then the cash entry |
| PickupViews.PackageContentsOf | pickups/views.py:96-120 | the contents entries joined by `", "` when there are some and all are text, else the description when there are none and it is not empty, else no answer |
| PickupViews.FallbackContents | pickups/views.py:127-135 | a known type has its fixed text; any other has "Package contents not specified" |
| PickupViews.NoActivePackageFallsBack | pickups/views.py:94-135 | with no active package of the type, the contents come from the fixed table |
| PickupViews.ActivePackageAnswers | pickups/views.py:94-120 | an active package with an answer of its own supplies the contents |
| PickupViews.ContentsInOrder | pickups/views.py:96-118 | the contents list the included items, then `quantity item_name` per item, then the cash entry when cash is positive, joined by `", "` |
| PickupViews.NonTextEntryFallsBack | pickups/views.py:117-125 | a non-text included entry makes the join raise, and the view falls back to the fixed table |
| PickupViews.ScannedCode | pickups/views.py:49 | the submitted `pickup_code` with the white space at both ends removed, a missing one read as empty; a value that is not text has no `strip` and gives none |
| PickupViews.VerifyPickup | pickups/views.py:61-162 | completed, then cancelled, then expired (citing scheduled + 1) are refused in that order; otherwise the details of that pickup and its application are returned |
| PickupViews.VerifyQrCode | pickups/views.py:45-168 | a code that is not text gives 500, an empty code 400 before any lookup, an unknown code 404, a known code `VerifyPickup`; it is a function, so verification writes nothing and repeating it gives the same answer |
| PickupViews.CompletedWins | pickups/views.py:61-77 | a completed pickup is reported as collected even when it is also cancelled or expired |
| PickupViews.VerifyAgreesWithValidator | pickups/views.py:57-77 | the view verifies a code exactly when the serializer's validator passes it and the pickup is not cancelled |
| PickupViews.CompletionGuard | pickups/views.py:178-239 | completed blocks first, then expired; cancelled does not block |
| PickupViews.CompletedRow | pickups/views.py:191-243 | the completed row has status, time, supervisor and the new notes, and keeps code, application, schedule and QR payload |
| PickupViews.LoadAndComplete | pickups/views.py:176-191 | loads the pickup and its application, completes both, and writes the two rows in sequence |
| PickupViews.StoreNotes | pickups/views.py:192-244 | the pickup's notes are replaced and the row saved |
| PickupViews.FinishPickup | pickups/views.py:191-244 | the pickup becomes `CompletedRow` and its application `PICKED_UP`; returns the code and applicant name |
| PickupViews.CompletePickupView | pickups/views.py:171-210 | unknown id 404; completed or expired 400 with no write; otherwise both rows are completed, with notes defaulting to `''`; `null` notes give 500 after the completion was saved; the pickup-approval link is kept when it held |
| PickupViews.PickupKey | pickups/views.py:227 | the integer the id lookup converts the submitted id to, none when the conversion raises |
| PickupViews.ConfirmPickup | pickups/views.py:213-261 | a falsy id gives 400 before any lookup; a missing pickup 404; completed or expired 400; otherwise both rows are completed with notes defaulting to "Package collected via QR scanner"; the pickup-approval link is kept when it held |
| PickupViews.CancelledCanBeCompleted | pickups/views.py:178-244 | a cancelled pickup that has not expired passes both completion guards |
| PickupViews.DefaultNotesDiffer | pickups/views.py:192-218 | without notes, `complete_pickup` stores `''` and `confirm_pickup` its fixed sentence |
| PickupViews.EntryOf | pickups/views.py:276-284 | a queue entry carries the pickup's id, code, time and status and its application's reference |
| PickupViews.ByTime | pickups/views.py:273 | entries are ordered by comparing their `scheduled_time` strings |
| PickupViews.ByTimeIsTotalPreorder | pickups/views.py:273 | that order is total and transitive |
| PickupViews.CollectQueued | pickups/views.py:270-285 | exactly today's `SCHEDULED` or `CONFIRMED` pickups, each once |
| PickupViews.TodayPickupQueue | pickups/views.py:264-291 | exactly today's `SCHEDULED` or `CONFIRMED` pickups, each once, sorted by time, and `total_count` is the list length |
| Store.Database.constructor | applications/models.py:15-64 | the tables start empty; the constraints, the saved-row invariant, the pickup-approval link and `available <= total` hold |
| Store.Database.PickupOf | pickups/models.py:20-24 | the pickup of an application, if any (`application.pickup`) |
| Store.Database.PickupWithCode | pickups/models.py:25 | the pickup holding a code, if any |
| Store.Database.ActivePackageOfType | pickups/views.py:94 | an active package of a type, if any; none exactly when no package of that type is active |
| Store.Database.SaveApplication | applications/models.py:18 | the row is written exactly when the insert does not reuse an id and the reference is not held by another application |
| Store.Database.InsertPickup | pickups/models.py:20-25 | a pickup is inserted under the next id exactly when its application exists and neither its code nor its application is held by another pickup |
| Store.Database.UpdatePickup | pickups/models.py:20-25 | an update is written exactly when the same constraints hold |
| Store.Database.UpdatePackage | packages/models.py:15 | a package row is written exactly when its type is not held by another package |
| Store.OnePickupPerApplication | pickups/models.py:20-24 | two pickups of the same application are the same pickup |
| Store.PendingHasNoPickup | applications/views.py:66-90 | while every pickup belongs to an approved or picked-up application, a pending or rejected application has no pickup |
| ApplicationViews.PendingApprovalLinkFree | applications/views.py:79-84 | while that link holds, a pending application holds no pickup, so approving it cannot break the one-to-one constraint |
| Requests.PyInt | packages/views.py:54 | `int()` of a JSON value: integers as they are, booleans as 0/1, strings parsed (a malformed one raises `ValueError`), `null` raises `TypeError` |
| Requests.PyIntOfDecimal | packages/views.py:54 | every integer written in decimal is read back by `int()` |
| Requests.TextColumn | applications/views.py:76 | what a text column stores for an assigned JSON value; `null` cannot be stored |
| Numerals.PyIntRoundTrip | packages/views.py:54 | Python `int()` reads back every decimal numeral |
| Numerals.JsIntRoundTrip | static/js/application-form.js:276 | `parseInt` reads back every decimal numeral |
| Numerals.JsIntOr | static/js/supervisor.js:492 | `parseInt(text) \|\| d`: the default when the text is not a number or reads as 0, the number otherwise |
| Numerals.FormatAmount | pickups/views.py:115 | the cash amount has two decimals after a point |
| Text.Strip | pickups/views.py:49 | `str.strip()`: removes the white space at both ends and only there |
| Text.RemoveAll | static/js/main.js:387 | `replace(/\s/g, '')`: no white space is left and every other character is kept |
| Text.ToLower | static/js/main.js:166-168 | `toLowerCase()`, character by character |
| Text.ToUpper | pickups/models.py:64 | `upper()`, character by character |
| Text.Join | pickups/views.py:118 | `', '.join`: empty for no parts, the part itself for one |
| Text.RemoveAllKeepsOthers | static/js/main.js:387 | removing white space keeps every other character as often as it occurred |
| Patterns.SamePhoneLanguage | static/js/main.js:386 | the client's and the server's spellings of the phone pattern accept the same strings |
| Patterns.OptionalPlusPhoneIsNigerianPhone | applications/serializers.py:38 | the server's pattern accepts exactly the Nigerian numbers |
| Patterns.AlternationPhoneIsNigerianPhone | static/js/main.js:386 | the client's pattern accepts exactly the Nigerian numbers |
| Patterns.PhoneLengths | applications/serializers.py:38 | an accepted number has 11, 13 or 14 characters |
| Patterns.PhoneHasNoSpace | applications/serializers.py:38 | an accepted number contains no space |
| Lists.FirstIndex | static/js/supervisor.js:178 | `find`: none exactly when no element matches, otherwise the first matching element |
| Lists.SortBySorted | static/js/supervisor.js:125 | `sort` with a comparator that is a total preorder leaves the list sorted |
| Lists.SortByPermutes | static/js/supervisor.js:125 | `sort` keeps every element as often as it occurred |
| Lists.FilterCount | static/js/supervisor.js:349 | `filter` keeps every passing element as often as it occurred and drops the others |
| Patterns.EmailMatchIsShape | static/js/main.js:391 | the e-mail pattern accepts exactly the strings with no white space, one `@` not first, and a `.` after it with text on both sides |
| ClientMain.ValidatePhone | static/js/main.js:385-388 | accepts exactly the inputs that are Nigerian numbers once every white-space character is removed |
| ClientMain.ClientPhoneMatchesServerPattern | static/js/main.js:385-388 | the client accepts exactly what the server's pattern accepts after white-space removal |
| ClientMain.ValidateEmail | static/js/main.js:390-393 | accepts exactly the e-mail shape above |
| ClientMain.RadioValidIffChecked | static/js/main.js:86-105 | a required radio passes exactly when a radio of its group is checked |
| ClientMain.RequiredCheckboxIgnoresChecked | static/js/main.js:106-114 | a required checkbox is judged by its value, not by `checked` |
| ClientMain.CheckGroup | static/js/main.js:90-104 | the group loop clears the step flag exactly when the group has inputs and none is checked |
| ClientMain.MultiStepForm.constructor | static/js/main.js:5-19 | the form starts on step 0 with the next button disabled exactly when step 0 fails |
| ClientMain.MultiStepForm.ValidateCurrentStep | static/js/main.js:77-122 | the step is valid exactly when every required control passes, each radio group counted once; the next button is disabled exactly when it fails |
| ClientMain.MultiStepForm.ShowStep | static/js/main.js:33-63 | shows the given step and re-validates it |
| ClientMain.MultiStepForm.NextStep | static/js/main.js:65-69 | advances exactly when the step passes and is not the last; the step stays within the form |
| ClientMain.MultiStepForm.PrevStep | static/js/main.js:71-75 | goes back exactly when past step 0 |
| ClientMain.MultiStepForm.Input | static/js/main.js:30 | an edit changes that one control and re-validates the step shown |
| ClientMain.OpenFiltersShowEverything | static/js/main.js:164-191 | with no search and the other filters empty or `all`, every card passes |
| ClientMain.MissingAvailabilityIsUnavailable | static/js/main.js:184-191 | a card without `data-available` counts as unavailable |
| ClientMain.SearchIgnoresCase | static/js/main.js:165-173 | the search ignores the letter case of the term |
| ClientMain.NoneVisible | static/js/main.js:204-205 | no visible cards exactly when no card is shown |
| ClientMain.PackageFilter.constructor | static/js/main.js:127-135 | the container holds the cards and no no-results message |
| ClientMain.PackageFilter.ApplyFilters | static/js/main.js:155-206 | each card is shown exactly when it passes the search, family-size and availability filters; the no-results message is present exactly when no card passes |
| ClientMain.PackageFilter.ToggleNoResults | static/js/main.js:208-225 | afterwards a message exists exactly when `show` holds, and there is never more than one |
| ClientMain.StatusClass | static/js/main.js:314-322 | `status-` and the status for the four known ones, `status-pending` otherwise |
| ClientMain.StatusText | static/js/main.js:324-332 | "Unknown Status" exactly for unknown statuses |
| ClientMain.StatusLabelsDistinguish | static/js/main.js:314-332 | two different known statuses differ in both class and text |
| ClientMain.UnknownStatusLooksPending | static/js/main.js:314-332 | an unknown status is styled as pending but labelled differently |
| ClientApplicationForm.ValidatePhoneNumber | static/js/application-form.js:105-114 | flags the input exactly when it is non-empty and, spaces removed, not a Nigerian number |
| ClientApplicationForm.FormAgreesWithSharedValidator | static/js/application-form.js:105-114 | the form's check and the shared validator accept the same non-empty inputs |
| ClientApplicationForm.SpacedNumberPassesFormNotServer | static/js/application-form.js:107 | a valid number with a space inserted passes the form and is refused by the server |
| ClientApplicationForm.LastEntryWins | static/js/application-form.js:120-126 | `formData` holds a key exactly when some entry has it, with the value of the last such entry |
| ClientApplicationForm.ApplicationFormHandler.constructor | static/js/application-form.js:3-7 | starts on step 1 of 5 with empty data |
| ClientApplicationForm.ApplicationFormHandler.UpdateFormData | static/js/application-form.js:116-126 | `formData` is rebuilt from scratch: checkboxes as their `checked` flag, other fields as their value |
| ClientApplicationForm.ApplicationFormHandler.NextStep | static/js/application-form.js:189-195 | advances exactly when valid and below step 5, and then rebuilds the data; the step stays in 1..5 |
| ClientApplicationForm.ApplicationFormHandler.PrevStep | static/js/application-form.js:197-202 | goes back exactly when above step 1 |
| ClientApplicationForm.Recommendation | static/js/application-form.js:276-285 | `parseInt(size) \|\| 1` up to 3 gives the small package, up to 6 the medium one, beyond that medium or several |
| ClientApplicationForm.RecommendationGrowsWithFamily | static/js/application-form.js:276-285 | a larger family never gets a smaller recommendation |
| ClientApplicationForm.UnreadableSizeIsOnePerson | static/js/application-form.js:276 | a size that is not a number, or 0, is read as one person |
| ClientApplicationForm.GetPackageName | static/js/application-form.js:170-178 | the label of the four known types, agreeing with the server's, the key itself otherwise |
| ClientApplicationForm.GetTimeSlotName | static/js/application-form.js:180-187 | the label of the three known slots, the key itself otherwise |
| ClientApplicationForm.SummaryDisagreesWithServer | static/js/application-form.js:170-187 | the form does not know `large_basic` and gives the afternoon and evening slots other hours than the server |
| ClientSupervisor.FilterApps | static/js/supervisor.js:119-122 | `all` keeps every application in order; any other filter keeps exactly the applications with that status |
| ClientSupervisor.ComparatorIsPreorder | static/js/supervisor.js:125-137 | every sort key orders consistently (total and transitive) |
| ClientSupervisor.ArrangedIsSortedSelection | static/js/supervisor.js:115-139 | the list shown is sorted by the current key and is a permutation of the filtered applications |
| ClientSupervisor.PriorityListsEmergenciesFirst | static/js/supervisor.js:131-133 | sorting by priority lists emergencies first, then the rest, each group in its original order |
| ClientSupervisor.UnknownSortKeepsOrder | static/js/supervisor.js:134-135 | an unknown sort key keeps the filtered order |
| ClientSupervisor.CardButtons | static/js/supervisor.js:154-158 | every card has a view button; approve and reject are rendered exactly for `pending` applications |
| ClientSupervisor.RenderedButtonsAreIgnored | static/js/supervisor.js:56-158 | the click handler as written reaches no rendered button |
| ClientSupervisor.Dispatch | static/js/supervisor.js:56-64 | the handler keyed on the classes the cards render acts only on `action-btn` elements |
| ClientSupervisor.RenderedButtonsDispatch | static/js/supervisor.js:56-158 | with that handler each rendered button reaches its own action |
| ClientSupervisor.CountersStepByOne | static/js/supervisor.js:488-508 | a numeric counter moves by one, the pending ones clamped at 0 |
| ClientSupervisor.NonNumericCounterIsZero | static/js/supervisor.js:492-505 | a counter whose text is not a number counts as 0 |
| ClientSupervisor.DashboardCounters.constructor | static/js/supervisor.js:490-503 | the three counters as found on the page |
| ClientSupervisor.DashboardCounters.Update | static/js/supervisor.js:488-508 | both pending counters go down by one, not below 0; the pickups counter goes up by one; missing elements stay missing |
| ClientSupervisor.ApplicationManager.constructor | static/js/supervisor.js:27-36 | filter `all`, sort `date`, and the three sample records `init()` loads |
| ClientSupervisor.ApplicationManager.LoadApplications | static/js/supervisor.js:67-100 | the list becomes the three sample records, whatever it held |
| ClientSupervisor.SampleListing | static/js/supervisor.js:67-136 | on the loaded dashboard, the pending list sorted by priority shows the emergency first, and the approved list holds one record |
| ClientSupervisor.ApplicationManager.SetFilter | static/js/supervisor.js:102-108 | the filter becomes the given one |
| ClientSupervisor.ApplicationManager.SetSortOrder | static/js/supervisor.js:110-113 | the sort key becomes the given one |
| ClientSupervisor.ApplicationManager.ApproveApplication | static/js/supervisor.js:176-186 | when confirmed, the first application with the id becomes `approved`, both pending counters step down and the pickups counter steps up; otherwise, or when the id is absent, nothing changes |
| ClientSupervisor.ApplicationManager.RejectApplication | static/js/supervisor.js:188-200 | only with a non-empty reason and a confirmation, the first application with the id becomes `rejected` with the reason and all three counters move as on approval; otherwise nothing changes |
| ClientSupervisor.HandleClick | static/js/supervisor.js:56-64 | the corrected listener (`Dispatch`, see Findings): an approve or reject click has the manager method's full effect on the list and on all three counters; any other click changes nothing |
| ClientSupervisor.ApprovalMovesBetweenLists | static/js/supervisor.js:118-121 | after a confirmed approval, the `pending` list loses that application, the `approved` list gains it, every other status list is unchanged, and no id changes |
| ClientSupervisor.StatusChangeMovesEntry | static/js/supervisor.js:118-121 | a status change alters a status list by that one entry: it leaves its old status's list and joins its new one |
| ClientSupervisor.StockLevelOf | static/js/supervisor.js:279-292 | out of stock exactly at 0; low stock when positive and within the threshold; in stock above it; exactly one applies |
| ClientSupervisor.StockLevelMonotone | static/js/supervisor.js:284-292 | more stock never shows a worse level |
| ClientSupervisor.PackageManager.constructor | static/js/supervisor.js:212-221 | the list holds the three sample records `init()` loads |
| ClientSupervisor.PackageManager.LoadPackages | static/js/supervisor.js:238-267 | the list becomes the three sample records, whatever it held |
| ClientSupervisor.SampleStockLevels | static/js/supervisor.js:238-292 | the loaded cards show in stock (25 over 10), low stock (5 within 10) and out of stock (0) |
| ClientSupervisor.PackageManager.DeletePackage | static/js/supervisor.js:347-353 | when confirmed, every package with the id is removed and the others keep their order; otherwise nothing changes |
| ClientSupervisor.DeleteKeepsOthers | static/js/supervisor.js:349 | deletion keeps every other package as often as it was listed |

## Left out

- HTTP, DRF routing and permission classes. An endpoint restricted to
  authenticated users is modelled with `requires user.Member?`, except
  `restock_package`, whose guard answers an anonymous request with the
  permission class's 403 (`PackageViews.RestockGuard`; 403 is what DRF's
  default session authentication gives, and other authentication classes
  may answer 401). Response
  envelopes are reduced to the status code, the message and the fields the
  model tracks.
- DRF field conversion and validation outside the three custom validators
  (required fields, choices, lengths, dates). A submission reaches the model
  already typed.
- `recent_scans` and `pickup_status` (pickups/views.py:294-347). Both are
  read-only listings with no rule beyond the queue's. `confirm_pickup` and
  `today_pickup_queue` are modelled, although no URL in pickups/urls.py routes
  to them.
- The list and detail views (`ApplicationListView`, `PickupListView`,
  `PackageListView` and the others): ORM querysets with no rule beyond the
  serializer's. `PackageManagementView` and `PackageDetailView`
  (packages/views.py:15-38) create and update packages through
  `PackageSerializer`, which writes `total_quantity` and `available_quantity`
  independently. They are not modelled as operations, but because of them no
  modelled view assumes `available_quantity <= total_quantity`. The Django
  admin can likewise edit an application's status, so no view assumes that a
  pickup's application is approved.
- QR image rendering (qrcode, PNG, file storage). The stored QR image is
  modelled by the payload it encodes.
- The calendar. Dates are day numbers, and `str(date)`, `strftime` and
  `isoformat` are not modelled. The link between a day number and the
  year/month printed in a reference number is not modelled either.
- Floating point. `int()` of a JSON float truncates in the restock view, but
  JSON numbers reach the model as integers.
- `Numerals.FormatAmount` states only the shape of the cash entry (two decimals
  after a point); it does not restate the thousands grouping.
- The float-based currency template filter.
- Python's `\d` also matches non-ASCII digits. The model uses ASCII digits.
  The `$` before a final newline is modelled
  (`Patterns.PyMatchesOptionalPlusPhone`).
- `PackageViews.RestockGuard` and `PackageViews.RestockPackage`: the source
  reads the quantity after the package lookup. The model reads it first and
  branches in the same order, so a lookup failure still answers 404 whatever
  the quantity (`PackageViews.GuardOrder`).
- `PackageViews.RestockPackage`, `PackageViews.AddStock` and
  `PackageModels.Restocked` add without bound. The two quantities are
  `PositiveIntegerField` columns, whose upper bound depends on the database
  backend; a sum beyond it makes `save()` raise and the view answer 500, which
  the model does not produce.
- `Numerals.JsIntRoundTrip`, `ClientSupervisor.CountersStepByOne` and
  `ClientSupervisor.DashboardCounters.Update` use unbounded integers.
  JavaScript numbers are doubles: above 2^53 arithmetic loses precision, and
  from 10^21 `String` writes exponent form, which `parseInt` does not read
  back. These members hold only below those bounds in the browser.
- Database transactions and concurrency. Requests are sequential.
- JavaScript objects used as lookup tables are modelled as maps, so keys
  inherited from `Object.prototype` (such as `constructor`) are not modelled.
- `ClientSupervisor.Comparator`: `localeCompare` is approximated by
  code-unit order, and `new Date(...)` by a day number (no invalid dates).
  `Array.prototype.sort` is modelled as a stable insertion sort, which is
  what the specification of the language requires.
- `Text.ToLower` and `Text.ToUpper` fold ASCII letters only.
- `ClientMain.MultiStepForm.constructor`: a form without steps makes the
  script throw. The model requires at least one step.
- The browser's `checkValidity()` is an input (`stepValid`) to
  `ApplicationFormHandler.NextStep`. Radio auto-unchecking is not modelled
  either: a step is a list of controls as the page presents them.
- DOM rendering: the `is-invalid` classes, step indicators, the summary HTML,
  notifications, charts, `setTimeout` debouncing, and the fetch/CSRF
  submission and loading code.
- `updateStock`, `editPackage`, `viewApplication`, the `QRScanner`,
  `confirmPickup` and `quickApproveNext` in supervisor.js: prompts, alerts
  or simulations with no rule beyond those modelled.
- The package item and package list serializers, which only list fields.
- `Package.allocate` is not called by any modelled view. It is modelled as a
  model method with its stock lemmas.

## Findings

| source | as written | input that shows it | evidently intended | confidence | as-written member | corrected member |
|---|---|---|---|---|---|---|
| static/js/supervisor.js:56-64 | the click listener looks for the classes `approve-btn`, `reject-btn` and `view-btn`, but the cards (lines 154-158) render their buttons with `action-btn approve`, `action-btn reject` and `action-btn view` | a click on the Approve button of a pending card: its classes are `{action-btn, approve}`, and none of the three branches fires | each rendered button triggers its own approve, reject or view handler | not executed | ClientSupervisor.RenderedButtonsAreIgnored | ClientSupervisor.RenderedButtonsDispatch |
