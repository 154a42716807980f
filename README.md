# Richoz Sanitaire: a verified model of the field-service workflow

Richoz Sanitaire is the back office of a plumbing company. Jobs are called
*interventions*, and the property managers who order them are *régies*. A
job comes in by e-mail or from Google Calendar and is planned for a
technician. The technician files a report from the field. An administrator
validates the report, which raises an invoice. The app is a Next.js front
end over a Supabase (Postgres) backend, and n8n workflows call four bearer-
protected webhooks.

This project models the core of that system in Dafny and proves what it
promises:

- **The four webhooks** (`CalendarSync`, `EmailIngestion`, `ReportSubmit`,
  `InvoiceValidate`) are methods on a `Backend.Store`. The store is a class
  holding one map per table (interventions, reports, inbox e-mails, régies,
  users, invoices) and a fresh-id counter. Each method returns the HTTP
  answer as a datatype and states which rows changed and which did not.
  Which database writes fail on a run is a parameter (`fails: set<Write>`),
  so every error path is modelled. Money is in integer cents. The 7.7 % VAT
  is rounded half up to the cent, as `Math.round` does.
- **The forms:** the report form (photos, checklist, materials, the report
  row, and the upload-before-write submit sequence over a
  `Storage.Bucket`), the intervention form, the régie dialog and the user
  dialog. The régie dialog and the user dialog are classes whose methods
  update the component's state. The report form and the intervention form
  have no class: their state is a datatype, their rules are functions
  over it, and their save sequences are methods over the store (and, for
  the report form, the bucket).
- **Access routing:** the session middleware's redirect table, the role
  guard, the home-page redirect, the `useUser` hook's states and flags, and
  the header, sidebar and phone navigation.
- **Smaller UI rules:** calendar block geometry, the photo cap, the voice
  recorder's formats, clock and state flags, the invoice filter URL and
  optimistic status select, the notification bell's merge, sort and top
  five, the realtime list merge, and the régie search and statistics.
- **Shared modules:**
  - `Wrappers`: `Option`.
  - `Strings`: JavaScript string operations such as `trim`, `startsWith`,
    `includes`, `split`/`join` and case mapping, with their laws. Case
    mapping covers the ASCII letters only; other letters are left as they
    are (see "Left out").
  - `Database`: row types and enumerations.
  - `Constants`: the label and route tables.
  - `Webhook`: the bearer check and the request-body outcomes.

There is one module per source file, named after it. Every file is given to
Dafny together.

## Model

| member | source | states |
|---|---|---|
| Database.ParseRole | src/types/database.ts:15 | a role name parses back to the role that prints as it; nothing parses iff no role has that name |
| Database.ParseInvoiceStatus | src/types/database.ts:17 | an invoice status name parses back to that status; nothing parses iff no status has that name |
| Database.ParseInterventionStatus | src/types/database.ts:16 | an intervention status name parses back to that status; nothing parses iff no status has that name |
| Database.ParseReportStatus | src/types/database.ts:19 | a report status name parses back to that status; nothing parses iff no status has that name |
| Database.EnumerationsAreExhaustive | src/types/database.ts:15-19 | there are exactly seven intervention statuses, four report statuses, three invoice statuses, five quote statuses and three roles, each list holding every value once |
| Constants.StatusLabelsDistinct | src/lib/constants.ts:17-38 | the intervention, report and invoice label tables are total and give distinct labels to distinct statuses |
| Constants.RouteTables | src/lib/constants.ts:52-72 | 7 office routes, 3 admin-only routes and 3 technician routes; `/interventions` is in both the office and technician lists; `/technician/today` is not an office route |
| Constants.PriorityValues | src/lib/constants.ts:90-94 | the priority levels are exactly 0, 1 and 2, in that order |
| Constants.BusinessDays | src/lib/constants.ts:106-117 | business days are Monday to Friday and the week starts on Monday |
| Webhook.ExpectedHeader | src/app/api/webhooks/email-ingestion/route.ts:38-39 | the expected header is `Bearer ` followed by exactly the secret |
| Webhook.AuthorizedExactly | src/app/api/webhooks/email-ingestion/route.ts:41-46 | a request is accepted iff its Authorization header is exactly `Bearer <secret>`; a missing header never is |
| Backend.SingleMatch | src/app/api/webhooks/email-ingestion/route.ts:55-59 | `.single()` yields a row iff exactly one row matches, and then that row |
| Backend.UniqueReportsFor | src/app/api/webhooks/report-submit/route.ts:83-88 | while no intervention has two reports, the lookup of an intervention's report finds at most one |
| Backend.Store.RegiesWithKeyword | src/app/api/webhooks/email-ingestion/route.ts:75-79 | the regies selected are exactly those whose keyword equals the pattern up to ASCII case |
| Backend.Store.EmailsWithMessageId | src/app/api/webhooks/email-ingestion/route.ts:55-59 | the inbox rows selected are exactly those with that Gmail message id |
| Backend.Store.TechniciansWithEmail | src/app/api/webhooks/calendar-sync/route.ts:81-86 | the users selected are exactly those with that e-mail and role technician |
| Backend.Store.InterventionsWithEvent | src/app/api/webhooks/calendar-sync/route.ts:49-54 | the interventions selected are exactly those linked to that calendar event |
| Backend.Store.FreshId | src/app/api/webhooks/email-ingestion/route.ts:88-105 | an insert's id is new to every table, the tables are unchanged and the store invariant holds |
| Backend.Store.PutReport | src/app/api/webhooks/report-submit/route.ts:97-136 | writing one report row changes only that entry of the reports table and keeps the store invariant |
| Backend.Store.PutInvoice | src/app/api/webhooks/invoice-validate/route.ts:117-130 | writing one invoice row changes only that entry of the invoices table and keeps the store invariant |
| Backend.Store.PutIntervention | src/app/api/webhooks/invoice-validate/route.ts:136-140 | rewriting an intervention without touching its calendar event changes only that entry and keeps the store invariant |
| Backend.Store.PutRegie | src/components/admin/CreateRegieModal.tsx:56-90 | writing one regie row changes only that entry of the regies table and keeps the store invariant |
| CalendarSync.FirstTag | src/app/api/webhooks/calendar-sync/route.ts:172-175 | the leftmost position at or after the start where `[`, one or more ASCII capitals and `]` follow; none only when no position matches |
| CalendarSync.ExtractKeyword | src/app/api/webhooks/calendar-sync/route.ts:172-175 | no keyword exactly when the title has no `[CAPITALS]` tag anywhere; otherwise the capitals of the leftmost tag, a non-empty run of ASCII capitals |
| CalendarSync.CleanTitle | src/app/api/webhooks/calendar-sync/route.ts:180-182 | the cleaned title is never longer than the title (what it is, `FirstTagOfTitle` and `UntaggedTitle` state) |
| CalendarSync.TaggedTitle | src/app/api/webhooks/calendar-sync/route.ts:169-182 | for a title `pre + "[" + kw + "]" + rest` where `pre` holds no tag (it may hold other `[`): the keyword is `kw`, and the clean title is `pre` plus `rest` without its leading white space, trimmed (later tags stay) |
| CalendarSync.FirstTagOfTitle | src/app/api/webhooks/calendar-sync/route.ts:169-182 | for any title whose leftmost tag is at `i`: the keyword is that tag's capitals, and the clean title is the text before the tag plus the text after it without its leading white space, trimmed |
| CalendarSync.UntaggedTitle | src/app/api/webhooks/calendar-sync/route.ts:169-182 | a title without a tag has no keyword, and cleaning it only trims it |
| CalendarSync.KeywordToSearch | src/app/api/webhooks/calendar-sync/route.ts:96 | a non-empty explicit `regie_keyword` wins over the title's tag; otherwise the tag's keyword; the result is never empty |
| CalendarSync.FindTechEmail | src/app/api/webhooks/calendar-sync/route.ts:72-77 | none exactly when no attendee address contains one of the three company domains; otherwise the address of the first attendee that does |
| CalendarSync.TechnicianFor | src/app/api/webhooks/calendar-sync/route.ts:69-91 | no technician without attendees or without a company address among them; otherwise one is assigned exactly when exactly one technician user has the first company address, and it is that user |
| CalendarSync.RegieFor | src/app/api/webhooks/calendar-sync/route.ts:95-109 | no regie without a keyword; otherwise one is matched exactly when exactly one regie has that keyword up to ASCII case, and it is that regie |
| CalendarSync.DurationMinutes | src/app/api/webhooks/calendar-sync/route.ts:112-114 | the duration is the whole number of minutes nearest to end minus start, halves rounded up; it may be zero or negative |
| CalendarSync.DurationExamples | src/app/api/webhooks/calendar-sync/route.ts:112-114 | a one-hour event lasts 60 minutes, 89.999 s gives 1 and 90 s gives 2, and an event ending a minute before it starts lasts -1 |
| CalendarSync.FromEvent | src/app/api/webhooks/calendar-sync/route.ts:118-132 | the upserted row has the event id, status `planifie`, source `calendar`, the cleaned title, the description or null, the location or `''` as address, the start as planned date, the rounded event length as estimated duration and the resolved technician and regie; every other column is the one the row had |
| CalendarSync.CancelEvent | src/app/api/webhooks/calendar-sync/route.ts:49-54 | same keys; exactly the interventions carrying the event id get status `annule`, every other row is unchanged |
| CalendarSync.CancelByEvent | src/app/api/webhooks/calendar-sync/route.ts:48-66 | a deleted event cancels its interventions and answers `cancelled` with the event id; a failing update answers 500 and changes nothing; the store invariant is kept |
| CalendarSync.ResolveTechnician | src/app/api/webhooks/calendar-sync/route.ts:68-92 | the lookup returns `TechnicianFor`; an id found is the only technician with the first company address |
| CalendarSync.ResolveRegie | src/app/api/webhooks/calendar-sync/route.ts:94-109 | the lookup returns `RegieFor`; an id found is the only regie matching the keyword |
| CalendarSync.WriteEventRow | src/app/api/webhooks/calendar-sync/route.ts:116-143 | the upsert rewrites the event's existing row or, only when the event has no row, adds one under a fresh id; afterwards the event still has at most that one row and no other table changes |
| CalendarSync.UpsertEvent | src/app/api/webhooks/calendar-sync/route.ts:94-151 | a created or updated event is written through `FromEvent` with the resolved technician and regie; `technician_assigned` and `regie_matched` are true iff each was found; a failing upsert answers 500 and changes nothing |
| CalendarSync.Post | src/app/api/webhooks/calendar-sync/route.ts:30-167 | a wrong bearer header gives 401, an unparsable body 500, a schema failure 400, all without writes; deleted events are cancelled and other events upserted as above; only the interventions table can change |
| CalendarSync.CancelKeepsEventIds | src/app/api/webhooks/calendar-sync/route.ts:49-54 | cancelling keeps calendar-event ids unique across interventions |
| Backend.Store.PutEventRow | src/app/api/webhooks/calendar-sync/route.ts:118-136 | writing the event's row, when no other row has that event id, changes only that entry of the interventions table and keeps calendar-event ids unique (the upsert's conflict key) |
| EmailIngestion.ConfidenceOrNull | src/app/api/webhooks/email-ingestion/route.ts:100 | an absent confidence and a confidence of exactly 0 are both stored as null; any other value is stored as given |
| EmailIngestion.InboxRow | src/app/api/webhooks/email-ingestion/route.ts:88-103 | the inbox row copies message id, reception date and sender, has status `new` and the regie found; sender name, subject, text body, HTML body, work order number and confidence are null iff absent or empty (zero for the confidence) and otherwise stored as sent; extracted data defaults to the empty object |
| EmailIngestion.KeywordRegie | src/app/api/webhooks/email-ingestion/route.ts:72-85 | no regie without a non-empty keyword; otherwise a regie iff exactly one regie's keyword matches case-insensitively, and it is that one |
| EmailIngestion.Post | src/app/api/webhooks/email-ingestion/route.ts:35-135 | wrong bearer header 401, unparsable body 500, schema failure or confidence outside [0,1] 400, all without writes; a message id on exactly one row answers duplicate with that row's id and inserts nothing; otherwise one new inbox row under a fresh id, the response echoing the regie and `regie_matched` iff one was found; a failed insert 500; only the inbox table can change |
| EmailIngestion.SecondDeliveryIsDuplicate | src/app/api/webhooks/email-ingestion/route.ts:54-70 | after a message is ingested once, its id is on exactly the new row, so the next delivery is answered as a duplicate |
| InvoiceValidate.VatRateIsDefault | src/app/api/webhooks/invoice-validate/route.ts:112 | the 7.7 % the handler hard-codes is the default VAT rate of the constants |
| InvoiceValidate.SubtotalAppend | src/app/api/webhooks/invoice-validate/route.ts:110 | the subtotal of two item lists together is the sum of their subtotals |
| InvoiceValidate.SubtotalIgnoresQuantityAndPrice | src/app/api/webhooks/invoice-validate/route.ts:110 | the subtotal depends only on the items' `total` fields, not on quantity or unit price |
| InvoiceValidate.Vat | src/app/api/webhooks/invoice-validate/route.ts:112 | the VAT in cents is the taxable amount times 7.7 %, rounded to the nearest cent with halves up |
| InvoiceValidate.VatBounds | src/app/api/webhooks/invoice-validate/route.ts:112 | on a non-negative taxable amount the VAT is between 0 and the amount |
| InvoiceValidate.VatMonotone | src/app/api/webhooks/invoice-validate/route.ts:112 | a larger taxable amount never gets a smaller VAT |
| InvoiceValidate.ComputeTotals | src/app/api/webhooks/invoice-validate/route.ts:109-115 | subtotal is the sum of the items' totals, discount defaults to 0, taxable = subtotal − discount, VAT = taxable × 7.7 % rounded to the cent, total = taxable + VAT |
| InvoiceValidate.ExampleTotals | src/app/api/webhooks/invoice-validate/route.ts:109-115 | items of 100.00 and 50.00 without discount give VAT 11.55 and total 161.55 |
| InvoiceValidate.Post | src/app/api/webhooks/invoice-validate/route.ts:29-175 | wrong bearer 401, unparsable body 500, schema failure 400, unknown report 404, all without writes; reject stamps status `rejected`, date and validator, echoes the reason without storing it and touches nothing else; validate stamps `validated` whatever the prior status; a non-billable report or absent/empty items create no invoice (reasons `non_billable` / `no_line_items`); otherwise one invoice with `ComputeTotals` and status `pending_validation` is inserted and the intervention set to `billed`, a failure of that last update being ignored |
| InvoiceValidate.PendingValidationIsNotAnInvoiceStatus | src/app/api/webhooks/invoice-validate/route.ts:128 | the status the handler writes, `pending_validation`, is not one of the three invoice statuses |
| ReportSubmit.Billable | src/app/api/webhooks/report-submit/route.ts:28 | `is_billable` defaults to true when absent, otherwise it is the value sent |
| ReportSubmit.DurationOrNull | src/app/api/webhooks/report-submit/route.ts:105 | an absent work duration and a duration of 0 are both stored as null; any other value as given |
| ReportSubmit.Resubmitted | src/app/api/webhooks/report-submit/route.ts:95-108 | an existing report keeps its intervention, technician, supplies, signature and validation stamps; it gets status `submitted` and the billable flag; text, voice URL, transcription, billable reason and duration are null iff absent or empty (zero for the duration) and otherwise stored as sent; photos, checklist and materials are stored as sent, or empty when absent |
| ReportSubmit.NewReport | src/app/api/webhooks/report-submit/route.ts:117-132 | a new report references the payload's intervention and technician, has status `submitted`, the billable flag and no validation stamps |
| ReportSubmit.InsertAndUpdateAgree | src/app/api/webhooks/report-submit/route.ts:93-138 | updating a report that has no supplies, signature or validation yet gives the same row as inserting it afresh: both paths write the same columns |
| ReportSubmit.Post | src/app/api/webhooks/report-submit/route.ts:47-174 | wrong bearer 401, unparsable body 500, schema failure 400, unknown intervention 404, all without writes; a single existing report of the intervention is updated in place under its id, otherwise one report is inserted under a fresh id; a failing report write 500 without writes; on success the answer carries the billable flag and `termine`, and the intervention is `termine` with its completion date unless that update failed, which is only logged; one report per intervention is preserved |
| ReportSubmit.NewReportIsAlone | src/app/api/webhooks/report-submit/route.ts:115-132 | inserting a report for an intervention without one keeps at most one report per intervention |
| Storage.ObjectUrl | src/components/reports/ReportForm.tsx:216-218 | every public URL of the bucket starts with `photos/` |
| Storage.ObjectUrlInjective | src/components/reports/ReportForm.tsx:205-218 | different objects get different public URLs (each upload has its own file name) |
| Storage.Bucket.constructor | src/components/reports/ReportForm.tsx:207-209 | the bucket starts empty |
| Storage.Bucket.Put | src/components/reports/ReportForm.tsx:207-218 | a failing upload stores nothing and gives no URL; otherwise the object is appended and its public URL returned |
| ReportForm.AllAsFormPhotos | src/components/reports/ReportForm.tsx:65-79 | one form photo per stored photo |
| ReportForm.OnSide | src/components/reports/ReportForm.tsx:70-80 | the photos of one side are a selection of the stored photos |
| ReportForm.ParseExistingPhotos | src/components/reports/ReportForm.tsx:64-87 | the loop's before list is the `before` photos followed by the uncategorised ones (strings included), and the after list the `after` photos, each in stored order; with no report both are empty |
| ReportForm.SidesPartitionPhotos | src/components/reports/ReportForm.tsx:70-80 | every stored photo lands on exactly one of the three sides: together they are the photos, as a multiset and in number |
| ReportForm.UncategorisedAreBefore | src/components/reports/ReportForm.tsx:82-86 | with no categorised photo, all photos are uncategorised, so the before list is all the photos and the after list is empty (the special case gives the same lists as the general one) |
| ReportForm.ToggleChecklistItem | src/components/reports/ReportForm.tsx:120-126 | same length and labels; only item `index` changes, and its `done` flag is flipped |
| ReportForm.ToggleTwice | src/components/reports/ReportForm.tsx:120-126 | toggling the same item twice gives the original checklist back |
| ReportForm.CompletedCount | src/components/reports/ReportForm.tsx:188-189 | the completed count never exceeds the checklist length |
| ReportForm.ToggleMovesProgressByOne | src/components/reports/ReportForm.tsx:120-126 | toggling an item moves the completed count by exactly one, down if it was done and up otherwise |
| ReportForm.FindProduct | src/components/reports/ReportForm.tsx:152 | none iff no product has the id; otherwise the first product with that id |
| ReportForm.AddMaterial | src/components/reports/ReportForm.tsx:151-165 | an unknown product id changes nothing; otherwise one line is appended with the product id, quantity 1 and the product's price, and the earlier lines are kept |
| ReportForm.RemoveMaterial | src/components/reports/ReportForm.tsx:168-170 | exactly the line at `index` is removed and the others keep their order; an index outside the list changes nothing |
| ReportForm.UpdateMaterialQuantity | src/components/reports/ReportForm.tsx:173-179 | only line `index` changes, only its quantity, which becomes the given one clamped to at least 1 |
| ReportForm.TotalCostAppend | src/components/reports/ReportForm.tsx:182-185 | the total cost of two lists together is the sum of their totals |
| ReportForm.AddMaterialCost | src/components/reports/ReportForm.tsx:151-185 | adding a product raises the total cost by its price; an unknown product leaves it unchanged |
| ReportForm.RemoveMaterialCost | src/components/reports/ReportForm.tsx:168-185 | removing a line takes exactly that line's quantity × price off the total |
| ReportForm.InitialState | src/components/reports/ReportForm.tsx:89-114 | a new report opens empty, with the default checklist, billable and 60 minutes; an existing one with its text fields (or `''`), its checklist, flag, materials and non-empty signature, the before-tagged and untagged photos on the before side and the after-tagged ones on the after side, and its duration, 60 when absent or zero |
| ReportForm.BuildReportData | src/components/reports/ReportForm.tsx:257-272 | the row carries the intervention, technician, status and billable flag; `billable_reason` is set iff not billable; text, voice URL, transcription and supplies are null iff empty and otherwise as typed; one photo entry per uploaded photo with its URL and category and no caption; checklist, materials, duration and signature as given |
| ReportForm.OpenThenSaveKeepsContent | src/components/reports/ReportForm.tsx:257-272 | opening a stored report and saving it untouched writes back its text fields (empty ones as null), checklist, materials and flag; a non-zero duration is kept |
| ReportForm.LocalCount | src/components/reports/ReportForm.tsx:325-328 | the number of photos to upload never exceeds the number of photos |
| ReportForm.LocalFiles | src/components/reports/ReportForm.tsx:325-328 | one file per photo to upload |
| ReportForm.UploadedAs | src/components/reports/ReportForm.tsx:195-227 | one entry per input photo, each tagged with the category; a photo that needs no upload keeps its URL |
| ReportForm.UploadedUrlBelow | src/components/reports/ReportForm.tsx:204-220 | each uploaded photo gets the URL of one of the objects this batch stored |
| ReportForm.UploadedUrlsDistinct | src/components/reports/ReportForm.tsx:204-220 | two uploaded photos of one batch never get the same URL |
| ReportForm.UploadOne | src/components/reports/ReportForm.tsx:202-223 | photo `i` fails only when it is local and its upload fails, with nothing stored; otherwise its entry extends `UploadedAs` of the photos before it by one and the bucket gains its file, if it has one |
| ReportForm.UploadPhotos | src/components/reports/ReportForm.tsx:195-227 | the loop succeeds iff none of its uploads fails; then it returns `UploadedAs` of the photos and the bucket gained exactly their files, in order |
| ReportForm.SignatureColumn | src/components/reports/ReportForm.tsx:343-351 | no signature or an empty one is null; a `data:` URL is replaced by the uploaded object's URL; any other value is kept |
| ReportForm.StoreSignature | src/components/reports/ReportForm.tsx:229-254 | only a `data:` signature is uploaded; the step fails only when that upload fails; otherwise the column is `SignatureColumn` of the signature |
| ReportForm.UploadSides | src/components/reports/ReportForm.tsx:334-336 | the photo uploads succeed iff none of the before and after uploads fails; then the photos are the before list's followed by the after list's, numbered on from the before list, and the bucket gained exactly their files |
| ReportForm.UploadAll | src/components/reports/ReportForm.tsx:334-351 | the uploads succeed iff none of the before, after and signature uploads fails; then the photos are the before list's then the after list's, and the signature URL is the one after them |
| ReportForm.WrittenOver | src/components/reports/ReportForm.tsx:291-297 | an update writes the new columns over the row with that id and keeps its validation stamps and every other row; no row with that id, no change |
| ReportForm.WriteReport | src/components/reports/ReportForm.tsx:291-302 | an existing report is updated in place, otherwise one row is inserted under a fresh id; a failing write changes nothing; no other table changes |
| ReportForm.SaveReport | src/components/reports/ReportForm.tsx:334-369 | every upload happens before the row write, and a failing upload means no row is written; the row written is `BuildReportData` of the uploaded photos and signature |
| ReportForm.HandleSaveDraft | src/components/reports/ReportForm.tsx:275-311 | a draft save is never refused; a failed upload or write leaves the tables as they were; a saved draft is the row `BuildReportData` gives for the uploaded photos and signature with status `draft`, written over the edited report or inserted under a fresh id, other reports kept; interventions, e-mails, regies, users and invoices are untouched |
| ReportForm.HandleSubmit | src/components/reports/ReportForm.tsx:314-390 | refused, with nothing uploaded or written, iff both text and transcription are empty; an upload failure writes nothing; a saved report is the row `BuildReportData` gives with status `submitted`, written over the edited report or inserted, other reports kept; the intervention becomes `termine` with its completion date unless that update fails, which only warns; e-mails, regies, users and invoices are untouched |
| InterventionForm.InitialDate | src/components/interventions/InterventionForm.tsx:72-77 | the date field is empty without a planned date and never contains a `T` |
| InterventionForm.InitialTime | src/components/interventions/InterventionForm.tsx:79-87 | the time field is empty without a planned date and at most five characters long |
| InterventionForm.LocalDateTime | src/components/interventions/InterventionForm.tsx:156-158 | the combined value begins with the date and a `T` |
| InterventionForm.PlannedDateTime | src/components/interventions/InterventionForm.tsx:154-160 | the planned date-time is null exactly when the date field is empty |
| InterventionForm.DateAndTimeFields | src/components/interventions/InterventionForm.tsx:72-87 | a `date T time` value opens as the whole date and the time's first five characters |
| InterventionForm.IndexOfAfter | src/components/interventions/InterventionForm.tsx:74 | the first `T` of `date + "T" + time` is the separator when the date has none |
| InterventionForm.NoCharFirstPart | src/components/interventions/InterventionForm.tsx:74 | splitting a text without `T` at `T` leaves it whole |
| InterventionForm.DateTimeRoundTrip | src/components/interventions/InterventionForm.tsx:72-87 | saving a date and an `HH:MM` time and reopening gives back both fields |
| InterventionForm.InitialFormData | src/components/interventions/InterventionForm.tsx:89-103 | a new form is planned, 60 minutes, priority 0, empty; an edited one takes the intervention's status and priority; the duration is never 0 |
| InterventionForm.ClientInfoOf | src/components/interventions/InterventionForm.tsx:162-165 | client info is null exactly when name and phone are both empty, and otherwise holds only the non-empty ones |
| InterventionForm.Payload | src/components/interventions/InterventionForm.tsx:167-179 | empty description, work-order number and date are written as null; client info is null exactly when both client fields are empty |
| InterventionForm.OpenThenSaveKeepsFields | src/components/interventions/InterventionForm.tsx:89-179 | opening an intervention and saving it unchanged writes back its title, address, status, priority, technician and regie |
| InterventionForm.Updated | src/components/interventions/InterventionForm.tsx:181-187 | an update replaces the written columns and keeps source type, calendar event, source e-mail, completion date and notes |
| InterventionForm.Inserted | src/components/interventions/InterventionForm.tsx:196-201 | an insert is marked `manual` with no calendar event and no source e-mail |
| InterventionForm.UpdateAndInsertAgree | src/components/interventions/InterventionForm.tsx:181-201 | on a manual row with no other columns set, update and insert give the same row |
| InterventionForm.Submit | src/components/interventions/InterventionForm.tsx:148-218 | success iff the write does not fail; an edit replaces the edited row, a creation adds one under a fresh id; a failure changes nothing; other tables untouched |
| InterventionForm.Cancel | src/components/interventions/InterventionForm.tsx:220-252 | only the edited row's status becomes `annule`, all other rows and columns kept; without an edited intervention nothing happens |
| InterventionForm.TechnicianDisplayName | src/components/interventions/InterventionForm.tsx:254-261 | "first last" when both names are set, else the one that is, else the e-mail |
| Middleware.UpdateSession | src/lib/supabase/middleware.ts:65-96 | webhooks always pass; a protected path without a user, and only that, redirects to `/login` carrying the path; an auth route with a user, and only that, redirects to `/calendar`; everything else passes |
| Middleware.AuthRoutesAreNotProtected | src/lib/supabase/middleware.ts:66-76 | no login-flow path is a protected path, so the two redirects never compete |
| Middleware.RedirectsSettle | src/lib/supabase/middleware.ts:84-96 | `/login` without a session and `/calendar` with one pass through: neither redirect leads to another |
| Middleware.RawPrefixTest | src/lib/supabase/middleware.ts:68-76 | the test is a raw prefix test: `/adminx` is protected and redirects to login without a session |
| UseUser.Flags | src/hooks/useUser.ts:92-94 | each flag holds exactly for its role(s) |
| UseUser.FlagsConsistent | src/hooks/useUser.ts:84-94 | admin implies admin-or-secretary; technician and admin-or-secretary exclude each other; no role means no flag |
| UseUser.UserState.constructor | src/hooks/useUser.ts:21-24 | the hook starts with no user, no session user, no error, loading |
| UseUser.UserState.Role | src/hooks/useUser.ts:84 | the role is null exactly when there is no profile, and otherwise the profile's role |
| UseUser.UserState.FetchUser | src/hooks/useUser.ts:28-62 | no session clears both users without error; an auth or profile failure sets the error and clears the profile; otherwise the profile is the session user's row; loading ends |
| UseUser.UserState.OnAuthStateChange | src/hooks/useUser.ts:68-77 | sign-in and token refresh fetch again; sign-out clears both users; any other event changes nothing |
| RoleGuard.Render | src/components/layout/RoleGuard.tsx:32-49 | the loading indicator exactly while loading; the content exactly for a loaded user whose role is allowed; nothing otherwise |
| RoleGuard.Redirect | src/components/layout/RoleGuard.tsx:18-30 | a redirect exactly for a loaded user whose role is not allowed, to the fallback path or `/technician/today` by default |
| RoleGuard.GuardSettles | src/components/layout/RoleGuard.tsx:26-49 | once loaded, a user either sees the content or is redirected, never both; a redirected user sees nothing; without a user nothing is shown and nobody is redirected |
| RoleGuard.LoadingHidesAndWaits | src/components/layout/RoleGuard.tsx:26-42 | while loading, the indicator is shown and no redirect happens |
| HomePage.HomeRedirect | src/app/page.tsx:4-26 | `/login` exactly without a session, `/technician/today` exactly for a technician's readable profile, `/calendar` otherwise |
| HomePage.HomeRedirectSettles | src/app/page.tsx:8-25 | the middleware lets the home page's target through: no second redirect follows |
| Header.ExactIndex | src/components/layout/Header.tsx:35 | finds an entry whose path is the page's path, and finds none exactly when no entry has it |
| Header.FirstParentIndex | src/components/layout/Header.tsx:36-38 | finds the first entry, in table order, that the page lies below, and none exactly when the page lies below no entry |
| Header.TitleIn | src/components/layout/Header.tsx:34-40 | the exact entry's title when there is one, else the title of the first entry the page lies below, else `Tableau de bord` |
| Header.DefaultMeansNoMatch | src/components/layout/Header.tsx:11-40 | with the page-title table, the title is `Tableau de bord` exactly when the page matches no entry, exactly or below |
| Header.FindTitle | src/components/layout/Header.tsx:34-40 | the lookup and the walk over a table return the title `TitleIn` specifies |
| Header.PageTitle | src/components/layout/Header.tsx:34-40 | `getPageTitle` returns the title the page-title table gives by `TitleIn` |
| Header.FirstParentIsFirst | src/components/layout/Header.tsx:36-38 | an entry the page lies below, with none before it, is the one the walk stops at |
| Header.ValidationChildTitle | src/components/layout/Header.tsx:15-16 | a page below `/reports/validate/` is titled `Rapports`, because the walk meets `/reports` first |
| Header.Initials | src/components/layout/Header.tsx:79 | the avatar has one letter per non-empty name: the first letter of the first name, then of the last name |
| Header.RoleBadgesDistinct | src/components/layout/Header.tsx:42 | different roles get different badge labels |
| Sidebar.IconFor | src/components/layout/Sidebar.tsx:29-42 | a known icon name gives its icon; an unknown name gives the fallback |
| Sidebar.MainRoutes | src/components/layout/Sidebar.tsx:55-57 | a technician gets the technician's routes; admin and secretary get the office routes |
| Sidebar.AdminSection | src/components/layout/Sidebar.tsx:54-58 | the administration section is shown (non-empty) exactly for an admin |
| Sidebar.SectionHeading | src/components/layout/Sidebar.tsx:92 | the heading is `Mon espace` exactly for a technician and `Gestion` exactly for the others |
| Sidebar.ActiveIsSegmentPrefix | src/components/layout/Sidebar.tsx:97 | a link is active exactly when its path is a prefix of the page's path ending at a segment boundary |
| Sidebar.RouteIconsKnown | src/components/layout/Sidebar.tsx:96 | every icon the route tables name is in the icon map, so the fallback icons are never drawn |
| Sidebar.AdminLinksOnlyForAdmin | src/components/layout/Sidebar.tsx:54-58 | the user administration link appears exactly for an admin; a technician sees exactly the technician's routes |
| Sidebar.TableProtected | src/components/layout/Sidebar.tsx:95-128 | a route table whose links start with protected prefixes is protected throughout |
| Sidebar.LinksAreProtected | src/components/layout/Sidebar.tsx:95-128 | every sidebar link leads to a page the session middleware protects |
| MobileNav.NavItems | src/components/layout/MobileNav.tsx:20-35 | a technician gets the technician's bar; the others get the office bar |
| MobileNav.ActiveItems | src/components/layout/MobileNav.tsx:45-47 | one flag per item, set exactly when the sidebar's active rule holds for its path |
| MobileNav.NavItemsInSidebar | src/components/layout/MobileNav.tsx:20-35 | every phone-bar item is also a sidebar link for the same role |
| TimeGridView.DisplayedDuration | src/components/calendar/TimeGridView.tsx:76 | a zero estimate shows as 30 minutes; no block is shorter than 20 minutes; an estimate of 20 or more is kept |
| TimeGridView.BlockStyle | src/components/calendar/TimeGridView.tsx:68-83 | no date gives a 30-pixel block at the top; the top is the start clamped to 7:00; a block that ends by 18:00 is as tall as its displayed duration, one that does not is cut at the grid's bottom but kept at least 20 pixels; it passes the bottom only at the minimum height |
| TimeGridView.LongerEstimateTaller | src/components/calendar/TimeGridView.tsx:75-80 | a longer estimate never gives a shorter block and never moves it |
| TimeGridView.RenderedHeight | src/components/calendar/TimeGridView.tsx:183 | the drawn height is the block's height, but at least 24 |
| TimeGridView.HourLabels | src/components/calendar/TimeGridView.tsx:90 | one label per hour from 7 to 18 inclusive |
| TimeGridView.NowLine | src/components/calendar/TimeGridView.tsx:150-154 | the red line is drawn exactly between 7:00 and 18:00 inclusive, and then lies inside the grid |
| TimeGridView.FirstLetter | src/components/calendar/TimeGridView.tsx:87 | the first character of a present non-empty name, else empty |
| TimeGridView.TechInitials | src/components/calendar/TimeGridView.tsx:85-88 | null exactly without a technician; otherwise one or two upper-cased initials, or `?` when both names are missing |
| TimeGridView.InitialsOfNamedTechnician | src/components/calendar/TimeGridView.tsx:85-88 | a technician with a first name is shown by that name's upper-cased first letter |
| TimeGridView.StatusColor | src/components/calendar/TimeGridView.tsx:33-41 | a known status gets its colour; any other gets grey |
| PhotoUploader.ObjectUrl | src/components/reports/PhotoUploader.tsx:46 | a picked file is shown at a `blob:` URL |
| PhotoUploader.LocalPhoto | src/components/reports/PhotoUploader.tsx:48-52 | a picked file becomes a local photo that still needs uploading, with no caption |
| PhotoUploader.LocalPhotos | src/components/reports/PhotoUploader.tsx:39-53 | one local photo per picked file, in pick order |
| PhotoUploader.HandleFileChange | src/components/reports/PhotoUploader.tsx:30-63 | no files changes nothing; too many files changes nothing and says the maximum; otherwise the picks are appended; a list within the limit stays within it |
| PhotoUploader.RemoveAt | src/components/reports/PhotoUploader.tsx:74 | the photo at the index is dropped and the others keep their order |
| PhotoUploader.RemovePhoto | src/components/reports/PhotoUploader.tsx:66-77 | the photo is removed, and its URL released exactly when it is a local `blob:` URL |
| PhotoUploader.AddThenRemove | src/components/reports/PhotoUploader.tsx:30-77 | picking one file and removing it gives back the list and releases its URL |
| PhotoUploader.LocalFilesAppend | src/components/reports/PhotoUploader.tsx:56 | the files still to upload of two lists joined are those of each list, in order |
| PhotoUploader.LocalFilesOfPick | src/components/reports/PhotoUploader.tsx:42-53 | the picked files are uploaded in pick order, each once |
| PhotoUploader.PickedFilesAreUploaded | src/components/reports/PhotoUploader.tsx:30-56 | what a pick adds is exactly what the report form uploads after the photos already there |
| VoiceRecorder.ChooseMimeType | src/components/reports/VoiceRecorder.tsx:84-93 | the first supported of opus-webm, webm, mp4, else the browser default (empty); a chosen type is supported |
| VoiceRecorder.BlobType | src/components/reports/VoiceRecorder.tsx:107 | the recording's type is the chosen one, or `audio/webm` for the browser default |
| VoiceRecorder.Extension | src/components/reports/VoiceRecorder.tsx:192 | `mp4` exactly when the type mentions mp4, `webm` otherwise |
| VoiceRecorder.AudioFileName | src/components/reports/VoiceRecorder.tsx:193 | the file lies in the intervention's own folder |
| VoiceRecorder.ExtensionFollowsFormat | src/components/reports/VoiceRecorder.tsx:84-107 | a webm recording is saved as `.webm`, an mp4 one as `.mp4`, the browser default as `.webm` |
| VoiceRecorder.TwoDigitsBelow100 | src/components/reports/VoiceRecorder.tsx:259-260 | the seconds never need more than two digits |
| VoiceRecorder.FormatTime | src/components/reports/VoiceRecorder.tsx:257-261 | the clock reads at least `MM:SS`, with the colon before the last two characters |
| VoiceRecorder.PadZeroDigits | src/components/reports/VoiceRecorder.tsx:260 | a zero-padded number is all digits and reads back as the number |
| VoiceRecorder.FormatTimeReadsBack | src/components/reports/VoiceRecorder.tsx:257-261 | the clock reads back: the digits before the colon are the minutes, the two after it the seconds |
| VoiceRecorder.MicError | src/components/reports/VoiceRecorder.tsx:124-138 | a named error always gets a message; the refusal message exactly for a refused permission; a non-`Error` throw gets none |
| VoiceRecorder.Recorder.constructor | src/components/reports/VoiceRecorder.tsx:22-35 | nothing recorded, playing or uploading; the saved note shown if there is one; permission `prompt` |
| VoiceRecorder.Recorder.StartRecording | src/components/reports/VoiceRecorder.tsx:70-139 | with a stream a fresh recording starts in the chosen format, clock at zero, permission granted; otherwise the error is explained, a refusal marks the permission denied, and nothing starts |
| VoiceRecorder.Recorder.DataAvailable | src/components/reports/VoiceRecorder.tsx:100-104 | only non-empty chunks are buffered, in arrival order |
| VoiceRecorder.Recorder.Tick | src/components/reports/VoiceRecorder.tsx:119-121 | the clock advances by one second only while the timer runs |
| VoiceRecorder.Recorder.StopRecording | src/components/reports/VoiceRecorder.tsx:142-151 | a no-op unless recording; otherwise recording and the timer stop, the buffer kept |
| VoiceRecorder.Recorder.RecorderStopped | src/components/reports/VoiceRecorder.tsx:106-112 | the buffered chunks become the recording, of the recording's type, shown at its object URL |
| VoiceRecorder.Recorder.TogglePlayback | src/components/reports/VoiceRecorder.tsx:154-169 | nothing without a recording URL; otherwise playing flips |
| VoiceRecorder.Recorder.DeleteRecording | src/components/reports/VoiceRecorder.tsx:172-182 | the recording, its URL, playback, the clock and the error are all reset |
| VoiceRecorder.Recorder.UploadRecording | src/components/reports/VoiceRecorder.tsx:185-254 | nothing without a recording; a failed upload sets an error and completes nothing; a stored file always completes with its public URL, with the transcription only when the service answered ok |
| InvoiceFilterButton.FilterOptionsCoverStatuses | src/components/invoices/InvoiceFilterButton.tsx:7-12 | every invoice status can be filtered on, and `overdue` is the one option that is not a status |
| InvoiceFilterButton.RemoveAll | src/components/invoices/InvoiceFilterButton.tsx:35 | every occurrence of the status is gone and every other status is kept |
| InvoiceFilterButton.RemoveAllAppend | src/components/invoices/InvoiceFilterButton.tsx:35 | filtering a concatenation is concatenating the filtered parts, so the kept statuses keep their order |
| InvoiceFilterButton.RemoveAllSingle | src/components/invoices/InvoiceFilterButton.tsx:35 | a single status is dropped exactly when it is the removed one |
| InvoiceFilterButton.RemoveOnlyValue | src/components/invoices/InvoiceFilterButton.tsx:35 | removing the only value a list holds empties it |
| InvoiceFilterButton.ToggleStatus | src/components/invoices/InvoiceFilterButton.tsx:33-36 | the status is in the new list exactly when it was not in the old one; the others are unchanged; an absent one is appended |
| InvoiceFilterButton.ToggleTwice | src/components/invoices/InvoiceFilterButton.tsx:33-36 | toggling the same status twice gives back the same set of statuses |
| InvoiceFilterButton.FilterUrl | src/components/invoices/InvoiceFilterButton.tsx:38-42 | the bare list page exactly for an empty list, otherwise `?status=` and the comma-joined statuses |
| InvoiceFilterButton.FilterUrlRoundTrip | src/components/invoices/InvoiceFilterButton.tsx:38-42 | splitting the URL's query on commas gives the statuses back, in order, when none contains a comma |
| InvoiceFilterButton.ToggleStatusAndNavigate | src/components/invoices/InvoiceFilterButton.tsx:33-43 | navigates to the toggled list's URL, which is the bare list page exactly when the toggle removed the last status |
| InvoiceFilterButton.FilterMenu.constructor | src/components/invoices/InvoiceFilterButton.tsx:19 | the menu starts closed |
| InvoiceFilterButton.FilterMenu.ToggleOpen | src/components/invoices/InvoiceFilterButton.tsx:55 | the button flips the menu |
| InvoiceFilterButton.FilterMenu.ClearFilters | src/components/invoices/InvoiceFilterButton.tsx:45-48 | back to the unfiltered list, and the menu closes |
| InvoiceStatusSelect.CurrentOption | src/components/invoices/InvoiceStatusSelect.tsx:49 | a status among the three shows its own option, labelled as the status table says; any other status text shows the first option |
| InvoiceStatusSelect.FindOption | src/components/invoices/InvoiceStatusSelect.tsx:49 | the option found has the status as its value; none is found exactly when no option has it |
| InvoiceStatusSelect.OptionOfStatus | src/components/invoices/InvoiceStatusSelect.tsx:10-35 | each of the three statuses is found, with its own value and its label from the status table |
| InvoiceStatusSelect.PendingValidationShownAsGenerated | src/components/invoices/InvoiceStatusSelect.tsx:49 | an invoice with status `pending_validation` is shown as "Générée" |
| InvoiceStatusSelect.StatusSelect.constructor | src/components/invoices/InvoiceStatusSelect.tsx:43-44 | the select shows the current status, closed |
| InvoiceStatusSelect.StatusSelect.Select | src/components/invoices/InvoiceStatusSelect.tsx:62-74 | choosing the shown status only closes the menu; another status is shown at once and a request remembering the previous one is made |
| InvoiceStatusSelect.StatusSelect.Settle | src/components/invoices/InvoiceStatusSelect.tsx:74-85 | success keeps what is shown; failure rolls back to the previous status |
| InvoiceStatusSelect.StatusSelect.HandleSelect | src/components/invoices/InvoiceStatusSelect.tsx:62-86 | the server is asked exactly for a new status; the status ends as chosen unless the server refused it, then as before; the menu closes |
| NotificationBell.InvoiceNotification | src/components/layout/NotificationBell.tsx:58-66 | a paid invoice gives an `invoice_paid` item with an `inv-` id, the client's name and the invoice's date |
| NotificationBell.InterventionNotification | src/components/layout/NotificationBell.tsx:70-78 | a new intervention gives an `intervention_created` item with an `int-` id, its title and its creation date |
| NotificationBell.InvoiceNotifications | src/components/layout/NotificationBell.tsx:57-67 | one item per paid invoice, in query order |
| NotificationBell.InterventionNotifications | src/components/layout/NotificationBell.tsx:69-79 | one item per intervention, in query order |
| NotificationBell.Insert | src/components/layout/NotificationBell.tsx:82 | inserting adds one item |
| NotificationBell.InsertContents | src/components/layout/NotificationBell.tsx:82 | inserting adds exactly the new item |
| NotificationBell.InsertSorted | src/components/layout/NotificationBell.tsx:82 | inserting into a newest-first list keeps it newest first |
| NotificationBell.SortNewestFirst | src/components/layout/NotificationBell.tsx:82 | sorting keeps the number of items |
| NotificationBell.SortSorted | src/components/layout/NotificationBell.tsx:82 | the sorted list is newest first |
| NotificationBell.SortPermutation | src/components/layout/NotificationBell.tsx:82 | the sorted list holds the same items |
| NotificationBell.SortedPermutation | src/components/layout/NotificationBell.tsx:82 | the sort is a newest-first permutation |
| NotificationBell.CollectNotifications | src/components/layout/NotificationBell.tsx:55-79 | the two loops give the invoices' items then the interventions' items; a failed query contributes none |
| NotificationBell.LatestFiveAreNewest | src/components/layout/NotificationBell.tsx:82-83 | up to five items, newest first, all from the queries, none older than one left out |
| NotificationBell.Bell.constructor | src/components/layout/NotificationBell.tsx:19-22 | nothing loaded, no dot, closed |
| NotificationBell.Bell.FetchNotifications | src/components/layout/NotificationBell.tsx:35-93 | the five newest collected items are shown, the dot is on exactly when one of them is within seven days, and the bell is loaded |
| NotificationBell.Bell.ToggleOpen | src/components/layout/NotificationBell.tsx:19 | the bell flips open or closed and nothing else changes |
| NotificationBell.TopKeepsNewest | src/components/layout/NotificationBell.tsx:83 | the first entries of a newest-first list are at least as new as every entry left out |
| NotificationBell.DotIffAnythingRecent | src/components/layout/NotificationBell.tsx:81-88 | the dot shows exactly when anything the queries brought is recent |
| TodayInterventionsList.Merge | src/components/interventions/TodayInterventionsList.tsx:35 | an update replaces the row's columns and keeps the id, the regie name and the reports |
| TodayInterventionsList.ApplyUpdate | src/components/interventions/TodayInterventionsList.tsx:33-37 | the card with the updated id is merged; every other card is kept; order and ids unchanged |
| TodayInterventionsList.UnknownIdChangesNothing | src/components/interventions/TodayInterventionsList.tsx:34-36 | an update for an intervention not in the list changes nothing |
| TodayInterventionsList.UpdateIdempotent | src/components/interventions/TodayInterventionsList.tsx:34-36 | receiving the same update twice is the same as once |
| TodayInterventionsList.TodayList.constructor | src/components/interventions/TodayInterventionsList.tsx:28 | the list starts as given |
| TodayInterventionsList.TodayList.OnUpdate | src/components/interventions/TodayInterventionsList.tsx:31-38 | a realtime update is applied to the list |
| TodayInterventionsList.TodayList.PropsChanged | src/components/interventions/TodayInterventionsList.tsx:41-43 | new props replace whatever the updates produced |
| TodayInterventionsList.StatusBar | src/components/interventions/TodayInterventionsList.tsx:74-82 | green exactly for finished, ready to bill and billed; orange exactly in progress; blue otherwise |
| TodayInterventionsList.FirstReport | src/components/interventions/TodayInterventionsList.tsx:65-66 | the first report's status, and none exactly when there is no report |
| TodayInterventionsList.ReportButtonFor | src/components/interventions/TodayInterventionsList.tsx:137-160 | no button exactly for a cancelled intervention; otherwise a link to the report page reading "Faire un rapport", "Rapport soumis" or "Modifier le rapport" by the first report |
| TodayInterventionsList.UpdateKeepsReportText | src/components/interventions/TodayInterventionsList.tsx:149-154 | a realtime update keeps the button's text: it follows the reports, not the row |
| RegiesPageClient.CountWhere | src/components/admin/RegiesPageClient.tsx:207-208 | a filter count never exceeds the number of regies |
| RegiesPageClient.ComputeStats | src/components/admin/RegiesPageClient.tsx:204-209 | the total is the number of regies; the active and discount counters count the regies with those properties and never exceed the total |
| RegiesPageClient.ActivePlusInactive | src/components/admin/RegiesPageClient.tsx:207 | the active regies and the inactive ones add up to the total |
| RegiesPageClient.KeepMatching | src/components/admin/RegiesPageClient.tsx:212-221 | the kept regies are the matching ones, in their original order |
| RegiesPageClient.SublistOfTail | src/components/admin/RegiesPageClient.tsx:212 | a sublist of the tail is a sublist of the list |
| RegiesPageClient.SublistDropHead | src/components/admin/RegiesPageClient.tsx:212 | a sublist without its head is still a sublist |
| RegiesPageClient.FilterRegies | src/components/admin/RegiesPageClient.tsx:211-221 | a blank query keeps every regie; otherwise exactly the regies whose name, keyword, contact e-mail or address contains the lower-cased query, in order |
| RegiesPageClient.SublistRefl | src/components/admin/RegiesPageClient.tsx:213 | a list is a sublist of itself |
| RegiesPageClient.RegiesPage.constructor | src/components/admin/RegiesPageClient.tsx:152-155 | no dialog open, nothing selected, not deleting |
| RegiesPageClient.RegiesPage.HandleEdit | src/components/admin/RegiesPageClient.tsx:162-165 | the dialog opens on the chosen regie |
| RegiesPageClient.RegiesPage.HandleOpenCreate | src/components/admin/RegiesPageClient.tsx:172-175 | the dialog opens on a new regie |
| RegiesPageClient.RegiesPage.HandleCloseModal | src/components/admin/RegiesPageClient.tsx:167-170 | the dialog closes and forgets the edited regie |
| RegiesPageClient.RegiesPage.HandleDelete | src/components/admin/RegiesPageClient.tsx:177-179 | asking to delete only selects the regie |
| RegiesPageClient.RegiesPage.HandleConfirmDelete | src/components/admin/RegiesPageClient.tsx:181-202 | nothing happens without a selection; a failed delete keeps the regie and the selection; otherwise exactly that regie is removed and the selection cleared; deleting ends; other tables untouched |
| CreateRegieModal.FormFor | src/components/admin/CreateRegieModal.tsx:29-47 | a blank form for a new regie; for an edited one its name and keyword, and its e-mail and address or `''` when null |
| CreateRegieModal.UpperCharIsNotLower | src/components/admin/CreateRegieModal.tsx:65 | upper-casing leaves no lower-case letter |
| CreateRegieModal.InsertedRegieIsNormalised | src/components/admin/CreateRegieModal.tsx:77-86 | a created regie is active with no discount and no other columns; a blank e-mail or address is stored as null, and a blank name as empty |
| CreateRegieModal.InsertedNameIsTrimmed | src/components/admin/CreateRegieModal.tsx:80 | the stored name has no white space at either end |
| CreateRegieModal.InsertedKeywordIsUpperCase | src/components/admin/CreateRegieModal.tsx:82 | the stored keyword holds no lower-case letter |
| CreateRegieModal.UpdateKeepsUneditedColumns | src/components/admin/CreateRegieModal.tsx:60-69 | an edit writes the same four columns a creation would, stamps the update time, and keeps the active flag, the discount, the phone, the billing address and the notes |
| CreateRegieModal.LowerOfUpper | src/components/admin/CreateRegieModal.tsx:65 | upper-casing then lower-casing a character gives its lower case |
| CreateRegieModal.SavedKeywordMatchesAsTyped | src/components/admin/CreateRegieModal.tsx:82 | the upper-cased keyword matches a pattern case-insensitively exactly when the typed, trimmed keyword does |
| CreateRegieModal.UpdateRegie | src/components/admin/CreateRegieModal.tsx:57-73 | the edited regie is replaced by its updated row, and nothing changes when it is missing |
| CreateRegieModal.InsertRegie | src/components/admin/CreateRegieModal.tsx:74-91 | the new regie is stored under an id no row had |
| CreateRegieModal.RegieModal.constructor | src/components/admin/CreateRegieModal.tsx:20-27 | not saving, no error, a blank form |
| CreateRegieModal.RegieModal.Open | src/components/admin/CreateRegieModal.tsx:29-47 | the form shows the edited regie or is blank, and the error is cleared |
| CreateRegieModal.RegieModal.HandleSubmit | src/components/admin/CreateRegieModal.tsx:49-109 | saved exactly when the write does not fail; a failure keeps the table and the form and shows an error; a success updates or inserts the row and blanks the form; other tables untouched |
| CreateRegieModal.CreatedRegieIsFoundByKeyword | src/components/admin/CreateRegieModal.tsx:82 | a created regie is found by the keyword lookup for any keyword equal to the trimmed one up to case |
| CreateUserDialog.Validate | src/components/admin/CreateUserDialog.tsx:53-65 | no message exactly when names, e-mail and password pass; otherwise the message of the first check that fails |
| CreateUserDialog.ValidationMessageIdentifiesCheck | src/components/admin/CreateUserDialog.tsx:54-64 | the message tells which check failed |
| CreateUserDialog.EmailWithoutAtIsRefused | src/components/admin/CreateUserDialog.tsx:58-61 | with the names given, an e-mail without `@` is refused whatever the password |
| CreateUserDialog.FailureMessage | src/components/admin/CreateUserDialog.tsx:76 | the server's error when it has one, else `Erreur inconnue.`; never empty |
| CreateUserDialog.Dialog.constructor | src/components/admin/CreateUserDialog.tsx:22-30 | closed, idle, an empty form with role technician, no error |
| CreateUserDialog.Dialog.ResetForm | src/components/admin/CreateUserDialog.tsx:32-35 | every field emptied, role technician, no error |
| CreateUserDialog.Dialog.HandleOpen | src/components/admin/CreateUserDialog.tsx:37-40 | a fresh form in an open dialog |
| CreateUserDialog.Dialog.HandleClose | src/components/admin/CreateUserDialog.tsx:42-47 | ignored while the creation is pending; otherwise the dialog closes and the form resets |
| CreateUserDialog.Dialog.HandleSubmit | src/components/admin/CreateUserDialog.tsx:49-67 | the server is called exactly when the form validates; otherwise the first failing check's message is shown |
| CreateUserDialog.Dialog.Settle | src/components/admin/CreateUserDialog.tsx:67-79 | success closes and resets; failure keeps the dialog with the failure message |
| CreateRegieModal.EnabledSubmitSavesNameAndKeyword | src/components/admin/CreateRegieModal.tsx:219-221 | with the submit button enabled, the saved name and keyword are never empty, on insert and on update |

## Left out

- Supabase itself: the client libraries, row-level security and the upsert machinery are not modelled. Tables are maps. A lookup reads them directly. A write is a map update that fails when the run's `fails` set names it.
- Backend.Store.RegiesWithKeyword, CalendarSync.RegieFor, EmailIngestion.KeywordRegie: `ilike` is modelled as equality up to ASCII case, without its pattern characters. A keyword taken from a calendar title is capitals only and holds none, but an explicit `regie_keyword` in a webhook body is passed to `ilike` as sent. A `%`, `_`, `*` (which PostgREST reads as `%`) or `\` in it would match other régies than the model does; a lone `%`, for one, matches every régie, so the lookup succeeds exactly when the table holds a single régie.
- Zod schemas: the format checks (UUID, e-mail, URL) are not modelled. A body either parses to the payload or is a schema error that yields 400. The numeric range of the e-mail confidence is kept.
- Secrets and sessions: the webhook secret and the signed-in user are inputs. Reading environment variables and refreshing session cookies in the middleware are left out.
- Clock values: `Date.now()`, `new Date().toISOString()`, `new Date(s).getTime()`, the local hours and minutes, and "now" are opaque inputs (strings, or milliseconds as integers). Time zones and daylight-saving shifts are not modelled.
- InterventionForm.PlannedDateTime: stops before the final `toISOString()` conversion to UTC. The stored value is the local date-time text.
- Floating point: amounts are integer cents and pixels are exact reals. The binary-double rounding of `Math.round` on non-representable amounts is not modelled.
- Foreign and browser calls: the transcription webhook (src/app/api/webhooks/transcribe-audio/route.ts), `MediaRecorder`, `getUserMedia`, `Audio` and timers, and the signature canvas are not part of this model. Each appears only as the answer it gives: supported formats, the microphone outcome, timer ticks, the transcription service's reply, and the `data:` URL of the signature.
- TimeGridView: the day grouping with date-fns (`isSameDay`, week columns) is not modelled. Block placement takes the local hour and minute as inputs.
- Strings.ToLower, Strings.ToUpper: only `A`–`Z` and `a`–`z` change case. JavaScript's `toLowerCase` and `toUpperCase` also map accented and other non-ASCII letters (`É` and `é`), and some change length (`ß` becomes `SS`).
- RegiesPageClient.FilterRegies: matches through the ASCII-only lower-casing, so the query "école" does not find a régie named "ÉCOLE", which the page would find.
- RegiesPageClient.Matches, RegiesPageClient.FieldMatches: the same ASCII-only lower-casing as `FilterRegies`.
- CreateRegieModal.SavedKeyword: upper-cases ASCII letters only, so a typed keyword "gé" is saved as "Gé" where the modal saves "GÉ". `InsertedKeywordIsUpperCase` is stated for ASCII letters for the same reason.
- CreateUserDialog.PasswordLongEnough: counts characters, where JavaScript's `.length` counts UTF-16 code units. A password with characters outside the Basic Multilingual Plane, such as an emoji, is longer for the dialog than for the model.
- TimeGridView.TechInitials: upper-casing is ASCII only. JavaScript's full Unicode upper-casing can lengthen a letter (`ß` becomes `SS`), which the one-to-two-letter bound does not cover.
- Server actions: `updateInvoiceStatus` (used by the invoice status select) and `createUser` (used by the user dialog) are not part of this model. Their answers are inputs: a success flag, and `Created` or `Failed(error)`.
- NotificationBell: the `paid` filter, the date ordering and the five-row limit run in the database. The method takes the two query results as given.
- NotificationBell.SortNewestFirst: the order among notifications with equal dates is not stated.
- CreateRegieModal.RegieModal.HandleSubmit: states only that an error is shown on failure. The source shows the thrown error's own message when it is an `Error` instance, and the generic text otherwise. The model always sets the generic text.
- Realtime and concurrency: the change-feed subscription plumbing (src/hooks/useRealtime.ts) is not part of this model, and neither are simultaneous requests. Each webhook run and each UI event is one atomic step, and the realtime list takes an update as the input of `OnUpdate`.
- UI only: JSX, CSS classes other than the classified colours, toasts, `router.push`/`refresh`, the sidebar's logout button and outside-click handlers are left out. Navigation targets are returned as strings.
- RoleGuard `withRoleGuard`: the wrapper only forwards its roles and fallback to the guard, so the model has the guard's `GuardProps` and no separate member for it.
- ReportForm: a material line keeps the product id, name, quantity and unit price. The product's `code`/`catalog_code` display field is not modelled.

## Where the code and the project's documentation differ

The model follows the code in each case:

- Régies are matched only by the `regie_keyword` sent with an e-mail or found in a calendar title. They are not matched by sender address or domain.
- There is no `archived` intervention status. A validated report moves the intervention to `billed` only when an invoice is created.
- A rejection reason is echoed in the answer but never stored.
- The invoice is inserted with status `pending_validation`, which is not one of the three invoice statuses. `InvoiceValidate.PendingValidationIsNotAnInvoiceStatus` records this.
- `parseExistingPhotos` has a special case for "no categorised photos". The case is redundant: the general rule already gives the same before/after split, as `ReportForm.UncategorisedAreBefore` shows.
