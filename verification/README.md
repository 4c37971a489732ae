# Metronix complaint tracker — a Dafny model

Metronix is a municipal complaint tracker. Citizens file complaints with
optional photos. Solvers pick complaints up from a queue. Administrators
assign complaints, change their status and priority, and look at figures.
Administrators can also e-mail themselves a daily summary.

This project models the server routes that do that work:

- `/api/complaints`;
- `/api/admin/complaints`, `users`, `dashboard`, `analytics`, `reference` and `daily-summary`;
- `/api/solvers/complaints`.

It also models:

- the credential sign-in and session callbacks;
- the e-mail templates and the mail sender;
- the logic in the three dashboards that decides what the user sees and what gets sent.

The store is a value (`Model.Db`). Each handler is a pure function from
the store, the session user and the request to a reply (`Reply`) and,
where it writes, the new store (`Outcome`). Everything outside the
program is a parameter:

- the clock;
- generated identifiers;
- password hashing and comparison;
- the mail transport;
- date parsing and rendering;
- the server clock's offset from UTC;
- the store's ordering of priorities.

Modules, one per file, follow the source layout:

| module | models |
|---|---|
| `Common`, `Sorting`, `Grouping`, `Model` | JavaScript truthiness and `\|\|`, replies, filtering and counting, a stable sort, `groupBy`-style counting, the entities, the session gates and JSON field access |
| `Auth` | `lib/auth.ts`: `authorize`, the `jwt` and `session` callbacks |
| `Email` | `lib/email.ts`: the four templates, `sendEmail` and its wrappers |
| `ComplaintsRoute` | `GET`/`POST /api/complaints` |
| `AdminComplaints` | `GET`/`PUT /api/admin/complaints` |
| `Users` | `GET`/`POST /api/admin/users` |
| `Dashboard` | `GET /api/admin/dashboard` and its JSON shape |
| `Analytics` | `GET /api/admin/analytics` |
| `Reference` | `GET /api/admin/reference` |
| `DailySummary` | `GET`/`POST /api/admin/daily-summary` |
| `SolverQueue` | `GET /api/solvers/complaints` |
| `SolverDashboard` | the solver page's views and badges |
| `CitizenForm` | the citizen page's form, attachments, labels and badges |
| `AdminClient` | the admin page's filters, query string, statistics cards, chart, pickers and badges |

Some facts hold across the model:

- Status, priority, category and role values are strings, as the code compares them.
- The store's enumerated columns reject any other value. The handler's `catch` turns that rejection into a 500 reply.
- Time is milliseconds since the epoch. A calendar day is a UTC day number, except the daily summary's selection, which is the server's local day under a fixed offset.

## Model

| member | source | states |
|---|---|---|
| Model.FindUser | metronix-app/src/app/api/complaints/route.ts:149-152 | the looked-up user is in the table with that id; no result exactly when no user has the id |
| Model.FindUserByEmail | metronix-app/src/lib/auth.ts:34-38 | the looked-up user has that e-mail; no result exactly when no user has it |
| Model.ByNewest | metronix-app/src/app/api/admin/complaints/route.ts:38 | `orderBy createdAt desc`: a newest-first permutation of the complaints |
| Model.JOr | metronix-app/src/app/admin/dashboard/EnhancedDashboard.tsx:122-127 | `value \|\| fallback`: the value when present and truthy, otherwise the fallback |
| Model.Field | metronix-app/src/app/admin/dashboard/EnhancedDashboard.tsx:122 | `obj[key]`: a result names a field with that key; undefined exactly when the value is no object or has no such key |
| Grouping.GroupCount | metronix-app/src/app/api/admin/analytics/route.ts:47-57 | one group per distinct key, none empty, each counting that key's items; the counts add up to the input size |
| Grouping.DayCounts | metronix-app/src/app/api/admin/analytics/route.ts:31-41 | one point per day with items, days ascending, each counting that day's items; the counts add up to the input size |
| Auth.Authorize | metronix-app/src/lib/auth.ts:22-76 | a signed-in user needs both credentials, an account with that e-mail and a password, and the hash check's approval |
| Auth.LookupFindsTheAccount | metronix-app/src/lib/auth.ts:34-38 | under the unique e-mail index the lookup finds the one account with that e-mail |
| Auth.AuthorizeDecides | metronix-app/src/lib/auth.ts:42-71 | for an existing account, sign-in succeeds exactly when it has a password and the comparison accepts; the result is that account's public fields |
| Auth.AuthorizeUnknownEmail | metronix-app/src/lib/auth.ts:34-45 | no account with the e-mail: sign-in fails |
| Auth.Jwt | metronix-app/src/lib/auth.ts:85-95 | the token is unchanged without a sign-in user; with one, the role is copied and the subject kept |
| Auth.SessionCallback | metronix-app/src/lib/auth.ts:96-107 | with a token and a session user, the user gets the token's subject as id and its role, CITIZEN when absent; otherwise the session is unchanged |
| Auth.SessionGates | metronix-app/src/lib/auth.ts:96-107 | such a session passes the id gate exactly when the subject is non-empty, and the admin gate exactly when the token's role is ADMIN |
| Auth.SignInCarriesRole | metronix-app/src/lib/auth.ts:65-101 | after a successful sign-in the session's role is the account's role |
| Email.ComplaintConfirmation | metronix-app/src/lib/email.ts:17-42 | the subject is the confirmation phrase followed by the title; the location is shown as "Not specified" exactly when missing |
| Email.ComplaintAssignment | metronix-app/src/lib/email.ts:44-75 | the subject carries the title after the assignment phrase; the body is addressed to the solver |
| Email.StatusUpdate | metronix-app/src/lib/email.ts:77-106 | the body shows the stored status as previous and the new one as next; a note appears exactly when one is given |
| Email.DailySummary | metronix-app/src/lib/email.ts:108-150 | the subject carries the date; the totals are the SUBMITTED, ASSIGNED and RESOLVED counts, which sum to at most the total; the recent section appears exactly when there are complaints |
| Email.SubjectKindsDistinct | metronix-app/src/lib/email.ts:18-109 | no subject of one template can equal a subject of another |
| Email.SendEmail | metronix-app/src/lib/email.ts:154-174 | a message reaches the transport exactly when the credentials are set; success exactly when set and accepted, with the message id; otherwise an error and no id |
| Email.ConvenienceSendersForward | metronix-app/src/lib/email.ts:177-195 | each wrapper hands the transport its template's subject and body |
| Email.SummaryFiguresPartitionTotal | metronix-app/src/lib/email.ts:120-123 | when every complaint has a known status, the three counts sum to the total |
| ComplaintsRoute.List | metronix-app/src/app/api/complaints/route.ts:11-57 | 401 without an id; 403 exactly for a citizen asking for another user's complaints; otherwise the matching complaints, newest first, with citizen and solver |
| ComplaintsRoute.ListByOwner | metronix-app/src/app/api/complaints/route.ts:27 | with `userId` given, a complaint is listed exactly when it belongs to that citizen |
| ComplaintsRoute.ListUnfilteredForAnyRole | metronix-app/src/app/api/complaints/route.ts:23-27 | without `userId`, any signed-in caller, citizens included, gets every complaint |
| ComplaintsRoute.FieldError | metronix-app/src/app/api/complaints/route.ts:82-96 | no error exactly when title, description and category are truthy, the category is known and the priority is absent or known; missing fields are reported first |
| ComplaintsRoute.StoreUploads | metronix-app/src/app/api/complaints/route.ts:101-119 | files are written in order under generated names until the first file over 10 MiB, which stops the loop |
| ComplaintsRoute.UploadLimit | metronix-app/src/app/api/complaints/route.ts:106-108 | the loop stops exactly when some file is over 10 MiB |
| ComplaintsRoute.Urls | metronix-app/src/app/api/complaints/route.ts:117 | one public URL per written file, in order |
| ComplaintsRoute.ConfirmationMail | metronix-app/src/app/api/complaints/route.ts:148-166 | a confirmation is attempted only for a citizen on record with an e-mail, and then it is that citizen's confirmation template |
| ComplaintsRoute.Post | metronix-app/src/app/api/complaints/route.ts:59-172 | 401, 403, 400 in the handler's order; success exactly for a citizen on record with valid fields and no oversized file, and 500 when the session id names no user; file j is written as `uuid(j)` plus the extension of upload j, in upload order; success appends one SUBMITTED complaint with the submitted fields, the caller as owner and one `/uploads/complaints/` URL per written file; failures leave the store unchanged |
| ComplaintsRoute.PostForUnknownCitizen | metronix-app/src/app/api/complaints/route.ts:101-145 | a session id with no user row: every upload is written, then the create is refused and the reply is 500 with the store unchanged |
| ComplaintsRoute.PostGatesIgnoreForm | metronix-app/src/app/api/complaints/route.ts:63-69 | a rejected caller gets the same reply whatever the form holds, and no file is written |
| ComplaintsRoute.PostReplyIgnoresMail | metronix-app/src/app/api/complaints/route.ts:148-168 | the mail configuration and transport never change the reply or the store |
| ComplaintsRoute.PostOversizedKeepsEarlierFiles | metronix-app/src/app/api/complaints/route.ts:104-112 | an oversized file at position i gives 400 and stores no complaint, but the i files before it stay written |
| ComplaintsRoute.PostKeepsTokensValid | metronix-app/src/app/api/complaints/route.ts:122-145 | submission keeps every stored complaint's category, priority and status known |
| AdminComplaints.List | metronix-app/src/app/api/admin/complaints/route.ts:7-48 | 401 for non-admins; 500 exactly when a filter names an unknown value; otherwise exactly the matching complaints, newest first, with citizen and solver |
| AdminComplaints.ListWithoutFiltersIsEverything | metronix-app/src/app/api/admin/complaints/route.ts:14-38 | with no filters the admin gets every complaint |
| AdminComplaints.UpdateDataOf | metronix-app/src/app/api/admin/complaints/route.ts:65-68 | status and priority are written only when truthy; `solverId` is written whenever it is present, null included |
| AdminComplaints.Apply | metronix-app/src/app/api/admin/complaints/route.ts:70-81 | the named columns take the new values and the modification time is stamped; every other column is unchanged |
| AdminComplaints.IndexOfId | metronix-app/src/app/api/admin/complaints/route.ts:71 | the first complaint with the id, or none exactly when no complaint has it |
| AdminComplaints.Update | metronix-app/src/app/api/admin/complaints/route.ts:50-89 | 401 for non-admins; 400 exactly when the id is missing; an unknown id, a non-JSON body or an unknown status or priority give 500 with the store unchanged; success rewrites only the one complaint |
| AdminComplaints.ApplyIdempotent | metronix-app/src/app/api/admin/complaints/route.ts:70-81 | writing the same columns twice equals writing them once |
| AdminComplaints.UpdateIdempotent | metronix-app/src/app/api/admin/complaints/route.ts:50-89 | repeating a successful update at the same instant leaves the store as the first left it |
| AdminComplaints.UpdateIgnoresDepartment | metronix-app/src/app/api/admin/complaints/route.ts:59 | `departmentId` in the body never changes the outcome |
| AdminComplaints.UpdateRejectsUnknownStatus | metronix-app/src/app/api/admin/complaints/route.ts:65-86 | a status outside the enumeration gives 500 and leaves the store unchanged |
| AdminComplaints.EmptyUpdateOnlyTouches | metronix-app/src/app/api/admin/complaints/route.ts:65-81 | an update naming no column succeeds and changes only the modification time |
| AdminComplaints.UpdateKeepsTokensValid | metronix-app/src/app/api/admin/complaints/route.ts:65-81 | updates keep every stored status and priority within the enumerations |
| Users.Listed | metronix-app/src/app/api/admin/users/route.ts:14-31 | the listed accounts are exactly those with the role, or all without one, newest first |
| Users.Get | metronix-app/src/app/api/admin/users/route.ts:7-57 | 401 for non-admins; 500 exactly for an unknown role; otherwise one record per listed account with its filed and held complaint counts |
| Users.ListingAgreesWithCounts | metronix-app/src/app/api/admin/users/route.ts:14-17 | listing by a role gives as many accounts as the dashboard counts for it; no role lists every account |
| Users.Post | metronix-app/src/app/api/admin/users/route.ts:59-107 | 401, then 400 for missing fields, then 400 for a taken e-mail; success appends one account with the given fields and a hashed password only when one was typed; failures leave the store unchanged |
| Users.PostKeepsEmailsUnique | metronix-app/src/app/api/admin/users/route.ts:73-80 | creating accounts keeps e-mails unique |
| Users.PostTwiceIsRefused | metronix-app/src/app/api/admin/users/route.ts:73-80 | the same body sent again is refused as a duplicate and changes nothing |
| Users.CreatedAccountSignIn | metronix-app/src/app/api/admin/users/route.ts:82-101 | a created account signs in exactly when a password was given and the hash check accepts; without one it can never sign in with credentials |
| Dashboard.ComplaintTotals | metronix-app/src/app/api/admin/dashboard/route.ts:15-24 | the total and the SUBMITTED, ASSIGNED and RESOLVED counts, which sum to at most the total |
| Dashboard.UserTotals | metronix-app/src/app/api/admin/dashboard/route.ts:49-58 | the total and the per-role counts, which sum to at most the total |
| Dashboard.Newest | metronix-app/src/app/api/admin/dashboard/route.ts:27-29 | at most ten complaints, newest first, a prefix of the newest-first order |
| Dashboard.Get | metronix-app/src/app/api/admin/dashboard/route.ts:7-80 | 401 exactly for non-admins; otherwise the complaint and user figures and the ten newest complaints with their relations |
| Dashboard.RecentAreTheNewest | metronix-app/src/app/api/admin/dashboard/route.ts:27-29 | the shown and the omitted complaints together are the store's, and none omitted is newer than any shown |
| Dashboard.ToJsonReadBack | metronix-app/src/app/api/admin/dashboard/route.ts:60-76 | the figures are read back from `stats.complaints.*` and `stats.users.*` |
| Dashboard.NoOtherTopLevelField | metronix-app/src/app/api/admin/dashboard/route.ts:60-76 | the body has no top-level key besides `stats` and `recentComplaints` |
| Analytics.ComplaintsByDay | metronix-app/src/app/api/admin/analytics/route.ts:15-41 | days ascending, none empty; each day counts that day's complaints from the last thirty days; the counts add up to the window's size |
| Analytics.PriorityStats | metronix-app/src/app/api/admin/analytics/route.ts:47-57 | one group per priority present, each with its count; the counts add up to all complaints |
| Analytics.Get | metronix-app/src/app/api/admin/analytics/route.ts:6-70 | 401 exactly for non-admins; otherwise the day series, the priority groups and an empty department list |
| Analytics.AscendingWithin | metronix-app/src/app/api/admin/analytics/route.ts:38-41 | strictly ascending days within a range are no more than the days of the range |
| Analytics.DayShift | metronix-app/src/app/api/admin/analytics/route.ts:15-17 | thirty days before an instant is thirty day numbers earlier |
| Analytics.ByDayWithinWindow | metronix-app/src/app/api/admin/analytics/route.ts:15-41 | every point is a day of the window on which some complaint was filed; with no future complaints at most 31 points |
| Analytics.PriorityStatsCover | metronix-app/src/app/api/admin/analytics/route.ts:47-57 | with known priorities, the LOW, NORMAL and HIGH counts sum to the total |
| Reference.OptionOf | metronix-app/src/app/api/admin/reference/route.ts:30-34 | the entry carries the profile id, the user's name or "Unknown", and the e-mail or "No email" |
| Reference.Get | metronix-app/src/app/api/admin/reference/route.ts:6-42 | 401 exactly for non-admins; otherwise every department and one entry per solver profile, in order |
| Reference.SolverListLabelsEveryProfile | metronix-app/src/app/api/admin/reference/route.ts:28-35 | each entry names a solver profile and has a non-empty name and e-mail |
| DailySummary.TargetInstant | metronix-app/src/app/api/admin/daily-summary/route.ts:20 | the parsed date when one is given, otherwise now |
| DailySummary.LocalDayBounds | metronix-app/src/app/api/admin/daily-summary/route.ts:24-28 | as written: a day-long range of the server's local day that contains the instant |
| DailySummary.LocalBoundsSelectLocalDay | metronix-app/src/app/api/admin/daily-summary/route.ts:24-41 | the local bounds select exactly the complaints of the same local day |
| DailySummary.SameDayIffWithin | metronix-app/src/app/api/admin/daily-summary/route.ts:24-28 | an instant lies in a UTC day's range exactly when it has that day number |
| DailySummary.LocalBoundsMissTheReportedDay | metronix-app/src/app/api/admin/daily-summary/route.ts:20-28 | as written: on a server five hours behind UTC, a complaint of the reported UTC day falls outside the bounds |
| DailySummary.DayBounds | metronix-app/src/app/api/admin/daily-summary/route.ts:21-28 | corrected: a day-long range of the reported UTC day that contains the instant |
| DailySummary.DayBoundsSelectReportedDay | metronix-app/src/app/api/admin/daily-summary/route.ts:21-41 | corrected: the bounds select exactly the complaints of the reported day |
| DailySummary.BoundsAgreeOnUtc | metronix-app/src/app/api/admin/daily-summary/route.ts:24-28 | on a UTC server the two bounds coincide |
| DailySummary.DayComplaints | metronix-app/src/app/api/admin/daily-summary/route.ts:24-52 | as written: exactly the complaints of the target instant's local day on the server's clock, newest first |
| DailySummary.CorrectedDayComplaints | metronix-app/src/app/api/admin/daily-summary/route.ts:21-52 | corrected: exactly the complaints of the UTC day in the summary's label, newest first |
| DailySummary.SelectionAgreesOnUtc | metronix-app/src/app/api/admin/daily-summary/route.ts:21-28 | on a server running on UTC the handlers' selection equals the corrected one |
| DailySummary.Get | metronix-app/src/app/api/admin/daily-summary/route.ts:103-171 | 401 for non-admins; 500 with "Invalid time value" exactly for an unparsable date; otherwise the UTC day's label with the local day's complaints and their counts, which sum to at most the total |
| DailySummary.GetMissesTheLabelledDay | metronix-app/src/app/api/admin/daily-summary/route.ts:111-123 | as written: on a server five hours behind UTC, the summary labelled day 10 counts none of a store holding one complaint from noon UTC on day 10, which the corrected selection keeps |
| DailySummary.GetCountsTheDay | metronix-app/src/app/api/admin/daily-summary/route.ts:125-155 | the total and the SUBMITTED, ASSIGNED and RESOLVED counts are those of the store's complaints inside the local-day bounds |
| DailySummary.Post | metronix-app/src/app/api/admin/daily-summary/route.ts:8-100 | 401; 404 exactly when the admin is not on record; the local day's complaints go under the UTC day's label to the given address or the admin's; success exactly when the send succeeds, with the message id; a failed send gives 500 with its error |
| DailySummary.PostWithoutMailConfig | metronix-app/src/app/api/admin/daily-summary/route.ts:69-81 | without mail credentials the request fails with the configuration error |
| DailySummary.PostAndGetAgree | metronix-app/src/app/api/admin/daily-summary/route.ts:24-52 | the summary mailed for a date has the same label and figures as the GET for that date |
| SolverQueue.Available | metronix-app/src/app/api/solvers/complaints/route.ts:15-33 | exactly the SUBMITTED complaints without a solver, higher priority first and oldest first among equals |
| SolverQueue.Mine | metronix-app/src/app/api/solvers/complaints/route.ts:36-52 | exactly the caller's complaints, most recently updated first |
| SolverQueue.Get | metronix-app/src/app/api/solvers/complaints/route.ts:7-61 | with the available order in list form: 401 exactly without an id, whatever the role; otherwise both lists with the citizen and without the solver relation |
| SolverQueue.GetAsWritten | metronix-app/src/app/api/solvers/complaints/route.ts:7-61 | as written: 401 exactly without an id; a success only if the store accepts both `orderBy` arguments, and then the same reply as `Get` |
| SolverQueue.QueueRefusedAsWritten | metronix-app/src/app/api/solvers/complaints/route.ts:29-32 | the two-field `orderBy` object makes every signed-in caller's request fail with 500, while the list form is accepted and `Get` answers |
| SolverQueue.QueueListsDisjoint | metronix-app/src/app/api/solvers/complaints/route.ts:15-52 | no complaint is in both lists |
| SolverQueue.QueueOmitsSolver | metronix-app/src/app/api/solvers/complaints/route.ts:18-50 | no listed record carries its solver |
| SolverDashboard.Combine | metronix-app/src/app/solver/dashboard/page.tsx:71 | the available list followed by the assigned list |
| SolverDashboard.SolverIdOf | metronix-app/src/app/solver/dashboard/page.tsx:162 | `c.solver?.id` is defined exactly when the record carries a solver |
| SolverDashboard.ViewsDisjoint | metronix-app/src/app/solver/dashboard/page.tsx:161-163 | the three views never share a complaint, and a record without a solver is never the caller's |
| SolverDashboard.MineEmptyOnServerLists | metronix-app/src/app/solver/dashboard/page.tsx:162-163 | as written: on the server's lists both "mine" views are empty |
| SolverDashboard.CorrectedViewsMatchServer | metronix-app/src/app/solver/dashboard/page.tsx:161-163 | corrected: testing the complaint's `solverId` shows exactly the server's assigned and resolved complaints of the caller |
| SolverDashboard.StatusTone | metronix-app/src/app/solver/dashboard/page.tsx:81-92 | grey exactly for a status outside the three stored ones |
| SolverDashboard.PriorityTone | metronix-app/src/app/solver/dashboard/page.tsx:94-105 | red exactly for HIGH, orange exactly for MEDIUM, grey for everything else |
| SolverDashboard.StatusTonesDistinct | metronix-app/src/app/solver/dashboard/page.tsx:81-92 | the three stored statuses get three colours |
| SolverDashboard.NormalLooksLikeLow | metronix-app/src/app/solver/dashboard/page.tsx:94-105 | NORMAL, the default priority, looks the same as LOW |
| CitizenForm.OnDrop | metronix-app/src/app/citizen/dashboard/CitizenDashboardClient.tsx:140-142 | the first three files of the old and the accepted ones together |
| CitizenForm.RemoveAt | metronix-app/src/app/citizen/dashboard/CitizenDashboardClient.tsx:167-169 | every file but the one at the index; an index outside the list removes nothing |
| CitizenForm.AttachmentsStayCapped | metronix-app/src/app/citizen/dashboard/CitizenDashboardClient.tsx:140-169 | any sequence of drops and removals keeps at most three files, each one a dropped file |
| CitizenForm.FormFields | metronix-app/src/app/citizen/dashboard/CitizenDashboardClient.tsx:171-187 | the five text fields always, each coordinate only when truthy, and the files in order |
| CitizenForm.AfterSubmit | metronix-app/src/app/citizen/dashboard/CitizenDashboardClient.tsx:194-205 | success resets every form field to the initial state and empties the list; failure keeps the draft |
| CitizenForm.PickedDraftValidation | metronix-app/src/app/citizen/dashboard/CitizenDashboardClient.tsx:171-187 | a draft filled in through the pickers passes the handler's field checks exactly when it passes the browser's `required` gate: title, description and category non-empty |
| CitizenForm.SubmittedDraftsPass | metronix-app/src/app/citizen/dashboard/CitizenDashboardClient.tsx:271-337 | every draft the browser lets `handleSubmit` send, with picker-chosen category and priority, passes the handler's field checks |
| CitizenForm.InitialDraftRefused | metronix-app/src/app/citizen/dashboard/CitizenDashboardClient.tsx:68-76 | the initial and reset form fail the browser's `required` gate, so they are never sent; the handler would refuse them for missing fields |
| CitizenForm.DropzoneMatchesServerLimit | metronix-app/src/app/citizen/dashboard/CitizenDashboardClient.tsx:138-141 | files the dropzone accepts are never rejected by the upload loop; both limits are 10 MiB |
| CitizenForm.ZeroCoordinateDropped | metronix-app/src/app/citizen/dashboard/CitizenDashboardClient.tsx:182-183 | a coordinate of exactly zero is not sent |
| CitizenForm.CategoryLabel | metronix-app/src/app/citizen/dashboard/CitizenDashboardClient.tsx:317 | the first character kept, the rest lower-cased |
| CitizenForm.LabelRoundTrip | metronix-app/src/app/citizen/dashboard/CitizenDashboardClient.tsx:317 | upper-casing a category's label gives back the category |
| CitizenForm.LabelsDistinct | metronix-app/src/app/citizen/dashboard/CitizenDashboardClient.tsx:317 | distinct categories get distinct labels |
| CitizenForm.ClientListsMatchServer | metronix-app/src/app/citizen/dashboard/CitizenDashboardClient.tsx:31-45 | the form offers exactly the categories the handler accepts, and only accepted priorities |
| CitizenForm.PriorityTone | metronix-app/src/app/citizen/dashboard/CitizenDashboardClient.tsx:41-45 | grey exactly for a priority outside LOW, NORMAL and HIGH |
| CitizenForm.StatusTone | metronix-app/src/app/citizen/dashboard/CitizenDashboardClient.tsx:47-51 | grey exactly for a status outside the three stored ones |
| CitizenForm.TonesDistinct | metronix-app/src/app/citizen/dashboard/CitizenDashboardClient.tsx:41-51 | each known priority and each stored status has its own colour |
| AdminClient.Lookup | metronix-app/src/app/admin/dashboard/EnhancedDashboard.tsx:142-147 | the first value under a key; undefined exactly when the key is absent |
| AdminClient.SetFilter | metronix-app/src/app/admin/dashboard/EnhancedDashboard.tsx:201-203 | the key gets the value and every other key keeps its own; an existing key keeps its place, a new one is appended |
| AdminClient.SetFilterKeepsShape | metronix-app/src/app/admin/dashboard/EnhancedDashboard.tsx:86-92 | changing one of the page's five filters keeps the filter object's keys |
| AdminClient.QueryParams | metronix-app/src/app/admin/dashboard/EnhancedDashboard.tsx:142-147 | exactly the filters with non-empty values |
| AdminClient.QueryParamsLookup | metronix-app/src/app/admin/dashboard/EnhancedDashboard.tsx:142-147 | reading a key of the query string gives the filter's value when it is non-empty, and nothing otherwise |
| AdminClient.ServerQuery | metronix-app/src/app/api/admin/complaints/route.ts:14-26 | the handler reads category, priority, status and `solverId` from the query string |
| AdminClient.QueryAtServer | metronix-app/src/app/admin/dashboard/EnhancedDashboard.tsx:86-149 | the handler sees the page's category, priority and status when set, and never a solver filter |
| AdminClient.DepartmentAndSolverIgnored | metronix-app/src/app/admin/dashboard/EnhancedDashboard.tsx:86-149 | the department and solver filters never change the query the handler runs |
| AdminClient.StatusFilterOutcomes | metronix-app/src/app/admin/dashboard/EnhancedDashboard.tsx:376-386 | choosing a status the store does not know makes the listing fail with 500 |
| AdminClient.StatisticsOf | metronix-app/src/app/admin/dashboard/EnhancedDashboard.tsx:119-128 | as written: each of the six figures is the top-level field of the reply when present and truthy, and 0 (or `[]`) otherwise |
| AdminClient.StatisticsFromDashboardAreZero | metronix-app/src/app/admin/dashboard/EnhancedDashboard.tsx:114-128 | as written: on the dashboard endpoint's reply every card shows 0 |
| AdminClient.CorrectedStatisticsShowFigures | metronix-app/src/app/admin/dashboard/EnhancedDashboard.tsx:119-128 | corrected: reading `stats.complaints.*` shows the store's total, SUBMITTED, ASSIGNED and RESOLVED counts |
| AdminClient.ChartOf | metronix-app/src/app/admin/dashboard/EnhancedDashboard.tsx:166-169 | one label and one value per point, in order |
| AdminClient.ChartSum | metronix-app/src/app/admin/dashboard/EnhancedDashboard.tsx:169 | the chart's values sum to the series total |
| AdminClient.ChartShowsTheWindow | metronix-app/src/app/admin/dashboard/EnhancedDashboard.tsx:159-169 | the chart's values sum to the number of complaints of the last thirty days |
| AdminClient.StatusPick | metronix-app/src/app/admin/dashboard/EnhancedDashboard.tsx:500-510 | the status picker sends the id and the status only |
| AdminClient.DepartmentPick | metronix-app/src/app/admin/dashboard/EnhancedDashboard.tsx:515-523 | a request is sent exactly for a non-empty choice, and then it carries the department |
| AdminClient.SolverPick | metronix-app/src/app/admin/dashboard/EnhancedDashboard.tsx:527-534 | a request is sent exactly for a non-empty choice, and then it carries the solver |
| AdminClient.StatusPickOutcomes | metronix-app/src/app/admin/dashboard/EnhancedDashboard.tsx:500-510 | a status pick succeeds exactly for a stored status; PENDING and IN_PROGRESS give 500 and change nothing |
| AdminClient.DepartmentPickOnlyTouches | metronix-app/src/app/admin/dashboard/EnhancedDashboard.tsx:515-523 | a department pick succeeds but changes only the modification time |
| AdminClient.SolverPickMissesQueue | metronix-app/src/app/admin/dashboard/EnhancedDashboard.tsx:527-541 | as written: assigning by profile id leaves the complaint out of that solver's queue when the profile id differs from the user id |
| AdminClient.CorrectedSolverPickReachesQueue | metronix-app/src/app/admin/dashboard/EnhancedDashboard.tsx:527-541 | corrected: assigning by user id puts the complaint in that solver's queue |
| AdminClient.StatusTone | metronix-app/src/app/admin/dashboard/EnhancedDashboard.tsx:232-240 | grey exactly outside PENDING, IN_PROGRESS and RESOLVED |
| AdminClient.PriorityTone | metronix-app/src/app/admin/dashboard/EnhancedDashboard.tsx:242-249 | grey exactly outside the three priorities |
| AdminClient.StoredStatusesMostlyGray | metronix-app/src/app/admin/dashboard/EnhancedDashboard.tsx:232-240 | of the stored statuses only RESOLVED gets a colour |

## Left out

- Persistence:
  - The store's I/O, the `prisma.$disconnect()` in `finally` blocks, and console logging.
  - Writing the upload directory (`mkdir`, `writeFile`). The model records the written file names instead.
- Rendering:
  - JSX markup and the markup of the e-mail templates. The templates are modelled by the values they fill in.
  - ISO date strings and `toLocaleDateString`: the `dayLabel` parameter.
  - `status.replace('_', ' ')` in the badges.
  - Number-to-string conversion of coordinates: the `show` parameter.
- Time:
  - The daily summary's local-day bounds use a fixed offset of the server clock from UTC (the `tz` effect). Daylight-saving changes are not modelled.
  - The store stamps `updatedAt` on every successful update. The schema is not part of this model.
- Store behaviour:
  - The store's ordering of priority values is the `rank` parameter.
  - Foreign-key checks on `solverId` and `departmentId` are not modelled, so an update naming an unknown solver succeeds here. The check on a new complaint's `citizenId`/`userId` is modelled.
  - Validation of `orderBy` arguments is modelled only as far as the solver queue needs it: an object names one field, and several fields take a list.
  - The enumeration check sits in the store, not in the handler. The model reports its failure where the handler's `catch` does, as 500.
- Client behaviour:
  - File-type filtering and the `maxFiles` option of the dropzone. Only its size limit and the list cap are modelled.
  - The citizen page's fetch, redirect and toast handling.
  - The solver page's lifecycle actions, which call routes that are not part of this model.
- ComplaintsRoute.Post: `lat` and `lng` are stored as the submitted text. The source stores `parseFloat` of it, so "1.50" is stored as 1.5 and "abc" as NaN. Floating-point parsing is not modelled.
- SolverQueue.Available: models the order the list form `[{ priority: 'desc' }, { createdAt: 'asc' }]` gives. The handler as written passes one object with two fields. The model assumes the store's validation refuses that object (`GetAsWritten`); the store client's version is not part of this model.
- Analytics.ComplaintsByDay: the window starts exactly thirty days of milliseconds before now. The source steps back thirty local calendar days, which is an hour more or less when a daylight-saving change falls inside the window; time zones are not modelled there.
- Analytics: the department and priority statistics keep the shapes the route returns. The admin page's use of them beyond `|| []` is not modelled.
- CitizenForm.CategoryLabel: case mapping is ASCII-only. Categories are upper-case ASCII tokens, so nothing is lost for them.
- Users.CreatedAccountSignIn: the hash is assumed never to return an empty string. That holds for bcrypt output.

## Findings

| source | as written | input that shows it | evidently intended | confidence | as-written member | corrected member |
|---|---|---|---|---|---|---|
| metronix-app/src/app/solver/dashboard/page.tsx:162-163 | "My assigned" and "my resolved" test `c.solver?.id`. The solver route never includes the solver relation. | A solver holding an ASSIGNED complaint: the server lists it under `assigned`, but the page shows it in neither view. | Test the complaint's own `solverId` against the signed-in id. | not executed | SolverDashboard.MineEmptyOnServerLists | SolverDashboard.CorrectedViewsMatchServer |
| metronix-app/src/app/admin/dashboard/EnhancedDashboard.tsx:119-128 | The cards read `totalComplaints` and the other figures from the top level of the `/api/admin/dashboard` reply. That reply nests them under `stats.complaints`. | Any store with complaints: every card shows 0. | Read `stats.complaints.total`, `.submitted`, `.assigned` and `.resolved`. | not executed | AdminClient.StatisticsFromDashboardAreZero | AdminClient.CorrectedStatisticsShowFigures |
| metronix-app/src/app/api/admin/daily-summary/route.ts:20-28 | The date label is the UTC day (`toISOString`). The bounds are the server's local day (`setHours`). | Server at UTC−5, target 00:00 UTC of day D: a complaint at 12:00 UTC of day D is left out of the summary labelled D. | Take the bounds of the UTC day the summary is labelled with. | not executed | DailySummary.GetMissesTheLabelledDay | DailySummary.CorrectedDayComplaints |
| metronix-app/src/app/api/solvers/complaints/route.ts:29-32 | The available list is ordered with one `orderBy` object naming two fields. The store's `orderBy` input takes one field per object. | Any signed-in caller: the first query is refused, the `catch` answers 500, and the queue never loads. | `orderBy: [{ priority: 'desc' }, { createdAt: 'asc' }]`. | not executed; depends on the store client's input validation | SolverQueue.QueueRefusedAsWritten | SolverQueue.Get |
| metronix-app/src/app/admin/dashboard/EnhancedDashboard.tsx:527-541 | The solver picker sends the solver profile's id as `solverId`. The solver queue matches `solverId` against the solver's user id. | A profile whose id differs from its user's id: the complaint is assigned but never appears in that solver's queue. | Send the profile's user id. | not executed | AdminClient.SolverPickMissesQueue | AdminClient.CorrectedSolverPickReachesQueue |
