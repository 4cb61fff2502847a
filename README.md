# ShipMove TA Tracker: a verified model of the dashboard's logic

ShipMove TA Tracker is a web dashboard for recording personnel movements and their
travel-allowance (TA) amounts, reviewing them, and administering the users who may do
so. This project models in Dafny the parts of it that decide things:

- the deduplication fingerprint of a movement (`fingerprint.dfy`);
- the validation rules of the movement form (`movement_schema.dfy`);
- the movement server actions (`movements.dfy`):
  - the movements table as a store class whose invariant is the unique constraint on fingerprints;
  - creation with duplicate detection, the duplicate look-up, and status updates;
  - the read-side queries (filtered list, audit trail, dashboard statistics) as functions of the rows;
- the submit handler of the movement form (`movement_form.dfy`);
- the client-side filters and the CSV export of the movement log (`movement_log.dfy`);
- the soldier roster filters and their Reset control (`soldier_table.dfy`);
- roles and the role look-up with its viewer fallback (`roles.dfy`);
- the user administration actions (`users.dfy`):
  - the admin check;
  - the merge of profiles with auth users;
  - account creation with clean-up on failure, over a store of accounts, profiles and audit rows;
- the server-side role guards (`role_guards.dfy`);
- the client role hook (`use_role.dfy`);
- the request middleware's redirect decision (`middleware.dfy`).

Shared helpers give JavaScript's string operations over ASCII: `trim`, `toLowerCase`,
`includes`, `startsWith`, and `split`/`join` on one character (`text.dfy`). Others are
filtering and sorting of sequences (`seqs.dfy`) and the Option/Result types
(`wrappers.dfy`).

Conventions:

- Backend calls become parameters that the caller supplies:
  - a query's rows arrive as a `Result`;
  - a failure is an optional message (`fault`) or a flag;
  - the auth service's answers, the clock (`now`) and random text are given values.
- Timestamps are integers; the fingerprint takes the ISO text of the start time.
- Amounts are integers (minor units).
- Strings are sequences of characters, with ASCII whitespace and ASCII case.

## Model

| member | source | states |
|---|---|---|
| Fingerprint.DatePart | lib/fingerprint.ts:14-16 | the date component holds no 'T', is a prefix of the start time, and ends at its first 'T' or at its end |
| Fingerprint.NormalizeLocation | lib/fingerprint.ts:18-19 | a normalised location has no leading or trailing whitespace and no capital letter |
| Fingerprint.GenerateMovementFingerprint | lib/fingerprint.ts:8-22 | the key is soldier id, date, normalised origin and normalised destination joined by a pipe, in that order |
| Fingerprint.FingerprintFields | lib/fingerprint.ts:21 | splitting the key on a pipe gives back the four normalised components when none contains a pipe |
| Fingerprint.FingerprintInjective | lib/fingerprint.ts:21 | equal keys of separator-free inputs mean equal soldier id, date and normalised locations |
| Fingerprint.FingerprintNotInjective | lib/fingerprint.ts:21 | a pipe inside a location lets two different routes share a key |
| Fingerprint.TimeOfDayIgnored | lib/fingerprint.ts:14-16 | two start times on the same date give the same key, whatever the time of day |
| Fingerprint.NormalizeIgnoresCase | lib/fingerprint.ts:18-19 | locations that differ only in letter case normalise alike |
| Fingerprint.NormalizeIgnoresPadding | lib/fingerprint.ts:18-19 | surrounding whitespace does not change a normalised location |
| Fingerprint.NormalizeIdempotent | lib/fingerprint.ts:18-19 | normalising twice equals normalising once |
| Fingerprint.LocationVariantsCollide | lib/fingerprint.ts:18-21 | movements whose locations differ only in case or padding get the same key |
| Fingerprint.SoldierIdVerbatim | lib/fingerprint.ts:21 | soldier ids are not normalised: any two different ids, even by case only or containing a pipe, give different keys |
| MovementSchema.IsUuid | schemas/movement.ts:4 | UUID text is 36 characters with '-' at positions 8, 13, 18 and 23 and hexadecimal digits elsewhere |
| MovementSchema.UuidIffGroups | schemas/movement.ts:4 | the positional UUID check holds iff splitting on '-' gives hex groups of 8, 4, 4, 4 and 12 |
| MovementSchema.Validate | schemas/movement.ts:3-20 | no issue iff the id is a UUID, both dates are present with end after start, the locations have at least 2 characters, type and mode at least 1, and the amount is not negative |
| MovementSchema.ReportedAreFailed | schemas/movement.ts:3-20 | the fields named by the issues are exactly the fields whose rule fails, the refinement counted only when both dates are present |
| MovementSchema.FailedIdAndDates | schemas/movement.ts:4-20 | id, start, end and origin are each reported iff their own rule fails; end also iff it is not after start |
| MovementSchema.FailedRouteAndAmount | schemas/movement.ts:12-15 | destination, type, mode and amount are each reported iff their own minimum is missed; an amount of zero passes |
| MovementSchema.EndNotAfterStartRejected | schemas/movement.ts:17-20 | an end at or before the start is rejected with the refinement's message on end_time |
| MovementSchema.NotesIrrelevant | schemas/movement.ts:16 | the notes never change the outcome |
| Movements.NameInjective | types/app.ts:14 | distinct statuses have distinct stored names |
| Movements.InsertedRow | lib/actions/movements.ts:48-55 | the stored row carries every submitted value, the given fingerprint, its id and the insertion time |
| Movements.NotesOrNull | lib/actions/movements.ts:138 | notes are stored iff they are present and non-empty, and then unchanged |
| Movements.ApplyStatus | lib/actions/movements.ts:136-141 | a status update sets status and notes and keeps every other column |
| Movements.MovementStore.Lookup | lib/actions/movements.ts:28-32 | the row found carries the fingerprint; none is found iff no row carries it |
| Movements.MovementStore.CheckMovementDuplicate | lib/actions/movements.ts:19-36 | the stored movement whose fingerprint is the generated fingerprint of the soldier id, start time, origin and destination given; nothing iff no row carries that key, or when the query fails |
| Movements.MovementStore.Create | lib/actions/movements.ts:42-76 | inserts iff there is no backend error and no row holds the fingerprint; otherwise a duplicate report with the holder's id (absent if the re-fetch fails) or the error's message, and the table unchanged; fingerprints stay unique |
| Movements.MovementStore.UpdateMovementStatus | lib/actions/movements.ts:129-148 | only the addressed row changes, by ApplyStatus; a backend error or missing row changes nothing |
| Movements.CreateTwiceSameFingerprint | lib/actions/movements.ts:57-71 | a second create with a stored fingerprint is reported as a duplicate of the first row |
| Movements.FetchMovements | lib/actions/movements.ts:78-110 | exactly the rows meeting every supplied filter (inclusive date bounds), each as often as stored, newest first; nothing on error |
| Movements.FetchCounts | lib/actions/movements.ts:78-110 | each row meeting the filters comes back exactly as often as it is stored; any other row never |
| Movements.FetchWithoutFilters | lib/actions/movements.ts:86-100 | with no filter the whole table comes back |
| Movements.EmptyFilterStringsIgnored | lib/actions/movements.ts:86-94 | an empty soldier filter restricts no more than an absent one, and so does an empty type filter, whatever the other filters are |
| Movements.StatusFilterNarrows | lib/actions/movements.ts:89-91 | adding a status filter never returns more rows |
| Movements.FetchMovementAudit | lib/actions/movements.ts:112-127 | exactly the entries of that movement, oldest first; nothing on error |
| Movements.LatestEntryLast | lib/actions/movements.ts:119 | a movement's trail is non-empty and ends with one of its newest entries |
| Movements.FetchDashboardStats | lib/actions/movements.ts:150-185 | active and pending count approved and pending rows, total spend sums the amounts, today's count is the number of rows starting at or after today's start, month spend sums the amounts of rows starting at or after the month's start, location count is 12; all zeros on error |
| Movements.FilterCountsStatus | lib/actions/movements.ts:174-175 | filtering by a status and taking the length counts the rows with that status |
| Movements.TotalAmountPartition | lib/actions/movements.ts:176-180 | the sums over the rows meeting a condition and over the others add up to the total |
| Movements.MonthSpendAtMostTotal | lib/actions/movements.ts:176-180 | with no negative amount, 0 <= month spend <= total spend |
| Movements.TotalSpendSplitsAtMonth | lib/actions/movements.ts:176-180 | total spend is month spend plus the spend on movements starting earlier |
| Movements.ActivePlusPendingAtMostRows | lib/actions/movements.ts:174-175 | active plus pending is at most the number of rows |
| Movements.TodayWithinMonth | lib/actions/movements.ts:177-179 | when today lies in the month, today's count is at most the month's number of movements |
| MovementForm.Submission | components/features/movements/movement-form.tsx:158-170 | the create action gets the form's values with status pending and end after start |
| MovementForm.ErrorText | components/features/movements/movement-form.tsx:201 | the shown error is the thrown message, or the generic one when that is empty |
| MovementForm.OnSubmit | components/features/movements/movement-form.tsx:147-184 | recorded iff no backend error and no movement holds the key of the form's values; a duplicate with a known id is looked up and shown; otherwise the error is shown and the table is unchanged |
| MovementForm.SubmitSameMovementTwice | components/features/movements/movement-form.tsx:150-183 | the same movement submitted again at another time of day is shown as a duplicate of the first |
| MovementLog.FilteredData | components/features/movements/movement-log-table.tsx:51-79 | a row is shown iff it meets the search, status, type and date conditions, as many times as it occurs in the table; the result keeps the table's order |
| MovementLog.EmptySearchMatches | components/features/movements/movement-log-table.tsx:53-57 | the empty search matches every row |
| MovementLog.NoFiltersShowAll | components/features/movements/movement-log-table.tsx:51-79 | with an empty search and every filter on "all" the whole table is shown |
| MovementLog.SearchIgnoresCase | components/features/movements/movement-log-table.tsx:53-57 | a search in capitals matches the same rows |
| MovementLog.SearchFindsOrigin | components/features/movements/movement-log-table.tsx:55 | a term occurring in the origin, up to case, matches |
| MovementLog.ExportDisabledIff | components/features/movements/movement-log-table.tsx:183 | export is disabled iff no row meets the conditions |
| MovementLog.UnknownStatusShowsNothing | components/features/movements/movement-log-table.tsx:59 | a status filter naming no status shows nothing |
| MovementLog.RowFields | components/features/movements/movement-log-table.tsx:84-94 | nine cells per row, in the header's order: id, soldier name (empty when missing), start, end, origin, destination, type, status name and amount as text |
| MovementLog.IdCellRoundTrip | components/features/movements/movement-log-table.tsx:85 | the id cell reads back as the row's id |
| MovementLog.HeaderColumns | components/features/movements/movement-log-table.tsx:83-97 | the header line splits into the nine column names |
| MovementLog.RowColumns | components/features/movements/movement-log-table.tsx:84-98 | a row line splits into its nine cells when no cell contains a comma |
| MovementLog.CommaInCellAddsColumns | components/features/movements/movement-log-table.tsx:98 | without quoting, a comma in a cell yields more than nine columns |
| MovementLog.GeneratedCellsClean | components/features/movements/movement-log-table.tsx:85-93 | the id, status and amount cells never contain a comma or a newline |
| MovementLog.ExportToCsv | components/features/movements/movement-log-table.tsx:81-99 | the export begins with the header line, and is just that line when no row is shown |
| MovementLog.ExportLines | components/features/movements/movement-log-table.tsx:96-99 | the export splits into the header line and one line per row in order, when no cell has a newline |
| SoldierTable.FilterSoldiers | components/features/soldiers/soldier-table.tsx:61-73 | a soldier is shown iff search, rank and status conditions hold, as many times as it occurs in the roster; the roster order is kept |
| SoldierTable.InitialFiltersShowAll | components/features/soldiers/soldier-table.tsx:55-73 | the initial filters show the whole roster |
| SoldierTable.SearchIgnoresCase | components/features/soldiers/soldier-table.tsx:62-64 | the search ignores letter case |
| SoldierTable.ActiveInactivePartition | components/features/soldiers/soldier-table.tsx:67-70 | "active" and "inactive" split the soldiers that "all" shows |
| SoldierTable.SoldierTableState.constructor | components/features/soldiers/soldier-table.tsx:55-57 | the search starts empty and both filters on "all", so Reset is hidden |
| SoldierTable.SoldierTableState.FilteredData | components/features/soldiers/soldier-table.tsx:61-73 | the shown rows are the roster's soldiers meeting the current search and filters, each as often as in the roster, in roster order |
| SoldierTable.SoldierTableState.SetSearchTerm | components/features/soldiers/soldier-table.tsx:55 | changes the search only |
| SoldierTable.SoldierTableState.SetRankFilter | components/features/soldiers/soldier-table.tsx:56 | changes the rank filter only |
| SoldierTable.SoldierTableState.SetStatusFilter | components/features/soldiers/soldier-table.tsx:57 | changes the status filter only |
| SoldierTable.SoldierTableState.ResetFilters | components/features/soldiers/soldier-table.tsx:75-79 | all three back to their initial values, which hides Reset |
| SoldierTable.SoldierTableState.ResetVisible | components/features/soldiers/soldier-table.tsx:122 | Reset shows while the search is non-empty or a filter is not "all" |
| SoldierTable.SoldierTableState.HiddenResetShowsAll | components/features/soldiers/soldier-table.tsx:122 | while Reset is hidden the whole roster is shown |
| Roles.NameInjective | types/app.ts:1 | distinct roles have distinct stored names |
| Roles.ProfileRole | lib/supabase/server.ts:44-54 | the stored role, or viewer when the query fails or finds no profile |
| Roles.AdminOnlyFromProfile | lib/supabase/server.ts:52-53 | the look-up yields admin iff it succeeds and the stored profile says admin |
| Roles.FailureIsViewer | lib/supabase/server.ts:44-54 | a failed query, or a user without a profile, gets the viewer role |
| Users.RequireAdmin | lib/actions/users.ts:22-26 | passes iff a caller is signed in and their looked-up role is admin; otherwise "Unauthorized" or "Forbidden: Admin access only" |
| Users.MissingProfileForbidden | lib/actions/users.ts:25-26 | a caller without a profile is refused as forbidden |
| Users.FindIndex | lib/actions/users.ts:45 | the index of the first auth user with the id, or the length when none has it |
| Users.Find | lib/actions/users.ts:45 | nothing is found iff no auth user has the id; a found user has it |
| Users.FindFirst | lib/actions/users.ts:45 | the found user is the first one with the id |
| Users.MergeUser | lib/actions/users.ts:44-54 | id, role and full name come from the profile; a truthy profile creation time wins |
| Users.MergeWithMatch | lib/actions/users.ts:45-52 | with a first matching auth user: its email; active iff it has signed in; its creation time for a missing one, else now |
| Users.MergeWithoutMatch | lib/actions/users.ts:45-52 | with no matching auth user: invited, no email, creation time from the profile or now |
| Users.LaterDuplicatesIgnored | lib/actions/users.ts:45 | auth users after the first match do not change the merge |
| Users.MergeUsers | lib/actions/users.ts:44-54 | one entry per profile, in order, with id, role and full name copied |
| Users.FetchManagedUsers | lib/actions/users.ts:21-55 | the merged list iff admin check, profiles query and user list all succeed; otherwise the first failure's message with its prefix |
| Users.ActiveHasSignedIn | lib/actions/users.ts:52 | a user listed as active has an auth user that has signed in |
| Users.GeneratedPassword | lib/actions/users.ts:75 | exactly the first random part, "!", then the second random part in capitals, with no lower-case letter after the "!" |
| Users.ChoosePassword | lib/actions/users.ts:75 | never empty; the given password when it is non-empty, else the generated one |
| Users.ChosenPasswordEchoed | lib/actions/users.ts:75 | a non-empty chosen password is the one used |
| Users.AccountStore.CreateAuthUser | lib/actions/users.ts:78-85 | adds the account and the profile the trigger creates |
| Users.AccountStore.DeleteAuthUser | lib/actions/users.ts:107 | removes the account, and with it its profile, and keeps the audit rows |
| Users.AccountStore.SetUpProfile | lib/actions/users.ts:96-103 | sets role, full name and creator of the profile and keeps the rest |
| Users.AccountStore.CreateManagedUser | lib/actions/users.ts:60-132 | succeeds iff the caller is admin, the user is created and the profile set up; then the credentials echo email and the password used, the new user has the requested role, and one audit row is added unless its insert fails; each failure has its message, and leaves no account behind unless the clean-up fails |
| RoleGuards.RoleGuard | lib/auth/role-guards.tsx:11-29 | no user goes to "/login"; a role outside the allowed ones goes to the fallback path, "/" by default; otherwise the content renders |
| RoleGuards.AdminOnly | lib/auth/role-guards.tsx:34-40 | no user goes to "/login"; a signed-in user sees the content iff the looked-up role is admin |
| RoleGuards.WriteAccess | lib/auth/role-guards.tsx:45-51 | no user goes to "/login"; a signed-in user sees the content iff the looked-up role is admin or data entry |
| RoleGuards.NoRolesAdmitsNobody | lib/auth/role-guards.tsx:24-26 | with no allowed role every signed-in user is redirected |
| RoleGuards.AdminOnlyAdmits | lib/auth/role-guards.tsx:34-40 | renders iff the stored role is admin; other signed-in users go to "/" |
| RoleGuards.WriteAccessAdmits | lib/auth/role-guards.tsx:45-51 | renders iff the role is admin or data entry; viewers go to "/" |
| RoleGuards.LookupFailureDenies | lib/auth/role-guards.tsx:22-26 | a failed role look-up keeps a user out of both guards |
| RoleGuards.AdminOnlyNarrower | lib/auth/role-guards.tsx:34-51 | whatever AdminOnly admits, WriteAccess admits |
| RoleGuards.GuardsAgreeWithFlags | lib/auth/role-guards.tsx:34-51 | AdminOnly renders iff the hook's isAdmin holds, WriteAccess iff isDataEntry, for the same profile data |
| UseRole.Flags | hooks/use-role.ts:38-40 | isAdmin implies isDataEntry; isViewer excludes both; no role sets no flag; a role sets exactly one of isDataEntry and isViewer |
| UseRole.FlagsMeaning | hooks/use-role.ts:38-40 | isAdmin iff admin, isDataEntry iff admin or data entry, isViewer iff viewer |
| UseRole.RoleState.constructor | hooks/use-role.ts:8-9 | no role and loading |
| UseRole.RoleState.Value | hooks/use-role.ts:38-42 | the hook's value carries role and loading, and the flags derived from role |
| UseRole.RoleState.FetchRole | hooks/use-role.ts:13-33 | no user gives no role; otherwise the looked-up role, viewer on error; loading ends on every path |
| UseRole.ResolveSignedOut | hooks/use-role.ts:15-19 | signed out: no role, no flag, not loading |
| UseRole.ResolveAfterLookupError | hooks/use-role.ts:27-31 | a failed query resolves to viewer with read access only |
| UseRole.ResolveStoredRole | hooks/use-role.ts:27-28 | the flags follow the stored role |
| Middleware.IsAuthPage | lib/supabase/middleware.ts:49 | a login page is a path starting with "/login" |
| Middleware.IsDashboardPage | lib/supabase/middleware.ts:50-55 | a dashboard page is "/" or a path starting with "/soldiers", "/movements", "/review" or "/admin" |
| Middleware.PageKindsDisjoint | lib/supabase/middleware.ts:49-55 | no path is both a login page and a dashboard page |
| Middleware.UpdateSession | lib/supabase/middleware.ts:4-66 | passes when URL or key is missing; redirects a visitor without a session from a dashboard page to "/login" and a signed-in user from a login page to "/"; passes in every other case |
| Middleware.OneRuleFires | lib/supabase/middleware.ts:57-63 | each redirect happens only under its own rule |
| Middleware.NoRedirectLoop | lib/supabase/middleware.ts:57-63 | the target of a redirect passes for the same visitor |
| Middleware.SectionPrefixes | lib/supabase/middleware.ts:49-55 | every path below a section, and any longer name starting with it, is classified with it |
| Middleware.SignedOutReachesLogin | lib/supabase/middleware.ts:57-59 | a visitor without a session on a dashboard page is sent to "/login", which then passes |

## Left out

- Fingerprint.DatePart: takes the start time as ISO text; `toISOString` of a `Date` is not modelled, because it is clock and time-zone formatting.
- MovementSchema.IsUuid: checks the 8-4-4-4-12 hexadecimal layout only, not the version and variant digits. Those are checked inside the validation library, which is not part of this model.
- MovementSchema.Validate: `z.coerce.number` coercion of the amount is not modelled; the amount is already an integer.
- Movements.MovementStore.Create: movement ids are consecutive numbers rather than database-generated UUIDs, and `created_at` is the given `now`.
- Movements.MovementStore.UpdateMovementStatus: a missing row is its own result, NoSuchMovement, rather than the backend's error text for an empty `.single()`, whose wording is not visible.
- Movements.FetchDashboardStats: today's and this month's boundaries are given as instants. `new Date()` and the local calendar are left out as clock arithmetic.
- Movements.FetchMovements: the ordering is stated for `created_at` only; the order among rows with equal `created_at` is the backend's and is not modelled.
- Movements.FetchMovements: the joined soldier and profile columns of the queries are not modelled.
- MovementLog.Matches: the today, week and month date filter depends on the clock and time zone. It is a predicate parameter; "all" is the predicate admitting every row.
- MovementLog.ExportToCsv: the Blob download is browser I/O and is left out.
- MovementLog.RowFields: amounts are integers, so the decimal rendering of fractional amounts is not modelled.
- MovementLog.RowFields: the id cell is the decimal text of the model's numeric movement id; the dashboard writes the row's UUID text unchanged.
- Movements.TotalAmount: `ta_amount` is a number (types/app.ts:36), so `|| 0` changes nothing and a null amount is not modelled.
- MovementForm.OnSubmit: not modelled here:
  - the attachment upload and its random file name (movement-form.tsx:125-145, 186-195), which are storage I/O;
  - the success toast and navigation, which are UI;
  - the loading flag, which is UI.
- MovementForm: the debounced duplicate pre-check (movement-form.tsx:106-123) is a timer. The look-up it performs is Movements.MovementStore.CheckMovementDuplicate.
- Users.FetchManagedUsers: the profiles arrive in the order the backend's `created_at` sort returns, and the merge keeps that order. The sort itself is not modelled.
- Users.FetchManagedUsers: the current time for a missing creation time is a parameter.
- Users.AccountStore.CreateManagedUser: the following are given as parameters:
  - the auth service's answer, including whether the email is already taken and the fresh id;
  - the role that the backend trigger gives a new profile;
  - the failure of the clean-up delete, whose own error the action ignores.
- Users.AccountStore.CreateManagedUser: `revalidatePath` is a cache operation and is left out.
- Users: `Math.random` text is two arbitrary strings given as parameters.
- Users.AccountStore.DeleteAuthUser: the removal of the profile assumes that the database deletes the profile row along with its auth user (a cascading foreign key). That schema is not part of this model, and the clean-up claims of CreateManagedUser rest on it.
- Users.AccountStore: the `email_confirm` and `user_metadata` options are kept on the account record only.
- Middleware.UpdateSession: not modelled here:
  - the cookie callbacks (middleware.ts:20-43);
  - the session refresh;
  - the response object.

  These are library plumbing. The user is a parameter, consulted only when both environment values are set.
- UseRole.RoleState.FetchRole: the React effect and its asynchronous scheduling are not modelled; `fetchRole` is one method call.
- lib/supabase/server.ts and lib/supabase/admin.ts client construction, and the UI markup of all components, are not part of this model.
- lib/actions/search.ts (backend `ilike` search) is not part of this model.
- Concurrency: two creates racing for one fingerprint are modelled as two creates in sequence. Which one wins is the database's choice.
- Strings: `trim` and `toLowerCase` are modelled over ASCII whitespace and ASCII letters, not full Unicode.
- MovementSchema.Validate: string lengths, as in the `min(2)` and `min(1)` checks, count Unicode scalar values. The validation library counts UTF-16 code units, so a single character outside the Basic Multilingual Plane passes its `min(2)` but is rejected here.
