# NestMatrix admin console: a Dafny model of its client-side logic

NestMatrix is a property-rental admin console written in React, Redux Toolkit and TypeScript.
The backend does almost all the work. What the client decides for itself is modelled here as
pure Dafny functions over immutable records, each with a contract, together with lemmas
relating them. That client logic falls into three groups:

- **Slice reducers.** These are buildings, rooms, tenants, contracts, invoices, incidents,
  meter readings, notifications, user requests, settings, dashboard and auth. Each slice is a
  datatype and each handled action a total transition. The list slices share the generic
  shapes in `Slice` (`Paged<T>`, `Listed<T>` and the idle/loading/succeeded/failed `Status`).
  The list edits they perform are in `IdList`: `findIndex`/`find`, replace-first-by-id,
  upsert and filter-out-by-id.
- **Route guards and form validators.**
  - `AdminRoute`, `ProtectedRoute` and `PersistLogin` choose between a spinner, a redirect
    and the child routes.
  - Each Zod schema is an acceptance predicate over the raw form values. This includes the
    tenant phone pattern, modelled character for character.
- **Pure view and URL logic.** This covers:
  - the breadcrumb trail;
  - the query-string filter and page handling;
  - the preconditions and payload for generating an invoice;
  - grouping settings by key prefix;
  - actions that depend on a record's status;
  - table and quick-list rendering;
  - the unread badge;
  - avatar initials.

Some behaviour belongs to JavaScript or to a library, and the model takes it as a parameter:
- JavaScript numbers are modelled by `JsValues.JsNumber`: a finite real, either infinity, or
  NaN.
- `Number(text)` is a parameter `toNumber` wherever the source calls it.
- So are Zod's email validator, `new Date` comparisons, the clock and `URL.createObjectURL`.

Every effect handler is a function from what the component reads to what it dispatches,
shows or navigates to. The outcome of a settled request is `Wrappers.Settled`: resolved, or
rejected with its message. The toasts are `Toasts.Toast`.

## Model

| member | source | states |
|---|---|---|
| Slice.ResetStatus | src/store/buildings/reducers.ts:18-21 | `resetStatus` sets idle and clears the error; records and the three counters are untouched |
| Slice.Pending | src/store/buildings/reducers.ts:26-28 | a list fetch's pending sets loading and changes nothing else |
| Slice.PageLoaded | src/store/buildings/reducers.ts:29-35 | a fulfilled list fetch shows exactly the received page (records in order, page number, total pages, total elements), status succeeded, error kept |
| Slice.Rejected | src/store/buildings/reducers.ts:36-39 | a rejection sets failed with the payload as the error; records and counters stay |
| Slice.Created | src/store/buildings/reducers.ts:41-45 | a created record is appended at the end (old records unchanged, in order), the total grows by exactly one, status succeeded, nothing else changes |
| Slice.Updated | src/store/buildings/reducers.ts:47-53 | an update replaces the first record with the payload's id in place, leaves every other position alone, changes nothing when the id is not listed, and sets succeeded |
| Slice.Deleted | src/store/buildings/reducers.ts:55-59 | a delete removes every record with the id, keeps all others in order, decrements the total even when no record had that id, and sets succeeded |
| Slice.FetchedById | src/store/buildings/reducers.ts:61-69 | a fetch by id replaces the first match or appends when absent, so afterwards looking the id up yields the fetched record; status, counters and error stay |
| Slice.ListResetStatus | src/store/incidents/reducers.ts:20-23 | a list slice's reset sets idle, clears the error and keeps the records |
| Slice.ListPending | src/store/settings/reducers.ts:19-21 | a list fetch's pending that keeps the current records sets only the status to loading |
| Slice.ListPendingCleared | src/store/meterReadings/reducers.ts:25-28 | a pending that starts a new history fetch empties the records and sets loading, keeping the error |
| Slice.ListLoaded | src/store/settings/reducers.ts:22-25 | a fulfilled list fetch holds exactly the received records in order, status succeeded, error kept |
| Slice.ListRejected | src/store/settings/reducers.ts:26-29 | a list rejection sets failed with the payload as the error and keeps the records |
| Slice.ListCleared | src/store/meterReadings/reducers.ts:16-20 | the clear reducer returns the slice to its initial state: no records, idle, no error |
| Buildings.Reduce | src/store/buildings/reducers.ts:14-71 | the buildings reducer: only a page load moves the page counters; only a page load, create or delete moves the total; only a rejection or reset changes the error; every listed id survives every action except a page load or a delete |
| Rooms.Clear | src/store/rooms/reducers.ts:18-24 | `clearRooms` empties the list, zeroes the three counters and sets idle, but keeps the last error |
| Rooms.Reduce | src/store/rooms/reducers.ts:14-72 | the rooms reducer: the page counters move only on a page load or a clear; the error changes only on a rejection or reset; every listed id survives except on a page load, delete or clear |
| Tenants.Created | src/store/tenants/reducers.ts:44-47 | a created tenant is not inserted; only the status drops to idle so the list page refetches |
| Tenants.Reduce | src/store/tenants/reducers.ts:14-64 | the tenants reducer: only a page load or a fetch by id can lengthen the list; page counters move only on a page load; the error changes only on a rejection or reset |
| Contracts.Created | src/store/contracts/reducers.ts:49-52 | a created contract is appended and the status becomes succeeded, but the total is not incremented |
| Contracts.Terminated | src/store/contracts/reducers.ts:58-60 | a termination only sets the status to idle; the listed contract keeps its old status |
| Slice.FetchedByIdSucceeded | src/store/contracts/reducers.ts:66-75 | a contract or invoice fetched by id is upserted (the first match replaced, or appended when absent) and can then be looked up by id; the status becomes succeeded, and counters and error stay |
| Contracts.FileUploaded | src/store/contracts/reducers.ts:76-82 | an uploaded file's contract replaces a listed one and is never appended; the status stays |
| Contracts.Reduce | src/store/contracts/reducers.ts:21-84 | the contracts reducer: the total changes only on a page load; page counters move only on a page load; the error changes only on one of the three rejections or a reset |
| Slice.SelectById | src/store/contracts/selectors.ts:14-15 | `selectContractById` and `selectInvoiceById` yield the first listed record with the id, and nothing exactly when no record has it |
| Slice.SelectPagination | src/store/invoices/selectors.ts:18-27 | the contract and invoice pagination selectors return the slice's three counters unchanged |
| Invoices.Confirmed | src/store/invoices/reducers.ts:59-65 | a confirmed invoice replaces the listed one (never appended); status succeeded |
| Invoices.ConfirmFailed | src/store/invoices/reducers.ts:70-72 | a failed confirm records only the error; the status is not set to failed |
| Invoices.Reduce | src/store/invoices/reducers.ts:18-74 | the invoices reducer: the confirm pending case changes nothing; only a page load or a fetch by id lengthens the list; a confirm rejection leaves status and records; pagination moves only on a page load |
| Settings.Reduce | src/store/settings/reducers.ts:11-44 | the settings reducer: only a fetch replaces the settings, and then with exactly the received list; an update's pending and fulfilled only move the status; the error changes only on a rejection |
| MeterReadings.Recorded | src/store/meterReadings/reducers.ts:42-48 | a recorded reading is put in front exactly when the list is empty or its first reading is of the same room, and otherwise the list is left alone; status succeeded |
| MeterReadings.RecordedKeepsHistory | src/store/meterReadings/reducers.ts:42-48 | recording keeps the list the history of a single room: a reading of another room never joins a non-empty history |
| MeterReadings.Reduce | src/store/meterReadings/reducers.ts:11-54 | the meter-readings reducer: a history fetch and a clear start from an empty list; only a fetch or a record can lengthen the list, and a record adds at most the recorded reading in front |
| Incidents.StatusUpdated | src/store/incidents/reducers.ts:50-57 | an updated incident replaces the listed one with its id in place; an unknown id changes no record; status succeeded |
| Incidents.Deleted | src/store/incidents/reducers.ts:64-67 | a deleted incident is filtered out, the rest keep their order, and status and error stay as they were |
| Incidents.Reduce | src/store/incidents/reducers.ts:15-69 | the incidents reducer: a fetch and a clear start from an empty list; only a fetch can bring in an id that was not listed; a delete leaves the status |
| UserRequests.Settled | src/store/userRequests/reducers.ts:35-38 | an approved or rejected request leaves the pending list, the others keep their order, status succeeded |
| UserRequests.Reduce | src/store/userRequests/reducers.ts:12-60 | the user-requests reducer: a logout returns the initial state, and no action except a fetch adds a request |
| UserRequests.ApproveAndRejectAgree | src/store/userRequests/reducers.ts:35-51 | approving and rejecting a request have the same effect on the slice |
| Notifications.IncrementUnread | src/store/notifications/reducers.ts:20-22 | the socket's increment raises the unread count by exactly one and changes nothing else |
| Notifications.Added | src/store/notifications/reducers.ts:24-35 | a socket notification goes in front of the unchanged list, always unread; a missing or zero id becomes the clock reading and a missing or empty timestamp the current ISO time; the type, message and link are copied as they are, missing or not; the unread count is not touched |
| Notifications.PageLoaded | src/store/notifications/reducers.ts:45-50 | a fetched page replaces the list and the page number and page count; the unread count and the error stay |
| Notifications.MarkedAsRead | src/store/notifications/reducers.ts:62-70 | when the first notification with the id is unread it alone becomes read, the number of unread notifications drops by one, and the counter becomes one less when it was positive and 0 otherwise; otherwise the state is unchanged |
| Notifications.CountUnreadAfterRead | src/store/notifications/reducers.ts:64-66 | marking one unread notification read lowers the number of unread notifications in the list by exactly one |
| Notifications.MarkedAsReadIdempotent | src/store/notifications/reducers.ts:62-70 | marking the same notification read twice has the effect of marking it once |
| Notifications.Reduce | src/store/notifications/reducers.ts:15-72 | the notifications reducer: a reset returns exactly the initial state; the unread count changes only through the increment, the count fetch, mark-as-read and reset; mark-as-read never makes it negative |
| Dashboard.Reduce | src/store/dashboard/reducers.ts:11-30 | the dashboard reducer: a fetch's pending clears the error and keeps the old data; success stores the payload; failure records the error and keeps the data |
| Auth.ClearError | src/store/auth/reducers.ts:18-20 | `clearAuthError` clears the error and changes nothing else |
| Auth.LoginFailed | src/store/auth/reducers.ts:34-39 | a rejected login drops the session, sets failed, and stores the payload or, without one, "An unknown login error occurred" |
| Auth.Reduce | src/store/auth/reducers.ts:13-58 | the auth reducer keeps "authenticated exactly when a user is held"; login pending keeps the session and clears the error; login and profile success hold the profile; profile rejection and logout drop the session and keep the error; only a login rejection writes a new error |
| Auth.ConsistentAlways | src/store/auth/reducers.ts:6-11 | from the initial state, every sequence of auth actions keeps "authenticated exactly when a user is held" |
| RouteGuards.AdminRoute | src/components/shared/AdminRoute.tsx:5-25 | an administrator gets the child routes, exactly any other signed-in user goes to `/unauthorized`, and exactly without a user the guard goes to `/login`; it never shows a spinner |
| RouteGuards.ProtectedRoute | src/components/shared/ProtectedRoute.tsx:8-40 | the profile is fetched exactly when unauthenticated and idle; the spinner shows exactly while idle or loading; once settled, `/login` exactly when unauthenticated and the children exactly when authenticated |
| RouteGuards.ProtectedRouteSettles | src/components/shared/ProtectedRoute.tsx:14-39 | against the auth reducer: a fresh store triggers the profile fetch; after the fetch succeeds the guard shows the children and after it fails it goes to `/login`, and neither state fetches again |
| RouteGuards.Verify | src/components/shared/PersistLogin.tsx:12-33 | the session restore fetches the profile exactly when no user is held, and clears the loading flag exactly when still mounted at the end, otherwise leaving it |
| RouteGuards.VerifyIgnoresOutcome | src/components/shared/PersistLogin.tsx:18-22 | a failed profile fetch is caught, so the effect ends exactly as after a successful one (`Verify` does not read the outcome, so this holds by construction) |
| RouteGuards.PersistLoginView | src/components/shared/PersistLogin.tsx:36-45 | the spinner shows exactly while loading and the children exactly afterwards |
| Breadcrumbs.Segments | src/components/admin/Header.tsx:22 | the path's segments are the non-empty pieces between slashes, none containing a slash; a string is a segment exactly when it is a non-empty piece of the path split at `/` |
| Breadcrumbs.SegmentsOfJoin | src/components/admin/Header.tsx:22 | a path made of `/` followed by non-empty, slash-free names joined with `/` has exactly those names as its segments, in order |
| Breadcrumbs.Trail | src/components/admin/Header.tsx:31-55 | one crumb per segment; crumb `i` points at `/` joined with the first `i + 1` segments; every crumb but the last is a link; every crumb but the last shows its table name, or the raw segment when the table has none |
| Breadcrumbs.LastLabel | src/components/admin/Header.tsx:36-41 | the last crumb shows "Chỉnh sửa " plus the dynamic segment after an `edit` segment, otherwise the dynamic segment when one is set, otherwise its table name or raw segment |
| Breadcrumbs.CrumbTargetSegments | src/components/admin/Header.tsx:22-32 | following crumb `i` leads to a path whose own segments are exactly the first `i + 1` segments of the current path |
| AvatarFallback.FirstChar | src/components/UserNav.tsx:18 | a field contributes its first character, or nothing when it is empty |
| AvatarFallback.Initials | src/components/UserNav.tsx:18 | the fallback initials are at most two characters long |
| AvatarFallback.InitialsOfOneWord | src/components/UserNav.tsx:18 | a one-word name gives its upper-cased first letter |
| AvatarFallback.InitialsOfWords | src/components/UserNav.tsx:18 | a name of two or more words gives the upper-cased first letters of its first two words, whatever follows |
| AvatarFallback.LeadingSpaceTakesSlot | src/components/UserNav.tsx:18 | a leading space yields an empty first field that takes one of the two slots, so only the next word's letter appears |
| AvatarFallback.UserNavFallback | src/components/UserNav.tsx:16-19 | the user menu shows "AD" without a name or with an empty one, and otherwise the name's initials |
| AvatarFallback.ProfileFallback | src/pages/profile/ProfilePage.tsx:19-22 | the profile page shows "??" for an empty name and otherwise the name's initials |
| AvatarFallback.ProfilePage | src/pages/profile/ProfilePage.tsx:7-64 | the profile page shows the not-found message exactly when no user is held, and otherwise the user's name, email, role and fallback initials |
| NotificationBell.BadgeText | src/components/NotificationBell.tsx:19-23 | no badge exactly when the count is zero or less; "9+" exactly above nine; otherwise a one-digit text that reads back as the count |
| DataTable.Headers | src/components/shared/DataTable.tsx:24-28 | the header row has one header per column, in column order |
| DataTable.CellOf | src/components/shared/DataTable.tsx:49 | a cell is the custom renderer's output exactly when the column has one, and otherwise the text of the record's field |
| DataTable.Render | src/components/shared/DataTable.tsx:32-54 | the spinner row exactly while loading (even with data); the no-data row exactly when not loading and the list is empty; both span all columns; otherwise one row per record in order with one cell per column in order |
| DataTable.RowsExtend | src/components/shared/DataTable.tsx:45-53 | each record's row depends on that record alone: the rows of a longer list start with the rows of its prefix |
| QuickList.Render | src/components/dashboard/QuickList.tsx:22-44 | three skeletons exactly while loading; "no data" exactly when not loading and the items are missing or empty; otherwise the first five items (or all, when fewer) in order, each linking to `linkTo/id` |
| QuickList.LinksDistinguishItems | src/components/dashboard/QuickList.tsx:33 | two items with the same link have the same id |
| DashboardPage.FetchOnStatus | src/pages/dashboard/DashboardPage.tsx:18-24 | the dashboard is fetched exactly while the slice is idle, which is a loading state for the cards |
| DashboardPage.RoomRatio | src/pages/dashboard/DashboardPage.tsx:26-29 | the rooms card reads "0 / 0" without data or without rooms, and otherwise splits into the rented count, "/" and the total count |
| DashboardPage.RatioFields | src/pages/dashboard/DashboardPage.tsx:28 | the ratio text splits back into its two numbers around the slash |
| DashboardPage.StatValues | src/pages/dashboard/DashboardPage.tsx:40-43 | the buildings, tenants and expiring-contracts cards show the statistics, and 0 each while there is no data |
| DashboardPage.QuickLists | src/pages/dashboard/DashboardPage.tsx:55-70 | the incident list links under /incidents and the contract list under /contracts; both show skeletons while the page loads and "no data" when settled without data |
| DashboardPage.FetchedDashboardShows | src/pages/dashboard/DashboardPage.tsx:18-29 | after a successful fetch the page stops loading, does not fetch again, and the rooms card shows the fetched total |
| LoginPage.Issues | src/pages/auth/LoginPage.tsx:18-21 | the email is refused exactly when the email validator rejects it and the password exactly when it is shorter than six UTF-16 code units; nothing else is validated |
| LoginPage.EmojiPasswordAccepted | src/pages/auth/LoginPage.tsx:20 | a password of three emoji outside the Basic Multilingual Plane is six code units long and is accepted |
| LoginPage.Submit | src/pages/auth/LoginPage.tsx:38-40 | the credentials are dispatched unchanged exactly when the schema finds no issue |
| LoginPage.OnAuthChange | src/pages/auth/LoginPage.tsx:43-51 | the page moves to /dashboard exactly when authenticated; it shows the error exactly when the slice failed with a non-empty error, and clears the error exactly when it shows one |
| LoginPage.RejectionIsShown | src/pages/auth/LoginPage.tsx:47-50 | after a rejected login the page shows the rejection's reason, or the slice's default message without one, clears it, and does not enter the dashboard |
| LoginPage.ErrorShownOnce | src/pages/auth/LoginPage.tsx:47-50 | after the page's own `clearAuthError` the effect shows no error again, and its navigation is unaffected |
| LoginPage.EmptyReasonIsSilent | src/pages/auth/LoginPage.tsx:47 | a rejection whose reason is the empty string is never shown |
| LoginPage.LoginLeadsToDashboard | src/pages/auth/LoginPage.tsx:44-46 | a fulfilled login moves the page to /dashboard |
| UpdateStatusModal.ParseStatus | src/store/incidents/types.ts:1-6 | a selected status option value is read back only as the status with that value |
| UpdateStatusModal.ParsePriority | src/store/incidents/types.ts:8-13 | a selected priority option value is read back only as the priority with that value |
| UpdateStatusModal.OptionValuesRoundTrip | src/pages/incidents/UpdateStatusModal.tsx:24-25 | every status and every priority is read back from its own option value |
| UpdateStatusModal.StatusOptions | src/pages/incidents/UpdateStatusModal.tsx:24 | four status options, each labelled with its own value, each value a status |
| UpdateStatusModal.StatusOptionsComplete | src/pages/incidents/UpdateStatusModal.tsx:24 | every status is offered as an option labelled with its value |
| UpdateStatusModal.PriorityOptions | src/pages/incidents/UpdateStatusModal.tsx:25 | four priority options, each labelled with its own value, each value a priority |
| UpdateStatusModal.PriorityOptionsComplete | src/pages/incidents/UpdateStatusModal.tsx:25 | every priority is offered as an option labelled with its value |
| UpdateStatusModal.OnIncident | src/pages/incidents/UpdateStatusModal.tsx:34-38 | a given incident resets the selects to its own status and priority; without one the form stays as it is |
| UpdateStatusModal.Submit | src/pages/incidents/UpdateStatusModal.tsx:40-42 | a request is sent exactly when there is an incident, with its id and the selected status and priority |
| UpdateStatusModal.UntouchedSubmitKeepsIncident | src/pages/incidents/UpdateStatusModal.tsx:34-42 | saving the dialog without touching it asks for the incident's current status and priority |
| UpdateStatusModal.UpdateSettled | src/pages/incidents/UpdateStatusModal.tsx:43-48 | the dialog closes exactly when the request resolved, with "Cập nhật sự cố thành công!"; a rejection shows its reason and leaves it open |
| TenantForm.PhonePattern | src/pages/tenants/TenantFormPage.tsx:23 | the phone pattern accepts exactly the strings made of one or more two-character groups `0c` (`c` one of 3, 5, 7, 8, 9 or the bar) followed by exactly eight digits |
| TenantForm.BarIsAccepted | src/pages/tenants/TenantFormPage.tsx:23 | because the bar sits inside the character class, "0\|12345678" passes the phone pattern |
| TenantForm.FourIsRefused | src/pages/tenants/TenantFormPage.tsx:23 | a number starting with 04 fails the phone pattern |
| TenantForm.Issues | src/pages/tenants/TenantFormPage.tsx:25-33 | a field is reported exactly when it fails: full name under 3 UTF-16 code units, phone not matching the pattern, a non-empty email refused by the email validator, a non-empty password under 6 code units, citizen id under 9 code units; date of birth and address are never reported |
| TenantForm.PasswordRule | src/pages/tenants/TenantFormPage.tsx:29 | the password is accepted exactly when it is left out, empty, or at least six UTF-16 code units long |
| TenantForm.Submit | src/pages/tenants/TenantFormPage.tsx:70-73 | an update exactly in edit mode, with id `Number(id)`, and otherwise a create; the form data goes unchanged either way |
| TenantForm.OnLoad | src/pages/tenants/TenantFormPage.tsx:52-65 | only the new-tenant title is set exactly when not editing or the id reads as 0 or NaN; otherwise the store's tenant resets the form when there is one, and else the tenant with id `Number(id)` is fetched |
| TenantForm.FetchSettled | src/pages/tenants/TenantFormPage.tsx:58-61 | a fetched tenant resets the form; a failed fetch goes back to /tenants |
| TenantForm.SubmitSettled | src/pages/tenants/TenantFormPage.tsx:75-78 | the page moves to /tenants exactly when the request resolved, with "Cập nhật thành công!" after an update and "Thêm khách thuê thành công!" after a create; a rejection shows its reason |
| BuildingForm.Issues | src/pages/buildings/BuildingFormPage.tsx:25-29 | the name is refused exactly when shorter than 3 UTF-16 code units and the address exactly when shorter than 5; the image is never refused |
| BuildingForm.Preview | src/pages/buildings/BuildingFormPage.tsx:73 | a stored image URL is previewed exactly when present and non-empty |
| BuildingForm.PreviewAfterPick | src/pages/buildings/BuildingFormPage.tsx:50-56 | a non-empty pick previews the object URL of its first file; an empty or missing pick keeps the current preview |
| BuildingForm.OnLoad | src/pages/buildings/BuildingFormPage.tsx:66-88 | creating only sets the "Tạo tòa nhà mới" breadcrumb; editing fetches `Number(id)` exactly when no listed building has that id, and otherwise fills the form, preview and breadcrumb from the first listed building with that id |
| BuildingForm.Cleanup | src/pages/buildings/BuildingFormPage.tsx:89 | the edit effect's cleanup idles the buildings slice and clears its error, keeping the buildings and counters |
| BuildingForm.CleanupClearsRejection | src/pages/buildings/BuildingFormPage.tsx:89 | after a failed building fetch, the cleanup returns the slice to idle with no error and the same buildings |
| BuildingForm.CleanupKeepsLoad | src/pages/buildings/BuildingFormPage.tsx:64-90 | an effect run after the cleanup loads exactly as it would have before it |
| BuildingForm.ListedBuildingIsNotFetched | src/pages/buildings/BuildingFormPage.tsx:68-74 | with unique ids, a building already listed under the route's id fills the form without a fetch |
| BuildingForm.FetchSettled | src/pages/buildings/BuildingFormPage.tsx:77-84 | a fetched building fills the form; a failed fetch goes back to /buildings |
| BuildingForm.Submit | src/pages/buildings/BuildingFormPage.tsx:92-104 | an update of `Number(id)` exactly in edit mode and a create otherwise, carrying the form's name and address and the first picked file |
| BuildingForm.SubmitSettled | src/pages/buildings/BuildingFormPage.tsx:97-110 | the page moves to /buildings exactly when the request resolved, with "Cập nhật tòa nhà thành công!" after an update and "Thêm tòa nhà thành công!" after a create; a rejection shows its reason |
| RoomForm.Issues | src/pages/rooms/RoomFormPage.tsx:26-32 | a field is reported exactly when it fails: empty room number, empty building, or a price or area whose `Number(...)` is NaN or below 1 |
| RoomForm.EmptyPriceRefused | src/pages/rooms/RoomFormPage.tsx:29 | an untouched price, which reads as 0, is refused |
| RoomForm.Cleanup | src/pages/rooms/RoomFormPage.tsx:67-70 | the breadcrumb effect's cleanup idles the rooms slice and clears its error, keeping the rooms and counters |
| RoomForm.CleanupClearsRejection | src/pages/rooms/RoomFormPage.tsx:67-70 | after a failed room fetch, leaving the form returns the slice to idle with no error |
| RoomForm.Segment | src/pages/rooms/RoomFormPage.tsx:60-66 | the breadcrumb is the placeholder "Phòng ..." in edit mode and "Tạo phòng mới" otherwise |
| RoomForm.Submit | src/pages/rooms/RoomFormPage.tsx:73-82 | submitting always reports success and moves to /rooms, with "Cập nhật phòng thành công!" exactly in edit mode and "Tạo phòng thành công!" exactly otherwise; no request is made |
| FileInputs.FirstFile | src/pages/meter-readings/RecordReadingModal.tsx:57-58 | `files?.[0]`: a file exactly when a non-empty list was picked, and then the first one |
| RecordReadingModal.NumberOf | src/pages/meter-readings/RecordReadingModal.tsx:23-24 | a reset value reads as itself and typed text reads as `Number(text)` |
| RecordReadingModal.Issues | src/pages/meter-readings/RecordReadingModal.tsx:22-27 | each new meter number is refused exactly when it reads as NaN or below 0; the images are never refused |
| RecordReadingModal.Cleared | src/pages/meter-readings/RecordReadingModal.tsx:42 | the reset values carry no image |
| RecordReadingModal.ClearedIsValid | src/pages/meter-readings/RecordReadingModal.tsx:42 | the reset values (both numbers 0) pass the schema whatever `Number` does with text |
| RecordReadingModal.OnOpenChange | src/pages/meter-readings/RecordReadingModal.tsx:39-44 | opening the dialog resets the form; otherwise it stays as it is |
| RecordReadingModal.Submit | src/pages/meter-readings/RecordReadingModal.tsx:46-59 | a request exactly when there is a room: its id, the month counted from 1 (one more than the zero-based month, so 1 to 12), the year, both parsed numbers and the first file of each image input |
| RecordReadingModal.RecordSettled | src/pages/meter-readings/RecordReadingModal.tsx:60-64 | the dialog closes exactly when the request resolved, with the success message naming the room; a rejection shows its reason and leaves the dialog open |
| RecordReadingModal.ShownPeriodIsRecorded | src/pages/meter-readings/RecordReadingModal.tsx:83 | the period printed under the title is exactly the month and year a submission records |
| RouteParams.NumberOf | src/pages/meter-readings/MeterReadingHistoryPage.tsx:21 | `Number(param)`: a missing route parameter reads as NaN and a present one as `Number` of its text |
| MeterReadingHistory.OnMount | src/pages/meter-readings/MeterReadingHistoryPage.tsx:33-39 | with an id that reads as 0 or NaN nothing is fetched; otherwise the readings are fetched by the numeric id, and the room too exactly when the store has none |
| MeterReadingHistory.LeavingClearsReadings | src/pages/meter-readings/MeterReadingHistoryPage.tsx:40-43 | leaving the page empties the readings slice, so another room's page never shows these readings |
| MeterReadingHistory.Segment | src/pages/meter-readings/MeterReadingHistoryPage.tsx:46-50 | the breadcrumb is set exactly once the room is known, to "Lịch sử phòng " and its number |
| MeterReadingHistory.ActiveContract | src/pages/meter-readings/MeterReadingHistoryPage.tsx:57 | the first contract that is active and of the reading's room, and none exactly when no contract is both |
| MeterReadingHistory.SettingValue | src/pages/meter-readings/MeterReadingHistoryPage.tsx:65-66 | the value of the first setting with the key, and none exactly when no setting has it |
| MeterReadingHistory.Price | src/pages/meter-readings/MeterReadingHistoryPage.tsx:65-66 | a price reads as `Number("0")` when its setting is missing or empty, and otherwise as `Number` of its value |
| MeterReadingHistory.HandleGenerate | src/pages/meter-readings/MeterReadingHistoryPage.tsx:53-81 | without an active contract for the room the click stops with "Không tìm thấy hợp đồng đang hoạt động cho phòng …"; with a price that is exactly 0 it stops asking for the prices; it requests an invoice exactly otherwise, for that contract, the reading's period and the two prices |
| MeterReadingHistory.RequestIsForActiveContract | src/pages/meter-readings/MeterReadingHistoryPage.tsx:57-81 | every request names a listed contract that is active and of the reading's room, for the reading's own month and year |
| MeterReadingHistory.UnreadablePriceIsSent | src/pages/meter-readings/MeterReadingHistoryPage.tsx:65-67 | the zero guard lets a price that reads as NaN through, and it is sent as it is |
| MeterReadingHistory.UnconfiguredPricesStop | src/pages/meter-readings/MeterReadingHistoryPage.tsx:65-71 | with no settings at all no invoice is requested |
| MeterReadingHistory.GeneratingDuring | src/pages/meter-readings/MeterReadingHistoryPage.tsx:54-70 | a row counts as generating while its request is pending exactly when a request is made; both early stops clear the marker |
| MeterReadingHistory.GenerateSettled | src/pages/meter-readings/MeterReadingHistoryPage.tsx:83-90 | after the request settles no row is generating; the readings are refetched exactly when it resolved, with "Tạo hóa đơn thành công!"; a rejection shows its reason |
| MeterReadingHistory.InvoiceCellOf | src/pages/meter-readings/MeterReadingHistoryPage.tsx:116-133 | the done mark exactly when the reading's invoice was generated; otherwise the button spins exactly for the row being generated and is disabled exactly while any row is |
| MeterReadingHistory.OneGenerationAtATime | src/pages/meter-readings/MeterReadingHistoryPage.tsx:126-127 | while one reading is being generated every button is disabled and only that reading's button spins |
| MeterReadingHistory.TitleRoom | src/pages/meter-readings/MeterReadingHistoryPage.tsx:145 | the title shows the room's number, or "..." while the room is unknown or its number is empty |
| SearchParams.Get | src/pages/invoices/InvoiceListPage.tsx:22-24 | reading a query parameter yields nothing exactly when no pair has the key, and otherwise the value of the first pair with that key |
| SearchParams.Delete | src/pages/invoices/InvoiceListPage.tsx:68 | after a delete no pair has the key |
| SearchParams.Set | src/pages/invoices/InvoiceListPage.tsx:66-70 | after a set the key reads back as the new value; a key that was absent is appended at the end |
| SearchParams.SetKeepsOthers | src/pages/invoices/InvoiceListPage.tsx:63-72 | a set leaves the pairs of every other key exactly as they were, in order, and so every other key reads as before |
| SearchParams.SetKeepsAllOthers | src/pages/invoices/InvoiceListPage.tsx:76-80 | after a set every other key reads as before |
| SearchParams.DeleteKeepsOthers | src/pages/invoices/InvoiceListPage.tsx:68 | after a delete every other key reads as before |
| SearchParams.PageNumber | src/pages/invoices/InvoiceListPage.tsx:22 | the current page is never NaN: 0 without a page parameter or when it reads as 0 or NaN, and otherwise the number it reads as |
| InvoiceListPage.Filter | src/pages/invoices/InvoiceListPage.tsx:23-24 | a filter is set exactly when its parameter is present and non-empty, and then holds the parameter's value |
| InvoiceListPage.InvoiceFetch | src/pages/invoices/InvoiceListPage.tsx:51-60 | invoices are fetched exactly once a building is chosen: ten per page, for the current page, `Number` of the building id and the status filter |
| InvoiceListPage.AutoSelectBuilding | src/pages/invoices/InvoiceListPage.tsx:41-48 | the query string is rewritten exactly when the buildings have loaded, there is one, and none is chosen; the first building's id is then the chosen building |
| InvoiceListPage.FilterChanged | src/pages/invoices/InvoiceListPage.tsx:62-73 | a non-empty filter value is set and an empty one removes the filter; the page goes back to "0"; every other parameter reads as before |
| InvoiceListPage.FilterChangedKeeps | src/pages/invoices/InvoiceListPage.tsx:63-72 | the filter change's set or delete followed by the page reset leaves the filter as chosen and every other parameter as it was |
| InvoiceListPage.PageChanged | src/pages/invoices/InvoiceListPage.tsx:75-81 | a page change writes only the page parameter, as the decimal form of the page, and every other parameter reads as before |
| InvoiceListPage.PageChangeRoundTrip | src/pages/invoices/InvoiceListPage.tsx:22-81 | moving to page `n` and reading the current page back gives `n` |
| InvoiceListPage.FilterChangeResetsPage | src/pages/invoices/InvoiceListPage.tsx:22-70 | after any filter change the current page reads as 0 |
| InvoiceListPage.StatusOptions | src/pages/invoices/InvoiceListPage.tsx:120 | four status options, each labelled with its own value |
| InvoiceListPage.StatusOptionsComplete | src/pages/invoices/InvoiceListPage.tsx:120 | every invoice status is offered in the filter |
| Invoices.AllStatuses | src/store/invoices/types.ts:5-10 | the invoice statuses: four, pairwise distinct, each of them listed |
| InvoiceDetailPage.Lookup | src/pages/invoices/InvoiceDetailPage.tsx:17-19 | the invoice shown is one whose id equals `Number(id)`, the one `selectInvoiceById` gives for that id, and there is none exactly when no listed invoice has that id |
| InvoiceDetailPage.FetchOnMount | src/pages/invoices/InvoiceDetailPage.tsx:23-29 | the invoice is fetched by `Number(id)` exactly when the store does not hold it |
| InvoiceDetailPage.PaymentPanel | src/pages/invoices/InvoiceDetailPage.tsx:107-133 | the receipt and the confirm button (with its loading flag) appear exactly for an invoice waiting for confirmation, and every other status shows its own message: paid with its date, pending, overdue |
| InvoiceDetailPage.Render | src/pages/invoices/InvoiceDetailPage.tsx:46-137 | a spinner exactly when the invoice is missing while the slice loads, "not found" when it is missing otherwise, and its details with its payment panel when the store holds it |
| InvoiceDetailPage.ConfirmSettled | src/pages/invoices/InvoiceDetailPage.tsx:37-44 | the confirming flag is cleared on both paths; a success toast exactly on success, reading "Xác nhận thanh toán thành công!", and the rejection's message on failure |
| InvoiceDetailPage.ConfirmedShowsPaid | src/pages/invoices/InvoiceDetailPage.tsx:37-133 | once a listed invoice is confirmed as paid, its page shows it with the paid message and without receipt or confirm button |
| InvoiceDetailPage.ConfirmOfUnlistedIsInvisible | src/store/invoices/reducers.ts:59-65 | confirming an invoice the store does not list changes nothing any invoice page shows |
| ContractListPage.ContractFetch | src/pages/contracts/ContractListPage.tsx:26-31 | contracts are fetched ten per page for the current page, which is 0 without a page parameter |
| ContractListPage.PageChanged | src/pages/contracts/ContractListPage.tsx:39-41 | a page change leaves the page parameter as the decimal form of the page and drops every other parameter |
| ContractListPage.PageChangeRoundTrip | src/pages/contracts/ContractListPage.tsx:26-41 | moving to page `n` makes the fetch effect ask for page `n`, ten per page |
| ContractListPage.RowActions | src/pages/contracts/ContractListPage.tsx:76-92 | each row links first to its contract's page, and offers the terminate button exactly for an active contract |
| ContractListPage.TerminateCall | src/pages/contracts/ContractListPage.tsx:47-49 | the terminate request is sent exactly when a contract is selected, with its id |
| ContractListPage.TerminateSettled | src/pages/contracts/ContractListPage.tsx:50-57 | the modal closes on both paths; a success toasts `Đã chấm dứt hợp đồng cho phòng "<room number>"` with the contract's room number and refetches the page that was showing, a failure shows its reason and does not refetch |
| ContractListPage.RequestsBadge | src/pages/contracts/ContractListPage.tsx:109-113 | the requests badge is shown exactly when there is a pending request, and shows their number |
| ContractForm.FieldIssues | src/pages/contracts/ContractFormPage.tsx:20-28 | a field fails exactly when its own rule fails: a non-empty building, room, tenant, start and end date; a rent of at least 1 and a deposit of at least 0 once commas are removed and the text is read as a number; a payment cycle of at least 1; NaN fails every number rule |
| ContractForm.Validate | src/pages/contracts/ContractFormPage.tsx:20-32 | the form is valid exactly when every field passes and, with both dates given, the start comes before the end; the parsed data keeps the text fields and carries the amounts as read; a date-order failure alone is reported on the end date |
| ContractForm.SeparatorsIgnored | src/pages/contracts/ContractFormPage.tsx:26-27 | thousands separators in the amounts change neither the verdict nor the parsed values |
| ContractForm.EmptyAmounts | src/pages/contracts/ContractFormPage.tsx:26-27 | with `Number("")` being 0, an untouched deposit passes as 0 while an untouched rent is refused |
| ContractForm.PayloadOf | src/pages/contracts/ContractFormPage.tsx:77-87 | the payload carries `Number` of the room and tenant ids and the validated dates, amounts and cycle, and no building id |
| ContractForm.SubmittedPayloadIsChecked | src/pages/contracts/ContractFormPage.tsx:26-87 | every submitted payload has a rent of at least 1, a deposit of at least 0, a cycle of at least 1 and a start before its end |
| ContractForm.AvailableRooms | src/pages/contracts/ContractFormPage.tsx:94-97 | no room until a building is chosen; afterwards exactly the available rooms of the slice, in order |
| ContractForm.RoomSelectDisabled | src/pages/contracts/ContractFormPage.tsx:123 | the room select is enabled exactly when a building is chosen and some room of the slice is available |
| ContractForm.OnBuildingChosen | src/pages/contracts/ContractFormPage.tsx:69-75 | the chosen building's first hundred rooms are fetched exactly when its id is non-empty and reads as a positive number; otherwise the rooms are cleared |
| ContractForm.NoBuildingNoRooms | src/pages/contracts/ContractFormPage.tsx:69-97 | choosing no building clears the rooms slice, and no room is then offered |
| ContractForm.MountFetches | src/pages/contracts/ContractFormPage.tsx:62-67 | buildings and tenants are each fetched exactly while their slice is idle |
| ContractForm.Cleanup | src/pages/contracts/ContractFormPage.tsx:66 | the mount effect's cleanup idles the contracts slice and clears its error, keeping the contracts and counters |
| ContractForm.CleanupKeepsCreated | src/pages/contracts/ContractFormPage.tsx:66 | a contract created before the page is left is still listed after the cleanup |
| ContractForm.CreateSettled | src/pages/contracts/ContractFormPage.tsx:88-91 | a created contract shows "Tạo hợp đồng thành công!" and leads to the contract list; a rejection shows its reason and stays |
| SettingsPage.LastIndexOf | src/pages/settings/SettingsPage.tsx:30-33 | the position of the last setting with the key (the one whose assignment survives the fold), or -1 exactly when no setting has it |
| SettingsPage.Defaults | src/pages/settings/SettingsPage.tsx:30-33 | the form defaults hold exactly the settings' keys, each with the value of the last setting carrying that key |
| SettingsPage.DefaultsOfDistinctKeys | src/pages/settings/SettingsPage.tsx:30-33 | when no key repeats, each setting's field starts at that setting's own value |
| SettingsPage.ResetOnLoad | src/pages/settings/SettingsPage.tsx:28-36 | the form is reset exactly when some setting is loaded, and then to the defaults of the loaded settings |
| SettingsPage.Group | src/pages/settings/SettingsPage.tsx:62-63 | each card shows exactly the settings whose key starts with its prefix, `PRICE_` for the price card and `BANK_` for the bank card |
| SettingsPage.GroupsPartition | src/pages/settings/SettingsPage.tsx:62-63 | no setting is shown in both cards, and one with neither prefix is shown in neither |
| SettingsPage.GroupsKeepOrder | src/pages/settings/SettingsPage.tsx:62-63 | both cards keep the order the settings arrived in |
| SettingsPage.Render | src/pages/settings/SettingsPage.tsx:49-112 | three skeletons exactly while the first load runs with nothing loaded; otherwise both cards, inputs disabled while submitting, and the save button disabled exactly while the form is untouched |
| SettingsPage.UpdateSettled | src/pages/settings/SettingsPage.tsx:38-47 | a success toasts "Cập nhật cài đặt thành công!" and refetches; a rejection shows its reason and does not refetch |
| SettingsPage.RefetchResetsForm | src/pages/settings/SettingsPage.tsx:28-44 | after the refetch brings a non-empty list, the form is reset to exactly that list's defaults |
| IdList.FindIndex | src/store/buildings/reducers.ts:48 | the first position whose record carries the id, or -1 exactly when none does |
| IdList.Find | src/store/buildings/selectors.ts:5 | the first record carrying the id, or nothing exactly when none does |
| IdList.FindByNumber | src/pages/buildings/BuildingFormPage.tsx:68-70 | a record is found for a JavaScript number only when its id equals that number, it is the first record with that id, and none is found exactly when no id equals it |
| IdList.ReplaceFirst | src/store/buildings/reducers.ts:47-53 | an update overwrites the first record with the same id in place, keeps every other record and every id where it was, and leaves a list without that id unchanged |
| IdList.Upsert | src/store/buildings/reducers.ts:61-69 | a fetched record replaces the first record with its id, or is appended when there is none; either way a lookup of its id then finds it |
| IdList.RemoveId | src/store/buildings/reducers.ts:55-59 | a delete leaves no record with the id, keeps every other record, adds nothing, and leaves a list without the id unchanged |
| IdList.RemoveIdConcat | src/store/buildings/reducers.ts:56 | a delete keeps the surviving records in their original order |
| IdList.UpsertIdempotent | src/store/buildings/reducers.ts:61-69 | fetching the same record twice leaves the list as fetching it once |
| IdList.RemoveIdIdempotent | src/store/buildings/reducers.ts:55-59 | deleting the same id twice leaves the list as deleting it once |
| IdList.FindOtherAfterUpsert | src/store/buildings/reducers.ts:61-69 | a fetched record does not change what a lookup of another id finds |
| IdList.FindOtherAfterReplace | src/store/buildings/reducers.ts:47-53 | an update does not change what a lookup of another id finds |
| IdList.FindOtherAfterAppend | src/store/buildings/reducers.ts:41-45 | appending a created record does not change what a lookup of another id finds |
| IdList.FindOtherAfterRemove | src/store/buildings/reducers.ts:55-59 | deleting one id does not change what a lookup of another id finds |
| IdList.UpsertKeepsUnique | src/store/buildings/reducers.ts:61-69 | a list with distinct ids keeps distinct ids after a fetched record is merged in |
| IdList.RemoveKeepsUnique | src/store/buildings/reducers.ts:55-59 | a list with distinct ids keeps distinct ids after a delete |
| IdList.FindIndexAfterIdPreservingWrite | src/store/buildings/reducers.ts:49-51 | overwriting a record with one of the same id moves no id's first position |
| JsValues.OrZero | src/pages/invoices/InvoiceListPage.tsx:22 | `x || 0` on a number is never NaN: the number itself when truthy, and 0 otherwise |
| JsValues.AsInteger | src/pages/invoices/InvoiceDetailPage.tsx:17-19 | a number is an integer exactly when it is finite and whole, and then it equals that integer |
| JsValues.StrictEqualsInt | src/store/invoices/selectors.ts:14-15 | a number is strictly equal to an integer id exactly when it reads as that integer |

## Left out

- `src/store/*/actions.ts`: the async thunks are network I/O. The reducers take their results (page payloads, records, ids, error messages) as action arguments.
- `src/store/rooms/actions.ts`: `fetchRooms` returns a room array, but the reducer reads `.content` of a page. The model follows the reducer and takes a page payload. `createRoom`, `updateRoom` and `fetchRoomById` are not defined in that file; their reducer cases are modelled from the reducer alone.
- `src/api/axiosClient.ts`: the HTTP interceptor, the cookie refresh and the `window.location` redirect are network plumbing with no pure decision of their own.
- `src/context/WebSocketContext.tsx`: the socket lifecycle, the reconnect timer and the JSON parsing are concurrency and timers. Only the reducer actions it dispatches are modelled.
- These pages only wire effects to the store and have no rule of their own: the building, room, tenant, incident, meter-reading and user-request list pages, and the contract detail page.
- These are presentation with no decision to model: the route table in `App.tsx`, the layouts, `Sidebar`, `Card`, `Select`, `Skeleton`, `Avatar`, `StatCard`, the toast wrapper and `BreadcrumbContext`. `RevenueChart` is also left out, because its axis formatter divides in floating point.
- `src/store/index.ts` and `src/store/incidents/selectors.ts` are store typing plumbing. The incident pagination selectors read fields the incident state does not have.
- `toLocaleString` formatting of amounts and dates is not modelled. Amounts are whole numbers (`int`).
- The clock is a parameter. This covers `Date.now()` and the ISO timestamp that `addNotification` uses for a missing id or creation time, and the current month and year of the meter-reading modal.
- `Number(...)`, Zod's email validator, `new Date(a) < new Date(b)` and `URL.createObjectURL` are parameters. Their own algorithms are not modelled.
- Zod's number bounds are modelled as comparisons on `JsNumber`: NaN fails every bound, and the infinities compare as they do in JavaScript. Zod's coercion and its error messages are not modelled; the schemas report the set of failing fields.
- ContractForm.Validate: the end-date refinement is reported only when every single-field rule passes. Zod's exact rules for running a refinement next to other failures are not modelled.
- The tenant form takes the store's tenant for the route id as the parameter `inStore`. It does not call `selectTenantById` over the tenants slice.
- The login form's prefilled default credentials are not reproduced. The model's credentials are whatever the user submits.
- The unread-count fetch that `NotificationBell` dispatches on mount is an effect with no condition and is not modelled. Only the badge text is.
- Breadcrumbs: the label table is a `match` on its nine keys, so keys such as `constructor`, which JavaScript's object literal inherits from its prototype as a truthy function, fall back to the raw segment in the model.
- SettingsPage.Defaults: the defaults are a Dafny `map`, so a setting keyed `__proto__` is kept as an entry. In JavaScript, assigning a string to `acc['__proto__']` on a plain object creates no field and is ignored.
- Breadcrumbs and avatar initials: upper-casing is ASCII only. A word's first letter is a whole character, where JavaScript's `n[0]` takes one UTF-16 code unit and so splits a character outside the Basic Multilingual Plane.
- Notifications.Added: the socket's `type` is either missing or one of the notification types. A type string outside that set is not represented.
- AvatarFallback.Initials: "at most two characters" counts whole characters, not UTF-16 code units, and holds only because the model's upper-casing keeps the length. JavaScript's `toUpperCase` can lengthen text: `"ß"` becomes `"SS"`, so the name "ß ß" gives four letters.
- The `setDynamicSegment(null)` cleanup that the form and detail pages run on unmount is not modelled. It only clears the breadcrumb's dynamic label.
- `RoomForm.FetchesBuildings` and `TenantForm.ShowsPasswordField` are predicates that state their rule directly, so they carry no separate contract. `InvoiceListPage.BuildingsFetchSize` is the constant 100.
