# bookeasy — a Dafny model of the booking front end

bookeasy is a single-page booking application. Customers browse approved
listings (gyms, co-working spaces, banquet halls, cafés) and request a time
slot. Providers publish and edit listings and accept or reject requests.
An administrator approves listings and manages every booking.
All data lives in a hosted backend that the pages call directly.

This project models the decision logic of those pages as pure Dafny
functions over immutable datatypes. Each backend call becomes an input: the
record it returns, or whether it failed. Each toast, message and navigation
becomes part of the result. The modules follow the source files:

| module | models |
|---|---|
| `Wrappers`, `Strings`, `Seqs` | `Option`, the string operations the pages use (lower-casing, `includes`, `trim`, `split`, `Number`), and filtering over sequences |
| `ServiceTypes` | `src/types/service.ts`: categories, approval states, the listing record and the form data |
| `Auth` | `src/context/AuthContext.tsx`: the role resolution and the session state |
| `Routes` | `src/App.tsx`: the role's home path, the route table and its redirects |
| `AuthForm` | `src/components/auth/AuthForm.tsx`: sign-up role, messages and the login navigation |
| `Browse` | `src/pages/Services.tsx` and the options of `ServiceFilters.tsx`: the catalogue fetch and its three filters |
| `Slots` | `src/pages/ServiceDetail.tsx`: times, the end time, the booking form's price and the booking submission |
| `Bookings`, `BookingAdmin` | `src/components/admin/BookingManagement.tsx`: booking status, update, delete, filter, and the admin's action buttons |
| `ProviderBookings` | `src/pages/ProviderBookings.tsx`: the provider's status selector and colours |
| `ListingForm` | `src/components/services/ServiceForm.tsx`: the listing form |
| `Dashboard` | `src/pages/BusinessDashboard.tsx`: counters, add/update and badges |
| `ListingAdmin` | `src/components/admin/ServiceManagement.tsx`: the admin's listing table and inline edit |

Some behaviour of the code that a reader might not expect, and the members
that state it:

- A session is "admin" when its address is the administrator's or when its
  stored metadata role is "admin" (`Auth.AdminResolution`).
- Any non-empty stored metadata role is taken as the role, not only "user"
  or "provider" (`Auth.GetUserType`).
- The booking submit handler does not check the duration. The duration is a
  number input with `min="1"`, `max="8"` and `required`
  (`src/pages/ServiceDetail.tsx:82-92`), so the browser's form validation
  keeps it in 1 to 8 hours; `Slots.SubmitBooking` takes that range as a
  precondition.
- Completed and cancelled bookings are final only because their buttons are
  not rendered and the provider's selector is disabled; the update calls
  themselves accept any status (`BookingAdmin.OfferedActions`,
  `ProviderBookings.SelectorDisabledIffTerminal`).
- Navigation settles within two redirects only for the three roles the
  route table knows (`Routes.ClosedRolesTerminate`). Any other role redirects
  forever (`Routes.OpenRolesNeverRender`).

## Model

| member | source | states |
|---|---|---|
| Strings.Pad2 | src/pages/ServiceDetail.tsx:166 | A number below 100 becomes exactly two digits whose decimal value is the number |
| Strings.LowerIdempotent | src/pages/Services.tsx:45-48 | Lower-casing twice is lower-casing once, so a pre-lowered query filters the same |
| Strings.ContainsIff | src/pages/Services.tsx:45-48 | `includes` holds iff the needle occurs at some offset of the text |
| Strings.ContainsEmpty | src/pages/Services.tsx:45-48 | The empty query is contained in every text |
| Strings.Trim | src/components/services/ServiceForm.tsx:72 | The result is a slice of the input with no leading or trailing white space, and is empty iff the input is all white space |
| Strings.Split | src/pages/Services.tsx:57 | Splitting never yields zero pieces, pieces hold no separator, and a string without the separator is a single piece |
| Strings.SplitAtFirst | src/pages/Services.tsx:57 | Splitting `a + sep + b`, with no separator in `a`, gives `a` first and continues with the split of `b` |
| Strings.NumberOf | src/pages/Services.tsx:57 | On the pieces the price options produce: a digit string gives its decimal value, the empty string 0, and any other of these pieces (such as "201+") NaN |
| Seqs.Filter | src/components/admin/BookingManagement.tsx:102-104 | The result keeps exactly the elements satisfying the test and is no longer than the input |
| Seqs.FilterConcat | src/components/services/ServiceForm.tsx:63-65 | Filtering distributes over concatenation |
| Seqs.FilterKeepsAll | src/pages/Services.tsx:42-62 | Filtering with a test every element passes returns the input |
| Seqs.FilterKeepsNone | src/pages/Services.tsx:42-62 | Filtering with a test no element passes returns the empty list |
| Seqs.FilterDropsRejected | src/components/services/ServiceForm.tsx:63-65 | If an element fails the test, the filtered list is strictly shorter |
| Seqs.FilterIsSubsequence | src/components/admin/BookingManagement.tsx:94 | Filtering keeps the survivors in their original order |
| Seqs.FilterMultiset | src/components/admin/BookingManagement.tsx:94 | Filtering keeps each passing element exactly as often as it occurs and drops every failing one |
| Seqs.FilterNoDuplicates | src/components/services/ServiceForm.tsx:63-65 | Filtering a duplicate-free list leaves it duplicate-free |
| Seqs.Dedup | src/components/admin/ServiceManagement.tsx:41 | The `Set` of provider ids has the same members as the input and no duplicates |
| Seqs.RemoveAt | src/components/services/ServiceForm.tsx:83-88 | Removing index `i` shifts later elements down by one; an index out of range changes nothing |
| Seqs.FindFirst | src/components/admin/ServiceManagement.tsx:52 | `find` returns the first element passing the test, and none iff no element passes |
| ServiceTypes.TypeNameRoundTrip | src/types/service.ts:1 | Category names and categories parse back to each other, in both directions |
| ServiceTypes.StatusNameRoundTrip | src/types/service.ts:2 | Approval-state names and states parse back to each other, in both directions |
| ServiceTypes.ServiceTypesComplete | src/components/services/ServiceForm.tsx:15 | The category select lists each of the five categories exactly once |
| ServiceTypes.FormOf | src/types/service.ts:28 | The form data is the listing without id, timestamps, owner and status |
| ServiceTypes.FormDataIsServiceMinusFive | src/types/service.ts:28 | Removing the five fields and adding them back is the identity, in both directions |
| Auth.GetUserType | src/context/AuthContext.tsx:20-23 | The role is never empty: the admin address gives "admin", else non-empty metadata, else "user" |
| Auth.AdminResolution | src/context/AuthContext.tsx:21-22 | The role is "admin" iff the address is the administrator's or the metadata says "admin" |
| Auth.UserTypeDependsOnEmailAndMetadata | src/context/AuthContext.tsx:20-23 | Two accounts with the same address and metadata get the same role, whatever their ids |
| Auth.OnSession | src/context/AuthContext.tsx:27-37 | After a notification the state is no longer loading, holds that session's user, and has a role iff a user is signed in |
| Auth.OnSessionIgnoresPrevious | src/context/AuthContext.tsx:40-50 | A notification's resulting state does not depend on the state before it |
| Auth.LastSessionWins | src/context/AuthContext.tsx:25-53 | After any non-empty sequence of notifications the state is the one the last notification alone produces |
| Auth.SessionsSettle | src/context/AuthContext.tsx:16-50 | The state is loading before any notification and settled after at least one |
| Routes.DefaultRoute | src/App.tsx:13-20 | A missing or empty role goes to the sign-in path; admin, provider and every other role each get their own home path |
| Routes.MatchRoute | src/App.tsx:42-75 | Each guarded entry admits one of the three roles and is never the sign-in form |
| Routes.Route | src/App.tsx:42-75 | Signed-out visitors see the sign-in form at "/" and are sent to "/" elsewhere; "/" sends a signed-in session home; unknown paths go to "/" |
| Routes.HomePage | src/App.tsx:13-75 | For the three known roles the home path renders a page |
| Routes.GuardedPathsOneRole | src/App.tsx:45-74 | Each guarded path admits exactly one role |
| Routes.PagesPerRole | src/App.tsx:45-74 | Over all paths, a customer sees exactly the catalogue, the detail pages and the bookings page; a provider exactly the dashboard and the booking requests; the administrator exactly the admin page |
| Routes.RouteTableExamples | src/App.tsx:42-75 | Concrete paths resolve to their table entries, and unknown paths to the catch-all |
| Routes.AppView | src/App.tsx:32-37 | While loading nothing is routed; afterwards the view is the route table's answer |
| Routes.SignedOutReachesLogin | src/App.tsx:42-75 | A signed-out visitor reaches the sign-in form from any path within one redirect |
| Routes.ClosedRolesTerminate | src/App.tsx:13-75 | For user, provider and admin, every path renders within two redirects: the requested page when the role may see it, otherwise the role's home page |
| Routes.RedirectIdempotent | src/App.tsx:13-75 | For the three known roles, following a redirect once more lands on the same page as the original path |
| Routes.OpenRolesNeverRender | src/App.tsx:13-75 | A signed-in session whose role is missing or not one of the three known ones renders no page after any number of redirects |
| Routes.TerminatesIffClosedRole | src/App.tsx:13-75 | A signed-in session's navigation ends iff its role is user, provider or admin |
| Routes.RedirectLoops | src/App.tsx:14-75 | A missing role bounces between "/" and "/auth", and an unknown role is sent from /services back to /services |
| AuthForm.SignupUserType | src/components/auth/AuthForm.tsx:24-36 | The stored role is "admin" iff the address is the administrator's, otherwise the selected toggle |
| AuthForm.SignupOutcome | src/components/auth/AuthForm.tsx:26-38 | A sign-up never navigates: it shows the backend's error or the verification message |
| AuthForm.LoginKey | src/components/auth/AuthForm.tsx:46-51 | Non-empty metadata decides the role; otherwise the admin address gives "admin" and anyone else "user" |
| AuthForm.LoginTarget | src/components/auth/AuthForm.tsx:51-60 | The login switch sends admin to /admin, provider to /business and anything else to /services |
| AuthForm.LoginTargetIsDefaultRoute | src/components/auth/AuthForm.tsx:51-60 | The login switch agrees with the route table's home path for every non-empty role |
| AuthForm.LoginOutcome | src/components/auth/AuthForm.tsx:40-63 | A failed login shows the error; a successful one navigates to the home path of the resolved role |
| AuthForm.Submit | src/components/auth/AuthForm.tsx:17-67 | A submission navigates iff it is a login and the backend reported no error |
| AuthForm.SignedUpAccountsLandHome | src/components/auth/AuthForm.tsx:24-60 | An account created through the form logs in to the home path of its context role, which renders without a redirect |
| AuthForm.PrecedenceDiffers | src/components/auth/AuthForm.tsx:48-51 | The form and the context resolve the admin address with "provider" metadata differently, and the route table then redirects |
| Browse.BrowseFetch | src/pages/Services.tsx:27-31 | The catalogue holds exactly the approved listings |
| Browse.SearchIff | src/pages/Services.tsx:45-48 | Search passes iff the folded query occurs in the folded name, description or location; the empty query passes everything; the query's case does not matter |
| Browse.TypeFilterIff | src/pages/Services.tsx:51 | "all" passes everything, a category name passes exactly that category, and an unknown name passes nothing |
| Browse.PieceValue | src/pages/Services.tsx:57 | A range piece is infinity iff it is "+", and a digit piece is its decimal value |
| Browse.ClosedRangeInclusive | src/pages/Services.tsx:54-59 | A range "lo-hi" of digit runs matches exactly the prices between them, both ends included |
| Browse.PriceOptions | src/components/services/ServiceFilters.tsx:64-67 | "all", "0-50", "51-100" and "101-200" match exactly the prices their labels say |
| Browse.OpenRangeMatchesNothing | src/pages/Services.tsx:57-58 | The "201+" option matches no price at all |
| Browse.IntendedOpenRange | src/components/services/ServiceFilters.tsx:68 | Corrected: with the corrected test, "201+" matches exactly the prices of 201 and up |
| Browse.IntendedKeepsClosedRanges | src/components/services/ServiceFilters.tsx:64-67 | Corrected: the corrected test reads every other option as the original does |
| Browse.FilterServices | src/pages/Services.tsx:42-62 | A listing is shown iff it passes search, category and price, as often as it was fetched, and the shown listings keep their order |
| Browse.FilterExtremes | src/pages/Services.tsx:17-59 | With every control at its initial value all listings show; with "201+" none do |
| Browse.View | src/pages/Services.tsx:93-103 | The grid shows iff loading is done, there is no error and the list is non-empty; an empty list shows the no-results note |
| Slots.FormatTimeRoundTrip | src/pages/ServiceDetail.tsx:161-167 | Formatting a time and reading back its hour and minute gives the time back |
| Slots.ParseTimeRoundTrip | src/pages/ServiceDetail.tsx:161-167 | Reading a valid "HH:MM" string and formatting it again gives the same string |
| Slots.ValidTimeIff | src/pages/ServiceDetail.tsx:188-192 | The time check accepts exactly the two-digit-colon-two-digit strings |
| Slots.CalculateEndTime | src/pages/ServiceDetail.tsx:161-167 | The end time is a valid time whose minute equals the start's and whose hour is the start's plus the duration modulo 24 |
| Slots.EndTimeComposes | src/pages/ServiceDetail.tsx:161-167 | Adding two durations one after the other is adding their sum |
| Slots.EndTimeExamples | src/pages/ServiceDetail.tsx:161-167 | Concrete end times, including the wrap past midnight |
| Slots.InitialForm | src/pages/ServiceDetail.tsx:31-38 | The modal's form, set once when the modal is first rendered, books one hour at the listing's hourly price on the day it was given |
| Slots.ApplyEdit | src/pages/ServiceDetail.tsx:55-91 | A duration edit sets the duration and keeps the price at duration times hourly price; other edits keep duration and price; date and requests are never touched |
| Slots.EditsKeepPrice | src/pages/ServiceDetail.tsx:31-91 | From the fresh form, any sequence of edits keeps the price at duration times hourly price |
| Slots.EditsPreservePrice | src/pages/ServiceDetail.tsx:84-91 | After any sequence of edits the price is the duration times the hourly price |
| Slots.EditsKeepDate | src/pages/ServiceDetail.tsx:55-91 | No sequence of modal edits changes the date or the special requests |
| Slots.EditsIgnoreDate | src/pages/ServiceDetail.tsx:31-91 | Starting the modal from another day changes only the date of what the customer ends up submitting |
| Slots.SelectedDate | src/pages/ServiceDetail.tsx:146-151 | The page's date is the load day until a pick, then the last day picked |
| Slots.OnNext | src/pages/ServiceDetail.tsx:153-159 | The modal opens iff a date is held, otherwise the date message shows; the page's date always holds a day, so the message is never reached (`Slots.NextGuardsBooking`) |
| Slots.ModalBooksLoadDay | src/pages/ServiceDetail.tsx:146-208 | As written: "Next" always opens the modal, and every inserted row is dated the day the page loaded, never a different day the customer picked |
| Slots.PickedDayIgnored | src/pages/ServiceDetail.tsx:31-38 | Loading on 2026-10-10, picking 2026-10-12 and booking 10:00 inserts a row dated 2026-10-10 |
| Slots.NextGuardsBooking | src/pages/ServiceDetail.tsx:146-208 | Corrected: "Next" opens the modal for every calendar history, an inserted row carries the last day picked (the load day without a pick) and the hourly price times the duration, and without a pick the corrected and the written flow submit the same |
| Slots.StoredRequests | src/pages/ServiceDetail.tsx:207 | Special requests are stored iff given and non-empty, and then unchanged |
| Slots.SubmitBooking | src/pages/ServiceDetail.tsx:169-208 | A request is inserted iff the listing is loaded, a user is signed in and the time is valid; the insert carries the computed end time and pending status |
| Slots.AcceptedBookingPrice | src/pages/ServiceDetail.tsx:184-207 | An inserted booking's price is the duration times the listing's hourly price |
| Slots.FinishBookingAsWritten | src/pages/ServiceDetail.tsx:210-217 | A failed insert shows the failure message; a successful one navigates to /bookings |
| Slots.BookingDoneLandsOnCatalogue | src/pages/ServiceDetail.tsx:217 | /bookings is no route, so a customer is redirected twice and ends on the catalogue |
| Slots.FinishBooking | src/pages/ServiceDetail.tsx:210-217 | Corrected: a failed insert shows the failure message; a successful one navigates to the customer's bookings |
| Slots.CorrectedTargetShowsBookings | src/pages/ServiceDetail.tsx:217 | Corrected: the corrected target renders the bookings page without a redirect |
| Bookings.BookingStatusNameRoundTrip | src/components/admin/BookingManagement.tsx:6-26 | Booking-status names and statuses parse back to each other, in both directions |
| Bookings.SetStatus | src/components/admin/BookingManagement.tsx:73-75 | Only the booking with the given id changes, and only its status; list length and order are kept |
| Bookings.SetStatusIdempotent | src/components/admin/BookingManagement.tsx:73-75 | Applying the same status update twice is applying it once |
| Bookings.DeleteBooking | src/components/admin/BookingManagement.tsx:94 | The result holds exactly the bookings whose id differs |
| Bookings.DeleteCount | src/components/admin/BookingManagement.tsx:94 | Deletion removes exactly the bookings carrying that id |
| Bookings.DeleteKeepsOrder | src/components/admin/BookingManagement.tsx:94 | The remaining bookings keep their order |
| Bookings.FilterBookings | src/components/admin/BookingManagement.tsx:102-104 | "all" shows every booking, a status shows exactly the bookings in it, each as often as it occurs, in order |
| Bookings.FilterByStatus | src/components/admin/BookingManagement.tsx:102-104 | A status filter shows exactly the bookings in that status, in their order, and a filter naming no status shows nothing |
| BookingAdmin.ActionTarget | src/components/admin/BookingManagement.tsx:167-197 | Every button except delete sets a status |
| BookingAdmin.OfferedActions | src/components/admin/BookingManagement.tsx:167-197 | Pending offers confirm and cancel; confirmed offers complete; every status offers delete |
| BookingAdmin.AdminButtonsAreLifecycle | src/components/admin/BookingManagement.tsx:167-197 | Every status change the buttons offer moves along the pending, confirmed, completed/cancelled lifecycle |
| BookingAdmin.ButtonsPerStatus | src/components/admin/BookingManagement.tsx:167-197 | Terminal bookings offer only delete |
| BookingAdmin.AdminStepAdvances | src/components/admin/BookingManagement.tsx:167-197 | Each offered status change strictly advances the lifecycle rank |
| BookingAdmin.AdminRunMonotone | src/components/admin/BookingManagement.tsx:167-197 | A run of offered clicks never lowers the lifecycle rank, and a completed or cancelled booking never changes |
| BookingAdmin.Click | src/components/admin/BookingManagement.tsx:64-100 | A status update changes only the clicked booking's status and toasts "Booking <status> successfully"; a delete removes exactly the clicked id and toasts its success; a failed call leaves the list alone and toasts "Failed to update booking" or "Failed to delete booking"; every update is one the buttons allow |
| BookingAdmin.SuccessToastNamesButton | src/components/admin/BookingManagement.tsx:76-95 | The button is read back from its success toast, so two buttons show the same success toast iff they are the same button |
| ProviderBookings.SelectorDisabledIffTerminal | src/pages/ProviderBookings.tsx:142-152 | The selector is disabled exactly for completed and cancelled bookings |
| ProviderBookings.AdminRulesWithinProviderRules | src/pages/ProviderBookings.tsx:142-152 | Every change the admin buttons allow the provider's selector also allows |
| ProviderBookings.TerminalIsFinal | src/pages/ProviderBookings.tsx:146 | Nothing changes the status of a completed or cancelled booking |
| ProviderBookings.Choose | src/pages/ProviderBookings.tsx:57-75 | A selection updates only the chosen booking and keeps any earlier error; a failed call keeps the list and shows the backend's message as the page error |
| ProviderBookings.ErrorOutlivesSuccess | src/pages/ProviderBookings.tsx:57-101 | A failure's message stays above the list after a later successful choice, which still applies its change |
| ProviderBookings.StatusColor | src/pages/ProviderBookings.tsx:77-85 | A string gets the default colour iff it names no booking status |
| ProviderBookings.StatusColorsDistinct | src/pages/ProviderBookings.tsx:77-85 | Different statuses get different colours |
| ProviderBookings.View | src/pages/ProviderBookings.tsx:87-95 | Nothing renders iff no one is signed in; the table renders iff signed in and loading is done |
| ListingForm.FormChoices | src/components/services/ServiceForm.tsx:11-15 | Seven distinct lower-case weekdays, and the five categories in order |
| ListingForm.InitialState | src/components/services/ServiceForm.tsx:18-32 | Each field is the initial data's value when present and the default otherwise |
| ListingForm.SubmittedObject | src/components/services/ServiceForm.tsx:31-47 | Started from a stored listing, the form submits the edited fields together with the listing's id, timestamps, owner and approval state, which no input changes |
| ListingForm.InitialStateOfListing | src/components/services/ServiceForm.tsx:18-32 | Editing a listing starts the twelve form fields from the listing's own, and the untouched form submits the listing itself; empty initial data starts from the defaults |
| ListingForm.ValidateForm | src/components/services/ServiceForm.tsx:43-47 | Submission is blocked with the required-fields message iff a text field is empty or the price is zero; otherwise the data goes on unchanged |
| ListingForm.ErrorAfterSubmit | src/components/services/ServiceForm.tsx:37-53 | The message left is the check's message, else the callback's error, else none |
| ListingForm.SubmitGate | src/components/services/ServiceForm.tsx:18-47 | The untouched form cannot be submitted; any state with the texts filled and a non-zero price can |
| ListingForm.ToggleDay | src/components/services/ServiceForm.tsx:60-67 | A toggle flips the day's membership and leaves all other days alone; a new day goes last; duplicates never appear |
| ListingForm.ToggleField | src/components/services/ServiceForm.tsx:60-67 | The checkbox of the toggled day flips and every other checkbox keeps its state |
| ListingForm.ToggleTwice | src/components/services/ServiceForm.tsx:60-67 | Toggling twice restores an unchecked day's list and keeps the set of days of a checked one |
| ListingForm.AddTag | src/components/services/ServiceForm.tsx:69-81 | Enter with a non-blank draft appends the trimmed draft and clears the field; anything else changes nothing |
| ListingForm.RemoveTag | src/components/services/ServiceForm.tsx:83-88 | Removing drops exactly the item at that position; an absent list stays absent |
| ListingForm.RemoveUndoesAdd | src/components/services/ServiceForm.tsx:69-88 | Removing the tag just added restores the list |
| ListingForm.ListSectionsFollowTags | src/pages/ServiceDetail.tsx:279-293 | The untouched form's lists show no amenities or rules section, a list a tag was added to shows it, and removing the only tag hides it |
| ListingForm.AddedTagIsTrimmed | src/components/services/ServiceForm.tsx:72-77 | The added tag is non-empty and has no surrounding white space |
| Dashboard.TallyCounts | src/pages/BusinessDashboard.tsx:46-50 | The fold adds the number of listings and the number in each status to its start value |
| Dashboard.StatusesPartition | src/types/service.ts:2 | The three approval-state counts add up to the number of listings |
| Dashboard.StatsAreCounts | src/pages/BusinessDashboard.tsx:46-50 | Total is the number of listings, each counter the number in its status, and the three sum to the total |
| Dashboard.HandleAdd | src/pages/BusinessDashboard.tsx:65-86 | A row is inserted iff a user is signed in and the insert succeeds, as pending and owned by that user; any failure gives one message |
| Dashboard.AddedListingAwaitsApproval | src/pages/BusinessDashboard.tsx:65-86 | A listing added by a provider holds exactly the submitted fields, raises the pending and total counters by one, and is absent from the customers' catalogue |
| Dashboard.HandleUpdate | src/pages/BusinessDashboard.tsx:88-106 | Corrected: nothing without a listing being edited; otherwise that listing's row is updated with the twelve form fields alone, or the failure reported |
| Dashboard.OnSubmit | src/pages/BusinessDashboard.tsx:137-139 | As written: the form calls the whole-object update while editing and add otherwise, and always does something |
| Dashboard.OnSubmitCorrected | src/pages/BusinessDashboard.tsx:137-139 | Corrected: the same dispatch with the twelve-field update |
| Dashboard.HandleUpdateAsWritten | src/pages/BusinessDashboard.tsx:88-106 | As written: the whole form object goes over the edited row, carrying the form's fields and the owner and approval state of the copy fetched when Edit was clicked |
| Dashboard.StaleCopyRevertsApproval | src/pages/BusinessDashboard.tsx:92-95 | A copy fetched while pending and saved after an approval writes the status back to pending |
| Dashboard.Updated | src/pages/BusinessDashboard.tsx:88-95 | Corrected: the stored row carries the form's fields over the stored listing's id, owner and approval state |
| Dashboard.EditKeepsApproval | src/pages/BusinessDashboard.tsx:88-95 | Corrected: whatever copy the form started from, an edit never changes the stored approval state, and saving unchanged data changes nothing |
| Dashboard.CorrectedUpdateAgreesOnFreshCopy | src/pages/BusinessDashboard.tsx:88-95 | When the row did not change since it was fetched, the write as written and the corrected update store the same row |
| Dashboard.SuccessfulSaveStoresForm | src/pages/BusinessDashboard.tsx:65-139 | As written: a successful edit stores the submitted fields over the copy the form started from, with that copy's id, creation time, owner and approval state; an add makes a pending row of the signed-in user with the submitted fields |
| Dashboard.CorrectedSaveStoresForm | src/pages/BusinessDashboard.tsx:65-139 | Corrected: a successful save stores the submitted fields; an edit keeps the stored row's owner and approval state, an add makes a pending row of the signed-in user |
| Dashboard.StatusBadge | src/pages/BusinessDashboard.tsx:126-132 | Approved is success, rejected is error, anything else warning |
| Dashboard.BadgesDistinct | src/pages/BusinessDashboard.tsx:126-132 | The three approval states get three different colours, pending the warning one |
| ListingAdmin.ProviderIds | src/components/admin/ServiceManagement.tsx:41 | The owner ids hold every listing's owner exactly once and nothing else |
| ListingAdmin.ProviderEmail | src/components/admin/ServiceManagement.tsx:52 | No address without a profile list or without a matching profile; an address found is the first matching profile's |
| ListingAdmin.JoinProviders | src/components/admin/ServiceManagement.tsx:50-53 | The join keeps every listing, in order, and attaches its owner's address |
| ListingAdmin.JoinConsistent | src/components/admin/ServiceManagement.tsx:50-53 | Two listings of the same owner show the same owner address |
| ListingAdmin.DisplayProvider | src/components/admin/ServiceManagement.tsx:170 | The owner's address shows when known and non-empty, otherwise the owner id |
| ListingAdmin.ChangeStatus | src/components/admin/ServiceManagement.tsx:63-79 | A successful change sets only that listing's status; a failure records the error and changes no row |
| ListingAdmin.StatusSelectOf | src/components/admin/ServiceManagement.tsx:252-260 | Each row's select shows its state and offers all three approval states, each a stored name, whatever that state is |
| ListingAdmin.AnyStatusFromAny | src/components/admin/ServiceManagement.tsx:252-260 | Every row's select offers every target state, and choosing any offered option sets that row to it, back to pending included |
| ListingAdmin.DeleteListing | src/components/admin/ServiceManagement.tsx:81-97 | A successful delete removes exactly the rows with that id, keeping every other row as often as it occurs and in order; a failure only sets the error |
| ListingAdmin.ApplyPayload | src/components/admin/ServiceManagement.tsx:106-121 | The written row carries the payload's fields and keeps id, owner, status, image and timestamps |
| ListingAdmin.ApplyOwnPayload | src/components/admin/ServiceManagement.tsx:108-120 | Writing back a listing's own edit payload leaves it unchanged |
| ListingAdmin.HandleEditAsWritten | src/components/admin/ServiceManagement.tsx:99-133 | The first click opens a draft of the row; the second saves it and replaces the row with the draft |
| ListingAdmin.WrittenPayload | src/components/admin/ServiceManagement.tsx:108-120 | The saved payload is the draft's eleven editable fields |
| ListingAdmin.EditTwoClicks | src/components/admin/ServiceManagement.tsx:99-129 | The first click only opens the editor and writes nothing; the second writes the draft's payload and closes the editor |
| ListingAdmin.OtherRowClickDropsDraft | src/components/admin/ServiceManagement.tsx:99-129 | Clicking another row's edit button while a draft is open writes that other row, closes the editor and leaves the drafted row unchanged |
| ListingAdmin.SavedRowShowsStaleStatus | src/components/admin/ServiceManagement.tsx:126-128 | A status changed while the row is being edited is reverted in the table, while the stored row keeps it |
| ListingAdmin.HandleEdit | src/components/admin/ServiceManagement.tsx:99-133 | Corrected: the corrected save gives the matching rows the payload's fields and keeps their id, owner, status and owner address |
| ListingAdmin.SaveKeepsTableInSync | src/components/admin/ServiceManagement.tsx:126-128 | Corrected: after the corrected save each row equals what the backend stores for it |
| ListingAdmin.CorrectedSaveAgreesOnFreshDraft | src/components/admin/ServiceManagement.tsx:126-128 | When the draft agrees with its row outside the edited fields, the corrected and the original save give the same table |
| ListingAdmin.CancelEdit | src/components/admin/ServiceManagement.tsx:263-279 | Cancel closes the editor and changes no row |
| ListingAdmin.View | src/components/admin/ServiceManagement.tsx:135-136 | The loading text while loading, the error alone whenever one is set, and the table with its edit row exactly when neither |
| ListingAdmin.ErrorHidesTable | src/components/admin/ServiceManagement.tsx:63-136 | A failed status change or delete replaces the table with its message, and no status change, delete, edit click or cancel clears an error once set |

## Left out

- Backend calls (fetch, insert, update, delete, session lookup) are inputs: the rows returned or a failure flag. Query ordering by creation time is the backend's and is not modelled.
- The toasts and page errors of the modelled handlers, `window.confirm` and `navigate` become outcome values (`BookingAdmin.Click`, `ProviderBookings.Choose`, `Slots.SubmitBooking`, `Slots.FinishBooking`); the confirmation dialog is assumed answered yes. `console.error` is not modelled, and neither are the toasts of the initial fetches ("Failed to load bookings", "Failed to load service details") or the success toast shown before the navigation after a booking.
- React hooks, effects and rendering order are not modelled beyond the booking modal's one-time copy of the date (`Slots.BookingFlowAsWritten`). The day the page loads on is a parameter, since it comes from the clock. Overlapping auth notifications are folded in arrival order only (`Auth.AfterSessions`).
- Prices are integers. JavaScript numbers are floating point, and `parseInt`/`Number` of arbitrary text are modelled only on digit strings.
- ListingForm.ValidateForm: the required-price test is on the stored integer; a price typed as the text "0" is truthy in the code and not modelled.
- Dates are opaque strings. The JavaScript `Date` arithmetic and time zones are left out, and a booking that wraps past midnight keeps its start date in `Slots.CalculateEndTime`, as the code does.
- `toLowerCase` and `trim` are modelled on ASCII letters and the space, tab, newline, carriage-return, form-feed and vertical-tab characters, not full Unicode.
- React Router's case-insensitive and trailing-slash path matching is not modelled; paths are compared exactly.
- Latitude, longitude, rating and review count are not part of the listing record. No modelled page reads them; the provider's update as written (`Dashboard.HandleUpdateAsWritten`) also writes back the fetched copy's values of them, which the model does not show.
- Joined display data in the booking tables (service name, customer address) is carried as plain fields and not resolved.
- The generic field setter of the forms and the inline-edit inputs are not stepped through: the draft is an input to `ListingAdmin.HandleEdit`.
- The first, unused listings fetch in `ServiceManagement.tsx` and the provider-side delete in `BusinessDashboard.tsx:108-124` are not modelled.
- `src/pages/MyBookings.tsx`, the customer's read-only list of their own bookings (fetched by user id, newest booking date first, with status labels and a QR code view), is outside this model; it is the page `Slots.CorrectedTargetShowsBookings` lands on.
- `AdminDashboard.tsx` switches between a listings tab, which renders `ServiceManagement`, and a bookings tab that shows placeholder text: it imports `BookingManagement` but does not render it, so `BookingAdmin` models that component on its own. The dashboard's tab switch and sign-out button, `ServicesPage.tsx` (a static page with a sign-out button that no route reaches), the header and the page headers are not part of this model.

## Findings

| source | as written | input that shows it | evidently intended | confidence | as-written member | corrected member |
|---|---|---|---|---|---|---|
| src/pages/Services.tsx:57-58 | The range is split on '-' and `Number` is applied to the pieces, so the option "201+" gives a NaN minimum and an undefined maximum | Any listing, say priced 300, with the price filter "201+" | "201+" shows the listings priced 201 and up | not executed | Browse.OpenRangeMatchesNothing | Browse.IntendedOpenRange |
| src/pages/ServiceDetail.tsx:217 | After a successful booking the page navigates to "/bookings", which is not a route: the catch-all sends the customer to "/", then to "/services" | A signed-in customer whose booking insert succeeds | The customer lands on "/my-bookings" and sees the new request | not executed | Slots.BookingDoneLandsOnCatalogue | Slots.CorrectedTargetShowsBookings |
| src/components/admin/ServiceManagement.tsx:126-128 | Saving an inline edit replaces the row with the draft copied at the first click, including its status | The admin opens a pending listing's editor, approves it with the status select, then saves | The table shows the approved status that the backend keeps | not executed | ListingAdmin.SavedRowShowsStaleStatus | ListingAdmin.SaveKeepsTableInSync |
| src/pages/BusinessDashboard.tsx:92-95 | The provider's update sends the form's whole state, which the spread at `ServiceForm.tsx:31` filled with the row fetched when Edit was clicked, so it writes that copy's status and owner back | A provider opens a listing fetched as pending, an administrator approves it, then the provider saves a text change | The update writes the twelve `ServiceFormData` fields and keeps the stored approval state | not executed | Dashboard.StaleCopyRevertsApproval | Dashboard.EditKeepsApproval |
| src/pages/ServiceDetail.tsx:31-38 | The booking modal copies `selectedDate` into its own state once, when it is first rendered with the calendar; later calendar picks change only the page's date, and the insert uses the modal's copy (line 185) | A customer loads a listing on 2026-10-10, picks 2026-10-12, presses "Next" and books 10:00 | The row is dated the day the customer picked | not executed | Slots.PickedDayIgnored | Slots.NextGuardsBooking |
