# Cable Flow Manager — a Dafny model of its session, routing and page logic

Cable Flow Manager is a dashboard for a cable and satellite subscription business. An
administrator manages members, their recharges and payment reports. A member sees their
subscription, pays for a recharge and browses their payment history. The application keeps
no server state. Its data is two fixed tables: members and payments. The signed-in user is
held by a session provider and mirrored into the browser's key-value storage.

This project models the logic behind those screens:

- **The session** (`AuthContext`). The mock sign-in guesses the role from the email and
  completes after a simulated delay. Hydration restores the user from storage, and sign-out
  clears both. A class `AuthProvider` holds the user, the storage and the queue of sign-ins
  still waiting for their delay to end.
- **The route gates** (`AppRoutes`, `IndexPage`). They decide whether a visitor sees an
  admin or member area or is redirected, and where to.
- **The data tables and their two lookups** (`MockData`).
- **The admin pages.**
  - `AdminDashboard`: recent payments, upcoming recharges and failed-payment alerts.
  - `AdminMembers`: search and filters, and the provider list.
  - `AdminMemberProfile`: lookup, not-found view, recharge-due flag and history table.
  - `AdminRecharge`: name-or-id search and the auto-recharge column.
  - `AdminReports`: the join of payments with members, newest first, a date and provider
    filter, and the summary totals.
- **The member pages.**
  - `MemberDashboard`: days left, percentage used, expiry warnings and recent payments.
  - `MemberPayments`: the sorted history, its filters and clear control, and the total paid.
  - `MemberRecharge`: the recharge form as a class. It covers preset and custom amounts,
    the validation guard, the processing state and the completion step.
- **Helper modules.**
  - `Seqs` gives the array steps the pages chain together (`filter`, `map`, `slice`, a
    stable `sort`, `Set` de-duplication), with their facts proved once.
  - `Text` gives lower-casing and substring search.
  - `Numbers` gives `Math.round` on a quotient.
  - `Aggregates` gives the successful-payment total and the status counts.
  - `Badges` gives the status-to-badge mappings.

Modelling conventions:

- Dates are whole day numbers. The current day is an explicit parameter `today`. The two
  tables are functions of `today`, because the source builds their dates relative to the
  current date.
- Amounts are unbounded integers.
- The pages' `[...xs].sort(cmp)` is a stable insertion sort, descending by an integer key.
  An ascending sort uses the negated key.
- Browser storage is a `map<string, User>`.
- Each timer is an explicit step method that the caller invokes when the delay ends.

## Model

| member | source | states |
|---|---|---|
| AuthContext.MockUser | src/context/AuthContext.tsx:35-55 | the signed-in user keeps the email; the role is admin exactly when the email contains "admin", otherwise member; the id and name follow the role |
| AuthContext.MockUserIgnoresPassword | src/context/AuthContext.tsx:35-55 | two passwords give the same user for one email |
| AuthContext.Stored | src/context/AuthContext.tsx:28-33 | hydration finds a user exactly when the storage key is present, and then it is the stored record |
| AuthContext.PersistRoundTrip | src/context/AuthContext.tsx:60-61 | a user written under the storage key is read back unchanged |
| AuthContext.CapabilitiesOf | src/context/AuthContext.tsx:69-71 | authenticated iff a user is present; admin and member iff the role matches; never both; either implies authenticated |
| AuthContext.NoRoleIsOnlyAuthenticated | src/context/AuthContext.tsx:4-4 | a user whose role is null is authenticated and holds neither role |
| AuthContext.AuthProvider.constructor | src/context/AuthContext.tsx:25-25 | the provider starts with no user, the given storage and no pending sign-in |
| AuthContext.AuthProvider.Hydrate | src/context/AuthContext.tsx:28-33 | after mounting, the in-memory user equals what storage holds |
| AuthContext.AuthProvider.Login | src/context/AuthContext.tsx:35-58 | a sign-in queues the built user and changes nothing visible until its delay ends |
| AuthContext.AuthProvider.ResolveLogin | src/context/AuthContext.tsx:58-61 | when the oldest delay ends, that user becomes current and is persisted; memory and storage agree |
| AuthContext.AuthProvider.Logout | src/context/AuthContext.tsx:64-67 | no user, the storage key removed and nothing else in storage touched, all flags false |
| AuthContext.SignInThenReload | src/context/AuthContext.tsx:28-61 | a reload after a completed sign-in restores the same user |
| AuthContext.SignOutTwice | src/context/AuthContext.tsx:64-67 | signing out is idempotent |
| AuthContext.HydrateEmpty | src/context/AuthContext.tsx:25-33 | with nothing stored the visitor stays signed out |
| AppRoutes.AdminRoute | src/App.tsx:28-40 | renders iff an admin is signed in; signed out goes to /login; any other user goes to /member |
| AppRoutes.MemberRoute | src/App.tsx:43-55 | renders iff a member is signed in; signed out goes to /login; any other user goes to /admin |
| AppRoutes.RootRedirect | src/App.tsx:58-66 | / goes to /login iff signed out, to /admin iff an admin, otherwise to /member |
| AppRoutes.GatesExclusive | src/App.tsx:28-55 | no session sees both areas; rendering implies the matching capability flag |
| AppRoutes.NoRoleSeesNothing | src/App.tsx:35-52 | a user without a role is redirected by both gates, each to the other's home |
| AppRoutes.RootRedirectSettles | src/App.tsx:28-66 | for a signed-out visitor or a user with a role, the root redirect lands on a page that renders; a user without a role is sent from / to /member, whose gate sends them to /admin, whose gate sends them back to /member: a redirect loop |
| AppRoutes.WrongRoleRedirectRenders | src/App.tsx:35-54 | a wrong-role redirect lands on the home that renders for the user's actual role |
| AppRoutes.SignedOutGoesToLogin | src/App.tsx:31-62 | signed out, both gates and the root lead to /login |
| IndexPage.IndexDestination | src/pages/Index.tsx:10-20 | the index page navigates exactly where the root redirect goes |
| MockData.Members | src/data/mockData.ts:43-104 | five members; every validity period lasts 30 days and the next recharge falls on its last day |
| MockData.Payments | src/data/mockData.ts:107-172 | eight payments, all with a positive amount and dated before today |
| MockData.GetMemberPayments | src/data/mockData.ts:248-250 | exactly the payments bearing the id, each as often as in the table, in table order |
| MockData.GetMemberById | src/data/mockData.ts:253-255 | none iff no member has the id; otherwise the first member with it |
| MockData.ShippedTablesConsistent | src/data/mockData.ts:43-172 | the shipped member ids are distinct and every shipped payment belongs to a shipped member |
| Aggregates.SuccessfulTotal | src/pages/admin/Reports.tsx:62-63 | the `reduce` over a list with no successful payment is 0 |
| Aggregates.CountStatus | src/pages/admin/Reports.tsx:65-67 | at most the list length, and 0 iff no payment has the status |
| Aggregates.CountStatusPermutation | src/pages/admin/Reports.tsx:65-67 | the status counts do not depend on the order of the payments |
| Aggregates.OnlySuccessfulCount | src/pages/admin/Reports.tsx:62-63 | the total equals the total of the successful payments alone; failed and pending add nothing |
| Aggregates.SuccessfulTotalPermutation | src/pages/member/Payments.tsx:162-162 | the total does not depend on the order of the payments |
| Aggregates.SuccessfulTotalNonNegative | src/pages/admin/Reports.tsx:62-63 | with no negative amount the total is not negative |
| Aggregates.StatusCountsCover | src/pages/admin/Reports.tsx:65-67 | successful, failed and pending counts add up to the number of payments |
| Badges.MemberBadge | src/pages/admin/Members.tsx:147-150 | active → default, inactive → outline, pending → secondary, each both ways; never destructive |
| Badges.RechargeStatusBadge | src/pages/admin/Recharge.tsx:97-100 | active → default, inactive → destructive, pending → secondary, each both ways |
| Badges.PaymentBadge | src/pages/member/Payments.tsx:121-124 | successful → default, failed → destructive, pending → secondary, each both ways |
| Badges.MemberBadgesDifferOnlyWhenInactive | src/pages/admin/Recharge.tsx:97-100 | the recharge table and the members table show the same badge except for inactive members |
| AdminDashboard.RecentPayments | src/pages/admin/Dashboard.tsx:18-20 | min(5, n) payments, newest first, drawn from the table with no payment repeated beyond its count there, and no omitted payment is newer than a listed one |
| AdminDashboard.DueMembers | src/pages/admin/Dashboard.tsx:24-24 | a member is kept iff their next recharge lies after today, as often as in the table and in table order |
| AdminDashboard.SoonestFirstOrder | src/pages/admin/Dashboard.tsx:25-25 | a larger sort key is exactly an earlier or equal next recharge date, so descending by the key is the source's ascending date order |
| AdminDashboard.UpcomingRecharges | src/pages/admin/Dashboard.tsx:23-26 | min(5, due) members due after today, soonest first, drawn from the due members with none repeated beyond its count there, and no omitted due member is due sooner |
| AdminDashboard.FailedRecharges | src/pages/admin/Dashboard.tsx:29-31 | min(3, failed count) failed payments, a prefix of the failed ones in table order; empty iff none failed |
| AdminDashboard.ShowsNoAlerts | src/pages/admin/Dashboard.tsx:192-196 | the "No alerts" message shows iff no payment failed |
| AdminDashboard.MemberNameOrUnknown | src/pages/admin/Dashboard.tsx:110-114 | the name of the first member with the id when it is non-empty; "Unknown" when no member has the id or that name is empty; never empty |
| AdminDashboard.AlertMemberName | src/pages/admin/Dashboard.tsx:171-176 | the name of the first member with the id, as stored, and the empty string when no member has it; when non-empty it agrees with the recent-payments column |
| AdminDashboard.ShippedAlerts | src/pages/admin/Dashboard.tsx:29-31 | on the shipped tables exactly one alert (PAY007) shows, and no "No alerts" message |
| AdminMembers.FilteredMembers | src/pages/admin/Members.tsx:45-55 | a member is listed iff the case-insensitive term occurs in name, id or email, the status is admitted and the provider is admitted; each kept member as often as in the table; table order is kept |
| AdminMembers.NoFilterKeepsAll | src/pages/admin/Members.tsx:45-55 | empty search with both filters on 'all' lists the whole table |
| AdminMembers.SearchIgnoresCase | src/pages/admin/Members.tsx:46-49 | terms that lower-case alike give the same list |
| AdminMembers.LowerCaseTermSameList | src/pages/admin/Members.tsx:46-49 | lower-casing the typed term changes nothing |
| AdminMembers.ChoosingStatusNarrows | src/pages/admin/Members.tsx:51-51 | a chosen status lists a subsequence of what 'all' lists |
| AdminMembers.ChoosingProviderNarrows | src/pages/admin/Members.tsx:52-52 | a chosen provider lists a subsequence of what 'all' lists |
| AdminMembers.UniqueProviders | src/pages/admin/Members.tsx:42-42 | every provider in the table appears, nothing else does, none twice, and in order of first appearance: a provider listed earlier occurs in the table before any occurrence of one listed later |
| AdminMembers.ShippedProviders | src/pages/admin/Members.tsx:42-42 | the shipped table gives CableTech, SatelliteVision, TeleStream in that order |
| AdminRecharge.RechargeMembers | src/pages/admin/Recharge.tsx:30-35 | a member is listed iff the case-insensitive term occurs in name or id; each kept member as often as in the table; table order is kept |
| AdminRecharge.EmailIsNotSearched | src/pages/admin/Recharge.tsx:30-35 | a term found in neither name nor id leaves the member out, whatever the email holds |
| AdminRecharge.EmptyTermKeepsAll | src/pages/admin/Recharge.tsx:30-35 | an empty search lists the whole table |
| AdminRecharge.NarrowerThanMembersSearch | src/pages/admin/Recharge.tsx:30-35 | the recharge search lists a subsequence of the members-page search with no filter |
| AdminRecharge.AutoRechargeEnabled | src/pages/admin/Recharge.tsx:92-92 | auto-recharge shows enabled iff the member id contains the digit 1 |
| AdminRecharge.AutoRechargeLabel | src/pages/admin/Recharge.tsx:92-93 | "Enabled" iff the id contains 1, "Disabled" otherwise |
| AdminRecharge.ShippedAutoRecharge | src/pages/admin/Recharge.tsx:92-93 | in the shipped table only MEM001 shows auto-recharge as enabled |
| AdminReports.Enrich | src/pages/admin/Reports.tsx:32-38 | one row per payment of the member, in order, each carrying the member's name, plan and provider |
| AdminReports.GetAllPayments | src/pages/admin/Reports.tsx:28-41 | the loop gathers every member's enriched payments; the result is that list stably sorted newest first, a permutation of it |
| AdminReports.Joined | src/pages/admin/Reports.tsx:29-39 | the gathered list has one row per payment of each visited member |
| AdminReports.JoinedRows | src/pages/admin/Reports.tsx:29-39 | each row is a payment of the table carrying the fields of a member whose id it bears |
| AdminReports.JoinedIsOwnedPayments | src/pages/admin/Reports.tsx:29-39 | with distinct member ids, the gathered payments are exactly those owned by some member, each once |
| AdminReports.ShippedReportListsEveryPayment | src/pages/admin/Reports.tsx:28-41 | on the shipped tables the report lists every payment exactly once |
| AdminReports.FilteredPayments | src/pages/admin/Reports.tsx:52-59 | a row is kept iff its date is within the range and its provider is admitted; each kept row as often as in the input; order is kept |
| AdminReports.FilteredStaysSorted | src/pages/admin/Reports.tsx:52-59 | filtering a newest-first list leaves it newest first |
| AdminReports.WiderRangeKeepsMore | src/pages/admin/Reports.tsx:52-55 | a wider date range keeps every row a narrower one keeps |
| AdminReports.Average | src/pages/admin/Reports.tsx:161-161 | 0 with no successful payment; otherwise the total over the count rounded half up |
| AdminReports.Summarize | src/pages/admin/Reports.tsx:62-67 | transactions is the row count; each status count is the number of rows with that status, and the three add up to it; the total is that of the successful rows; the average is that total over the successful count rounded, 0 with no success |
| AdminReports.SummarizePermutation | src/pages/admin/Reports.tsx:62-67 | the summary cards do not depend on the order of the rows |
| AdminReports.ReportsPage | src/pages/admin/Reports.tsx:43-67 | the shown rows are newest first and are the joined rows in range, each exactly as often as in the join; the summary is taken over them and equals that of the unsorted filtered join |
| AdminMemberProfile.LookupKey | src/pages/admin/MemberProfile.tsx:39-40 | a missing route parameter is looked up as the empty string |
| AdminMemberProfile.PaymentStatusLabel | src/pages/admin/MemberProfile.tsx:206-218 | "Successful", "Failed", "Pending" for the three statuses, each both ways |
| AdminMemberProfile.LabelNamesStatus | src/pages/admin/MemberProfile.tsx:206-218 | each label is the stored status name with its first letter capitalised |
| AdminMemberProfile.HistoryRows | src/pages/admin/MemberProfile.tsx:197-232 | one row per payment with its label, in order, or a single placeholder row iff there is no payment |
| AdminMemberProfile.ProfilePage | src/pages/admin/MemberProfile.tsx:35-60 | not found iff no member has the key; otherwise that member, the shared badge, recharge needed iff the due day is not after today, and the member's history |
| AdminMemberProfile.MissingParamNotFound | src/pages/admin/MemberProfile.tsx:39-53 | without a parameter the page is not found, unless some member has the empty id |
| AdminMemberProfile.RechargeDueBoundary | src/pages/admin/MemberProfile.tsx:60-60 | on the due day a recharge is needed, on the day before it is not |
| MemberDashboard.DaysLeft | src/pages/member/Dashboard.tsx:27-27 | days left is never negative, and is the days to the end of validity whenever that is positive |
| MemberDashboard.DaysUsed | src/pages/member/Dashboard.tsx:28-29 | days used plus days left is the period length |
| MemberDashboard.PercentageUsed | src/pages/member/Dashboard.tsx:30-30 | no number iff the period has length zero; otherwise the used share of the period as a percentage, rounded half up and capped at 100 |
| MemberDashboard.PercentageMonotone | src/pages/member/Dashboard.tsx:27-30 | as days pass, the percentage used never goes down |
| MemberDashboard.PercentageWithinPeriod | src/pages/member/Dashboard.tsx:27-30 | within a started period the percentage lies in 0..100 |
| MemberDashboard.PercentageWhenExpired | src/pages/member/Dashboard.tsx:27-30 | after the end of validity the percentage is exactly 100 |
| MemberDashboard.Indicators | src/pages/member/Dashboard.tsx:42-67 | the warning border, the "Expires Soon" text and the notification all show iff at most 5 days are left |
| MemberDashboard.ExpiryWarningThreshold | src/pages/member/Dashboard.tsx:27-44 | the warning shows iff the end of validity is at most 5 days away, expired included |
| MemberDashboard.RecentPayments | src/pages/member/Dashboard.tsx:33-35 | min(3, n) of the member's payments, newest first, none repeated beyond its count among them, and no omitted payment of the member is newer |
| MemberDashboard.ShowsNoHistory | src/pages/member/Dashboard.tsx:151-157 | the placeholder row shows iff the member has no payment |
| MemberDashboard.ShippedMemberHalfway | src/pages/member/Dashboard.tsx:21-30 | counted in whole days, the shipped first member has 15 days left, 50% used and no warning; the page shows this only while the current time is before the end date's UTC midnight |
| MemberDashboard.ShippedMemberLaterInDay | src/pages/member/Dashboard.tsx:21-30 | the same member one day on has 14 days left and 53% used, two days on 13 and 57%: what the page shows when `differenceInDays` drops one or two partial days |
| MemberPayments.SortedPayments | src/pages/member/Payments.tsx:34-40 | the member's payments, exactly, newest first |
| MemberPayments.FilteredPayments | src/pages/member/Payments.tsx:43-48 | a payment is kept iff its transaction id contains the term ignoring case and its status is admitted; each kept payment as often as in the input; order is kept |
| MemberPayments.FilteredStaysNewestFirst | src/pages/member/Payments.tsx:43-48 | filtering keeps the newest-first order |
| MemberPayments.NoFilterShowsAll | src/pages/member/Payments.tsx:43-48 | empty term and 'all' list every payment |
| MemberPayments.TotalPaid | src/pages/member/Payments.tsx:162-162 | the total paid is the successful total of the member's list, whatever its order |
| MemberPayments.ReceiptsAddUpToTotal | src/pages/member/Payments.tsx:134-162 | with no filter, the rows offering a receipt add up to the total paid |
| MemberPayments.PaymentHistory.constructor | src/pages/member/Payments.tsx:30-35 | the page shows the first member's payments with both filters at their defaults |
| MemberPayments.PaymentHistory.ShowsClear | src/pages/member/Payments.tsx:90-90 | the clear control shows iff a search term or a status is set |
| MemberPayments.PaymentHistory.SetSearchTerm | src/pages/member/Payments.tsx:73-73 | the search field stores the typed term |
| MemberPayments.PaymentHistory.SetStatusFilter | src/pages/member/Payments.tsx:78-78 | the select stores the chosen status |
| MemberPayments.PaymentHistory.ClearFilters | src/pages/member/Payments.tsx:91-94 | both filters back to defaults, every payment listed newest first, the control hidden |
| MemberRecharge.Effective | src/pages/member/Recharge.tsx:33-33 | the typed amount when custom is selected, the preset when a preset is selected, empty when nothing is |
| MemberRecharge.GuardRejects | src/pages/member/Recharge.tsx:35-35 | a preset is never rejected; no selection always is; with custom selected, rejected iff nothing is typed |
| MemberRecharge.GuardIsEmptiness | src/pages/member/Recharge.tsx:33-42 | the guard rejects exactly an empty effective amount; its second test adds nothing |
| MemberRecharge.RechargeForm.constructor | src/pages/member/Recharge.tsx:23-27 | nothing selected or typed, not processing, no success, nothing pending |
| MemberRecharge.RechargeForm.PayEnabled | src/pages/member/Recharge.tsx:253-253 | the pay button is enabled iff something is selected and no payment is processing |
| MemberRecharge.RechargeForm.CustomInputEnabled | src/pages/member/Recharge.tsx:157-157 | the custom field is enabled iff custom is selected |
| MemberRecharge.RechargeForm.SummaryAmount | src/pages/member/Recharge.tsx:226-226 | the summary shows the effective amount, or "0" when it is empty |
| MemberRecharge.RechargeForm.ChoosePreset | src/pages/member/Recharge.tsx:131-134 | a preset becomes the selection and clears the custom amount |
| MemberRecharge.RechargeForm.ChooseCustom | src/pages/member/Recharge.tsx:144-144 | custom becomes the selection and the typed amount is kept |
| MemberRecharge.RechargeForm.OnCustomChange | src/pages/member/Recharge.tsx:152-155 | the typed text is stored and custom is forced as the selection |
| MemberRecharge.RechargeForm.TypeCustom | src/pages/member/Recharge.tsx:148-157 | typing changes the form only while the field is enabled |
| MemberRecharge.RechargeForm.HandleRecharge | src/pages/member/Recharge.tsx:32-44 | an empty amount raises the error notification and changes nothing else; any other amount starts processing with that amount |
| MemberRecharge.RechargeForm.ClickPay | src/pages/member/Recharge.tsx:249-253 | a disabled button does nothing; at most one payment is ever in flight |
| MemberRecharge.RechargeForm.CompleteRecharge | src/pages/member/Recharge.tsx:47-56 | processing ends, success shows, and the amount captured at submission is announced |
| MemberRecharge.ZeroCustomAmountAccepted | src/pages/member/Recharge.tsx:35-44 | a custom amount of "0" passes the guard and is submitted |
| MemberRecharge.EmptyCustomAmountRejected | src/pages/member/Recharge.tsx:35-41 | custom with nothing typed is rejected with the error notification |
| MemberRecharge.DoubleClickPaysOnce | src/pages/member/Recharge.tsx:44-61 | two clicks before completion submit once, and completion announces the chosen amount |
| MemberRecharge.SwitchWhileProcessing | src/pages/member/Recharge.tsx:33-56 | changing the selection while processing does not change the amount announced |
| Seqs.Filter | src/pages/admin/Reports.tsx:52-59 | `filter`: kept iff the predicate holds, every copy of an accepted element and none of a rejected one, original order kept |
| Seqs.FilterPermutation | src/pages/admin/Reports.tsx:52-59 | filtering rearranged inputs gives rearranged outputs |
| Seqs.SortDescBy | src/pages/admin/Reports.tsx:40-40 | the sort returns a rearrangement of its input, ordered by the key, largest first |
| Seqs.Dedup | src/pages/admin/Members.tsx:42-42 | `Array.from(new Set(xs))`: exactly the elements of the input, none twice |
| Seqs.DedupFirstAppearance | src/pages/admin/Members.tsx:42-42 | elements come out in order of first appearance in the input |
| Seqs.TopBy | src/pages/admin/Dashboard.tsx:18-20 | `[...s].sort(desc).slice(0, n)`: min(n, \|s\|) elements, sorted, drawn from s, none omitted with a larger key |
| Seqs.SortDescStable | src/pages/admin/Reports.tsx:40-40 | the sort keeps the relative order of elements with equal keys |
| Numbers.RoundHalfUp | src/pages/admin/Reports.tsx:161-161 | `Math.round(n / d)`: the nearest integer, halves rounded up |
| Numbers.RoundHalfUpMonotone | src/pages/member/Dashboard.tsx:30-30 | rounding keeps the order of numerators over one positive denominator |
| Text.Lower | src/pages/admin/Members.tsx:46-49 | `toLowerCase`: same length, each character lower-cased |
| Text.ContainsIffOccurs | src/pages/admin/Members.tsx:46-49 | `includes` finds the term exactly when it occurs as a contiguous block at some position |

## Left out

- Rendering, styling, icons, the layouts (`AdminLayout`, `MemberLayout`), and the sign-in form's markup are not modelled.
- The pages `AddMember`, `Settings` and `ViewPlan`, the `NotFound` page, and the `dashboardSummary` constants (src/data/mockData.ts:238-245) are not modelled. They only display fixed values or collect form input that goes nowhere.
- Navigation is modelled as its destination only. Router path matching and the 2000 ms timer that navigates back after a successful recharge (src/pages/member/Recharge.tsx:58-60) are not modelled.
- The route table (src/App.tsx:68-89) mounts only the dashboard, members and member-profile admin pages and the member dashboard. The reports, both recharge pages, the payment history and the index page are modelled as written, although no route reaches them.
- `useAuth` throwing outside a provider (src/context/AuthContext.tsx:89-95) is not modelled, because the model has no component tree.
- A malformed stored record, which makes `JSON.parse` throw during hydration, is not modelled. Storage holds typed users only.
- Dates are day numbers. The reports page compares a payment's UTC-midnight date with the current instant minus N days, and the dashboards compare with `new Date()`. Which side of a boundary day a record falls on therefore depends on the time of day and the time zone. The model decides at whole-day granularity.
- MemberDashboard.DaysLeft: the end date is a `yyyy-MM-dd` string, which parses as UTC midnight, and `differenceInDays` counts only whole days from the current instant to it (src/pages/member/Dashboard.tsx:26-28). The page therefore counts one day fewer than the model whenever the current time of day is past that UTC midnight, which is most of the day, and two fewer west of UTC in the evening. The model counts whole calendar days.
- MemberDashboard.ShippedMemberHalfway: its 15 days left and 50% are the whole-day values. For most of the day the page shows 14 days and 53%, and west of UTC in the evening 13 days and 57%. `MemberDashboard.ShippedMemberLaterInDay` states those values.
- MemberDashboard.PercentageUsed: rounding is modelled exactly, on integers. The source rounds the floating-point product `(daysUsed / totalDays) * 100`, which can differ from exact arithmetic at a half. The source's NaN and -Infinity for a zero-length period are a `None`.
- Floating-point GST and total on the recharge summary (src/pages/member/Recharge.tsx:232-243) are not modelled.
- The payment-method select of the recharge form is not modelled, because nothing reads it.
- Values drawn with `Math.random` are not modelled: the amount column of the admin recharge table (src/pages/admin/Recharge.tsx:89), the "from last month" deltas on the admin dashboard cards (src/pages/admin/Dashboard.tsx:47, 61 and 75) and the "Upcoming Payment" amount of the member history (src/pages/member/Payments.tsx:168).
- Text.Lower: only ASCII letters are folded. JavaScript's `toLowerCase` also folds the other Unicode letters.
- MemberPayments.PaymentHistory.constructor requires a non-empty member table. The source reads `members[0]` and would fail on an empty one.
- The copy made before each in-place `sort` (`[...payments]`) needs no modelling, because the model works on values.
- AdminDashboard.AlertMemberName: an alert for a payment whose owner is missing shows an empty name, where the recent-payments table shows "Unknown". The model states this difference rather than hiding it.
- MemberPayments.TotalPaid: the card is labelled "Total Paid (Last 12 months)" (src/pages/member/Payments.tsx:160), but the code sums every successful payment of the member with no date limit. The model follows the code.
- Toast wording and durations are not modelled. Only which notification is raised is modelled.
