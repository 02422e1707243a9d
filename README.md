# Pharmacy stock console: a Dafny model of the web front end

The console is a React application. It shows a pharmacy's medicine catalogue, its stock batches, the stock-movement log and usage reports, to three roles: administrator, pharmacist and staff. The server does the stock work: first-expiry-first-out allocation, stock-in validation, movement recording and the report queries. The front end calls it over HTTP. It then decides, filters, counts and labels what comes back.

This project models those front-end decisions:

- the batch status classifier and the batch tables;
- the two dashboards' figures, the top-five expiring list, the low-stock preview and the category breakdown;
- the audit-log filters, colours and labels;
- the report totals, the report query parameters and the report tabs;
- the route guard, the route table and the sidebar's role filter;
- the search boxes and form dialogs of the user and medicine pages.

Pure logic is written as datatypes, functions and lemmas. Page state that the source keeps in React state is written as classes whose methods change their fields. These are the dashboards, the audit, reports, users and medicines pages. The category breakdown's `forEach` over a map is a method with a loop, proved equal to a functional specification.

Conventions:

- Dates are day numbers. Movement timestamps are milliseconds. A date input's value is compared at the first millisecond of its day.
- Prices and values are integers in the smallest currency unit.
- Strings are `seq<char>`. `toLowerCase` folds the ASCII letters only.
- `isExpired` and `isExpiringSoon` are not defined in the modelled files. They are the two predicate fields of `Stock.ExpiryRules`, and no property assumes anything about them.
- A JavaScript `x || d` default is written with `Option.GetOr` where the value cannot be falsy. Where it can, the falsy case is written out: a stored `0` minimum stock level falls back to 10, an empty category to 'Unknown' and an empty medicine name to 'N/A'.
- Every page that loads data takes the server's answer as a parameter: a failure, or a body whose list may be missing.

Modules:

- `Optional`, `Lists` and `Text` model the JavaScript built-ins the pages rely on: `filter`, `reduce`, `slice`, `sort`, `includes`, `toLowerCase` and single-character `replace`.
- `Accounts` and `Stock` hold the shared data.
- Each remaining module follows one source file.

## Model

| member | source | states |
|---|---|---|
| Stock.Threshold | src/components/batches/BatchList.jsx:13 | The threshold is the medicine's minimum stock level, or 10 when there is no medicine, no level or a level of 0; it is never 0 |
| Stock.TotalValueBoundsLines | src/components/reports/Dashboard.jsx:37-39 | With non-negative quantities and prices, the total value is non-negative and at least every batch's own value |
| Stock.DistinctMedicines | src/components/reports/Dashboard.jsx:31 | The size of the set of medicine ids of the batches (one shared undefined id for batches without a medicine); at most the batch count, and zero exactly when there are no batches |
| Stock.DistinctMedicinesSnoc | src/components/reports/Dashboard.jsx:31 | Counting batch by batch, a further batch adds one medicine exactly when no earlier batch has its id |
| Stock.MedicineKeysBound | src/components/reports/Dashboard.jsx:31 | The set of medicine ids (with "no medicine" as one id) is no larger than the batch list and non-empty when it is non-empty |
| Stock.UnpopulatedBatchesCountOnce | src/components/reports/Dashboard.jsx:31 | Batches without a medicine all share one undefined id, so any number of them count as one medicine |
| Stock.TopExpiring | src/components/reports/Dashboard.jsx:51-54 | At most five batches; five, or all expiring-soon batches when fewer; sorted by ascending expiry; a sub-multiset of the expiring-soon batches, and all of them (with multiplicity) when there are at most five |
| Stock.TopExpiringAreSoonest | src/components/reports/Dashboard.jsx:51-54 | An expiring-soon batch that expires strictly before a listed one is itself listed |
| Stock.CeilDiv | src/components/reports/Dashboard.jsx:224-226 | `Math.ceil(n / d)` for a positive divisor: the least q with n <= q*d |
| Stock.DaysLeftBounds | src/components/reports/Dashboard.jsx:224-226 | The days left is the whole-day ceiling of the time to expiry: 0 at the expiry instant, at least 1 before it |
| Stock.DayWord | src/components/reports/Dashboard.jsx:240 | "day" is singular exactly when exactly one day is left |
| BatchList.GetBatchStatus | src/components/batches/BatchList.jsx:6-17 | Every batch gets one of the four badges: Expired iff expired; Expiring Soon iff not expired and expiring soon, whatever the quantity; Low Stock iff neither and quantity below the threshold; Good otherwise |
| BatchList.BadgesDistinct | src/components/batches/BatchList.jsx:8-16 | The four badges have four different texts and four different colours |
| BatchList.Render | src/components/batches/BatchList.jsx:19-54 | No batches gives the empty-state message; otherwise one row per batch in input order, carrying its medicine name (`N/A` when the medicine or its name is missing or empty), batch number, quantity and status |
| Inventory.GetBatchStatus | src/pages/Inventory.jsx:94-105 | The page's badge reads "Expired" iff the batch has expired, "Expiring Soon" iff not expired but expiring soon, "Low Stock" iff neither and below its minimum (10 when unset), and "Good" otherwise |
| Inventory.StatusAgreesWithBatchList | src/pages/Inventory.jsx:94-105 | The page's own classifier gives the same badge as the batch list's for every batch |
| Inventory.SearchBatches | src/pages/Inventory.jsx:37-43 | An order-preserving subsequence holding exactly the batches whose medicine name or batch number contains the term ignoring case; an empty term keeps all |
| Inventory.StockActionGating | src/pages/Inventory.jsx:123-129 | Stock In implies Stock Out; an administrator gets neither, staff only Stock Out, no user neither |
| Inventory.RenderTable | src/pages/Inventory.jsx:162-185 | "No batches found" iff the search result is empty; otherwise one row per found batch, in order, with its classifier badge |
| ReportsDashboard.ComputeStats | src/components/reports/Dashboard.jsx:31-48 | The batch count is the input length; the medicine count is the number of distinct medicine ids; the low-stock, expiring-soon and expired figures are the lengths of their filters, so they count the passing batches with repeats; those counts and the medicine count lie between 0 and the batch count; the total value is the sum of quantity times price |
| Lists.FilterMultiplicity | src/components/reports/Dashboard.jsx:32-36 | A filter keeps every copy of a passing batch and no copy of a failing one, so each figure counts the passing batches with their repeats |
| ReportsDashboard.Distinct | src/components/reports/Dashboard.jsx:57-66 | The first-seen order of category names: the same names, without repeats |
| ReportsDashboard.CategoryDistribution | src/components/reports/Dashboard.jsx:56-66 | The `forEach` over the category map yields, in first-seen order, one entry per category ('Unknown' when missing) with the value and count of that category's batches |
| ReportsDashboard.CountBatch | src/components/reports/Dashboard.jsx:58-65 | One loop step keeps the map, its insertion order and the per-category tallies in step with the batches seen so far |
| ReportsDashboard.AddBatchHolds | src/components/reports/Dashboard.jsx:63-64 | Adding a batch's value and 1 to its category's entry keeps every entry equal to its category's totals |
| ReportsDashboard.CategoryTotals | src/components/reports/Dashboard.jsx:37-66 | The category counts add up to the batch count and the category values to the total value |
| ReportsDashboard.CategoryNames | src/components/reports/Dashboard.jsx:57-66 | Category names are distinct, each comes from a batch, each batch's category is listed, and there are no more categories than batches |
| ReportsDashboard.GoodStockCanBeNegative | src/components/reports/Dashboard.jsx:189 | As written, one empty batch that is also expiring soon makes the "Good Stock" bar -1 |
| ReportsDashboard.StatusBars | src/components/reports/Dashboard.jsx:186-193 | As written: the three alert bars are the figures, the four bars add up to the batch count, and "Good Stock" is negative exactly when the alert figures add up to more than the batches |
| ReportsDashboard.RenderedBarsMatchChart | src/components/reports/Dashboard.jsx:186-193 | When no batch is in two alert groups, the bars drawn from the figures equal the corrected chart |
| ReportsDashboard.StatusChartPartitions | src/components/reports/Dashboard.jsx:186-193 | Corrected chart: four non-negative bars that add up to the batch count |
| ReportsDashboard.StatusChartMatchesStats | src/components/reports/Dashboard.jsx:189-192 | The corrected expired bar equals the Expired figure; the other alert bars are at most their figures, and all bars equal the as-written ones when no batch is in two alert groups |
| ReportsDashboard.DashboardPage.SetStats | src/components/reports/Dashboard.jsx:41-48 | Replaces the figures and nothing else |
| ReportsDashboard.DashboardPage.SetExpiringBatches | src/components/reports/Dashboard.jsx:54 | Replaces the expiring list and nothing else |
| ReportsDashboard.DashboardPage.SetCategoryData | src/components/reports/Dashboard.jsx:66 | Replaces the category entries and nothing else |
| ReportsDashboard.DashboardPage.FetchDashboardData | src/components/reports/Dashboard.jsx:25-73 | On an answer, figures, expiring list and categories are recomputed from the batches (missing list as empty); on a failure they stay; the spinner goes either way |
| HomeDashboard.ComputeStats | src/pages/Dashboard.jsx:30-39 | The medicine count is the number of distinct medicine ids; the low-stock and expiring-soon figures are the lengths of their filters; the medicine count and both alert counts lie between 0 and the batch count, the medicine count being 0 only with no batches; the value is the sum of quantity times price over the batches |
| HomeDashboard.StatsAgreeWithReports | src/pages/Dashboard.jsx:30-39 | The landing page's four figures equal the analytics dashboard's |
| HomeDashboard.LowStockPreview | src/pages/Dashboard.jsx:31-48 | The first at most five low-stock batches in fetch order: a prefix of the low-stock filter, each one low on stock |
| HomeDashboard.LowStockRowsBelowMin | src/pages/Dashboard.jsx:175-191 | At most five cards, each showing a quantity below the minimum it shows |
| HomeDashboard.QuickActions | src/pages/Dashboard.jsx:210-235 | The whole tile list per role, in order: administrator "View Reports", "Manage Users", "Add Stock", "Add Medicine", "Issue Stock"; pharmacist the last three; no user or any other role "Issue Stock" alone |
| HomeDashboard.HomePage.FetchData | src/pages/Dashboard.jsx:24-54 | On an answer the figures and both previews are recomputed; on a failure they stay; the spinner goes |
| AuditLogs.TypeColor | src/components/audit/AuditLogs.jsx:5-16 | STOCK_IN, STOCK_OUT and EXPIRED each map to their own colour, and exactly the other strings to grey |
| AuditLogs.StockInLabel | src/components/audit/AuditLogs.jsx:52 | "STOCK_IN" is labelled "STOCK IN" |
| AuditLogs.StockOutLabel | src/components/audit/AuditLogs.jsx:52 | "STOCK_OUT" is labelled "STOCK OUT" |
| AuditLogs.ExpiredLabel | src/components/audit/AuditLogs.jsx:52 | A type without an underscore ("EXPIRED") is shown unchanged |
| AuditLogs.OnlyFirstUnderscoreReplaced | src/components/audit/AuditLogs.jsx:52 | Of several underscores only the first becomes a space ("A_B_C" is shown as "A B_C") |
| AuditLogs.Render | src/components/audit/AuditLogs.jsx:18-65 | No logs gives only the empty-state message; otherwise one row per log in order, with its time, type label (first underscore as a space), type colour, quantity, medicine name, batch number and performer name and role, each of the last four empty when its reference is missing |
| Text.ReplaceFirstSpec | src/components/audit/AuditLogs.jsx:52 | Single-character `replace` changes only the first occurrence and keeps the length |
| Audit.ApplyFilters | src/pages/Audit.jsx:40-64 | As written: never longer than the logs; a log is kept iff it passes all four tests; with no filters, all logs |
| Audit.ApplyFiltersSpec | src/pages/Audit.jsx:40-64 | As written: an order-preserving subsequence holding exactly the logs that pass every active filter; with no filters, all logs |
| Audit.ApplyFiltersIsOneFilter | src/pages/Audit.jsx:41-61 | The four conditional steps equal one filter by the conjunction of the four tests |
| Audit.ApplyFiltersIdempotentAndCommutes | src/pages/Audit.jsx:43-61 | Re-applying a filter set changes nothing, and two filter sets commute |
| Audit.EndDateHidesSameDayLogs | src/pages/Audit.jsx:59-61 | As written, start and end both on day D hide a movement made at 10:00 on day D |
| Audit.DayOfBounds | src/pages/Audit.jsx:55-61 | Comparing a moment with a day's first millisecond and with the next day's first millisecond is comparing its day number |
| Audit.ApplyFiltersWholeDays | src/pages/Audit.jsx:40-64 | Corrected: never longer than the logs; a log is kept iff it passes search, type, start date and the end date taken to the next midnight; with no filters, all logs |
| Audit.ApplyFiltersWholeDaysSpec | src/pages/Audit.jsx:40-64 | Corrected: an order-preserving subsequence holding exactly the logs matching search and type whose day lies between the start and end dates, both included; with no filters, all logs |
| Audit.ApplyFiltersWholeDaysIsOneFilter | src/pages/Audit.jsx:41-61 | The corrected steps equal one filter by the conjunction of the four tests |
| Audit.ApplyFiltersWholeDaysIdempotentAndCommutes | src/pages/Audit.jsx:43-61 | The corrected filters are idempotent and commute |
| Audit.WholeDaysKeepsSameDayLogs | src/pages/Audit.jsx:59-61 | Corrected, the 10:00 movement of the counterexample is shown |
| Audit.PageTypeColorAgrees | src/pages/Audit.jsx:66-77 | The page's colour switch agrees with the audit table component's on every string |
| Audit.TypeOptionFilters | src/pages/Audit.jsx:51-53 | As written: with a type chosen from the drop-down, a log passing the other three filters is kept iff it has that type; "All Types" keeps every type |
| Audit.TypeOptionFiltersWholeDays | src/pages/Audit.jsx:51-61 | The same for the corrected filter with whole-day dates |
| Audit.RenderTable | src/pages/Audit.jsx:163-204 | Empty-state row iff no filtered logs; one row per filtered log in order with its time, type label, type colour, quantity, medicine name, batch number and performer name and role (empty when missing); the footer counts them |
| Audit.AuditPage.FetchLogs | src/pages/Audit.jsx:29-38 | The log list is replaced by the answer (missing as empty) or kept on failure; the filters stay, the shown list is the as-written filter of the logs, and the spinner goes |
| Audit.AuditPage.SetSearch | src/pages/Audit.jsx:25-49 | Changing the search re-applies the as-written filters to the same logs |
| Audit.AuditPage.SetKind | src/pages/Audit.jsx:25-53 | Changing the type re-applies the as-written filters to the same logs |
| Audit.AuditPage.SetStartDate | src/pages/Audit.jsx:25-57 | Changing the start date re-applies the as-written filters to the same logs |
| Audit.AuditPage.SetEndDate | src/pages/Audit.jsx:25-61 | Changing the end date re-applies the as-written filters, end date compared with its first millisecond, to the same logs |
| ReportRows.WastageTotalsAdd | src/components/reports/ExpiryReport.jsx:21-22 | The wastage totals of two lists together are the sums of their totals |
| ReportRows.TotalWastageBoundsLines | src/components/reports/ExpiryReport.jsx:21 | With non-negative losses, the total value lost is non-negative and at least every line's loss |
| ReportRows.UsageTotalsBoundLines | src/components/reports/MonthlyUsage.jsx:62-63 | With non-negative lines, each usage total is non-negative and at least every line's amount |
| ReportRows.WastageRows | src/components/reports/ExpiryReport.jsx:53-61 | One row per line in order, missing loss shown as 0, and the row columns add up to the two totals |
| ReportRows.UsageRows | src/components/reports/MonthlyUsage.jsx:53-59 | One row per line in order, missing value shown as 0, and the row columns add up to the two totals |
| ExpiryReport.Render | src/components/reports/ExpiryReport.jsx:6-22 | Missing or empty data gives the empty state; otherwise the rows and the totals of quantity and value lost (missing as 0) |
| ExpiryReport.HeadlinesSumTheTable | src/components/reports/ExpiryReport.jsx:21-61 | The two headline totals are the sums of the table's columns |
| MonthlyUsage.Render | src/components/reports/MonthlyUsage.jsx:6-59 | Missing or empty data gives the empty state; otherwise one bar and one row per line, in order |
| MonthlyUsage.TableBody | src/components/reports/MonthlyUsage.jsx:52-65 | The line rows unchanged, followed by one more row labelled "Total" |
| MonthlyUsage.TotalRowHoldsTotals | src/components/reports/MonthlyUsage.jsx:53-64 | The table is the line rows followed by exactly one "Total" row holding the quantity sum and the value sum (missing as 0) |
| Reports.MonthlyUsageQuery | src/pages/Reports.jsx:24-27 | The month parameter is the zero-based month plus one, so it lies in 1..12; the year is the current year |
| Reports.WastageWindow | src/pages/Reports.jsx:29-32 | The window ends now and starts at the first moment of 1 January of the current year |
| Reports.WastageWindowCoversYearToDate | src/pages/Reports.jsx:29-32 | The wastage window starts no later than it ends and contains every moment of the current year up to now |
| Reports.VisiblePanels | src/pages/Reports.jsx:87-179 | Each panel shows iff its tab is active, and at most one panel shows |
| Reports.OnePanelPerTab | src/pages/Reports.jsx:60-179 | On each of the three tabs exactly one panel shows and exactly one button is highlighted |
| Reports.MonthlyPanelOf | src/pages/Reports.jsx:94-126 | The usage panel is the empty state iff there is no data, otherwise the usage rows (without a total row) |
| Reports.TopPanelOf | src/pages/Reports.jsx:139-174 | The "no consumption data" message iff the list is empty; otherwise one ranked row per item in order, ranked from 1, with its name, quantity used and category |
| Reports.RanksAreConsecutive | src/pages/Reports.jsx:161-167 | The most-used table ranks run 1, 2, ... up to the number of lines, strictly increasing |
| Reports.ExpiredPanelOf | src/pages/Reports.jsx:186-218 | The "no expired medicines" message iff the list is empty; otherwise the wastage rows and their total |
| Reports.TotalWastageRowSumsColumn | src/pages/Reports.jsx:198-211 | The "Total Wastage" row equals the sum of the value-lost column above it |
| Reports.ReportsPage.FetchReports | src/pages/Reports.jsx:20-43 | On an answer the three lists are set (each missing list as empty); on a failure none changes; the spinner goes |
| Reports.ReportsPage.SetActiveTab | src/pages/Reports.jsx:14-84 | The active tab is always one of the three, starting at "monthly" |
| ProtectedRoute.Guard | src/components/auth/ProtectedRoute.jsx:8-31 | Spinner iff loading; login redirect iff loaded without a user; denied iff a roles list is given without the user's role; children iff loaded, a user, and no list or the role in it |
| ProtectedRoute.GuardRoleLists | src/components/auth/ProtectedRoute.jsx:20-29 | An empty roles list denies everyone, no list admits everyone, and a longer list admits whoever a shorter one did |
| Sidebar.VisibleNavigation | src/components/layout/Sidebar.jsx:19-21 | The entries shown are an order-preserving subsequence of the table, holding exactly the entries whose roles include the user's role |
| Sidebar.AdminSeesEverything | src/components/layout/Sidebar.jsx:10-17 | An administrator sees all six entries |
| Sidebar.PharmacistNavigation | src/components/layout/Sidebar.jsx:10-17 | A pharmacist sees Dashboard, Medicines, Inventory and Audit Logs |
| Sidebar.StaffNavigation | src/components/layout/Sidebar.jsx:10-17 | Staff see Dashboard and Inventory |
| Sidebar.NoNavigationForOthers | src/components/layout/Sidebar.jsx:19-21 | No user or an unknown role sees no entry |
| AppRoutes.Resolve | src/App.jsx:21-76 | Exactly the two public paths show public pages; a layout path shows the spinner iff the session is loading and the login redirect iff there is no user; a page or the refusal only for a signed-in user on a non-index layout path; any other path redirects to the dashboard |
| AppRoutes.PageAccess | src/App.jsx:25-72 | Under the layout guard: spinner while loading, login redirect without a user; dashboard and inventory open to every user, medicines and audit to administrators and pharmacists, reports and users to administrators |
| AppRoutes.SidebarLinksOpen | src/App.jsx:34-72 | Every sidebar entry shown to a user opens its page for that user |
| AppRoutes.RouteAdmitsNavRoles | src/App.jsx:34-72 | Each sidebar entry leads to a layout route that admits every role the entry is shown to |
| AppRoutes.OpenPagesAreLinked | src/App.jsx:34-72 | For the three known roles, every page a user may open is linked in their sidebar |
| AppRoutes.RedirectsSettle | src/App.jsx:21-76 | Public pages need no user; after at most two redirects (index or unknown path, then login) a path shows a page, a refusal or a spinner |
| Users.SearchUsers | src/pages/Users.jsx:29-36 | An order-preserving subsequence holding exactly the users whose name, email or role contains the term ignoring case; an empty term keeps all |
| Users.SearchIgnoresTermCase | src/pages/Users.jsx:29-36 | The term's letter case does not change the result |
| Users.SearchFindsRole | src/pages/Users.jsx:33 | Searching for a role's name lists every user with that role |
| Users.EditForm | src/pages/Users.jsx:70-77 | Editing copies name, email and role and blanks the password |
| Users.FormPayload | src/pages/Users.jsx:54-60 | The form is sent as its four named fields |
| Users.SubmitRequest | src/pages/Users.jsx:49-61 | Creation iff nothing is edited, with the whole form; an update of the edited id carries the password iff one was typed, and every other field unchanged |
| Users.EditUnchangedKeepsPassword | src/pages/Users.jsx:52-77 | Editing a user and saving without typing a password sends the user's own name, email and role and no password |
| Users.DialogMatchesRequest | src/pages/Users.jsx:200-238 | The dialog requires a password exactly when it creates; when editing, a blank password is not sent |
| Users.RoleOptionsAreKnownRoles | src/pages/Users.jsx:250-252 | The role select offers exactly the three known roles, and the blank form's role is one of them |
| Users.RoleBadgeColor | src/pages/Users.jsx:104-115 | ADMIN, PHARMACIST and STAFF each get their own badge, and exactly the other strings grey |
| Users.RenderTable | src/pages/Users.jsx:162-191 | "No users found" iff no user is shown; otherwise one row per user in order with its role badge |
| Users.UsersPage.FetchUsers | src/pages/Users.jsx:38-47 | The list is replaced by the answer (missing as empty) or kept on failure; the shown list is the search result |
| Users.UsersPage.SetSearchTerm | src/pages/Users.jsx:29-36 | Typing re-applies the search to the same users |
| Users.UsersPage.OpenAddDialog | src/pages/Users.jsx:132 | The "Add User" button opens the dialog and changes nothing else |
| Users.UsersPage.SetFormData | src/pages/Users.jsx:212-246 | Typing in a field replaces the form and changes nothing else |
| Users.UsersPage.HandleEdit | src/pages/Users.jsx:70-79 | The dialog opens on the user, with the edit form |
| Users.UsersPage.HandleCloseDialog | src/pages/Users.jsx:93-102 | The dialog closes, nothing is edited, and the form is blank with role STAFF |
| Users.UsersPage.HandleSubmit | src/pages/Users.jsx:49-68 | The request sent is the specified one; on success the dialog closes and resets, on failure it stays as it was |
| Users.UsersPage.HandleDelete | src/pages/Users.jsx:81-91 | A delete request for the id is sent iff confirmed |
| Medicines.SearchMedicines | src/pages/Medicines.jsx:32-39 | An order-preserving subsequence holding exactly the medicines whose name, generic name or category contains the term ignoring case; an empty term keeps all |
| Medicines.SearchIgnoresTermCase | src/pages/Medicines.jsx:32-39 | The term's letter case does not change the result |
| Medicines.LongerTermNarrows | src/pages/Medicines.jsx:32-39 | Extending the term never lists more medicines |
| Medicines.EditForm | src/pages/Medicines.jsx:68-78 | Editing copies name, generic name, category, manufacturer, price and minimum stock |
| Medicines.EditFormKeepsMedicine | src/pages/Medicines.jsx:75 | The description shows the stored one or '' when missing; two medicines give the same form iff their seven fields agree, missing description counting as '' |
| Medicines.SubmitRequest | src/pages/Medicines.jsx:55-59 | The form is sent unchanged; as an update of the edited id, or as a creation iff nothing is edited |
| Medicines.EditUnchangedSendsMedicine | src/pages/Medicines.jsx:55-78 | Editing a medicine and saving at once updates that medicine with its own data |
| Medicines.DialogMatchesRequest | src/pages/Medicines.jsx:191-275 | The dialog says "Edit Medicine" exactly when the submit will update |
| Medicines.RenderTable | src/pages/Medicines.jsx:155-181 | "No medicines found" iff none is shown; otherwise one row per medicine in order |
| Medicines.MedicinesPage.FetchMedicines | src/pages/Medicines.jsx:41-50 | The catalogue is replaced by the answer (missing as empty) or kept on failure; the shown list is the search result |
| Medicines.MedicinesPage.SetSearchTerm | src/pages/Medicines.jsx:32-39 | Typing re-applies the search to the same catalogue |
| Medicines.MedicinesPage.OpenAddDialog | src/pages/Medicines.jsx:123 | The "Add Medicine" button opens the dialog and changes nothing else |
| Medicines.MedicinesPage.SetFormData | src/pages/Medicines.jsx:204-266 | Typing in a field replaces the form and changes nothing else |
| Medicines.MedicinesPage.HandleEdit | src/pages/Medicines.jsx:68-80 | The dialog opens on the medicine, with the edit form |
| Medicines.MedicinesPage.HandleCloseDialog | src/pages/Medicines.jsx:94-106 | The dialog closes, nothing is edited, and every field is empty |
| Medicines.MedicinesPage.HandleSubmit | src/pages/Medicines.jsx:52-66 | The request sent is the specified one; on success the dialog closes and resets, on failure it stays as it was |
| Medicines.MedicinesPage.HandleDelete | src/pages/Medicines.jsx:82-92 | A delete request for the id is sent iff confirmed |

## Left out

- The server: first-expiry-first-out allocation, stock-in validation, movement recording and the usage, top-consumed and wastage queries. The front end only calls them, so their answers are parameters here.
- The HTTP client in `src/lib/api.js`: tokens, local storage and the redirect on 401. Every request is replaced by the answer it may get (success with a body, or failure).
- `isExpired`, `isExpiringSoon` and `formatDate` from `src/lib/utils`. The first two are the predicate fields of `Stock.ExpiryRules`; formatting is not modelled.
- Time zones and the `Date` library. `toISOString`, `toLocaleString` and `toLocaleDateString` are not modelled. A date input is taken as the first millisecond of its day, and the report window as local calendar fields.
- Float prices and number formatting: values are integers.
- React rendering, effects and asynchrony. Each effect or handler is a method that runs to completion. The refresh a page starts after a save or a delete (`fetchUsers()`, `fetchMedicines()`, not awaited) is a separate fetch call in the model.
- The charts (bars, pies, percentages and colours), the loading spinners' markup and the user table's creation-date cell.
- The sign-in flow, the password reset page, the navbar, the layout and the sidebar's open/close state. The stock-in and stock-out dialogs of the inventory page and the medicine and batch form components are also left out; the browser's `required`, `min` and `type` checks on their inputs are not code.
- `window.confirm` and `alert`: the confirmation is a boolean parameter, and an alert leaves the page unchanged.
- Unicode case folding: `toLowerCase` is modelled on ASCII letters.
- `Object.values(categoryMap)`: the model keeps insertion order. JavaScript lists integer-like keys such as "123" first, and a category named like an `Object.prototype` member, such as "constructor", would find an inherited property.
- The comparator sort: `Stock.TopExpiring` is specified by its output, sorted and drawn from the expiring-soon batches. Which of several batches with the same expiry day comes first is not stated.
- Router path matching: trailing slashes and letter case are not normalised.
- Exceptions from missing fields: a user or medicine without a name, a medicine without a generic name or a category, or a batch whose medicine has no name, would throw in the source's search (`toLowerCase` of undefined, reached whenever the earlier tests fail); the model treats these fields as present strings, a missing category being the empty string.
- Reports.MonthlyPanelOf: the reports page's own monthly table has no total row, unlike the `MonthlyUsage` component; this is how the source is written.

## Findings

| source | as written | input that shows it | evidently intended | confidence | as-written member | corrected member |
|---|---|---|---|---|---|---|
| src/components/reports/Dashboard.jsx:189 | "Good Stock" is the batch count less the low-stock, expiring-soon and expired counts, which are computed by independent filters and overlap | one batch with quantity 0 and no medicine (threshold 10) that is expiring soon: total 1, low 1, soon 1, expired 0, so Good Stock is -1 | each batch in exactly one bar, by the batch-status precedence | not executed | ReportsDashboard.GoodStockCanBeNegative | ReportsDashboard.StatusChartPartitions |
| src/pages/Audit.jsx:59-61 | the end date keeps logs with `createdAt <= new Date(endDate)`, that is, up to the first millisecond of the end day | start and end date both day 20000; a movement at 10:00 on day 20000 is filtered out | the end date includes its whole day | not executed | Audit.EndDateHidesSameDayLogs | Audit.ApplyFiltersWholeDaysSpec |
