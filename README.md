# Accessibility Analyzer front-end: verified model of its logic

The Accessibility Analyzer front-end is a React single-page application. Users
submit a URL, a backend scans the page, and the front-end shows the
accessibility report. Almost all of it is presentation. This project models
the few pieces of deterministic logic inside it and proves what they promise:

- **Dashboard** (`dashboard.dfy`, module `Dashboard`).
  - The overall metrics come from one left-to-right reduction of the user's
    reports. It counts the reports, adds up `summary.total_issues` and
    `summary.criticalIssues` (a missing or zero value counts 0), and keeps
    the date and URL of the report with the greatest timestamp. Because the
    comparison is a strict `>`, ties go to the earliest such report.
  - The comparison chart filters the reports to the selected `_id`s. It then
    builds three index-aligned arrays: host labels, critical counts and total
    counts.
  - The chart area shows a placeholder when the selection is empty. An empty
    fetched list resets the selection.
  - The multi-select handler collects the values of the selected options.
- **Issue card** (`issue_card.dfy`, module `IssueCard`).
  - The border colour comes from a case-insensitive table over the severity.
  - The label colour comes from a case-sensitive chain of comparisons.
  - The details panel toggles open and closed, and shows the first offending
    HTML node.
- **Sidebar** (`sidebar.dfy`, module `Sidebar`): the five navigation entries
  and the rule that highlights the current one.
- **Report detail** (`report_detail.dfy`, module `ReportDetail`).
  - `fetchReportDetails` is modelled as a method over a `PageState` record:
    `loading`, `error`, `report`, plus the redirects and requests the page
    has issued.
  - The result of `getIdToken`, the HTTP response and its JSON parse are
    inputs.
  - The value of `error` that the callback closed over is an input too
    (`capturedError`). The catch block tests that stale value, not the
    message set a few lines earlier.
  - The comment at `src/pages/ReportDetailPage.jsx:94` says a
    status-specific message should not be overwritten. The catch block still
    replaces it whenever the captured value is null, which it is on a first
    run. `FirstRunNotFound` proves this for every 404 reply,
    and `UnauthorizedRedirects` for every 401 reply. `LaterRunNotFound` shows the
    not-found message surviving when the captured value is an earlier message.
- `wrappers.dfy` (module `Wrappers`) holds the `Option` type, which stands
  for JavaScript's `null`/`undefined`.

Abstractions:
- Timestamps are integers, standing for what `new Date(timestamp)` yields.
- Host extraction (`new URL(url).hostname`) is a function parameter
  `hostOf: string -> Option<string>`. `None` means the URL constructor throws.
- `toLowerCase` folds ASCII letters only. For comparisons against the four
  severity words this is exact: the only non-ASCII characters that lower-case
  to ASCII are the Kelvin sign (to `k`) and the dotted capital I (to `i`
  followed by a combining dot), so neither can complete one of those words.

## Model

| member | source | states |
|---|---|---|
| `Dashboard.OverallMetrics` | src/pages/DashboardPage.jsx:109-132 | `reportsAnalyzed` is the number of reports. The two totals are the sums of `total_issues` and `criticalIssues`, with absent values as 0. An empty list gives no last date and no URL. Otherwise date and URL both come from the one report with the greatest timestamp, the earliest such report on ties. |
| `Dashboard.Sum` | src/pages/DashboardPage.jsx:111-114 | Reference definition of a total: the counter of each report, absent values as 0, added up. It has no ensures of its own; `SumAppend`, `SumPermutation` and `OverallMetrics` carry its contract. |
| `Dashboard.SumAppend` | src/pages/DashboardPage.jsx:111-114 | The total of two lists put together is the sum of their totals. |
| `Dashboard.SumPermutation` | src/pages/DashboardPage.jsx:111-114 | Reordering the reports does not change either total. |
| `Dashboard.LatestIsUnique` | src/pages/DashboardPage.jsx:116-122 | At most one index satisfies "greatest timestamp, no earlier report with the same timestamp", so the last date and URL are determined. |
| `Dashboard.LatestDateOrderIndependent` | src/pages/DashboardPage.jsx:116-122 | The latest timestamp is the same under any reordering of the reports. |
| `Dashboard.Selected` | src/pages/DashboardPage.jsx:138-141 | The filter `userReports.filter(r => selectedWebsiteIds.includes(r._id))` never lengthens the list. What it keeps is stated by `SelectedExactly`, `SelectedAppend` and `SelectedIgnoresSelectionOrder`. |
| `Dashboard.SelectedExactly` | src/pages/DashboardPage.jsx:138-141 | The filter keeps every copy of each report whose `_id` is selected, and nothing else. |
| `Dashboard.SelectedAppend` | src/pages/DashboardPage.jsx:138-141 | The filter commutes with concatenation, so its output follows the order of the report list. |
| `Dashboard.SelectedIgnoresSelectionOrder` | src/pages/DashboardPage.jsx:138-141 | Two selections with the same members give the same filtered list, whatever their order. |
| `Dashboard.Label` | src/pages/DashboardPage.jsx:143-150 | A bar's label: the URL's host name, or the raw URL when it does not parse. No ensures of its own; `Series` states it at each index. |
| `Dashboard.Series` | src/pages/DashboardPage.jsx:143-158 | Labels, critical series and total series have the length of the filtered list. At each index they hold that report's host (or its raw URL when parsing fails), its critical count and its total count. |
| `Dashboard.ComparisonSeries` | src/pages/DashboardPage.jsx:137-179 | The three chart arrays have the length of the list of selected reports. |
| `Dashboard.SeriesTotals` | src/pages/DashboardPage.jsx:152-158 | Each bar series adds up to the matching counter summed over the reports it was built from. |
| `Dashboard.ComparisonOfAllMatchesMetrics` | src/pages/DashboardPage.jsx:109-158 | With every report selected, the filter returns the whole list and the chart's bars add up to the overall metrics' totals. |
| `Dashboard.ShowsChart` | src/pages/DashboardPage.jsx:389-396 | The chart is drawn exactly when the selection is non-empty. No ensures of its own; `EmptySelection`, `UnmatchedSelectionDrawsEmptyChart` and `EmptyFetchShowsPlaceholder` carry its contract. |
| `Dashboard.EmptySelection` | src/pages/DashboardPage.jsx:389-396 | An empty selection gives empty labels and data, and the placeholder instead of the chart. |
| `Dashboard.UnmatchedSelectionDrawsEmptyChart` | src/pages/DashboardPage.jsx:389-396 | A non-empty selection that matches no report still draws the chart, with no bars. The placeholder depends on the selection, not on the filtered list. |
| `Dashboard.SelectionAfterFetch` | src/pages/DashboardPage.jsx:82-85 | An empty fetched list resets the selection to `[]`. A non-empty one leaves it as it was. |
| `Dashboard.EmptyFetchShowsPlaceholder` | src/pages/DashboardPage.jsx:83-85 | After an empty fetch, the chart area shows the placeholder and the series are empty. |
| `Dashboard.SelectionChange` | src/pages/DashboardPage.jsx:229-238 | The handler's loop returns the values of the selected options in option order. |
| `Dashboard.Chosen` | src/pages/DashboardPage.jsx:232-236 | Reference definition of the handler's result: the values of the selected options, in order. Its contract is in `ChosenAppend`, `ChosenMembers` and `ChosenLength`, and `SelectionChange` is proved equal to it. |
| `Dashboard.ChosenAppend` | src/pages/DashboardPage.jsx:232-236 | Collecting values commutes with concatenating option lists, so option order is kept. |
| `Dashboard.ChosenMembers` | src/pages/DashboardPage.jsx:232-236 | A value is collected exactly when some selected option carries it. |
| `Dashboard.ChosenLength` | src/pages/DashboardPage.jsx:232-236 | One value is collected per selected option, no more. |
| `IssueCard.Lower` | src/components/IssueCard.jsx:9 | Lower-casing keeps the length and folds each character on its own. |
| `IssueCard.BorderHue` | src/components/IssueCard.jsx:9-19 | The `switch` on the lower-cased severity. No ensures of its own; `BorderTable` states its table and `SeverityColorIgnoresCase` its case-insensitivity. |
| `IssueCard.SeverityColor` | src/components/IssueCard.jsx:8-20 | `getSeverityColor`: the class string of the bucket `BorderHue` picks. Its contract is in `SeverityColorIgnoresCase`, `CriticalSpellings`, `SeriousIsCritical` and `BorderClassesDistinct`. |
| `IssueCard.SeverityColorIgnoresCase` | src/components/IssueCard.jsx:8-20 | The border classes of a severity equal those of its lower-cased form, so two spellings that differ only in case get the same border. |
| `IssueCard.CriticalSpellings` | src/components/IssueCard.jsx:9-12 | "Critical", "CRITICAL" and "critical" all get the red border classes. |
| `IssueCard.BorderTable` | src/components/IssueCard.jsx:8-20 | Red exactly for lower-cased "critical" or "serious". Orange exactly for "moderate", blue exactly for "minor". Gray exactly for every other value; no value is an error. |
| `IssueCard.SeriousIsCritical` | src/components/IssueCard.jsx:10-12 | Every spelling of "serious" gets the same border as "critical". |
| `IssueCard.BorderClassesDistinct` | src/components/IssueCard.jsx:12-18 | The four buckets return four different class strings. |
| `IssueCard.LabelHue` | src/components/IssueCard.jsx:37-45 | The label colour is red, orange or blue, never the gray default. |
| `IssueCard.LabelColor` | src/components/IssueCard.jsx:37-45 | The label's text class for the hue `LabelHue` picks. Its contract is in `LabelHue`, `LabelAgreesOnLowerCase` and `LabelIsCaseSensitive`. |
| `IssueCard.LabelAgreesOnLowerCase` | src/components/IssueCard.jsx:8-45 | On lower-case severities the label matches the border, except that values outside the table are labelled blue rather than gray. |
| `IssueCard.LabelIsCaseSensitive` | src/components/IssueCard.jsx:37-45 | A severity with any ASCII upper-case letter gets the blue label. |
| `IssueCard.MixedCaseDisagrees` | src/components/IssueCard.jsx:8-45 | "Critical" gets a red border but a blue label. |
| `IssueCard.Click` | src/components/IssueCard.jsx:29 | A header click flips the open flag. |
| `IssueCard.ClickTwiceRestores` | src/components/IssueCard.jsx:29 | Two clicks restore the original state. |
| `IssueCard.ShownHtml` | src/components/IssueCard.jsx:68-81 | A snippet is shown exactly when the panel is open and `nodes` is present and non-empty. The snippet is `nodes[0].html`. |
| `IssueCard.FreshCardShowsNothing` | src/components/IssueCard.jsx:6-81 | A card that has just rendered (`isOpen` starts false) shows no snippet. After one click it shows one exactly when there is a node. |
| `IssueCard.ShownHtmlOnlyFirstNode` | src/components/IssueCard.jsx:80 | Nodes after the first never affect what is shown. |
| `Sidebar.IsActive` | src/components/Sidebar.jsx:49-57 | `isActive(path)`: prefix matching for "/reports", equality otherwise. No ensures of its own; `ReportsActiveIff`, `OtherItemsExact`, `PrefixEdgeCases` and `AtMostOneActive` carry its contract. |
| `Sidebar.ReportsActiveIff` | src/components/Sidebar.jsx:50-55 | The saved-reports entry is active exactly when the pathname is "/reports" followed by nothing or by a suffix starting with "/". |
| `Sidebar.ReportDetailActivatesReports` | src/components/Sidebar.jsx:52-53 | Every "/reports/…" pathname highlights the saved-reports entry. |
| `Sidebar.OtherItemsExact` | src/components/Sidebar.jsx:56 | Every other entry is active exactly on its own path. |
| `Sidebar.PrefixEdgeCases` | src/components/Sidebar.jsx:49-57 | "/reportsX" does not highlight the saved-reports entry, and "/dashboard/x" highlights no entry. |
| `Sidebar.NavPathsDistinct` | src/components/Sidebar.jsx:36-46 | The list `NavItems` (a constant) has five entries, the saved-reports entry third, and their paths are pairwise different. |
| `Sidebar.AtMostOneActive` | src/components/Sidebar.jsx:36-57 | No pathname highlights two entries. |
| `ReportDetail.FetchReportDetails` | src/pages/ReportDetailPage.jsx:18-100 | Each early return: no id, auth loading, no user (with a replace-redirect to "/login"), no token. Exactly when all checks pass, one request is sent. Each outcome: success stores the report; a non-ok status, an unparseable body or a network failure sets the outcome's message, subject to the captured-error test. `loading` ends true only while auth is loading. The "/login" redirect happens exactly for a missing user or a 401. The report changes only on success. |
| `ReportDetail.RequestReport` | src/pages/ReportDetailPage.jsx:54-100 | Sends one request. Then `errorDetail` is the body's `detail`, else "HTTP error! Status: N", else "Error: N statusText" when the body is not JSON. A 401 gives the unauthorized message and a redirect, a 404 the not-found message, other statuses "Failed to load report: detail". The catch replaces these with the generic message only when the captured error is falsy. `loading` ends false. |
| `ReportDetail.Decimal` | src/pages/ReportDetailPage.jsx:65 | The status is written as one or more decimal digits. |
| `ReportDetail.DecimalRoundTrip` | src/pages/ReportDetailPage.jsx:65 | Reading the digits of `${response.status}` back as a number gives the status. |
| `ReportDetail.ErrorDetail` | src/pages/ReportDetailPage.jsx:65-72 | `errorDetail`: the body's `detail` when truthy, else "HTTP error! Status: N"; "Error: N statusText" when the body is not JSON. No ensures of its own; `RequestReport` proves the try/catch computes it, and `StatusReadBack` that it cites the status. |
| `ReportDetail.StatusMessage` | src/pages/ReportDetailPage.jsx:75-86 | The message set before the throw: unauthorized for 401, not found for 404, "Failed to load report: detail" otherwise. No ensures of its own; `RequestReport` and `LaterRunNotFound` carry its contract. |
| `ReportDetail.StatusReadBack` | src/pages/ReportDetailPage.jsx:65-68 | Without a `detail`, the error text is "HTTP error! Status: " followed by digits that read back as the status. |
| `ReportDetail.CaughtIsNotNotFound` | src/pages/ReportDetailPage.jsx:80-96 | The generic caught message never equals the not-found message. |
| `ReportDetail.FirstRunNotFound` | src/pages/ReportDetailPage.jsx:64-97 | On a first run (captured error null), every 404 reply ends with "Failed to load report: " + `errorDetail` + ".", whatever the status text and body, and never with the not-found message. The report stays empty and there is no redirect. |
| `ReportDetail.FirstRunNotFoundEmptyBody` | src/pages/ReportDetailPage.jsx:64-97 | A first-run 404 whose JSON body has no `detail` ends with "Failed to load report: HTTP error! Status: 404.". |
| `ReportDetail.LaterRunNotFound` | src/pages/ReportDetailPage.jsx:64-97 | When the captured error is a non-empty earlier message, every 404 reply ends with the not-found message. The starting page shows that earlier message. |
| `ReportDetail.UnauthorizedRedirects` | src/pages/ReportDetailPage.jsx:64-97 | On a first run, every 401 reply, whatever its status text and body, redirects once to "/login" with replace. It ends with "Failed to load report: " + `errorDetail` + ".", replacing the unauthorized message. No report is stored. |
| `ReportDetail.UnauthorizedWithDetail` | src/pages/ReportDetailPage.jsx:64-97 | A first-run 401 whose JSON body has a non-empty `detail` ends with "Failed to load report: " + that detail + ".", after one redirect to "/login". |

## Left out

- All JSX rendering, Tailwind class strings other than the colour tables, chart options, dataset names and colours, icons and animations: presentation only.
- `fetchUserReports` in the dashboard (src/pages/DashboardPage.jsx:47-97) apart from the selection reset: network I/O against a backend not modelled here. Only the report-detail branching is modelled, with the response as an input.
- `fetch`, `getIdToken`, Bearer headers and `response.json()` in every page: I/O. Their results are inputs of `ReportDetail.FetchReportDetails`.
- JSON bodies whose `detail` is not a string, or that parse to `null`: `detail` is modelled as an optional string.
- `new Date(...)` parsing: timestamps are integers, so missing, empty or unparseable timestamps (`NaN` comparisons, an empty stored date that `!acc.lastReportDate` treats as absent) are not modelled.
- `new URL(url).hostname`: a library call, modelled as the parameter `hostOf`.
- `toLowerCase` beyond ASCII, and a missing `severity` (calling `toLowerCase` on `undefined` throws): see the note above. The severity is always a string here.
- A missing `summary` object (reading a field of `undefined` throws), and counts that are not numbers: counts are optional naturals.
- React scheduling is not modelled. This covers re-renders, batching of setters (only the last value each setter writes is kept), and the effect that re-runs `fetchReportDetails` whenever `error` changes (src/pages/ReportDetailPage.jsx:101-106). One run of the callback is modelled; how runs follow one another is not.
- Stale responses: responses arriving after navigation, or out of order, are a concurrency concern and are not modelled.
- `IssueCard.Click`: models `setIsOpen(!isOpen)` as a function on the flag; the re-render it triggers is not modelled.
- The render branches after the fetch (src/pages/ReportDetailPage.jsx:108-218): presentation.
- src/context/AuthContext.jsx, src/firebase.js, the sign-out handler in the sidebar, and the Welcome, Login, Analyze, Settings, Profile, Reports and Saved-Reports pages, App.jsx, Header, Footer, StatCard and AnalysisResults: an identity-provider SDK, network I/O, or display with no logic to state.
- The summary field names differ between files: the dashboard reads `criticalIssues`, other views read `critical`. Only the dashboard's field is modelled.
