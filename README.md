# Helpdesk dashboard — a verified Dafny model

This project models the logic at the heart of a small IT-helpdesk dashboard.
Each ticket has an id, the employee who raised it, a category, a description,
a status (Pending, In Progress, Resolved), a priority (High, Medium, Low) and
two timestamps. The modelled parts are:

- the server-side ticket store and its one mutating action, which changes a
  ticket's status and stamps `updated_at` (`actions.dfy`, class `TicketStore`);
- the dashboard's search box and status filter (`dashboard.dfy`);
- the four statistics cards (`stats_cards.dfy`);
- the sortable ticket table: the header-click state machine and the
  comparator-driven sort (`ticket_table.dfy`, class `TicketTableView`);
- the data behind the status pie chart (`status_pie_chart.dfy`);
- the data behind the monthly trends bar chart (`trends_bar_chart.dfy`);
- the trend-analysis panel: what it sends to the report generator and how
  its pending/report/error state evolves (`trend_analyzer.dfy`, class
  `TrendAnalyzerView`);
- the login form's password rule and its mapping from authentication error
  codes to messages (`login_page.dfy`).

Shared pieces sit in their own modules:
- `ticket_types.dfy`: the ticket record, status and priority with their
  display labels, and an abstract timestamp;
- `text.dfy`: ASCII case folding, substring search and the lexicographic
  string order that JavaScript's `<` uses;
- `sequences.dfy`: a generic `Filter` with its algebra;
- `optional.dfy`: `Option`.

How a few things are modelled:

- **Timestamps.** A timestamp is a calendar month (`YearMonth`) plus a
  natural-number offset within that month. Timestamps are compared
  lexicographically. This keeps exactly what the code uses: the month
  buckets of the bar chart and the chronological order of the table.
- **Clock.** The store's clock is a `now` parameter of the update.
- **Report generator.** It is a function parameter of the panel's
  `HandleAnalyze`.
- **Table sort.** JavaScript's `Array.prototype.sort` is stable. The model
  sorts by a stable insertion sort driven by the same comparator as the
  source. The comparator's result is modelled by its sign.

Where the code departs from the system's intended design, the model follows
the code:
- the code has no status-transition rules, so any status may follow any
  other;
- the code has no request tokens or cancellation for the trend report;
- the code's success message prints the raw status value, such as
  "In Progress";
- the code does not check at run time that a requested status is one of the
  three values (see "Left out").

## Model

| member | source | states |
|---|---|---|
| TicketTypes.StatusLabelInjective | src/types/index.ts:1 | distinct statuses have distinct labels, so a status compares by its label the way the source's string union does |
| TicketTypes.PriorityLabelInjective | src/types/index.ts:2 | distinct priorities have distinct labels |
| TicketTypes.CompareTimesOrder | src/components/dashboard/ticket-table.tsx:114-117 | the timestamp comparison behind `getTime()` differences is antisymmetric, is zero exactly on equal instants, and is transitive |
| Text.IncludesAt | src/components/dashboard/dashboard.tsx:52-53 | `includes` holds exactly when the needle occurs at some position of the haystack |
| Text.LessThanTotal | src/components/dashboard/ticket-table.tsx:120-121 | string `<` is total on distinct strings, so the label comparator orders every pair |
| Text.LessThanTransitive | src/components/dashboard/ticket-table.tsx:120-121 | string `<` is transitive |
| Actions.MapStatus | src/app/actions.ts:24-31 | the map-with-flag loop returns the list with the matching tickets restatused and stamped, and the flag is set exactly when some ticket has the id |
| Actions.ApplyStatusEffect | src/app/actions.ts:25-31 | the update keeps the length; a ticket with the id gets the new status and `updated_at := now` with every other field kept; any other ticket is unchanged |
| Actions.ApplyStatusUnknownId | src/app/actions.ts:24-37 | updating an id that no ticket has leaves the store exactly as it was |
| Actions.ApplyStatusIdempotent | src/app/actions.ts:24-31 | applying the same update twice with the same clock equals applying it once |
| Actions.ApplyStatusKeepsTimeOrder | src/app/actions.ts:28 | if no ticket was updated before it was created and the clock is not before any creation time, the same holds after the update |
| Actions.TicketStore.constructor | src/app/actions.ts:9 | the store starts as the seed list |
| Actions.TicketStore.GetTickets | src/app/actions.ts:11-15 | reading returns the current store contents |
| Actions.TicketStore.UpdateTicketStatus | src/app/actions.ts:17-38 | the new store is the old store with the update applied at the same length; success holds exactly when the id existed; the message is "Ticket <id> status updated to <status>." on success, otherwise "Ticket <id> not found." with the store unchanged |
| Dashboard.FilteredIsOneFilter | src/components/dashboard/dashboard.tsx:46-55 | the two chained filters equal a single filter by the conjunction of the status and search conditions |
| Dashboard.FilteredIsSubsequence | src/components/dashboard/dashboard.tsx:46-55 | the visible list keeps the tickets' original order (it is a subsequence of the input) |
| Dashboard.FilteredKeepsExactlyVisible | src/components/dashboard/dashboard.tsx:46-55 | a ticket is shown exactly when it is in the input, matches the status filter and its name or id contains the search text case-insensitively; each shown ticket appears as often as in the input |
| Dashboard.FilteredHasStatus | src/components/dashboard/dashboard.tsx:49 | with a specific status selected, every visible ticket has that status |
| Dashboard.FilteredAllIsSearchOnly | src/components/dashboard/dashboard.tsx:49 | with "all" selected, only the search condition filters |
| Dashboard.FilteredEmptySearchAll | src/components/dashboard/dashboard.tsx:49-53 | an empty search with "all" selected shows every ticket in order |
| Dashboard.FilteredIgnoresCase | src/components/dashboard/dashboard.tsx:52-53 | upper-casing the search text does not change the visible list |
| StatsCards.CountStatus | src/components/dashboard/stats-cards.tsx:29-31 | a per-status count never exceeds the number of tickets |
| StatsCards.StatusCountsPartition | src/components/dashboard/stats-cards.tsx:28-31 | the Resolved, Pending and In Progress counts add up to the total |
| StatsCards.CountStatusAppend | src/components/dashboard/stats-cards.tsx:29-31 | appending a ticket raises exactly its own status's count by one |
| StatsCards.Stats | src/components/dashboard/stats-cards.tsx:33-58 | four cards titled Total Tickets, Resolved, Pending, In Progress in that order, with the total and per-status counts; the three status cards sum to the total card |
| TicketTable.HandleSortProperties | src/components/dashboard/ticket-table.tsx:100-107 | clicking the current column keeps the key and flips the order, so two clicks restore it; clicking another column selects it in descending order |
| TicketTable.CompareOrder | src/components/dashboard/ticket-table.tsx:110-123 | the comparator for each column and order is antisymmetric, zero exactly on equal keys, and its "not after" relation is transitive |
| TicketTable.SortPermutation | src/components/dashboard/ticket-table.tsx:109-124 | sorting only rearranges the tickets |
| TicketTable.SortSorted | src/components/dashboard/ticket-table.tsx:109-124 | after sorting, every earlier ticket compares at most equal to every later one |
| TicketTable.SortStable | src/components/dashboard/ticket-table.tsx:109-124 | tickets with equal sort keys keep their input order |
| TicketTable.SortTicketsCorrect | src/components/dashboard/ticket-table.tsx:109-124 | the sorted table is a permutation of the input, sorted by the comparator, and stable |
| TicketTable.SortByCreatedAt | src/components/dashboard/ticket-table.tsx:114-117 | by creation date, ascending puts earlier tickets first and descending puts later tickets first |
| TicketTable.LabelOrder | src/components/dashboard/ticket-table.tsx:120-121 | the string order of the labels: High < Low < Medium and In Progress < Pending < Resolved |
| TicketTable.SortCreatedAtDescIsReverse | src/components/dashboard/ticket-table.tsx:114-117 | when no two tickets share a creation time, the descending creation-date table is exactly the ascending one read backwards |
| TicketTable.StrictlyTimedUnique | src/components/dashboard/ticket-table.tsx:114-117 | two arrangements of the same tickets that are both strictly ordered by creation time in the same direction are identical, so the tie-free date sort has exactly one result |
| TicketTable.SortByPriorityIsAlphabetical | src/components/dashboard/ticket-table.tsx:120-122 | priority sorting is alphabetical on the label, not by urgency: ascending puts High before Low before Medium |
| TicketTable.SortByStatusIsAlphabetical | src/components/dashboard/ticket-table.tsx:120-122 | ascending status sort puts In Progress before Pending before Resolved |
| TicketTable.TicketTableView.constructor | src/components/dashboard/ticket-table.tsx:97-98 | the table starts sorted by creation date, descending |
| TicketTable.TicketTableView.HandleSort | src/components/dashboard/ticket-table.tsx:100-124 | a header click moves the sort state by the click rule and leaves the tickets alone; the rows then shown are a permutation of the tickets sorted by the clicked column in the new order |
| StatusPieChart.CountByStatus | src/components/dashboard/ticket-status-pie-chart-3d.tsx:22-29 | the zero-initialised tally holds, for every status, the number of tickets with that status |
| StatusPieChart.NonEmptyTotal | src/components/dashboard/ticket-status-pie-chart-3d.tsx:30-32 | dropping zero-count slices does not change the total count |
| StatusPieChart.EntriesTotal | src/components/dashboard/ticket-status-pie-chart-3d.tsx:22-31 | the three entries built from a correct tally add up to the number of tickets |
| StatusPieChart.NonEmptySlicesExact | src/components/dashboard/ticket-status-pie-chart-3d.tsx:30-32 | after dropping empty entries, every slice has a positive count equal to its status count, and a status keeps its slice exactly when some ticket has it |
| StatusPieChart.PieData | src/components/dashboard/ticket-status-pie-chart-3d.tsx:21-36 | slices come in the order Pending, In Progress, Resolved; every slice count is positive and equals its status count; a status has a slice exactly when some ticket has it; the slices sum to the number of tickets; the chart is empty, and so draws nothing (line 36), exactly when there are no tickets |
| TrendsBarChart.CountMonthPositive | src/components/dashboard/ticket-trends-bar-chart.tsx:16-22 | a month has a positive count exactly when some ticket was created in it |
| TrendsBarChart.AddTicket | src/components/dashboard/ticket-trends-bar-chart.tsx:16-22 | the per-ticket callback turns a correct tally of the first n tickets into a correct tally of the first n+1: counters equal the month counts, keys are distinct, follow the dictionary and sum to the ticket count |
| TrendsBarChart.MonthlyCounts | src/components/dashboard/ticket-trends-bar-chart.tsx:15-22 | the bucketing loop produces one key per distinct creation month, each holding that month's ticket count, with all buckets summing to the number of tickets |
| TrendsBarChart.SortMonthsCorrect | src/components/dashboard/ticket-trends-bar-chart.tsx:24-26 | sorting the month keys yields a strictly chronological permutation with the same total |
| TrendsBarChart.MonthlySeries | src/components/dashboard/ticket-trends-bar-chart.tsx:14-30 | the series lists every creation month exactly once in chronological order, each with its positive ticket count, totalling the number of tickets |
| TrendsBarChart.LastMonthsTail | src/components/dashboard/ticket-trends-bar-chart.tsx:31 | `slice(-6)` keeps min(6, length) entries, namely the last ones, and the whole series when it has at most six |
| TrendsBarChart.LastMonthsLatest | src/components/dashboard/ticket-trends-bar-chart.tsx:24-31 | cutting a chronological series keeps it chronological, and every dropped month is earlier than the first kept month |
| TrendsBarChart.TrendData | src/components/dashboard/ticket-trends-bar-chart.tsx:14-32 | the chart shows the latest min(6, number of months) months chronologically with their counts; any month left out is earlier than every month shown |
| TrendAnalyzer.ProjectShape | src/components/dashboard/trend-analyzer.tsx:32-37 | the payload has one entry per ticket carrying exactly its category, description, creation time and priority |
| TrendAnalyzer.ProjectIgnoresOtherFields | src/components/dashboard/trend-analyzer.tsx:32-37 | two ticket lists that agree on those four fields give the same payload |
| TrendAnalyzer.ProjectIgnoresStatusUpdates | src/components/dashboard/trend-analyzer.tsx:32-37 | a status update in the store never changes what is sent to the generator |
| TrendAnalyzer.SettledView | src/components/dashboard/trend-analyzer.tsx:71-93 | after a run neither spinner nor idle prompt shows; the report shows exactly on success, the error exactly on failure, and action items exactly when the report has non-empty ones |
| TrendAnalyzer.TrendAnalyzerView.constructor | src/components/dashboard/trend-analyzer.tsx:23-24 | the panel starts with no report, no error and not pending, so the idle prompt shows |
| TrendAnalyzer.TrendAnalyzerView.BeginAnalysis | src/components/dashboard/trend-analyzer.tsx:27-28 | starting a run clears the report and the error and marks the panel pending |
| TrendAnalyzer.TrendAnalyzerView.FinishAnalysis | src/components/dashboard/trend-analyzer.tsx:40-45 | completion stores the report on success or the fixed failure message on failure, then clears pending |
| TrendAnalyzer.TrendAnalyzerView.HandleAnalyze | src/components/dashboard/trend-analyzer.tsx:26-47 | after a run the panel is the settled view of the generator's answer to the projected tickets |
| LoginPage.PasswordError | src/app/login/page.tsx:34 | a password is rejected exactly when it is shorter than 6 characters, with the fixed message |
| LoginPage.AuthErrorMessageCases | src/app/login/page.tsx:63-75 | the three credential codes map to the invalid-credentials message, invalid-email and user-disabled to their own messages, and every other code to the generic message |

## Left out

- Network delays, `revalidatePath`, React transitions, toasts and routing: these are timing and framework effects with no logical content here.
- The deep copies made with `JSON.parse(JSON.stringify(...))` in the store: the model's values are immutable, so a copy and the original cannot diverge.
- Concurrent store updates: the model runs one update at a time.
- The Three.js scene and the bar-chart rendering: only the data handed to them is modelled, plus whether the pie renders at all.
- The JSON text sent to the trend generator: the model keeps the projected records, not their serialisation.
- The generator's prompt and model call: the generator is a parameter.
- Firebase authentication and the zod email format check: the model covers only the mapping from error codes to messages and the password length rule.
- LoginPage.PasswordError: zod counts UTF-16 code units, while the model counts characters.
- Parsing ISO strings with date-fns and formatting months as "MMM yyyy" or "MMM": timestamps are abstract. Malformed timestamps are not modelled.
- TicketTable.CompareOrder: the comparator is modelled by its sign. The actual millisecond differences it returns are not modelled.
- Text.ToLower: `toLowerCase` and `toUpperCase` are modelled on ASCII letters only. No other Unicode case mapping is modelled.
- TrendsBarChart.TrendData: it returns months, not the "MMM" label text. Two months of different years would share a label in the chart.
- Actions.TicketStore.UpdateTicketStatus: `updated_at` is the `now` parameter. The source reads the wall clock and makes no monotonicity promise, so none is modelled.
- The mock seed tickets: `src/lib/mock-data.ts` is not part of this model. The store starts from any seed list.
- The descending table order is the exact reverse of the ascending one only for creation dates without ties (proved). With tied dates, or for the status and priority columns, the stable sort keeps tied rows in input order in both directions, so the two orders are not reverses of each other.
- Actions.TicketStore.UpdateTicketStatus: the status argument is assumed to be one of Pending, In Progress and Resolved. The source trusts the TypeScript type and does not check the value at run time, so a request carrying another string, such as "Closed", would be stored and reported as "updated to Closed.". That ticket would then count on no status card, so Resolved + Pending + In Progress would fall below Total, and it would get no pie slice. StatsCards.StatusCountsPartition and the total in StatusPieChart.PieData hold only for the three values.
- The presentational components: the animated number, the header, the layout and the status badge colours carry no logic beyond display.
