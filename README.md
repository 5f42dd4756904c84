# Restaurant analytics: a Dafny model

This project models the core of a restaurant-analytics dashboard. The
backend answers ten GET routes with reports over a sales database. The
frontend builds those requests from the filters the user picks and keeps
the replies in component state. The model covers four pieces:

- **Report queries** (`backend/queries.js`). For each query it models:
  - which SQL filter clauses are emitted, and how the positional parameter
    list is built (`push` and `splice`);
  - what the statements compute: counts and sums of completed sales per
    date, hour, weekday, channel, product and customer; `NULL` for a sum
    over no rows; `ORDER BY` with `DESC` putting `NULL` first; `LIMIT`;
    `HAVING`.
- **Request handling** (`backend/server.js`). It models `extractFilters`,
  the `parseInt(...) || default` limits, what each route passes to its
  query, and the 200/404/500 reply.
- **API client** (`frontend/src/api.js`). It models `buildQueryString` as a
  loop that appends pairs, the request each `fetch…` function issues, and
  the base URL.
- **Dashboard component** (`frontend/src/App.jsx`). It models a class with
  these fields:
  - the draft and applied filters, and the draft and applied product limit;
  - the active tab, the loading flag and the report slots;
  - the effect dependencies.

  Its methods are the component's handlers and effects.

Modules, one per file:

| file | module | what it holds |
|---|---|---|
| `wrappers.dfy` | `Wrappers` | `Option` |
| `jstext.dfy` | `JsText` | decimal text of integers, `Number`, `parseInt`, `split(',')` and `join(',')` |
| `ordering.dfy` | `Ordering` | `ORDER BY` (insertion sort over a total preorder), `LIMIT`, `GROUP BY` keys, text order |
| `queries.dfy` | `Queries` | the sales table, the filters, placeholders and parameter lists |
| `reports.dfy` | `Reports` | the result of every report statement |
| `routes.dfy` | `Routes` | endpoints, their paths and express's routing |
| `server.dfy` | `Server` | filter and limit extraction, route handlers, replies |
| `api.dfy` | `Api` | query strings, requests, base URLs |
| `wire.dfy` | `Wire` | round trips from a client request to the server's query call |
| `dashboard.dfy` | `Dashboard` | the component's state and transitions |

Amounts are integer cents. Instants are integer milliseconds. Each sale
carries its local calendar day, hour and weekday as input; these are what
`DATE(...)` and `EXTRACT(...)` return in the database's time zone. The
current time (`now`) and today's date (`today`) are parameters, and so is
the `yyyy-MM-dd` date formatter (`fmt`). A JOIN on a primary key is a
lookup of the first row with that id.

## Model

| member | source | states |
|---|---|---|
| `Queries.Selected` | backend/queries.js:17-20 | a sale is kept exactly when it lies in the closed date range and in each non-empty id list |
| `Queries.SelectedAppend` | backend/queries.js:17-20 | filtering one more sale appends it exactly when it matches, so the order of the sales is kept |
| `Queries.NoListNoRestriction` | backend/queries.js:5-6 | an absent or empty id list filters nothing, so only the dates restrict |
| `Queries.BuildFilterParams` | backend/queries.js:23-25 | the list is the two dates, then each non-empty list; it binds every placeholder of the corrected statement |
| `Queries.BuildChannelReportParams` | backend/queries.js:112-113 | the list is the dates, then the store list; every placeholder of that statement is bound |
| `Queries.BuildTopProductsParams` | backend/queries.js:83-85 | after the splices the limit is last, at the index `LIMIT $n` names; the corrected statement binds |
| `Queries.BuildTopCustomersParams` | backend/queries.js:203 | `[start, end, limit]` binds `$1..$3` |
| `Queries.ClausesEmittedIff` | backend/queries.js:5-6 | the store clause appears iff the store list is non-empty; the same holds for channels |
| `Queries.FilterParamsShape` | backend/queries.js:23-25 | the dates come first, the store list at 2, the channel list last, and nothing else |
| `Queries.FilterPlaceholdersBind` | backend/queries.js:5-6 | with `$3` for a channel list that follows no store list, every filter combination binds |
| `Queries.TopProductsPlaceholdersBind` | backend/queries.js:80 | the corrected top-products placeholders bind for every combination |
| `Queries.FilterPlaceholdersAsWrittenBindIff` | backend/queries.js:6 | as written, binding holds iff a store list is present or no channel list is |
| `Queries.TopProductsPlaceholdersAsWrittenBindIff` | backend/queries.js:61 | the same for top products, where `$4` then names the limit |
| `Queries.ChannelOnlyCounterexample` | backend/queries.js:6 | a channel-only filter: `$4` has no parameter; in top products `$3` is unused |
| `Ordering.SortBy` | backend/queries.js:79 | sorting keeps the rows as a multiset |
| `Ordering.SortBySorted` | backend/queries.js:109 | the sorted rows are in order for any total preorder |
| `Ordering.TopBy` | backend/queries.js:79-80 | `ORDER BY … LIMIT n` returns min(n, rows) rows, sorted, a sub-multiset of the input |
| `Ordering.TopRowsRankFirst` | backend/queries.js:199-200 | every row left out by `LIMIT` ranks at or below every row kept |
| `Ordering.Keys` | backend/queries.js:46-47 | the group keys ascend strictly and are exactly the keys present |
| `Ordering.LexLeTotal` | backend/queries.js:238 | any two names compare |
| `Ordering.LexLeTransitive` | backend/queries.js:249 | name order is transitive |
| `Reports.StatusCountsBound` | backend/queries.js:10-12 | completed plus cancelled never exceeds the total count |
| `Reports.NoCompletedNoRevenue` | backend/queries.js:14 | with no completed sale, the completed amount sum is 0 |
| `Reports.AggregatesAppend` | backend/queries.js:10-15 | counts and sums grow by exactly the appended sale's share |
| `Reports.Overview` | backend/queries.js:8-28 | completed plus cancelled is at most total; revenue and discounts are `NULL` iff nothing completed |
| `Reports.OverviewAppend` | backend/queries.js:17-20 | an outside sale changes nothing; a non-completed one only the counts; a completed one adds its amount and discount |
| `Reports.GroupedRows` | backend/queries.js:46-47 | one row per key present, ascending, each with its group's completed count and revenue |
| `Reports.SalesByDate` | backend/queries.js:36-55 | rows ascend by day; a day is listed iff some selected sale falls on it; each row holds the completed count and completed revenue of that day's sales |
| `Reports.SalesByDateKeepsNonCompletedDays` | backend/queries.js:39 | a day with only non-completed sales is listed with count 0 and `NULL` revenue |
| `Reports.SalesByHour` | backend/queries.js:124-144 | an hour is listed iff a selected completed sale has it; hours are 0..23, count at least 1, revenue present; each row holds the count and revenue of that hour's completed sales |
| `Reports.WeekdayName` | backend/queries.js:155-163 | a name exists iff the day is 0..6 |
| `Reports.WeekdayNamesDistinct` | backend/queries.js:156-162 | different weekdays have different names |
| `Reports.SalesByWeekday` | backend/queries.js:152-180 | rows ascend by weekday; a weekday is listed iff a selected sale has it; every row is named and holds the completed count and revenue of that weekday's sales |
| `Reports.SalesByWeekdayKeepsNonCompletedDays` | backend/queries.js:164 | a weekday with only non-completed sales is listed with count 0 |
| `Reports.GroupsPartitionRevenue` | backend/queries.js:46 | groups over distinct, covering keys split the revenue without loss or overlap |
| `Reports.DateRevenueMatchesOverview` | backend/queries.js:40 | per-date revenues add up to the overview's revenue |
| `Reports.HourRevenueMatchesOverview` | backend/queries.js:128 | per-hour revenues add up to the overview's revenue |
| `Reports.FindBy` | backend/queries.js:71-72 | a primary-key JOIN: the row found is in the table and has the wanted id; if none is found, no row of the table has it |
| `Reports.QualifyingLines` | backend/queries.js:70-77 | a line is kept iff its product exists and its sale exists, is completed and matches the filters |
| `Reports.ProductGroups` | backend/queries.js:78 | exactly one row for each product with a qualifying line, ascending by id; each row holds the count, quantity sum and price sum of that product's qualifying lines |
| `Reports.TopProducts` | backend/queries.js:63-88 | a negative limit is an error; otherwise min(limit, groups) rows by revenue descending, each one of the product groups |
| `Reports.TopProductsRankFirst` | backend/queries.js:79-80 | a product left out earned no more than any listed one |
| `Reports.ChannelRowOf` | backend/queries.js:99-100 | revenue is `NULL` iff the channel has no completed sale |
| `Reports.ChannelGroups` | backend/queries.js:103-108 | exactly one row for each channel with a joined sale in the range and stores, ascending by id; each row holds that channel's completed count and completed revenue, `NULL` iff none |
| `Reports.SalesByChannel` | backend/queries.js:95-116 | the groups reordered by revenue descending with `NULL` first |
| `Reports.Latest` | backend/queries.js:192 | `MAX` is `NULL` over no rows, else the latest instant among them |
| `Reports.CustomerGroups` | backend/queries.js:198 | exactly one row for each customer with a purchase, ascending by id; each row holds the purchase count, the amount sum and the latest purchase time of that customer |
| `Reports.TopCustomers` | backend/queries.js:185-204 | only the dates filter; a negative limit is an error; otherwise min(limit, customers) rows by value descending, each one of the customer groups |
| `Reports.TopCustomersRankFirst` | backend/queries.js:199-200 | a customer left out spent no more than any listed one |
| `Reports.TruncDivAtLeast` | backend/queries.js:217 | more than k days' worth of ms is at least k whole days |
| `Reports.Lapsed` | backend/queries.js:222-223 | a customer is kept iff the last purchase is older than `days` days and there are at least 3 purchases |
| `Reports.InactiveStats` | backend/queries.js:220-225 | min(50, inactive customers) rows, each inactive, by value descending, drawn without repetition from the inactive customer groups |
| `Reports.InactiveRankFirst` | backend/queries.js:224-225 | an inactive customer left out is worth no more than any listed one |
| `Reports.Lapses` | backend/queries.js:217 | each row's days since purchase is the elapsed time since the last purchase in whole days, truncated toward zero, and is at least `days` |
| `Reports.InactiveCustomers` | backend/queries.js:209-229 | the rows are the listed customers in order; each row's days are the whole days since that customer's last purchase, at least `days` |
| `Reports.ActiveStores` | backend/queries.js:237 | a store is kept iff it is active |
| `Reports.Stores` | backend/queries.js:233-241 | exactly the active stores, as a multiset, ordered by name |
| `Reports.Channels` | backend/queries.js:245-252 | every channel, as a multiset, ordered by name |
| `JsText.NatToStringValue` | frontend/src/api.js:10 | the decimal text of n reads back as n |
| `JsText.IntToString` | frontend/src/api.js:12 | the text is non-empty and has no comma |
| `JsText.NumberOfIntToString` | backend/server.js:20 | `Number` of an integer's text is that integer |
| `JsText.ParseInt` | backend/server.js:68 | NaN iff no digit follows the optional sign |
| `JsText.ParseIntOfIntToString` | backend/server.js:153 | `parseInt` of an integer's text is that integer |
| `JsText.Split` | backend/server.js:20 | at least one piece, none containing a comma |
| `JsText.SplitJoin` | frontend/src/api.js:10 | splitting comma-free pieces after joining them gives them back |
| `JsText.JoinSplit` | backend/server.js:21 | joining the pieces of a split gives the text back |
| `JsText.IntListRoundTrip` | backend/server.js:20-21 | a non-empty integer list survives join, split and `Number` |
| `JsText.JoinEmptyIffEmpty` | frontend/src/api.js:9-10 | a list joins to the empty text iff it is empty |
| `Routes.Route` | backend/server.js:26-182 | the found endpoint's path equals the request path up to letter case and one trailing slash; none found means no endpoint's does |
| `Routes.RouteOfPathWithSlash` | backend/server.js:31 | a registered path with one trailing slash reaches the same endpoint |
| `Routes.RouteIgnoresCase` | backend/server.js:31 | any spelling whose letters fold to an endpoint's path reaches that endpoint |
| `Routes.DoubleSlashReachesNothing` | backend/server.js:26-182 | a path that starts with two slashes reaches no endpoint |
| `Routes.RouteOfPath` | backend/server.js:31 | each endpoint is reached by its own path |
| `Routes.PathsDistinct` | backend/server.js:48 | different endpoints have different paths |
| `Server.DateOr` | backend/server.js:18-19 | the client's date iff it is given and non-empty, else the fallback instant |
| `Server.IdsOf` | backend/server.js:20-21 | a list iff the value is non-empty, and then a list of at least one number |
| `Server.ExtractFilters` | backend/server.js:14-23 | dates default to 30 days before now and to now; lists default to null |
| `Server.DefaultRange` | backend/server.js:18 | without dates the range spans exactly 30 days up to now |
| `Server.LimitOr` | backend/server.js:68 | the result is never 0; it is the fallback iff the value is missing, NaN, 0 or the fallback itself |
| `Server.Handle` | backend/server.js:30-160 | each route calls its own query with that query's number of arguments; only /health skips the database |
| `Server.HandleReadsOnly` | backend/server.js:84-97 | a route depends only on its own keys; sales-by-channel ignores channelIds, top-customers both lists, inactive-customers all but days |
| `Server.Serve` | backend/server.js:31-45 | 404 iff no route; 500 with the error body iff a report query fails; otherwise 200 with the rows |
| `Api.QueryPairsKept` | frontend/src/api.js:7-15 | a pair is sent iff some entry has that key, is not null, undefined or '', and renders to that text |
| `Api.BuildQueryString` | frontend/src/api.js:5-17 | the loop appends exactly the kept entries' pairs, in entry order |
| `Api.FilterPairs` | frontend/src/api.js:8-10 | dates are sent when non-empty; both lists are always sent, joined, empty ones as an empty value |
| `Wire.Sent` | frontend/src/api.js:8 | a key the entries lack is never sent |
| `Wire.ReadBack` | frontend/src/api.js:5-17 | with distinct keys, the server reads for each key what the client sent |
| `Wire.FilterSent` | frontend/src/api.js:20 | what the dashboard's filters send under each of the four keys |
| `Wire.FiltersRoundTrip` | backend/server.js:14-23 | the server receives the typed dates, or its defaults for empty ones; a non-empty list arrives as the same numbers, an empty one as null |
| `Wire.SentPrefix` | frontend/src/api.js:32 | keys appended after the filters do not change what the filters send |
| `Wire.IdsRoundTrip` | backend/server.js:20 | a joined id list is read back as itself, or as null when empty |
| `Wire.LimitRoundTrip` | backend/server.js:137 | a sent limit arrives as itself unless it is 0 or NaN, which become the default |
| `Wire.TopProductsRequestRoundTrip` | frontend/src/api.js:31-35 | the top-products request reaches its query with the filters and the limit |
| `Wire.TopCustomersRequestRoundTrip` | frontend/src/api.js:55-59 | the top-customers request reaches its query with the dates and the limit only |
| `Wire.InactiveRequestRoundTrip` | frontend/src/api.js:61-64 | the inactive request reaches its query with its days (0 or NaN give 30) |
| `Wire.FilterRequestRoundTrip` | frontend/src/api.js:19-23 | overview, by-date, by-hour and by-weekday requests reach their queries with the filters |
| `Wire.ChannelRequestRoundTrip` | frontend/src/api.js:37-41 | the channel request reaches its query with dates and stores; the channel list is dropped |
| `Wire.DevUrlRoutes` | frontend/src/api.js:3 | in development each URL is the endpoint's own route |
| `Wire.ProdUrlAsWrittenMisses` | frontend/src/api.js:2 | the production URL's path is `//name`, which no route serves |
| `Wire.ProdUrlRoutes` | frontend/src/api.js:1 | with a `/api` base each production URL reaches its endpoint |
| `Dashboard.TabSlots` | frontend/src/App.jsx:28-35 | a tab has one slot per report it shows |
| `Dashboard.Stored` | frontend/src/App.jsx:66-88 | the started tab's slots take the replies; every other tab's slots are unchanged |
| `Dashboard.TabRequests` | frontend/src/App.jsx:61-89 | a tab requests exactly its reports, in order |
| `Dashboard.TabsPartitionReports` | frontend/src/App.jsx:62 | every report belongs to exactly one tab; health and the two lists belong to none |
| `Dashboard.ProductsTabRequest` | frontend/src/App.jsx:71 | the products tab sends the applied filters and applied limit to the top-products query |
| `Dashboard.CustomersTabRequests` | frontend/src/App.jsx:83-86 | the customers tab asks for top 20 and for customers inactive 30 days |
| `Dashboard.StoredShowsReplies` | frontend/src/App.jsx:87-88 | after a completed load the tab shows its replies and the other tabs are untouched |
| `Dashboard.Values` | frontend/src/App.jsx:81-84 | once all fetches resolve, the values are the replies |
| `Dashboard.Dashboard.constructor` | frontend/src/App.jsx:12-35 | first render: overview tab, loading, both filters that render's defaults object, limits 10, empty slots |
| `Dashboard.Dashboard.SetActiveTab` | frontend/src/App.jsx:132 | only the tab changes; the dependencies change iff the tab does |
| `Dashboard.Dashboard.EditDraft` | frontend/src/App.jsx:183 | the draft becomes a new object; applied state and dependencies are unchanged |
| `Dashboard.Dashboard.EditStartDate` | frontend/src/App.jsx:183 | only the draft's start date changes; the applied filters do not |
| `Dashboard.Dashboard.EditEndDate` | frontend/src/App.jsx:194 | only the draft's end date changes |
| `Dashboard.Dashboard.EditStoreIds` | frontend/src/App.jsx:205-208 | only the draft's store ids change |
| `Dashboard.Dashboard.EditChannelIds` | frontend/src/App.jsx:227-230 | only the draft's channel ids change |
| `Dashboard.Dashboard.ApplyFilters` | frontend/src/App.jsx:97-99 | applied becomes the draft object; the draft is unchanged; a reload follows iff they were different objects |
| `Dashboard.Dashboard.Render` | frontend/src/App.jsx:14-19 | a re-render builds a new defaults object (30 days up to today, no ids), distinct from both filters; no state changes |
| `Dashboard.Dashboard.ResetFilters` | frontend/src/App.jsx:101-104 | both filters become the latest render's defaults object; a reload follows exactly when the applied filters were another object, so not after a reset on the first render |
| `Dashboard.Dashboard.EditProductLimit` | frontend/src/App.jsx:341 | the draft limit becomes `Number(text)`; the applied limit and dependencies are unchanged |
| `Dashboard.Dashboard.UpdateProductLimit` | frontend/src/App.jsx:345 | the applied limit becomes the draft limit; a reload follows iff they differed |
| `Dashboard.Dashboard.Commit` | frontend/src/App.jsx:37-44 | filters load on the first commit only; data reloads iff the dependency list changed |
| `Dashboard.Dashboard.StartLoad` | frontend/src/App.jsx:59-60 | loading turns on and the tab's requests are issued |
| `Dashboard.Dashboard.FinishLoad` | frontend/src/App.jsx:90-94 | loading turns off; the slots change only when every fetch resolved |
| `Dashboard.Dashboard.LoadData` | frontend/src/App.jsx:58-95 | the tab's requests are issued, the slots are filled when all resolve, and loading ends off |
| `Dashboard.Dashboard.LoadFilters` | frontend/src/App.jsx:45-56 | stores and channels are set only when both fetches resolve |

## Left out

- Everything around the database: the `db` module, connections, and SQL parsing and execution. The statements' meaning is modelled directly as functions over lists of rows.
- `ROUND(...::numeric, 2)`, every `AVG` column (`avg_ticket`, `avg_price`) and `avg_delivery_minutes`. These are decimal division and rounding; sums and counts are exact integers in cents.
- Time zones and calendar extraction. `DATE`, `EXTRACT(HOUR)` and `EXTRACT(DOW)` are the `local` fields every sale carries as input. `INTERVAL '1 day'` is a fixed 86 400 000 ms, without daylight-saving shifts.
- Reading a date text as a timestamp. The database does that to the `startDate`/`endDate` strings. The server layer carries them as `DateArg` values, and the report layer receives instants.
- Reports.SalesByChannel: ties in revenue may come out in any order in SQL. The model's insertion sort picks one such order, so its contract states sortedness and the multiset, not one particular order. The same holds for every `ORDER BY` on a non-unique column.
- Reports.TopProducts: rows also carry the `GROUP BY` key (`productId`; for channels `channelId`) that the statements do not select, so that groups are identified.
- Text order is by code point. The database collation used by `ORDER BY name` is not modelled.
- Ids are assumed to be primary keys: a JOIN takes the first row with the id.
- Server.IdsOf: a piece of the id list that is not a plain integer becomes `NaN`. The database then rejects the array and the route answers 500, which is `Serve` with a failing query. The model does not follow a `NaN` element into the report layer, which takes integer lists.
- `Number` and `parseInt` handle only an optional sign followed by decimal digits; `NaN` is the only other value. Whitespace, decimals, exponents, hexadecimal, `Infinity` and `-0` are not modelled.
- JS numbers are doubles, but `Num(n)` is an unbounded integer. It stands for the integers JavaScript represents exactly, |n| < 2^53. That covers database ids and the interface's limit of 1 to 50. From 1e21 upward `String(n)` writes exponent form, and `parseInt` of that text stops at the `e`. Above 2^53 integers are rounded. Neither behaviour is modelled.
- JsText.NumberOfIntToString: holds for JS only when |n| < 2^53, as the line above says.
- JsText.ParseIntOfIntToString: holds for JS only when |n| < 1e21, and is exact only when |n| < 2^53.
- Wire.IdsRoundTrip: holds for JS only for ids with |n| < 2^53.
- Wire.LimitRoundTrip: holds for JS only for limits with |n| < 2^53. A huge typed limit arrives rounded, or as its first digits once `String` writes exponent form.
- The two `Date.now()` readings in `extractFilters` are a single `now`. `toISOString` is the `IsoOf` constructor.
- Express details: repeated query keys (which express turns into arrays), CORS, JSON body parsing, dotenv, `app.listen` and `console` logging. The query string travels as a list of key/value pairs, with URLSearchParams percent-encoding and express decoding taken as inverses.
- `fetch` and `response.json()` are a function from a request to an optional reply body. `None` means the promise rejects. A 500 reply still resolves, and its body is stored like any other.
- The component's concurrency. Each load is `StartLoad` followed by `FinishLoad`, and the two may interleave with other handlers. React's scheduling and batching are not modelled, and `Promise.all` is one wait for all replies.
- Dashboard.Dashboard.Render: which state updates make React re-render, and when, is not modelled. For example, React skips a re-render when `setLoading(true)` finds `loading` already true. `Render` is the step a caller takes wherever React re-renders the component. Until the first such step, `ResetFilters` hands both setters the objects they already hold, so nothing reloads.
- All rendering: JSX, charts, Tailwind classes, currency formatting and the cancellation-rate percentage (floating point).
- The default parameter values of the query functions in queries.js (`limit = 10`, `limit = 20`, `days = 30`) are unused, because the server always passes a value. The client's default arguments are modelled as `Option` parameters.
- A negative `LIMIT` is a database error, modelled as `None` (the route then answers 500).
- Reports.Overview: follows the corrected placeholder numbering. As written, a filter with channels and no stores is a query error and the route answers 500 (see Findings); the model returns the report instead.
- Reports.SalesByDate: the same as for `Overview`: a channel-only filter is a query error as written, and the model returns the corrected statement's rows.
- Reports.SalesByHour: the same as for `Overview`: a channel-only filter is a query error as written, and the model returns the corrected statement's rows.
- Reports.SalesByWeekday: the same as for `Overview`: a channel-only filter is a query error as written, and the model returns the corrected statement's rows.
- Reports.TopProducts: `Some` exactly when the limit is not negative, for the corrected numbering. As written, a channel-only filter binds the limit where the channel array belongs and is a query error (see Findings).
- Wire.DevUrlRoutes: assumes the development server forwards `/api/<name>` to the backend unchanged. The proxy configuration is not part of this model.
- Routes.Route: the HTTP method is not modelled (every route is a GET), and only ASCII letters are folded, as a pattern without the `u` flag does.

## Findings

| source | as written | input that shows it | evidently intended | confidence | as-written member | corrected member |
|---|---|---|---|---|---|---|
| backend/queries.js:6 | the channel clause always says `$4`, but with no store list the channel list is parameter 3 | start 0, end 1, no store list, channel list `[7]`: three parameters, and `$4` is unbound | `$3` when there is no store list | high, not executed | `Queries.FilterPlaceholdersAsWrittenBindIff` | `Queries.FilterPlaceholdersBind` |
| backend/queries.js:61 | in top products with channels only, `$4` is both the channel array and the limit, and `$3` is unused | the same filter with limit 10: `$4` binds the integer 10 where an integer array is expected | the channel clause at `$3` and the limit at `$4` | high, not executed | `Queries.TopProductsPlaceholdersAsWrittenBindIff` | `Queries.TopProductsPlaceholdersBind` |
| frontend/src/api.js:2 | the production base ends with `/` and lacks `/api`, so URLs are `host//overview` | any request in production, for example the overview | the base `https://restaurant-analytics.onrender.com/api` | medium (a rewrite on the host could mask it), not executed | `Wire.ProdUrlAsWrittenMisses` | `Wire.ProdUrlRoutes` |
