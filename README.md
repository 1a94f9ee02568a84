# SWASH admin dashboard: a Dafny model

The SWASH internal portal is a small Express application with EJS pages and a
browser script. It serves five pages (dashboard, customers, orders, valets,
reports), four JSON endpoints over a fixed in-memory catalogue, and one generic
page for each of 23 placeholder sections. Every page is rendered through a
shared layout. In the browser, the script highlights the current navigation
link and filters tables as the user types. Escape clears the search fields.
The script also toggles a button's loading state, shows notification banners,
and rewrites the dashboard counters when it refreshes.

This project models the parts of that code whose behaviour can be stated:

- `strings.dfy` (`Strings`): the JavaScript string operations the code relies
  on, restricted to ASCII: `toUpperCase`, `toLowerCase`, `includes`, and
  `replace(/-/g, ' ')`.
- `mock_data.dfy` (`MockData`): the catalogue, the JSON values sent for it, and
  JavaScript property lookup and truthiness on those values.
- `layout.dfy` (`Layout`): `renderWithLayout`. The views directory is a map
  from file name to text. EJS is a function parameter that may fail.
- `routing.dfy` (`Routing`): the section titles, the route table, Express's
  first-match dispatch, route registration at start-up, and a GET request
  from start to finish.
- `search.dfy` (`Search`): `performSearch`, the search fields' `input` listener
  and the Escape branch of the keydown listener.
- `navigation.dfy` (`Navigation`): `initializeNavigation`, `updateActiveNavLink`
  and the page-load listener that runs both.
- `ui.dfy` (`Ui`): `setLoadingState`, the banner class string of
  `showNotification`, and the banner list.
- `dashboard.dfy` (`Dashboard`): `updateDashboardCards`, with the `String(value)`
  conversion it uses.

The DOM is plain data. A table body is an array of `(text, visible)` rows. The
sidebar is an array of `(href, active)` links. A button is an object with
`disabled`, its text and its saved text. The four dashboard-card lookups are an
array of slots, each holding either nothing (the selector found no element) or
the element's text. Each method that the source runs as a loop over elements
is a loop over that array. Its postcondition equates the new array with a
specification function of the old one. Lemmas prove what the source promises
about that function.

server.js:134-138 lists 23 section names; `Routing.SectionsDistinct` proves
there are 23 and that they are pairwise distinct.

## Model

| member | source | states |
|---|---|---|
| Strings.UpperChar | server.js:143 | `toUpperCase` on an ASCII character: a lower-case letter becomes its upper-case letter (32 code points lower); any other character is unchanged; the result is never a lower-case letter |
| Strings.LowerChar | public/js/main.js:61 | `toLowerCase` on an ASCII character: an upper-case letter becomes its lower-case letter; any other character is unchanged; the result is never upper-case |
| Strings.Lower | public/js/main.js:47 | `toLowerCase` keeps the length and lower-cases every position |
| Strings.LowerHasNoUpper | public/js/main.js:61 | a lower-cased text has no upper-case letter left |
| Strings.Includes | public/js/main.js:62 | `s.includes(t)` is true exactly when some position of `s` starts a copy of `t` (both directions) |
| Strings.IncludesEmpty | public/js/main.js:62 | every string includes the empty string |
| Strings.ReplaceDashes | server.js:143 | `replace(/-/g, ' ')` keeps the length, turns every `-` into a space and leaves every other character where it was |
| Strings.ReplaceDashesLeavesNoDash | server.js:143 | after `replace(/-/g, ' ')` no `-` is left |
| MockData.Field | public/js/main.js:227 | `reports[key]` yields a value only if the object has a field `key` with that value; it is `undefined` exactly when the value is not an object or has no such field |
| MockData.Truthy | public/js/main.js:227 | the guard `reports[key]` is false for a missing value, for 0 and for the empty string, and true only for a present value |
| MockData.ReportsFromJson | server.js:129-131 | the inverse of the JSON `/api/reports` sends: a value decodes exactly when all four summary keys hold numbers, and then each field is the number under its key |
| MockData.ReportsFields | server.js:36-41 | each of the four summary keys reads back, from the JSON sent, as its own field |
| MockData.ReportsRoundTrip | server.js:129-131 | any reports summary survives being sent as JSON and read back |
| MockData.ReportsPayload | server.js:36-41 | `/api/reports` sends exactly `{dailyOrders: 45, monthlyRevenue: 12500, activeCustomers: 234, pendingIssues: 3}`, in that key order |
| MockData.OrdersServices | server.js:26-30 | the three orders carry Dry Cleaning, Laundry and Alterations once each, for John Doe, Jane Smith and Bob Johnson |
| Layout.LayoutContext | server.js:61-64 | the layout's context has the page data's keys plus `body`; `body` holds the page HTML; every other key keeps its value |
| Layout.RenderedPage | server.js:47-64 | a finished page exists only when both the layout and the page template were read and the page template rendered with the page data |
| Layout.LayoutOutcome | server.js:45-71 | the response status is 200 or 500; it is 200 exactly when a finished page exists, and a 500 carries `Error rendering page` |
| Layout.LayoutOutcomeCases | server.js:53-70 | the page is sent with status 200 exactly when both templates are read and both render passes succeed, the layout being rendered with the layout context; the body is then the layout's HTML; in every other case the response is 500 with `Error rendering page` |
| Layout.MissingTemplateIsError | server.js:50-55 | a missing layout or page template gives the 500 error response |
| Layout.LayoutSeesRenderedPage | server.js:57-64 | the page template is rendered with the page data alone, and the layout is rendered around exactly that output |
| Layout.RenderWithLayout | server.js:45-71 | exactly one body is sent, the one the outcome describes; the status is set to 500 only on failure |
| Routing.Title | server.js:143 | the title has the name's length; its first character is the upper-cased first character of the name; every later position holds the name's character, with `-` replaced by a space; an empty name gives an empty title |
| Routing.TitleDashes | server.js:143 | no `-` remains after index 0, while a leading `-` is kept because only `slice(1)` is rewritten |
| Routing.TitleOfEmpty | server.js:143 | the empty name gives the empty title |
| Routing.TitleExample | server.js:143 | `cleaner-tickets` gets the title `Cleaner tickets` |
| Routing.TitleNoDash | server.js:143 | a name that does not start with `-` gives a title without any `-` |
| Routing.SectionTitlesHaveNoDash | server.js:134-143 | no section title contains `-` |
| Routing.View | server.js:75-142 | the template each page renders: `dashboard`, `customers`, `orders`, `valets` and `reports` for the named pages (server.js:75, 83, 91, 99, 107) and `section` for every placeholder section (server.js:142) |
| Routing.SectionRoutes | server.js:140-148 | one route per section name, in list order, at `/` plus the name, rendering the section page |
| Routing.PageData | server.js:74-114 | every page is rendered with a `title` and the signed-in `user`; a section page gets exactly `title`, `user` and `section`, the title being `Title` of the section name (server.js:142-146) |
| Routing.Payload | server.js:117-131 | each collection endpoint sends an array and `/api/reports` sends an object, which decodes back to the summary of server.js:36-41 |
| Routing.CollectionPagesMatchApi | server.js:84-103 | the customers, orders and valets pages hold exactly the arrays `/api/customers`, `/api/orders` and `/api/valets` send (server.js:117-127) |
| Routing.SummaryPagesMatchApi | server.js:74-82 | the dashboard and the reports page hold exactly the summary `/api/reports` sends (server.js:129-131) |
| Routing.ReportsPageCollectionsMatchApi | server.js:105-114 | the reports page holds exactly the customers and orders arrays their endpoints send |
| Routing.FirstMatch | server.js:74-148 | a GET finds no handler exactly when no registered route has its path; otherwise it finds the handler of the first registered route with that path: no earlier route has the path |
| Routing.FirstMatchFindsRoute | server.js:74-148 | when route paths are distinct, each route is the one that serves its own path |
| Routing.FirstMatchAppend | server.js:74-148 | routes registered earlier win: matching in a table extended by more routes finds the earlier match when there is one, and only otherwise looks among the later routes |
| Routing.FirstMatchAt | server.js:74-148 | a route that no earlier route shadows is the one its path dispatches to (the converse of `FirstMatch`'s first-registered clause) |
| Routing.SectionsDistinct | server.js:134-138 | there are 23 section names, pairwise distinct |
| Routing.SectionsAvoidNamedRoutes | server.js:82-138 | no section name is empty, `customers`, `orders`, `valets`, `reports`, or an API path |
| Routing.NamedPaths | server.js:74-131 | the nine page and API routes sit at `/` followed by their names |
| Routing.RouteTable | server.js:74-148 | the routes start-up registers: the nine named routes in source order, then one route per section in list order |
| Routing.RouteAt | server.js:74-148 | the first nine routes are the named ones; route 9 + k is section k's |
| Routing.RoutePathsDistinct | server.js:74-148 | all 32 route paths are pairwise distinct, so each path selects at most one view |
| Routing.SectionServed | server.js:140-148 | each section name `s` is served at `/s` by the section page |
| Routing.ApiReportsServed | server.js:129-131 | `/api/reports` dispatches to the reports endpoint |
| Routing.ReportsEndpointSendsSummary | server.js:129-131 | the reports endpoint sends the JSON of the summary of server.js:36-41 |
| Routing.ServedPaths | server.js:74-148 | a path has a handler exactly when it is one of the nine named paths or `/` followed by a section name |
| Routing.Serve | server.js:74-148 | the response a GET gets: the first matching route's page rendered through `renderWithLayout` with its view and data, or its endpoint's JSON with status 200; None when no route has the path |
| Routing.RegisterSections | server.js:140-148 | registering the sections appends their routes, in list order, after the routes already registered |
| Routing.CreateApp | server.js:74-148 | start-up registers exactly the route table, in source order |
| Routing.HandleGet | server.js:74-148 | a GET runs the first matching handler on a fresh response; that response ends with exactly one body and the status the request's outcome describes; nothing is sent when no route matches |
| Search.Filtered | public/js/main.js:60-67 | after filtering, the rows have the same texts in the same order, and a row is visible exactly when its lower-cased text includes the term |
| Search.FilteredIdempotent | public/js/main.js:60-67 | filtering twice with the same term equals filtering once |
| Search.EmptyTermShowsAll | public/js/main.js:62 | the empty term makes every row visible |
| Search.SingleMatch | public/js/main.js:60-67 | a term found only in row k's text leaves only row k visible; clearing the term then shows all rows with their texts unchanged |
| Search.PerformSearch | public/js/main.js:54-68 | the table's rows become the filtered rows of the old rows; with no table found nothing changes |
| Search.OnInput | public/js/main.js:42-50 | a search field filters its table by its lower-cased value; a field without the search listener changes nothing |
| Search.ClearSearches | public/js/main.js:183-189 | Escape empties every text field; every table filtered by a search field becomes the empty-term filter of its old rows; every other table is untouched |
| Search.TextInput.constructor | public/js/main.js:42-45 | a text field gets the search listener exactly when its placeholder contains "search", ASCII case ignored |
| Search.ClearOne | public/js/main.js:185-188 | one field is emptied; its `input` event filters its table by "" when it listens and leaves it unchanged otherwise |
| Search.ClearNext | public/js/main.js:185-188 | one round of the Escape loop: fields 0..n are empty and the tables match `Cleared` for n + 1 fields |
| Search.ClearStep | public/js/main.js:185-188 | filtering field n's table by "" takes the tables cleared by the first n fields to the tables cleared by the first n + 1, whether or not an earlier field already filtered the same table |
| Search.SearchedStep | public/js/main.js:184-188 | a table is filtered by one of the first n + 1 fields exactly when one of the first n filters it or field n is a listening field on it |
| Navigation.HighlightedActiveIff | public/js/main.js:14-26 | after highlighting, a link is active exactly when its `href` equals the current path; links keep their targets, count and order |
| Navigation.Highlighted | public/js/main.js:14-39 | the sidebar links with `active` set exactly on those whose `href` is the current path; its properties are the three lemmas of this module |
| Navigation.HighlightedIdempotent | public/js/main.js:14-39 | highlighting again changes nothing |
| Navigation.NoHrefNeverActive | public/js/main.js:20 | a link without an `href` attribute is never active |
| Navigation.InitializeNavigation | public/js/main.js:14-26 | the links become the highlighted links for the current path |
| Navigation.UpdateActiveNavLink | public/js/main.js:29-39 | the remove-then-add loop produces the same highlighted links |
| Navigation.OnPageLoad | public/js/main.js:3-11 | running both highlighters in sequence leaves the state either one produces |
| Ui.LoadingRoundTrip | public/js/main.js:144-154 | loading on then off restores the original text and re-enables the element |
| Ui.LoadingTwiceLosesText | public/js/main.js:145-149 | loading on twice saves the loading text over the original, which loading off then shows |
| Ui.LoadingOffIdempotent | public/js/main.js:150-153 | loading off twice equals once; with no saved text it empties the element |
| Ui.WithLoading | public/js/main.js:144-154 | the element is disabled exactly while loading; turning loading on saves the current text and shows ` Loading...`; turning it off never changes the saved copy |
| Ui.Button.SetLoadingState | public/js/main.js:144-154 | the element's state becomes the loading state of its old state |
| Ui.AlertVariant | public/js/main.js:119-122 | the banner colour is `info` when the type is omitted, `danger` for `error`, and the type itself otherwise |
| Ui.AlertClass | public/js/main.js:122 | the class string is `alert alert-`, the banner colour, then ` alert-dismissible fade show position-fixed`; its properties are `AlertClassInjective` and `AlertClassExamples` |
| Ui.AlertClassInjective | public/js/main.js:122 | two types give the same class string exactly when they give the same colour |
| Ui.AlertClassExamples | public/js/main.js:122 | `error` gives `alert alert-danger …`; `error` and `danger` look alike; an omitted type looks like `info` |
| Ui.Document.ShowNotification | public/js/main.js:119-133 | a banner with that class and message is appended after the banners already shown |
| Dashboard.DigitChar | public/js/main.js:231 | a decimal digit's character stands for that digit |
| Dashboard.NatText | public/js/main.js:231 | `String(n)` for a whole number below 2^53 is a non-empty string of decimal digits without a leading zero |
| Dashboard.NatTextRoundTrip | public/js/main.js:231 | the digits written for n read back as n |
| Dashboard.IntText | public/js/main.js:231 | `String(n)` for a whole number: its digits, after a `-` when it is negative |
| Dashboard.JsText | public/js/main.js:231 | `String(value)` as `textContent` assignment applies it: an integer in decimal, a string as is, an array as its elements' texts joined by commas, an object as `[object Object]` |
| Dashboard.CardText | public/js/main.js:227-232 | the revenue card shows `$` and the locale form of the number; every other card shows `String(value)` |
| Dashboard.NewCard | public/js/main.js:225-233 | a card slot keeps whether its element exists, and its text changes only when the report value is truthy |
| Dashboard.UpdatedCards | public/js/main.js:225-234 | the `forEach` over the four keys: slot i becomes NewCard of slot i with key i, and nothing else changes; its properties are `CardGuard`, `FalsyValueLeavesCard` and `UpdatedCardsIdempotent` |
| Dashboard.CardGuard | public/js/main.js:225-234 | a card changes only when its element was found and its report value is truthy, and then shows that value's text; a missing element stays missing |
| Dashboard.FalsyValueLeavesCard | public/js/main.js:227 | a report value of 0, or a missing one, leaves the card unchanged |
| Dashboard.UpdatedCardsIdempotent | public/js/main.js:225-234 | refreshing twice with the same reports equals refreshing once |
| Dashboard.ServerCardTexts | public/js/main.js:228-232 | the server's values are written as `45`, `$` followed by the locale form of 12500, `234` and `3` |
| Dashboard.ServerReportsFillCards | public/js/main.js:217-234 | with every heading found, the server's reports fill the four cards with those texts |
| Dashboard.UpdateDashboardCards | public/js/main.js:217-235 | the card slots become the updated cards of the old slots |

## Left out

- Express set-up, middleware, CORS, body parsing, static files and `app.listen` are framework plumbing. Nothing in them is modelled.
- Routing.FirstMatch: route paths are compared as exact strings. Express's case-insensitive and trailing-slash matching is not modelled. Its default 404 page is reduced to "no handler".
- EJS parsing and rendering are a function parameter that returns either HTML or a failure. `readFileSync` is a lookup in a map of the views directory. The `console.error` logging in the catch block is not modelled.
- The HTML inside each page is not modelled, only the data passed to its template. So the model cannot say which strings a rendered page contains.
- `apiCall`, `fetch`, the promises of `refreshDashboardData` and HTTP status handling are network I/O. So is the error banner that `apiCall` shows.
- Timers are not modelled: the banner's 5-second auto-removal, the 30-second refresh interval, the clock and the start of auto-refresh.
- Bootstrap tooltips and tile-click logging call a foreign library or print to the console.
- `toLocaleString` is a parameter of the card update, and `toLocaleTimeString` is left out: both depend on the locale.
- Strings.UpperChar, Strings.LowerChar: only ASCII letters change case. JavaScript's full Unicode mapping (where `ß` upper-cases to `SS`) is not modelled. The model's case mapping agrees with JavaScript's only on ASCII text: every section name is ASCII, but a search over non-ASCII letters can differ (row text `École` with the term `éc` is shown by the browser and hidden by the model, which keeps `É`).
- DOM lookup is reduced to "element or none": `closest`, `querySelector`, `querySelectorAll`, and the `:contains` pseudo-class in `updateDashboardCards`. A standards browser rejects `:contains` with a SyntaxError. The refresh's catch swallows that error, so no card is rewritten. The model describes the lookup the code intends. A missing `closest` container throws inside the input listener, and the model treats it like a missing table: nothing changes.
- The Ctrl/Cmd+K shortcut only moves keyboard focus, which is browser state outside this model.
- Rows, links and card slots are distinct elements. The model does not capture two DOM references to the same row or heading.
- Dashboard.NatText, Dashboard.IntText: write every integer as its decimal digits. JavaScript numbers are doubles: `String(n)` switches to exponent form from 10^21 (`"1e+21"`), and integers above 2^53 are rounded when the JSON is parsed. The model holds exactly only for integers of magnitude below 2^53, which covers every value the server sends.
- Dashboard.UpdateDashboardCards: whether a card's element is found is not tied to its text. In the source the heading is found by the text (`h4:contains("Daily Orders")`) that the first rewrite overwrites, so later refreshes find no element and write nothing; the model keeps the slot and rewrites it on every refresh.
- Ui.WithLoading: an element's state is its text only. `setLoadingState(el, true)` replaces the markup through `innerHTML` and `false` restores only `textContent`, so child elements of the original (an icon inside a button) are lost; `LoadingRoundTrip` restores the text alone.
- Report values are integers, strings, arrays or objects. JSON `null`, fractional numbers and `NaN` are not modelled. The revenue card formats a non-number with `String(value)`, where JavaScript would call that value's own `toLocaleString`.
- A banner's inline styles, its `innerHTML` markup and its close button are not modelled. Its class string and message are. A banner type of `null`, as opposed to an omitted one, is not modelled.
- The search listener is attached only to fields present when the page loads. The model decides whether a field has the listener from its placeholder alone.
