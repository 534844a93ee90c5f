# Stock dashboard: session, indicators, analysis page and data import

A Dafny model of the parts of the stock dashboard that make decisions.

On the browser side it covers:
- the session provider (`AuthContext.js`): it logs in against the token endpoint and keeps the token in React state, in local storage and in the shared HTTP client's `Authorization` header. It checks a stored token's expiry when it mounts, and it broadcasts `'logout'` to other tabs;
- the product card's stock indicators (`ProductCard.js`);
- the history chart's record selection and bar series (`HistoryChart.js`);
- the control panel's catalogues and state updaters (`PainelDeControle.js`);
- the dynamic-analysis page (`AnaliseDinamicaPage.js`): validation, the query request, and the grid columns built from the response.

On the server side it covers:
- access-token construction (`auth.py`);
- the token endpoint, the current-user check and the protected product lookup (`main.py`);
- the bulk import script (`import_data.py`). It truncates both tables and loads one product per code. It then loads the history rows of the loaded products in chunks of 10000 rows, committing after each phase and rolling back when a statement raises.

Files and modules:
- `wrappers.dfy` (`Wrappers`): `Option`.
- `seqs.dfy` (`Seqs`): filter and flatten, with their lemmas.
- `jstext.dfy` (`JsText`): JavaScript's `replace(/_/g, ' ')`, `toUpperCase()` and `trim()`.
- `records.dfy` (`Records`): the history record and the stable sort used by `Array.prototype.sort`.
- `product_card.dfy`, `history_chart.dfy`, `painel_de_controle.dfy`, `analise_dinamica.dfy`, `auth_context.dfy`: one module per front-end file.
- `backend_auth.dfy` (`BackendAuth`), `api.dfy` (`Api`), `import_data.dfy` (`ImportData`): the server files.

Modelling choices:
- **State.** Code that updates state in place is a class: `AuthContext.AuthProvider`, `AnaliseDinamica.AnalysisPage` and `ImportData.Database`. Each method is proved against a function on a value: `AfterLogin`, `AfterLogout`, `LoadLog`, `TablesAfter` and so on. The lemmas are about those functions.
- **Rendering code.** Pure code becomes functions.
- **Oracles.** Anything outside the core is a parameter:
  - a JWT decoder and encoder;
  - the clock;
  - the token request and the query request;
  - user, password and product lookups;
  - the statement at which the import raises.
- **JavaScript values.** Truthiness is explicit: `value || 0` is `OrZero`, and `!!token` rejects the empty string. A missing `exp` claim makes `exp * 1000` NaN, so such a token never counts as expired.

Three behaviours of the session code to note:
- **No 401 handling.** `AuthContext.js` registers no response interceptor. A 401 from the backend does not log the session out; only `logout`, a failed `login`, the mount check and a received `'logout'` message do.
- **Login requires a decodable token.** `login` success needs an `access_token` that `jwtDecode` accepts. A response whose token does not decode (for example `"abc.def.ghi"`) makes `login` log out locally and return false.
- **First render.** The first render holds `useState(localStorage.getItem('authToken'))` as the token, with no header and no user. Until the mount effect runs, `isAuthenticated` is true for any non-empty stored token, even an expired one. Header/token consistency is therefore proved from the state after the mount effect onwards (`InitializeConsistent`, `RunConsistent`).

## Model

| member | source | states |
|---|---|---|
| AuthContext.TokenForm | dashboard-mui/src/auth/AuthContext.js:69-71 | the token request's form has exactly the fields `username` then `password`, carrying the arguments |
| AuthContext.BearerHeader | dashboard-mui/src/auth/AuthContext.js:37 | the header is `Bearer ` followed by the token, and nothing else |
| AuthContext.BearerHeaderInjective | dashboard-mui/src/auth/AuthContext.js:80 | two tokens with the same header are the same token |
| AuthContext.AfterLogout | dashboard-mui/src/auth/AuthContext.js:90-100 | logout clears token, user, header and stored token; it posts one `'logout'` exactly when `broadcast` is set and otherwise leaves the posted messages alone |
| AuthContext.AfterInitialize | dashboard-mui/src/auth/AuthContext.js:24-44 | the mount check:<br>• without a truthy stored token, nothing changes;<br>• an undecodable or expired stored token gives a local logout;<br>• otherwise token, user `{username: sub}` and header are installed;<br>• nothing is ever posted |
| AuthContext.AfterMessage | dashboard-mui/src/auth/AuthContext.js:48-56 | exactly the message `'logout'` clears the session; any other message changes nothing; receiving never posts |
| AuthContext.AfterLogin | dashboard-mui/src/auth/AuthContext.js:67-88 | login succeeds iff the request responded with an `access_token` that decodes. On success the token is in state, storage and header, and the user is `{username: sub}`. On failure the tab is logged out. Nothing is posted |
| AuthContext.FreshTab | dashboard-mui/src/auth/AuthContext.js:18-19 | the first render's token and stored token are what storage held; there is no header and nothing posted |
| AuthContext.InitializeConsistent | dashboard-mui/src/auth/AuthContext.js:24-44 | after the mount effect the header is present iff the token is truthy, and then carries that token |
| AuthContext.ExpiredTokenSelfHeals | dashboard-mui/src/auth/AuthContext.js:30-32 | a fresh tab with an expired stored token ends logged out with storage cleared, having posted nothing |
| AuthContext.LoginConsistent | dashboard-mui/src/auth/AuthContext.js:76-86 | every login outcome keeps the header in step with the token, given that the decoder rejects the empty string |
| AuthContext.LocalLogoutIdempotent | dashboard-mui/src/auth/AuthContext.js:90-100 | a second local logout changes nothing |
| AuthContext.RunConsistent | dashboard-mui/src/auth/AuthContext.js:48-100 | over any sequence of logins, logouts and received messages, the header stays in step with the token after every operation |
| AuthContext.RunPostsOnlyBroadcasts | dashboard-mui/src/auth/AuthContext.js:92-95 | over any sequence, exactly one `'logout'` is posted per broadcasting logout, appended after what was there; logins and received messages post nothing, so tabs cannot echo each other |
| AuthContext.CrossTabConvergence | dashboard-mui/src/auth/AuthContext.js:48-56 | when tab A logs out with a broadcast and tab B receives the message, both end logged out, B posts nothing, and one message was sent in all |
| AuthContext.AuthProvider.constructor | dashboard-mui/src/auth/AuthContext.js:18-19 | the provider starts as `FreshTab` of the stored token |
| AuthContext.AuthProvider.IsAuthenticated | dashboard-mui/src/auth/AuthContext.js:102 | authenticated iff the token is present and not empty |
| AuthContext.AuthProvider.Logout | dashboard-mui/src/auth/AuthContext.js:90-100 | the new state is `AfterLogout` of the old one, and it is consistent; `broadcast` defaults to true, as `logout()` does |
| AuthContext.AuthProvider.Initialize | dashboard-mui/src/auth/AuthContext.js:24-44 | the new state is `AfterInitialize` of the old one |
| AuthContext.AuthProvider.HandleMessage | dashboard-mui/src/auth/AuthContext.js:48-56 | the new state is `AfterMessage` of the old one |
| AuthContext.AuthProvider.Login | dashboard-mui/src/auth/AuthContext.js:67-88 | the new state and the returned flag are `AfterLogin` of the old state and of the endpoint's answer to `TokenForm(username, password)` |
| ProductCard.StockHealthColor | dashboard-mui/src/components/ProductCard.js:6-10 | red iff the health is at risk, amber iff excess, green for every other value including `N/A` |
| ProductCard.Round | dashboard-mui/src/components/ProductCard.js:50 | `Math.round` gives the integer within half of its argument (halves round up) |
| ProductCard.RecentWindow | dashboard-mui/src/components/ProductCard.js:38 | the window is the first `min(3, n)` sorted records |
| ProductCard.HealthOf | dashboard-mui/src/components/ProductCard.js:66-70 | below 30 days of coverage is at risk, above 90 is excess, 30 to 90 inclusive is healthy, no coverage is `N/A`; each in both directions |
| ProductCard.StockCoverage | dashboard-mui/src/components/ProductCard.js:42-51 | coverage is defined iff the window sold something in total, and is then the rounded days of stock at the window's average daily sales (30-day months) |
| ProductCard.InventoryTurnover | dashboard-mui/src/components/ProductCard.js:54-62 | turnover is defined iff both window totals (closing stock, sales) are positive. It is then positive and equals total sales over total closing stock in the window |
| ProductCard.AveragesRatio | dashboard-mui/src/components/ProductCard.js:46-61 | the ratio of the two window averages is the ratio of the window totals |
| ProductCard.SumWindow | dashboard-mui/src/components/ProductCard.js:42-45 | the loop's total is the left fold of the field over the window, with missing values counted as 0 |
| ProductCard.ComputeKpis | dashboard-mui/src/components/ProductCard.js:12-71 | • a missing or empty history gives zeros and `N/A`;<br>• otherwise current stock and this month's sales come from the latest record, and last month's sales from the second (0 when absent);<br>• coverage and turnover are computed over the three most recent records;<br>• health follows coverage |
| ProductCard.LatestRecordIsMostRecent | dashboard-mui/src/components/ProductCard.js:24-29 | the record the card treats as current has a date no earlier than any record of the history |
| ProductCard.CoverageDefinedIffRecentSales | dashboard-mui/src/components/ProductCard.js:46-49 | the average daily sales are positive iff the window's total sales are |
| ProductCard.TurnoverDefinedIffPositiveTotals | dashboard-mui/src/components/ProductCard.js:58-60 | both averages are positive iff both totals are |
| Records.OrZero | dashboard-mui/src/components/ProductCard.js:30-31 | `value \|\| 0`: a missing value reads as 0, a present one as itself |
| Records.Insert | dashboard-mui/src/components/HistoryChart.js:21 | inserting into a sorted list keeps it sorted and adds exactly one occurrence of the element |
| Records.SortByKey | dashboard-mui/src/components/HistoryChart.js:21 | the result is sorted by the key and is a permutation of the input |
| Records.SortByDateAscending | dashboard-mui/src/components/HistoryChart.js:21 | oldest first: a permutation of the history in non-decreasing date order |
| Records.SortByDateDescending | dashboard-mui/src/components/ProductCard.js:24-26 | most recent first: a permutation of the history in non-increasing date order |
| HistoryChart.FirstActiveIndex | dashboard-mui/src/components/HistoryChart.js:24-29 | `findIndex`: -1 iff no record has opening stock, inbound or sales that are present and non-zero; otherwise the first such record |
| HistoryChart.FilteredHistory | dashboard-mui/src/components/HistoryChart.js:21-34 | the shown records are a suffix of the oldest-first order. Every dropped record is inactive and the first shown record is active. Nothing is shown iff no record of the history is active |
| HistoryChart.NoActivityInSortedIffNone | dashboard-mui/src/components/HistoryChart.js:21-29 | sorting does not change whether some record is active |
| HistoryChart.Negate | dashboard-mui/src/components/HistoryChart.js:55 | the sales bar is the negated quantity, and a missing quantity stays missing |
| HistoryChart.DisplayValue | dashboard-mui/src/components/HistoryChart.js:70 | the data label shows the value's magnitude |
| HistoryChart.SalesBarShowsSoldMagnitude | dashboard-mui/src/components/HistoryChart.js:55-70 | a sales bar drawn at `-sold` is labelled with the sold quantity |
| HistoryChart.Series | dashboard-mui/src/components/HistoryChart.js:42-55 | a series has one value per shown record, in order |
| HistoryChart.ChartDataOf | dashboard-mui/src/components/HistoryChart.js:35-60 | one label per shown record and three stacked series: opening stock, inbound (hidden) and negated sales. Each series holds, per shown record, that record's value |
| PainelDeControle.FindMetrica | dashboard-mui/src/components/PainelDeControle.js:31 | `find` returns nothing iff no entry has the name; otherwise it returns the first entry with that name |
| PainelDeControle.CatalogueAggregations | dashboard-mui/src/components/PainelDeControle.js:13-18 | `quantidade_vendida` and `venda_liquida` aggregate by SUM; `estoque_atual` and `estoque_pdv` by LAST |
| PainelDeControle.WithoutDimensao | dashboard-mui/src/components/PainelDeControle.js:26 | unchecking removes every copy of the name and keeps every other name's count |
| PainelDeControle.HandleDimensaoChange | dashboard-mui/src/components/PainelDeControle.js:24-27 | checking appends the name; unchecking filters it out |
| PainelDeControle.WithoutDimensaoKeepsOrder | dashboard-mui/src/components/PainelDeControle.js:26 | the remaining dimensions keep their relative order |
| PainelDeControle.CheckThenUncheckDimensao | dashboard-mui/src/components/PainelDeControle.js:24-27 | checking then unchecking an unselected dimension restores the selection |
| PainelDeControle.WithoutMetrica | dashboard-mui/src/components/PainelDeControle.js:35 | unchecking removes every metric of that name and keeps the others' counts |
| PainelDeControle.WithoutMetricaKeepsOrder | dashboard-mui/src/components/PainelDeControle.js:35 | the remaining metrics keep their relative order, so the metric columns do too |
| PainelDeControle.HandleMetricaChange | dashboard-mui/src/components/PainelDeControle.js:29-37 | checking appends the catalogue entry of that name; unchecking filters by name |
| PainelDeControle.HandleFiltroChange | dashboard-mui/src/components/PainelDeControle.js:39-42 | the field's value is set, the key set grows by that name, and the other fields are unchanged |
| PainelDeControle.DimensaoCheckboxFollowsClick | dashboard-mui/src/components/PainelDeControle.js:150-151 | a dimension box shows checked iff its last click checked it |
| PainelDeControle.MetricaCheckboxFollowsClick | dashboard-mui/src/components/PainelDeControle.js:171-172 | a metric box shows checked iff its last click checked it, and no other box changes |
| PainelDeControle.DimensaoLabel | dashboard-mui/src/components/PainelDeControle.js:155 | the label has the name's length; each underscore becomes a space and every other character stays in place |
| PainelDeControle.MetricaLabel | dashboard-mui/src/components/PainelDeControle.js:176 | a non-empty label wins; otherwise the name with spaces for underscores |
| JsText.ReplaceUnderscores | dashboard-mui/src/components/PainelDeControle.js:155 | `replace(/_/g, ' ')` maps each underscore to a space and keeps every other character |
| JsText.ToUpperCase | dashboard-mui/src/pages/AnaliseDinamicaPage.js:75 | characterwise upper-casing of the ASCII and Latin-1 letters with a one-character mapping, `µ` to Greek capital mu included |
| JsText.TrimStart | dashboard-mui/src/pages/AnaliseDinamicaPage.js:61 | drops exactly the leading whitespace: the rest is a suffix starting with a non-whitespace character or empty |
| JsText.TrimEnd | dashboard-mui/src/pages/AnaliseDinamicaPage.js:61 | drops exactly the trailing whitespace |
| JsText.TrimEmptyIffBlank | dashboard-mui/src/pages/AnaliseDinamicaPage.js:61 | `v.trim() !== ''` holds iff some character of `v` is not whitespace |
| AnaliseDinamica.FiltrosAtivos | dashboard-mui/src/pages/AnaliseDinamicaPage.js:60-62 | a filter is sent iff it has a value that is not blank, and it is sent untrimmed |
| AnaliseDinamica.ColumnHeader | dashboard-mui/src/pages/AnaliseDinamicaPage.js:75-77 | the header has a space for each underscore and every other character upper-cased |
| AnaliseDinamica.DimensaoColumn | dashboard-mui/src/pages/AnaliseDinamicaPage.js:75 | a dimension column is a text column on the dimension's field |
| AnaliseDinamica.MetricaColumn | dashboard-mui/src/pages/AnaliseDinamicaPage.js:76-79 | a metric column is a number column on the metric's name, headed by its label or else its name |
| AnaliseDinamica.ColumnDefs | dashboard-mui/src/pages/AnaliseDinamicaPage.js:75-80 | all dimension columns, then all metric columns, each in selection order |
| AnaliseDinamica.AnalysisPage.constructor | dashboard-mui/src/pages/AnaliseDinamicaPage.js:14-26 | the panel starts open, with nothing selected, no result, not loading and no error |
| AnaliseDinamica.AnalysisPage.ShowExportButton | dashboard-mui/src/pages/AnaliseDinamicaPage.js:101 | the export button is shown iff there are result rows |
| AnaliseDinamica.AnalysisPage.ChangeDimensao | dashboard-mui/src/components/PainelDeControle.js:24-27 | the selection becomes `HandleDimensaoChange` of the old one |
| AnaliseDinamica.AnalysisPage.ChangeMetrica | dashboard-mui/src/components/PainelDeControle.js:29-37 | the selection becomes `HandleMetricaChange` of the old one |
| AnaliseDinamica.AnalysisPage.ChangeFiltro | dashboard-mui/src/components/PainelDeControle.js:39-42 | the filters become `HandleFiltroChange` of the old ones |
| AnaliseDinamica.IsoDay | dashboard-mui/src/pages/AnaliseDinamicaPage.js:65-66 | an invalid picked date has no ISO day (`toISOString` throws); a valid one gives its day |
| AnaliseDinamica.AnalysisPage.SetDatas | dashboard-mui/src/pages/AnaliseDinamicaPage.js:16-17 | both dates take the given values |
| AnaliseDinamica.AnalysisPage.TogglePainel | dashboard-mui/src/pages/AnaliseDinamicaPage.js:115 | the panel flips between open and closed |
| AnaliseDinamica.AnalysisPage.BeginAnalisar | dashboard-mui/src/pages/AnaliseDinamicaPage.js:49-70 | an incomplete selection only sets the validation message and sends nothing. Otherwise the error is cleared, loading starts, results and columns are dropped and the panel closes. An invalid date then throws: nothing is sent and loading stays on. Otherwise the request carries the ISO days, the selections and the active filters |
| AnaliseDinamica.AnalysisPage.FinishAnalisar | dashboard-mui/src/pages/AnaliseDinamicaPage.js:72-91 | • a failed request sets the error message and keeps the results;<br>• a non-empty response becomes the rows, with columns from the request's selections;<br>• an empty response clears rows and columns;<br>• loading ends on every path |
| BackendAuth.ExpiryOf | backend/app/auth.py:34-37 | the expiry is now plus the given duration when that is truthy, else now plus 15 minutes |
| BackendAuth.AccessTokenClaims | backend/app/auth.py:33-38 | the payload has every claim of the input and `exp`, which overrides any `exp` given |
| BackendAuth.CreateAccessToken | backend/app/auth.py:31-40 | the token is the encoding of `AccessTokenClaims` with HS256 |
| Api.LoginClaims | backend/app/main.py:60-63 | a login signs exactly `sub` = the username and `exp` = now + 300 minutes |
| Api.LoginForAccessToken | backend/app/main.py:47-65 | the login fails iff the user is unknown or the password does not verify, and then with 401 "Incorrect username or password" and `WWW-Authenticate: Bearer`. Otherwise it returns a bearer token for `LoginClaims` |
| Api.GetCurrentUser | backend/app/main.py:69-91 | • undecodable token, missing or null `sub`, or unknown user: 401 "Could not validate credentials";<br>• a non-string `sub`, which the decoder's subject check rejects with a `JWTError`: the same 401;<br>• success iff `sub` is a string naming a user, and then that user |
| Api.ReadProduct | backend/app/main.py:96-107 | the current-user failure comes first; then an unknown code is a 404; success iff authenticated and the product exists, and then that product |
| Api.IssuedTokenAuthenticates | backend/app/main.py:47-91 | a token the login endpoint just issued authenticates as the same user, for a decoder that inverts the encoder |
| ImportData.DedupFromDistinct | backend/scripts/import_data.py:40-42 | the deduplicated candidates carry pairwise distinct codes |
| ImportData.DropNaMember | backend/scripts/import_data.py:43 | a product survives `dropna` iff a candidate with both cells present carries it |
| ImportData.FirstIndexOf | backend/scripts/import_data.py:40-42 | the first row with a code, or -1 iff none has it |
| ImportData.DedupFromFirstOccurrence | backend/scripts/import_data.py:40-42 | `keep='first'`: a code is kept iff some row carries it, and the kept cells are those of its first row |
| ImportData.DedupFromInFirstOccurrenceOrder | backend/scripts/import_data.py:40-42 | the kept candidates are in the order of their codes' first rows |
| ImportData.ProductsInFirstOccurrenceOrder | backend/scripts/import_data.py:40-54 | the products are copied in the order of their codes' first rows, so ids follow that order |
| ImportData.ProductCodesUnique | backend/scripts/import_data.py:40-43 | the loaded products have pairwise distinct codes |
| ImportData.DropNaKeepsDistinctCodes | backend/scripts/import_data.py:43 | dropping rows with missing cells keeps codes distinct |
| ImportData.ProductLoadedIffFirstRowNamed | backend/scripts/import_data.py:40-43 | a code is loaded iff its first row has a name, and then with that name, even when a later row has one |
| ImportData.IdMap | backend/scripts/import_data.py:59-60 | every id lies between 1 and the number of products |
| ImportData.IdMapKeys | backend/scripts/import_data.py:59-60 | exactly the loaded codes have ids |
| ImportData.IdMapPositions | backend/scripts/import_data.py:34-35 | with distinct codes, `RESTART IDENTITY` gives the k-th product id k + 1 |
| ImportData.LoadedProductId | backend/scripts/import_data.py:50-60 | each loaded product's id is its position in the load plus one |
| ImportData.HistoryRows | backend/scripts/import_data.py:61-67 | at most one history row per spreadsheet row |
| ImportData.HistoryRowsCorrespond | backend/scripts/import_data.py:61-67 | the i-th history row is built from the i-th spreadsheet row whose code has an id. It carries that code's id and that row's date and quantities |
| ImportData.ToCopyRowNamesItsProduct | backend/scripts/import_data.py:50-67 | each copied history row's id is the position plus one of the loaded product with that row's own code; its date and quantities are that row's |
| ImportData.HistoryRowsKeepOrder | backend/scripts/import_data.py:61-67 | keeping the rows with an id commutes with concatenation, so the rows keep their order |
| ImportData.HistoryRowsCount | backend/scripts/import_data.py:63 | all rows are kept when all have an id, and none when none has |
| ImportData.UnnamedProductHasNoHistory | backend/scripts/import_data.py:43-63 | the rows of a code whose first row has no name find no product id |
| ImportData.HistoryRowsReferToIds | backend/scripts/import_data.py:61-64 | a history row is inserted iff some spreadsheet row with an id produces it; so each carries an id from the map |
| ImportData.HistoryReferencesProducts | backend/scripts/import_data.py:26-93 | in every outcome the committed history refers only to committed products, given that it did so before |
| ImportData.Chunks | backend/scripts/import_data.py:73-74 | the chunk list is never longer than the frame |
| ImportData.ChunksPartition | backend/scripts/import_data.py:73-74 | chunks are non-empty, hold at most 10000 rows, and concatenate to the frame |
| ImportData.ChunkIsSlice | backend/scripts/import_data.py:73-74 | chunk k is the slice from k·10000 to (k+1)·10000, clipped at the end |
| ImportData.ChunkCount | backend/scripts/import_data.py:73 | the loop runs ⌈n / 10000⌉ times |
| ImportData.ChunksUnfold | backend/scripts/import_data.py:73-74 | one turn of the loop takes the first chunk of what is left |
| ImportData.CopyChunks | backend/scripts/import_data.py:72-85 | the loop raises iff the failing chunk exists. Without a raise it copies every row and counts all of them. If chunk k raises, it has copied exactly the first k·10000 rows. It emits one COPY per copied chunk |
| ImportData.LoadHistory | backend/scripts/import_data.py:59-87 | the history phase's statements, outcome and progress are `HistoryPhase`, `Raises` and `ProgressAfter`; the history is committed only when nothing raised |
| ImportData.LoadDataToDb | backend/scripts/import_data.py:26-98 | what the database sees is `LoadLog`, the committed tables are `TablesAfter` and the progress counter is `ProgressAfter` |
| ImportData.ProgressCountsRowsSent | backend/scripts/import_data.py:72-85 | the progress bar counts exactly the history rows sent; a load that does not raise sends every row once, in order |
| ImportData.ConnectionClosedOnce | backend/scripts/import_data.py:27-98 | if connecting fails, nothing happens; otherwise the session starts with the connection and ends with one close |
| ImportData.RollbackIffRaises | backend/scripts/import_data.py:91-93 | the transaction is rolled back iff a statement raises |
| ImportData.TruncationCommittedBeforeCopies | backend/scripts/import_data.py:34-54 | both truncations are committed before any row is copied |
| ImportData.RunImport | backend/scripts/import_data.py:101-104 | an unreadable spreadsheet touches nothing; otherwise the run is `LoadDataToDb` |

## Left out

- The round trip through storage: the copy is per tab here, while in the browser `localStorage` is shared by every tab of the origin. A login in one tab does not reach another tab's state here either; the same holds in the browser until that tab remounts.
- Token decoding, signing, the secret key and bcrypt are parameters (`decode`, `encode`, `verifyPassword`). `get_password_hash` and `verify_password` themselves are not modelled.
- The OAuth2 bearer-scheme check that answers "Not authenticated" before `get_current_user` runs, the database session dependency and the CRUD queries are lookups passed as parameters.
- `console.log`/`console.error` and `print` output.
- Date handling: `new Date(...)`, ISO and locale formatting (`toISOString`, `toLocaleDateString`) are left out. Dates are day numbers compared as integers. Invalid dates are modelled only where the analysis page converts its picked dates; invalid record dates in the sorts are not modelled.
- Floating-point formatting: `toFixed(2)` on the turnover and the grid values, and `toLocaleString('pt-BR')` in the CSV export. The model keeps exact rationals.
- Records.SortByKey: states sortedness and permutation; stability (the order of equal dates) is implemented but not stated.
- HistoryChart.NegatedSold: `-null` is `-0` in JavaScript while the model keeps a missing sold quantity missing; `undefined` and `null` are both `None`.
- The tooltip text (`HistoryChart.js` lines 74-77) and the chart options are presentation.
- PainelDeControle.HandleMetricaChange: requires that a checked name is in the catalogue, as the checkboxes are built from it; an unknown name would append `undefined`.
- The grid, the CSV export call and its separators (`onExportClick`) are presentation; only the button's visibility is modelled.
- Times on the server are whole seconds; sub-second parts of `datetime.now` and `timedelta` are left out.
- ImportData: the spreadsheet read (`read_excel`), the CSV buffers and the COPY text format are reduced to their rows. Type conversions of the frame are not modelled, including float columns produced by empty cells.
- ImportData: a failure of `conn.cursor()` or of `cur.close()` is not modelled. Failures are at the statements listed in `Step`.
- ImportData: a spreadsheet row with an empty `date` is not modelled.
- AnaliseDinamica: the request posting is split at the `await` into `BeginAnalisar` and `FinishAnalisar`; interleaving of two overlapping analyses is not modelled.
- JsText.ToUpperCase: maps the ASCII and Latin-1 letters whose upper case is one character. Characters beyond Latin-1 are kept as they are. Mappings to several characters, such as `ß` to `SS`, are not modelled.

## Findings

| source | as written | input that shows it | evidently intended | confidence | as-written member | corrected member |
|---|---|---|---|---|---|---|
| dashboard-mui/src/pages/AnaliseDinamicaPage.js:54-70 | `setLoading(true)` and `setPainelAberto(false)` run before `toISOString()` on the dates. The conversion is outside the `try`, so an Invalid Date throws past the `finally` that clears loading | start date typed incompletely in the picker (an Invalid Date, which is truthy); end date valid; one dimension and one metric | the conversion inside the `try`, or invalid dates rejected by validation, so that loading always ends | not executed | AnaliseDinamica.InvalidDateLeavesLoadingOn | AnaliseDinamica.FixedAnalisarEndsLoading |

`AnaliseDinamica.AnalysisPage.BeginAnalisar` models the page as written and returns `threw` on this path.

