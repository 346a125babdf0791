# Allervie dashboard: ads metrics adapter, credential checks and request routing

This project models the logic of a small advertising dashboard that reads metrics from the Google Ads API and falls back to fixed mock data whenever credentials, the vendor client or a query fail.

- **Ads client** (`google_ads_client.py`). The model covers:
  - the credential gate;
  - the default 31-day window ending yesterday;
  - the loops that sum the impressions, clicks, cost in micros and conversions of every response row, for the queried period and for the previous period of equal length;
  - the zero-guarded derived metrics: CTR, conversion rate, cost per conversion, micros to dollars;
  - period-over-period change. Counts, cost and cost per conversion change relatively. CTR and conversion rate change as a point difference;
  - campaign de-duplication by id, first occurrence wins;
  - the error fallback.

  The mock tables are heap objects. `AdsClient.MockTables` holds a dictionary and a list of record objects. The fallback returns a shallow copy of a table, which shares those records. Overwriting every `note` with `"ERROR: " + message` therefore changes the module's own records in place, and the model states this.
- **Credential script** (`test_credentials.py`):
  - `mask_string`;
  - the login customer id format check (ten digits once dashes are removed);
  - the status symbol;
  - the all-credentials-present test.
- **Dashboard** (`dashboard.py`):
  - the `do_GET` route cascade, from the request target to one of five routes;
  - the date query parameters;
  - the health payload with its masked client id;
  - the start-up choice between the client module's client and the stand-in `DummyClient`;
  - the handlers' 200-with-mock-data fallback.

Modelling choices:
- Dates are day numbers.
- Money and rates are exact `real`s.
- A formatted currency or percentage string is represented by the number it formats.
- Python's `int()` on a float is truncation (`AdsMetrics.Trunc`).
- The vendor search is a function parameter. It maps a customer id and a date range to either the rows returned or the message of the exception raised.
- "Today" and the outcome of loading the vendor SDK are parameters.

Notes on the code:
- `has_credentials` is not a boolean. It is the value of the `and` chain of the five credential strings (`AdsMetrics.CredentialGate`).
- Clicks not exceeding impressions keep the CTR within `[0, 100]` (`AdsMetrics.CtrBounded`). Nothing in the code enforces that bound: one impression with two clicks gives a CTR of 200 (`AdsMetrics.CtrAbove100Example`).
- Live campaign dictionaries carry no `id` field and no `note` field.
- The credential script tests the login customer id after removing dashes. The client tests it as given. So a non-empty id made only of dashes passes the client's gate but fails the script's test (`CredentialCheck.DashesOnlyIdIsMissing`, `CredentialAgreement.DashesOnlyIdPassesGate`).

## Model

| member | source | states |
|---|---|---|
| `AdsMetrics.CredentialGate` | google_ads_client.py:124-130 | the gate is truthy iff all five credentials are non-empty, and it is then the refresh token itself |
| `CredentialAgreement.ScriptCheckImpliesGate` | test_credentials.py:57-63 | whenever the script finds all credentials present, the client's gate is truthy too |
| `CredentialAgreement.DashesOnlyIdPassesGate` | test_credentials.py:57-63 | with the other four credentials set, a non-empty dashes-only login id passes the client's gate (google_ads_client.py:124-130) but fails the script's all-present test |
| `AdsMetrics.DefaultDateRange` | google_ads_client.py:177-182 | the default window ends yesterday, spans exactly 31 inclusive days and excludes today |
| `AdsMetrics.EffectiveRange` | google_ads_client.py:199-201 | the given range when both dates are present, otherwise the default window |
| `AdsMetrics.PreviousPeriod` | google_ads_client.py:247-251 | the previous period ends the day before `start`, has the same inclusive day count and shares no day with the current range |
| `AdsMetrics.PreviousPeriodPrecedes` | google_ads_client.py:247-251 | the previous period is exactly the `Days(r)` days immediately before `start` |
| `AdsMetrics.PreviousPeriodAdjacent` | google_ads_client.py:247-251 | for a non-empty range, the two periods together form one contiguous range |
| `AdsMetrics.Total` | google_ads_client.py:226-238 | no rows total to zero, and a single row totals to itself |
| `AdsMetrics.AggregateRows` | google_ads_client.py:226-238 | the accumulator loop returns the field-wise total of all rows (all zero for no rows); it is used for both periods |
| `AdsMetrics.TotalAppend` | google_ads_client.py:273-278 | totals of two consecutive batches of rows add up |
| `AdsMetrics.TotalSwapBatches` | google_ads_client.py:232-238 | swapping two batches of rows leaves the totals unchanged |
| `AdsMetrics.TotalPermutation` | google_ads_client.py:232-238 | any permutation of the rows (equal multisets) gives the same totals: the totals do not depend on row order |
| `AdsMetrics.TotalNonNegative` | google_ads_client.py:233-238 | non-negative row counts give non-negative totals |
| `AdsMetrics.MicrosToDollars` | google_ads_client.py:241 | the dollar amount times 10^6 is the micros amount; the zero guard never changes the value |
| `AdsMetrics.Percent` | google_ads_client.py:242-243 | with a non-zero denominator the rate times the denominator is 100 times the numerator; otherwise the rate is 0 |
| `AdsMetrics.Ctr` | google_ads_client.py:242 | with impressions, CTR times impressions is 100 times clicks; without impressions the CTR is 0 |
| `AdsMetrics.ConversionRate` | google_ads_client.py:243 | with clicks, the conversion rate times clicks is 100 times conversions; without clicks it is 0 |
| `AdsMetrics.CostPerConversion` | google_ads_client.py:244 | with conversions, cost per conversion times conversions is the cost in dollars; otherwise it is 0 |
| `AdsMetrics.CtrBounded` | google_ads_client.py:242 | when clicks do not exceed impressions, the CTR lies between 0 and 100 |
| `AdsMetrics.CtrAbove100Example` | google_ads_client.py:242 | one impression with two clicks gives a CTR of 200: the code does not cap the rate |
| `AdsMetrics.Trunc` | google_ads_client.py:308 | `int()` on the conversions total (and on a campaign's conversions, line 415) truncates toward zero |
| `AdsMetrics.RelativeChange` | google_ads_client.py:281-284 | applying the change to a non-zero previous value gives back the current value; the change is 0 when the previous value is 0 |
| `AdsMetrics.RelativeChangeSign` | google_ads_client.py:281-284 | over a positive baseline, the change is positive iff the metric grew and zero iff it stayed |
| `AdsMetrics.RelativeChangeOfMicros` | google_ads_client.py:283 | the change computed on micros equals the change computed on dollars |
| `AdsMetrics.Report` | google_ads_client.py:239-327 | values: the two counts, truncated conversions, cost in dollars, both rates and cost per conversion of the current totals; impressions, clicks, conversions, cost and cost per conversion change relatively (the change applied to a non-zero previous value gives back the current one, 0 without a previous value); CTR and conversion rate change by their point difference |
| `AdsMetrics.SteadyReport` | google_ads_client.py:280-295 | a period identical to the previous one reports all seven changes as 0 |
| `AdsMetrics.NoHistoryReport` | google_ads_client.py:281-295 | with an all-zero previous period, every relative change is 0, while CTR and conversion-rate changes equal their current values |
| `AdsMetrics.ReportCostInDollars` | google_ads_client.py:311-313 | the reported cost is the total in dollars, and its change can equally be read in dollars |
| `AdsMetrics.AsTable` | google_ads_client.py:298-327 | the payload has exactly the seven metric keys, and each key maps to its own metric point |
| `AdsMetrics.FetchPerformance` | google_ads_client.py:203-295 | a raising current query yields its message; current rows with a raising previous query yield the previous query's message; when both return rows, the report of the current totals against the previous period's totals |
| `Campaigns.ToCampaign` | google_ads_client.py:399-419 | budget and cost are the micros amounts in dollars; name, status, impressions, clicks, CTR, conversion rate and cost per conversion are carried over; conversions are truncated toward zero |
| `Campaigns.ConvertAll` | google_ads_client.py:408-419 | one converted campaign per row, position by position |
| `Campaigns.Ids` | google_ads_client.py:394-397 | the set of ids is exactly the ids of the rows |
| `Campaigns.CollectCampaigns` | google_ads_client.py:386-419 | the dedup loop with its seen-set returns the conversion of exactly the first-occurrence rows (KeepFirst) |
| `Campaigns.KeepFirstIds` | google_ads_client.py:394-397 | every campaign id of the input is kept, and no other |
| `Campaigns.KeepFirstPicksFirst` | google_ads_client.py:394-397 | each kept row is the input's first row with that id |
| `Campaigns.KeepFirstKeepsOrder` | google_ads_client.py:389-397 | kept rows appear in the order of their first occurrence |
| `Campaigns.KeepFirstDistinct` | google_ads_client.py:394-397 | the kept ids are pairwise distinct |
| `Campaigns.KeepFirstShorter` | google_ads_client.py:421-423 | the output is no longer than the input, and empty only for an empty input |
| `AdsClient.MockTables.constructor` | google_ads_client.py:28-106 | the mock dictionary has the seven metric keys and the mock list has three campaigns, all with the fixed values and the given note |
| `AdsClient.MockTables.MarkPerformance` | google_ads_client.py:333-336 | every record of the shared mock dictionary gets the new note; no point changes |
| `AdsClient.MockTables.MarkCampaigns` | google_ads_client.py:431-434 | every record of the shared mock list gets the new note; no campaign field changes |
| `AdsClient.GoogleAdsClient.constructor` | google_ads_client.py:113-139 | the vendor client is loaded iff the gate is truthy and loading succeeds |
| `AdsClient.GoogleAdsClient.GetPerformanceData` | google_ads_client.py:184-336 | without credentials or a client: the mock dictionary, untouched; otherwise the report from both periods' totals, or on an exception the shared mock records with every note set to `ERROR: msg` and nothing else changed |
| `AdsClient.GoogleAdsClient.GetCampaignsData` | google_ads_client.py:338-434 | without credentials or a client, or with no rows: the mock list, untouched; otherwise the de-duplicated campaigns, or on an exception the shared mock records with every note set to `ERROR: msg` |
| `AdsClient.LoadClientModule` | google_ads_client.py:28-106 | importing the module builds fresh mock tables with the fixed values and the note `MOCK DATA - No API credentials found`, and the module-level client over them (line 437) |
| `CredentialCheck.MaskString` | test_credentials.py:28-36 | length is kept; the empty text is returned as is; a short text becomes all stars; otherwise exactly the first `visibleStart` and last `visibleEnd` characters are shown and the rest are stars |
| `CredentialCheck.MaskStringAsWritten` | test_credentials.py:36 | the written code keeps the length, except that it doubles when `visible_end` is 0 and the text is longer than `visible_start` |
| `CredentialCheck.MaskZeroSuffixRevealsText` | test_credentials.py:36 | with `visible_end == 0` the written code appends the whole secret after the stars |
| `CredentialCheck.MaskZeroSuffixExample` | test_credentials.py:36 | `mask_string("abcdefgh", 4, 0)` as written gives `"abcd****abcdefgh"` |
| `CredentialCheck.MaskAgreesWhenSuffixShown` | test_credentials.py:33-36 | the written and the intended masking agree whenever `visible_end > 0` |
| `CredentialCheck.MaskDefault` | test_credentials.py:28 | the script's default widths 4 and 4 never hit the discrepancy |
| `Credentials.StripDashes` | test_credentials.py:58 | the result has no dash, is no longer than the input and contains exactly the input's non-dash characters |
| `Credentials.StripDashesAppend` | test_credentials.py:58 | removing dashes works piece by piece |
| `Credentials.StripDashesNoDash` | test_credentials.py:58 | a string without dashes is returned unchanged |
| `Credentials.StripDashesIdempotent` | test_credentials.py:58 | removing dashes twice is removing them once |
| `Credentials.StripDashesEmpty` | test_credentials.py:58 | nothing remains after removing dashes iff the string is all dashes |
| `CredentialCheck.IsValidCustomerId` | test_credentials.py:58-59 | a valid id has at least ten characters, each a digit or a dash |
| `CredentialCheck.DigitsSurviveStripping` | test_credentials.py:58-59 | when only digits remain after removing the dashes, every character of the id was a digit or a dash |
| `CredentialCheck.StripDashesLeavesDigits` | test_credentials.py:58 | over digits and dashes, removing the dashes leaves only digits, exactly as many as the id holds |
| `CredentialCheck.DigitsAndDashesValidity` | test_credentials.py:58-59 | an id made of digits and dashes is valid exactly when it holds ten digits |
| `CredentialCheck.DashedCustomerIdValid` | test_credentials.py:57-59 | ten digits written as `XXX-XXX-XXXX` pass the format check |
| `CredentialCheck.CustomerIdRejectsOtherCharacters` | test_credentials.py:59 | any character that is neither a digit nor a dash makes the id invalid |
| `CredentialCheck.CustomerIdFormat` | test_credentials.py:57-60 | the format line is produced iff a login customer id is set, and then reports the ten-digit check |
| `CredentialCheck.StatusSymbol` | test_credentials.py:17-24 | `""` iff no validity is given, a check mark iff valid, a cross iff invalid |
| `CredentialCheck.HasAllCredentials` | test_credentials.py:63 | all present iff the four other credentials are non-empty and the login id has a character other than a dash |
| `CredentialCheck.ValidIdCompletesCredentials` | test_credentials.py:63 | four non-empty credentials plus a well-formed customer id make the all-present test hold |
| `CredentialCheck.DashesOnlyIdIsMissing` | test_credentials.py:57-63 | a non-empty login id made only of dashes fails both the all-present test and the format check |
| `Dashboard.PathOf` | dashboard.py:543-544 | the path is the prefix of the target before the first `?` or `#` and contains neither |
| `Dashboard.QueryNeverChangesRoute` | dashboard.py:543-547 | appending a query string never changes the route |
| `Dashboard.PathOfStopsAtQuery` | dashboard.py:543-544 | the parsed path of `path?query` is `path` |
| `Dashboard.RouteOf` | dashboard.py:546-556 | the if/elif cascade agrees on every path with the five-entry route table |
| `Dashboard.Dispatch` | dashboard.py:543-556 | a request target without `?` or `#` selects the route of the target itself |
| `Dashboard.DashboardPaths` | dashboard.py:547-556 | exactly `/` and `/ads-dashboard` serve the page; exactly the paths outside the table yield NotFound |
| `Dashboard.Lookup` | dashboard.py:546-556 | NotFound iff no entry carries the path; otherwise the route of the first entry for the path |
| `Dashboard.StatusOf` | dashboard.py:555-563 | status 404 iff the route is NotFound, 200 otherwise |
| `Dashboard.FirstValue` | dashboard.py:572-573 | a missing parameter becomes None, otherwise its first value is taken |
| `Dashboard.RequestedRange` | dashboard.py:571-577 | both dates present give exactly that range, and a missing one gives the 31-day window ending yesterday |
| `Dashboard.DummyClient.constructor` | dashboard.py:34-36 | the stand-in serves the given mock tables |
| `Dashboard.DummyClient.GetPerformanceData` | dashboard.py:38-39 | the stand-in returns the dashboard's mock dictionary for any dates |
| `Dashboard.DummyClient.GetCampaignsData` | dashboard.py:41-42 | the stand-in returns the dashboard's mock campaign list for any dates |
| `Dashboard.StartDashboard` | dashboard.py:27-45 | the dashboard's own mock tables (lines 457-537) are fresh, hold the seven fixed points and the three fixed campaigns, and carry the fallback note; a successful import gives the client module's client (credentials, connection) over fresh tables of its own with the same fixed values and the client module's note, none of whose records is one of the dashboard's; a failed import gives the stand-in over the dashboard's tables |
| `Dashboard.Respond` | dashboard.py:575-584 | the handler answers 200 with either the call's data or the module's mock data |
| `Dashboard.ServePerformanceData` | dashboard.py:565-588 | always 200; the stand-in returns the dashboard's mock dictionary; the real client returns its mock dictionary untouched without credentials, the report for the requested range, or on an exception its shared mock dictionary with every note set to `ERROR: msg` and no point changed |
| `Dashboard.ServeCampaignsData` | dashboard.py:590-613 | always 200; the stand-in returns the dashboard's mock list; the real client returns its mock list untouched without credentials or rows, the de-duplicated campaigns for the requested range, or on an exception its shared mock list with every note set to `ERROR: msg` and no campaign changed |
| `Dashboard.MaskedClientId` | dashboard.py:624 | None iff the id is missing or empty; otherwise its first (at most) ten characters followed by `...` |
| `Dashboard.CredentialFlagAsWritten` | dashboard.py:623 | the health flag as written is the raw attribute value, or False without the attribute |
| `Dashboard.HealthLeaksRefreshToken` | dashboard.py:623 | with all five credentials set, the flag as written is the refresh token |
| `Dashboard.Health` | dashboard.py:615-626 | status `ok`, service `Allervie Analytics API`, version `1.0.0`; the credential flag is true iff the real client has all five credentials; the client id is masked; the real client reports its login customer id as given; the stand-in reports no ids |

## Findings

| source | as written | input that shows it | evidently intended | confidence | as-written member | corrected member |
|---|---|---|---|---|---|---|
| dashboard.py:623 | `has_google_ads_credentials` is the client's `has_credentials`. That attribute is the `and` chain of the five credential strings (google_ads_client.py:124-130), so with all five set it is the refresh token string. | all five credentials set, refresh token `"1//secret"`: the unauthenticated health JSON carries `"has_google_ads_credentials": "1//secret"` | a boolean presence flag | not executed; high | `Dashboard.CredentialFlagAsWritten`, `Dashboard.HealthLeaksRefreshToken` | `Dashboard.Health` |
| test_credentials.py:36 | the suffix is `text[-visible_end:]`, and for `visible_end == 0` this is `text[0:]`, the whole text | `mask_string("abcdefgh", 4, 0)` returns `"abcd****abcdefgh"` | `"abcd****"`: no suffix shown, length kept | not executed; medium (the script itself only uses the defaults 4 and 4) | `CredentialCheck.MaskStringAsWritten`, `CredentialCheck.MaskZeroSuffixRevealsText`, `CredentialCheck.MaskZeroSuffixExample` | `CredentialCheck.MaskString` |

## Left out

- HTML, CSS and JavaScript of the dashboard page: presentation only.
- The HTTP server, headers, `send_response`, `wfile.write`, JSON serialisation and `run_server`. Only the chosen route, the status and the selected payload are modelled.
- The Google Ads SDK (`load_from_storage`, `get_service`, `search`). It is replaced by a search function parameter and an `sdkLoads` flag.
- Google Ads query text and the `ORDER BY metrics.cost_micros DESC` ordering: the vendor applies them, so the rows arrive as given.
- YAML configuration writing in the client, the YAML helper script and the script's test YAML and client initialisation: file I/O.
- Environment variables, `datetime.now`, `strptime` and `strftime`: dates and credentials are parameters.
- `EffectiveRange`: dates arrive already parsed as day numbers. The model has no case for a malformed date string making `strptime` raise inside the `try`.
- `locale.currency`, `round(..., n)` and the `:.1f%` formatting: contracts are on the unrounded exact values, and a mock's formatted string is the number it shows.
- IEEE floating point: all money and rates are exact reals.
- Logging, and all printing of the credential script.
- The health payload's `timestamp` and `environment` fields: clock and environment variable.
- `Dashboard.PathOf`: only the `?` and `#` cuts of `urlparse` are modelled. The `;parameters` split of the last segment, `//host` network locations and absolute-form targets are not.
- `CredentialCheck.IsValidCustomerId`: only ASCII `0`–`9` count as digits. Python's `isdigit` also accepts other Unicode digits.
- `CredentialCheck.MaskString`: widths are natural numbers. Negative widths, which Python would accept, are not modelled; no caller passes one.
- Whether importing the client module raises is a parameter of `Dashboard.StartDashboard`: the exception itself is not modelled.
