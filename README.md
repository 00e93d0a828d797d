# Dash MCP server: a Dafny model of its decision logic

The Dash MCP server is a small Model Context Protocol server. It gives an AI
client three tools over the local HTTP API of the Dash documentation browser:
`list_installed_docsets`, `search_documentation` and `enable_docset_fts`.
All of its logic lives in one file, `src/dash_mcp_server/server.py`. This
project models the decisions that file makes:

- **Bootstrap** (`bootstrap.dfy`) finds a working API base URL. It is the
  chain `working_api_base_url` → `ensure_dash_running` / `check_dash_running`
  → `get_dash_api_port` → `check_api_health`, including the automatic
  `defaults write` that switches the API server on. Every question the code
  asks the operating system, the status file or the network is answered by a
  field of a `World` value. Each method returns the ordered list of
  `Action`s it performs, so the order and count of side effects can be
  stated and proved.
- **Token estimate** (`tokens.dfy`) is `estimate_tokens` on the JSON value
  that `model_dump()` produces.
- **Truncation** (`truncation.dfy`) is the greedy loop shared by the listing
  and the search tools. It builds each raw record into a result model, keeps
  records while 100 plus their estimates stays at or below 25000, and stops
  at the first record that would pass the limit. The loop is an imperative
  method proved against `IsTokenLimitedPrefix`. Lemmas show that prefix is
  the longest one that fits, and is unique.
- **Records** (`records.dfy`) covers building `DocsetResult` and
  `SearchResult` from a raw JSON record and dumping them back (a round trip).
  It also gives lower bounds on their token cost, which bound how many
  records a response can hold.
- **Tools** (`tools.dfy`) covers input validation, the request each tool
  sends, and how each HTTP outcome maps to the tool's result. An HTTP
  outcome is one of:
  - `Ok(json)`: a 2xx answer.
  - `Status(code, text)`: any other status.
  - `RequestError`: any other exception.
- `text.dfy`, `json.dfy` and `wrappers.dfy` hold what the above needs of
  Python:
  - `str.isspace`, the `in` substring test and `str(int)`;
  - JSON values, dictionary lookup and the iteration protocol;
  - `Option`.

The Dash API server is not part of this model. Nor is the MCP framework, or
anything the operating system does.

A `while` loop is kept exactly where the source has one: the `for` loops
that truncate the docset listing and the search results. `estimate_tokens`
also iterates (`sum` over list items and over dictionary items), but only to
compute a value, so it becomes recursive functions. The remaining
operations branch on outcomes without looping. They become methods that
follow the source's branches, each tied by its `ensures` to a function that
states the outcome.

Two behaviours of the code are worth stating plainly, because the model
follows them:

- When no port answers, the code writes the `DHAPIServerEnabled` preference
  without asking anyone (server.py lines 44-52).
- After launching Dash, the code waits 4 seconds and probes once; it does
  not retry (server.py lines 119-128).

## Model

| member | source | states |
|---|---|---|
| Text.StripLeading | src/dash_mcp_server/server.py:263 | the part of `strip()` that drops leading whitespace: what remains is a suffix that does not start with whitespace, and everything dropped is whitespace |
| Text.StripTrailing | src/dash_mcp_server/server.py:263 | the part of `strip()` that drops trailing whitespace: what remains is a prefix that does not end with whitespace, and everything dropped is whitespace |
| Text.StripEmptyIffBlank | src/dash_mcp_server/server.py:263-273 | `not s.strip()`, the emptiness test on the query, the docset identifiers and the FTS identifier (also line 372), holds exactly when every character is whitespace in Python's `isspace` sense |
| Text.ContainsIffOccurs | src/dash_mcp_server/server.py:337-340 | Python's `sub in s` holds exactly when `sub` occurs at some index of `s` |
| Text.ParseIntToString | src/dash_mcp_server/server.py:68 | the decimal text Python gives an integer reads back as that integer |
| Text.IntToStringInjective | src/dash_mcp_server/server.py:83 | two integers never print as the same decimal text |
| Json.Lookup | src/dash_mcp_server/server.py:211-216 | `record[key]` finds a value exactly when the decoded object has the key |
| Json.LookupAt | src/dash_mcp_server/server.py:211-216 | a key that no later entry repeats finds its own value |
| Json.LookupFindsLast | src/dash_mcp_server/server.py:211-216 | with duplicate keys, `record[key]` gives the value of the last one, as `json.loads` keeps it |
| Json.LastOccurrence | src/dash_mcp_server/server.py:211-216 | a key that occurs has a last occurrence |
| Json.Iterate | src/dash_mcp_server/server.py:202-210 | `for` over a decoded value: a list yields its items, a string its characters, an object its keys, anything else raises |
| Tokens.AtLeastOne | src/dash_mcp_server/server.py:176 | `max(1, n)` is at least 1 and at least n and is one of 1 and n, so it is 1 for n = 0 and n otherwise |
| Tokens.EstimateTokens | src/dash_mcp_server/server.py:173-184 | every string or scalar costs at least one token, and an object at least one token per key |
| Tokens.ObjectTokens | src/dash_mcp_server/server.py:179-180 | a dictionary costs at least one token per key-value pair |
| Tokens.EntryTokens | src/dash_mcp_server/server.py:180 | one key-value pair costs at least one token |
| Tokens.ObjectTokensAtLeast | src/dash_mcp_server/server.py:179-180 | per-entry lower bounds add up to a lower bound on the whole dictionary |
| Tokens.ListTokensAppend | src/dash_mcp_server/server.py:177-178 | the estimate of a concatenated list is the sum of the estimates of its parts |
| Tokens.ZeroTokensIffWeightless | src/dash_mcp_server/server.py:173-184 | the estimate is 0 exactly for values built only of empty lists and empty dictionaries |
| Tokens.ZeroListTokensIffWeightless | src/dash_mcp_server/server.py:177-178 | a list costs 0 exactly when every item costs 0 |
| Truncation.TakeWithinLimit | src/dash_mcp_server/server.py:205-227 | the loop returns the token-limited prefix of the built records, or the index of the first record that fails to build before the cut-off |
| Truncation.ParsedCostOfParsed | src/dash_mcp_server/server.py:219-226 | the running total counted while building equals the sum of the built records' estimates |
| Truncation.SumCostPrefix | src/dash_mcp_server/server.py:225-226 | the running total never decreases as records are kept |
| Truncation.ParsedCostPrefix | src/dash_mcp_server/server.py:225-226 | the cost of a shorter run of raw records is no larger |
| Truncation.LongestFittingPrefix | src/dash_mcp_server/server.py:221-223 | any longer prefix that builds would pass the 25000-token limit, so the kept prefix is the longest that fits |
| Truncation.TruncationDeterminate | src/dash_mcp_server/server.py:205-227 | the kept prefix is unique, the failing index is unique, and the two outcomes exclude each other |
| Truncation.KeptPrefixUnique | src/dash_mcp_server/server.py:205-227 | two token-limited prefixes of the same records are equal |
| Truncation.SumCostAtLeast | src/dash_mcp_server/server.py:225-226 | records of at least m tokens each total at least m times their number |
| Truncation.KeptAtMost | src/dash_mcp_server/server.py:205-227 | when every record costs at least m, at most (25000 - 100) / m are kept |
| Records.Required | src/dash_mcp_server/server.py:212-215 | a required field builds exactly when the key is present with a string value, and takes that value |
| Records.Optional | src/dash_mcp_server/server.py:216 | an optional field is None exactly when the key is absent or null, and a string exactly when the value is one, in which case it is that string |
| Records.ParseDocset | src/dash_mcp_server/server.py:211-217 | a docset builds exactly when the record is an object whose four required fields are strings and whose notice is absent, null or a string; it then holds exactly those values |
| Records.DocsetTokens | src/dash_mcp_server/server.py:220 | every docset costs at least 15 tokens |
| Records.ParseSearchResult | src/dash_mcp_server/server.py:309-318 | a search result builds exactly when the record is an object whose three required fields are strings and whose five optional fields are absent, null or strings; it then holds exactly those values, with `type` as its kind |
| Records.SearchResultTokens | src/dash_mcp_server/server.py:321 | every search result costs at least 20 tokens |
| Records.DocsetRoundTrip | src/dash_mcp_server/server.py:140-146 | building a docset from its own `model_dump()` gives it back |
| Records.SearchResultRoundTrip | src/dash_mcp_server/server.py:155-164 | building a search result from its own `model_dump()` gives it back |
| Records.DocsetsKeptAtMost | src/dash_mcp_server/server.py:205-227 | a listing keeps at most 1660 docsets |
| Records.SearchResultsKeptAtMost | src/dash_mcp_server/server.py:303-328 | a search keeps at most 1245 results |
| Bootstrap.LocalUrl | src/dash_mcp_server/server.py:68 | the base URL is `http://127.0.0.1:` followed by the port |
| Bootstrap.LocalUrlInjective | src/dash_mcp_server/server.py:83 | different ports give different base URLs |
| Bootstrap.CheckApiHealth | src/dash_mcp_server/server.py:14-24 | healthy exactly when GET /health answers 2xx at the time of the check; one request |
| Bootstrap.CheckDashRunning | src/dash_mcp_server/server.py:93-104 | running exactly when `pgrep` exits 0; a failed probe counts as not running |
| Bootstrap.EnsureDashRunning | src/dash_mcp_server/server.py:107-136 | true exactly when Dash was running, or the launch succeeded and the second probe finds it, with the probe-launch-wait-probe actions |
| Bootstrap.GetDashApiPort | src/dash_mcp_server/server.py:71-90 | returns the status file's port exactly when there is one and its URL answers the health check made at that moment |
| Bootstrap.ResolvePortEnablingApi | src/dash_mcp_server/server.py:43-66 | the first port if it answers; otherwise, after a successful preference write, the re-read port if it answers then; else none |
| Bootstrap.WorkingApiBaseUrl | src/dash_mcp_server/server.py:27-68 | the base URL and the side effects are exactly those of `BaseUrlOf` and `BootstrapTrace` |
| Bootstrap.OverrideDecides | src/dash_mcp_server/server.py:29-36 | a non-empty DASH_API_URL settles the result with a single health check and nothing else |
| Bootstrap.PortTraceActions | src/dash_mcp_server/server.py:43-66 | resolving the port only reads the status file, writes the preference, waits and checks health |
| Bootstrap.LaunchTraceActions | src/dash_mcp_server/server.py:107-136 | ensuring Dash runs only probes, launches and waits, and launches once exactly when the first probe fails |
| Bootstrap.LaunchAtMostOnce | src/dash_mcp_server/server.py:39-41 | one bootstrap launches Dash at most once, and does so exactly when there is no override and Dash was not running |
| Bootstrap.NotRunningStops | src/dash_mcp_server/server.py:39-41 | when Dash is not running no URL is returned and the status file is never read |
| Bootstrap.PortTraceCounts | src/dash_mcp_server/server.py:43-66 | the preference is written once exactly when the first port is not verified; the status file is read once or twice accordingly |
| Bootstrap.PreferenceWrittenOnlyWithoutPort | src/dash_mcp_server/server.py:44-66 | the preference write happens at most once and only without a verified port; a failed write yields no URL |
| Bootstrap.ReturnedUrlWasChecked | src/dash_mcp_server/server.py:27-90 | any URL returned answered a health check made during this bootstrap, before the preference write or after a successful one |
| Bootstrap.ApiComingUpIsFound | src/dash_mcp_server/server.py:53-63 | a port that did not answer before the write but answers after the 2-second wait is found on the re-read, even when the status file names the same port both times; it is checked twice |
| Bootstrap.UrlNamesStatusPort | src/dash_mcp_server/server.py:68 | without an override, a returned URL is a local URL for some port |
| Tools.ListInstalledDocsets | src/dash_mcp_server/server.py:187-241 | no URL gives a connection error without a request; 404 means no docsets; another status is an HTTP error; an exception is a failure; success gives the token-limited docsets |
| Tools.ListingDetermined | src/dash_mcp_server/server.py:202-232 | the listing body fixes the result, which has at most 1660 docsets and carries an error only with an empty list |
| Tools.SearchStatusError | src/dash_mcp_server/server.py:334-358 | a 400 is an unknown identifier exactly when the text names a docset identifier and says not found, otherwise no valid docsets exactly when it says no docsets were found, otherwise a bad request carrying the text; a 403 is trial expired exactly when the text says so, otherwise forbidden carrying the text; any other code is an HTTP error with that code |
| Tools.SearchDocumentation | src/dash_mcp_server/server.py:244-358 | blank query, blank identifiers, then max_results outside 1..1000 are rejected in that order before any side effect; then one GET of /search with the four parameters and its outcome mapped as stated |
| Tools.SearchDetermined | src/dash_mcp_server/server.py:294-333 | the search body fixes the result, which has at most 1245 results, and results come only with the endpoint's advisory message as error |
| Tools.FtsStatusError | src/dash_mcp_server/server.py:388-396 | 400 is a bad request, 404 a missing docset, any other code an HTTP error |
| Tools.EnableDocsetFts | src/dash_mcp_server/server.py:361-400 | true exactly when the identifier is not blank, a URL is found and the request succeeds; a blank identifier makes no request |

## Left out

- Process launching, `subprocess` arguments and timeouts, `time.sleep` and the home directory are not modelled. Each subprocess outcome is an input (`RunResult`), and a sleep is a `Wait` action.
- `httpx` is not modelled: connections, timeouts, redirects and JSON decoding. Each request's outcome is an input: which base URLs answer `/health` before the preference write, which answer after it, and an `HttpOutcome` per tool call. Within each of those two periods a URL checked twice gets the same answer. Only the first read's port and the override are checked before the write, and each of them once.
- The status file is reduced to its `port`, as an optional integer; the model reads it as an integer. A port of another type is formatted with `str()` into the URL. A numeric string such as "4242" gives the same URL as 4242. Other values are not modelled. A file that is missing or not valid JSON also gives `None`, as the model's `None` port does.
- A status file whose JSON is not an object makes `status_data.get` raise AttributeError, which `get_dash_api_port` does not handle. On the first read (line 43) this escapes `working_api_base_url`. The tool's `except Exception` then reports a failure (`OperationFailed`), not `NotConnected`. The model does not include this path. The read after the preference write (line 58) is inside the `try` at line 47, so there the same file gives `None`, as modelled.
- Logging through the MCP context (`ctx.debug/info/warning/error`) is not modelled. Its messages become the `ToolError` values they announce. The long user-facing error texts are not reproduced.
- FastMCP tool registration, argument coercion and `main()` are left out. They are framework glue.
- Json.Iterate and Tokens.ObjectTokens take a JSON object's entries as written, repeated keys included. `json.loads` keeps one entry per key, so Python's iteration and `obj.items()` see each key once. No tool result differs. A listing or search body that is an object iterates its keys, so its first key fails to build as a record whether or not keys repeat. The dumps whose cost is estimated never repeat a key.
- JSON floats are left out: the Dash API sends strings, integers, booleans, lists and objects.
- `estimate_tokens` for tuples and non-JSON objects is left out: only JSON values and the two result models reach it.
- Tools.EnableDocsetFts: the tool returns only the boolean. The model also returns the reason it logs, as a diagnostic.
- Tools.SearchDocumentation: a `message` value that is neither a string nor null is modelled as a failure. In the source it is logged, and `SearchResults` then refuses it, after the loop.
