# Web scraper decision logic in Dafny

This project models the decision logic of a small Python web scraper: a
`WebScraper` class (web_scraper.py) that fetches pages with retry and
exponential backoff, honours robots.txt, picks a user agent, turns CSS
selector matches into a record with a `_metadata` entry and strips internal
keys before CSV export; the `Config` class (config.py) that derives its
settings from environment variables; and `scrape_wikipedia_table`
(wiki_table_scraper.py), which turns an HTML table into headers and data rows.

Everything the scraper asks of the outside world is an input of the model:
the outcome of each HTTP attempt, the robots.txt answer, the user-agent
rotator's draw, whether the browser driver starts, the page the browser
returns, the title and selector matches of the parsed page, the JSON decoder
and the number parsers. The environment is a `map<string, string>`.

Modules:

- `Common` (common.dfy, shared): `Option` and Python truthiness of optional
  strings.
- `Text` (text.dfy, shared): ASCII `lower`/`upper`, `str.strip()` with
  Python's whitespace set, `startswith`.
- `Configuration` (config.dfy, models config.py): `Config.__init__`,
  `_parse_selectors`, `get_proxy_dict`.
- `Fetch` (fetch.dfy, models web_scraper.py): the request counters,
  `_make_request`, `_get_user_agent`, `_check_robots_txt`, `get_statistics`.
- `Records` (records.dfy, models web_scraper.py): field shaping and record
  construction of `scrape_website`, key cleaning of `export_to_csv`.
- `WebScraper` (scraper.dfy, models web_scraper.py): `__init__` and
  `scrape_website` as a whole.
- `WikiTable` (wiki_table.dfy, models wiki_table_scraper.py): table
  selection, header choice and row filtering.

## Model

| member | source | states |
|---|---|---|
| `Text.LowerIsTrueIff` | config.py:30 | lower-casing gives "true" exactly for the mixed-case spellings of "true" |
| `Text.Strip` | wiki_table_scraper.py:60 | the result is the slice of the input between its leading and trailing whitespace (Python's `isspace` set), all of which is removed, and it neither starts nor ends with whitespace |
| `Text.StripIdempotent` | wiki_table_scraper.py:71 | stripping an already stripped text changes nothing |
| `Configuration.ParseFlag` | config.py:30-31 | a flag is true iff the variable's value, or the default when unset, is "true" in any letter case |
| `Configuration.ParseSelectors` | config.py:53-64 | a decoded object is used as is; a decode failure gives exactly title→h1, description→meta[name="description"], links→a[href]; an unset variable decodes "{}" to no selectors |
| `Configuration.ParseNumbers` | config.py:24-29 | conversion succeeds iff every set numeric variable parses; a failure names the first variable, in the order DELAY_MIN, DELAY_MAX, TIMEOUT, MAX_RETRIES, that is set and does not parse, every set one before it parsing; on success a set variable gives its parsed value and unset variables give delay range (2, 4), timeout 30 and 3 retries |
| `Configuration.BadTimeoutIsReported` | config.py:24-29 | a TIMEOUT that does not parse is the reported variable whenever the delays before it parse, whatever MAX_RETRIES holds |
| `Configuration.Assemble` | config.py:22-51 | each flag follows the case-insensitive "true" test with defaults robots respected, Selenium off, headless on; target URL, user agent and proxies are read as set or left unset |
| `Configuration.LoadConfig` | config.py:20-51 | construction fails iff a set numeric variable does not parse, naming the first such variable in conversion order; otherwise the configuration combines the decoded selectors, the numbers (a set variable's parsed value, else the defaults (2, 4), 30 and 3) and the remaining settings |
| `Configuration.EmptyEnvDefaults` | config.py:22-46 | an empty environment yields the defaults listed above, no selectors and no user agent or proxies |
| `Configuration.ProxyDict` | config.py:66-73 | the result is None iff neither proxy setting is truthy; otherwise it holds exactly the keys "http"/"https" of the truthy settings with their values, and it is never an empty map |
| `Fetch.MakeRequest` | web_scraper.py:225-269 | with all attempts failing: exactly max_retries requests and failures are counted, no success, None is returned and the sleeps are 2^0..2^(max_retries-2); with the first response at attempt k: that response is returned after k+1 requests, k failures, one success and sleeps 2^0..2^(k-1); an unsupported method counts one request, no outcome, no sleep and raises; for GET/POST the new requests equal the new successes plus the new failures; consistent counters stay consistent |
| `Fetch.UserAgent` | web_scraper.py:184-194 | a truthy configured agent wins; otherwise the rotator's draw; the fixed default when there is no rotator or the draw raises |
| `Fetch.CheckRobots` | web_scraper.py:196-223 | not respecting robots allows without resolving anything; a resolution error allows; otherwise the parser's answer is returned; the result denies iff robots are respected and the parser says no |
| `Fetch.GetStatistics` | web_scraper.py:424-432 | the counters are copied; the success rate is 0 before any request and otherwise times the request count equals the success count; it lies in [0, 1] for consistent counters |
| `Records.ShapeField` | web_scraper.py:313-325 | no match or a selector exception gives None, one match its text, n>1 matches a list of those n texts in order; the matched texts are always recoverable from the value |
| `Records.ExtractFields` | web_scraper.py:311-325 | every selector yields exactly one field, whose value depends only on that selector's own result |
| `Records.BuildRecord` | web_scraper.py:302-336 | no or empty content gives {}; otherwise the keys are exactly the selector names plus `_metadata`, `_metadata` holds url, timestamp, title and status "success" even when a selector has that name, and every other field is its shaped selector result |
| `Records.CleanRecord` | web_scraper.py:387 | a key is kept iff it does not start with '_', with its value unchanged |
| `Records.CleanForCsv` | web_scraper.py:377-388 | a single record becomes a one-record list; the record count is preserved and record i is record i cleaned, so no exported key starts with '_' |
| `Records.CleanForCsvIdempotent` | web_scraper.py:384-388 | cleaning cleaned records changes nothing |
| `Records.CleanScrapedRecord` | web_scraper.py:327-388 | a scraped record exported to CSV keeps exactly the requested fields not starting with '_', with their extracted values, and never the metadata |
| `WebScraper.NewScraper` | web_scraper.py:108-152 | timeout and retries fall back to the configuration when the override is absent or 0; the flags fall back only when absent; a failed browser setup leaves the scraper in static mode; a rotator exists iff it imported, initialised and no custom agent is configured; the session proxies are the proxy dict or nothing; the counters start consistent at zero |
| `WebScraper.ConfiguredAgentAlwaysSent` | web_scraper.py:126-133 | with a truthy configured agent the scraper has no rotator and every request sends that agent, whatever the rotator would draw (web_scraper.py:186-187) |
| `WebScraper.NoRotatorSendsDefault` | web_scraper.py:126-133 | without a configured agent, a rotator that failed to import or initialise leaves every request with the fixed default agent (web_scraper.py:189-194) |
| `WebScraper.UndecodableSelectorsGiveDefaultFields` | config.py:55-64 | when SELECTORS does not decode, a page with content yields exactly the fields title, description and links, shaped from h1, meta[name="description"] and a[href], plus `_metadata` |
| `WebScraper.FalsyOverrides` | web_scraper.py:109-113 | for every configuration and browser setup outcome, overriding timeout and retries with 0 keeps the configured values while overriding the flags with False keeps False |
| `WebScraper.ScrapeWebsite` | web_scraper.py:277-343 | a robots denial returns {} and changes no counter; only the counters change; browser mode changes no counter and returns {} iff the page source is falsy; in static mode with robots allowing, no retries returns {} with no counter changed, every attempt failing returns {} after max_retries requests and failures, and a first response at attempt k counts k+1 requests, k failures and one success and returns {} iff its text is empty; requests made grow by successes plus failures; a non-empty record in static mode counted one success; the record's keys are the selector names plus `_metadata` with status "success" |
| `WikiTable.DataRows` | wiki_table_scraper.py:68-73 | at most one data row per table row and every data row is non-empty |
| `WikiTable.DataRowsSources` | wiki_table_scraper.py:68-73 | the data rows are the stripped `td` texts of exactly the rows having `td` cells, in table order |
| `WikiTable.SelectTable` | wiki_table_scraper.py:34-57 | errors for a failed request, a missing title, no tables, an index at or past the table count, and an empty table, checked in that order; otherwise the requested table, which has rows |
| `WikiTable.Headers` | wiki_table_scraper.py:60-64 | the stripped `th` texts of the first row, or its stripped `td` texts when it has no `th`; empty iff the row has neither |
| `WikiTable.ScrapeTable` | wiki_table_scraper.py:34-73 | fails exactly when the table cannot be selected, with that error; with `th` cells in the first row the headers are their texts and data comes from rows after the first; with only `td` cells those texts are the headers and data comes from the third row on; with neither the headers are empty and data comes from the second row on; there are at most rows-1 data rows |
| `WikiTable.ScrapeTableCorrected` | wiki_table_scraper.py:60-73 | the same errors and headers, with data drawn from every row after the header row |
| `WikiTable.CorrectedKeepsEveryDataRow` | wiki_table_scraper.py:65-73 | corrected, every row after the header row that has `td` cells yields a data row, in table order |
| `WikiTable.TdHeadersLoseFirstDataRow` | wiki_table_scraper.py:63-69 | a two-row table with `td` headers yields no data as written and its second row once corrected |
| `WikiTable.TdHeadersSkipSecondRow` | wiki_table_scraper.py:63-69 | when headers come from `td` cells, the table's second row never becomes data |
| `WikiTable.DataRowsComeFromLaterRows` | wiki_table_scraper.py:60-73 | every data row is the non-empty stripped `td` texts of some row after the first, and data rows keep table order |

## Behaviour notes

The model follows these properties of the code:

- robots.txt answers are not cached per origin, and no random delay is applied before a fetch (`_random_delay` is never called);
- after the last failed attempt `_make_request` returns `None`, not an error carrying the cause;
- a selector named `_metadata` is overwritten by the metadata rather than kept apart from it;
- there is no cancellation between attempts.

## Findings

| source | as written | input that shows it | evidently intended | confidence | as-written member | corrected member |
|---|---|---|---|---|---|---|
| wiki_table_scraper.py:63-69 | when the first row has no `th` cells, it is removed after its `td` texts become the headers, and the loop then skips `rows[1:]` again, dropping the first data row | a table of two rows, each with only `td` cells: ["a"] then ["1"]; the result has headers ["a"] and no data | skip the header row once, so the data is [["1"]] | high; not executed | `WikiTable.TdHeadersLoseFirstDataRow` (on `WikiTable.ScrapeTable`) | `WikiTable.ScrapeTableCorrected`, with `WikiTable.CorrectedKeepsEveryDataRow` |

`WikiTable.ScrapeTable` keeps the behaviour as written, since that is what the
program does; `WikiTable.ScrapeTableCorrected` is the repaired definition.

## Left out

- HTTP through `requests.Session` (headers, proxies on the session, timeouts, `raise_for_status`): each attempt is an `AttemptOutcome` input; a status from 400 to 599, which `raise_for_status` rejects, is a `RequestErr`; any other response, including a 3xx or an empty body, is `Ok`.
- Selenium: driver setup, page loading, the readiness wait, the fixed 2 s wait and `quit`/`close`; only "setup failed ⇒ static mode" and the returned page source are modelled.
- robots.txt fetching and parsing (`RobotFileParser`): an input that answers or fails. The source caches nothing, so neither does the model.
- BeautifulSoup parsing, CSS `select`, `get_text(strip=True)` and `soup.title.string`: selector results and titles are inputs.
- `time.sleep`: the backoff sleeps are returned as a list of seconds instead of being slept.
- `_random_delay` and `random.uniform`: defined but never called by the source, so the model has no delay gate; `delay_range` is only carried along.
- `datetime`: the `scraped_at` timestamp is an input.
- `close`, `__enter__`/`__exit__`: releasing resources has no modelled effect.
- `export_to_json`, CSV file writing and pandas DataFrame construction (including its column-count errors): only the key cleaning is modelled.
- Logging setup, dotenv loading and `print` output; the `__main__`/`main` demos.
- JSON decoding and `float`/`int` string parsing: inputs; a decoder result that is not an object of strings is not modelled.
- Fetch.MakeRequest: upper-cases the HTTP method on ASCII letters only; Python also maps 'ſ' and the 'ﬅ'/'ﬆ' ligatures onto "S"/"ST", so a method spelled with them is accepted by the source but treated as unsupported here.
- Configuration.ParseFlag: lower-cases on ASCII letters only, which is exact for the "true" test because no other character lower-cases to t, r, u or e.
- Fetch.GetStatistics: divides exactly in `real` where Python divides in floating point; `duration` and `start_time` are not modelled.
- WebScraper.NewScraper: a `delay_range` override is a pair, and any 2-tuple is truthy in Python, so only an absent override falls back; an empty tuple is not modelled.
- WikiTable.ScrapeTable: `config.wiki_url`, `wiki_table_index` and `wiki_output_file` do not exist in config.py, so the URL and index are explicit; a negative table index (Python wrap-around) is not modelled because the index is a `nat`; rows of nested tables are taken as `find_all('tr')` lists them.
- The user-agent draw that `_check_robots_txt` passes to `can_fetch` and that `_setup_selenium` puts on the browser command line is folded into the robots and browser inputs.
- Dictionary insertion order of the scraped record is not modelled; records are maps.
