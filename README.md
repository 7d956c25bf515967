# internet_data_usage in Dafny

This project models a small command-line tool. The tool logs in to a Canadian
carrier's self-service site: Telus Wireline or Koodo Mobile. It scrapes the
data-usage page and reports the figures in one of three ways: on the terminal,
as a single value for Zabbix, or as an InfluxDB point.

The model follows the two source files.

- `py_text.dfy` (module `PyText`) holds the three Python text operations the
  parsers rely on:
  - `unicode.strip()`, with Python 2's whitespace set;
  - slicing with negative bounds;
  - `re.sub("[^0-9]", "", s)`.
- `scrapers.dfy` (module `Scrapers`) holds:
  - the carrier profiles, meaning the login payloads, URLs and headers;
  - the field extraction of both `_parse` methods;
  - the `CarrierUsageScraper` object as a class, `Scraper`. Its fields are the
    attributes that `__init__`, `_login` and `_parse` assign, plus `carrier`
    for the subclass the object belongs to, and the ghost trace `sent`.

  A fetched page is a `Page` value, with one `Located` per element the parser
  looks up:
  - `Missing`: some link of the `find(...)` chain is absent;
  - `NoString`: `.string` is None;
  - `Text(s)`: otherwise.

  The HTTP exchanges are inputs to the model:
  - a `LoginOutcome` says whether the session could be opened and whether the
    POST completed;
  - an `Option<Page>` is the GET's answer, where None means the GET raised.

  A ghost trace `sent` records the requests the object issues.
- `internet_data_usage.dfy` (module `InternetDataUsage`) holds:
  - the carrier registry and the zabbix item map;
  - `scraper_get` and `scraper_run`;
  - what each output mode produces after a run.

  Every way the program exits with an error is an `Err` of `RunError`.
- `wrappers.dfy` (module `Wrappers`) defines `Option` and `Result`.

Some behaviours of the code are easy to misread. The model follows the code:

- The unit is the last two characters of the stripped card text. So the card
  text "(50GB)" gives the unit "B)". The total is the digits of "50G", which
  is "50" (`ExampleParenthesisedCard`). A stripped card text of three
  characters or fewer gives an empty total, so "5GB" gives the unit "GB" and
  the total "" (`ExampleShortCard`).
- A field with no digits becomes the empty string, and nothing rejects it
  (`KeepDigitsEmpty`).
- `_logged_in` is only ever assigned True. When `_get_data_pg_html` reads it
  before `_login` has run, the read raises AttributeError; it does not raise
  "Not logged in". The "Not logged in" branch is modelled, but no run can
  reach it (`GoOutcome`).
- A POST that raises does not stop the run. Only a session that was never
  opened does: the GET then raises AttributeError on `s`
  (`PostFailureIgnored`).
- The zabbix `--carrier` default is `'telus_wirel    ine'`. It is not a
  registry key, and argparse does not check defaults against `choices`. A
  zabbix run without `-c` therefore always ends at `scraper_get`'s error exit
  (`ZabbixDefaultCarrierFails`).
- `output_influxdb` reads `extended_stats` and seven statistics off the
  scraper: `data_usage_total`, `data_plan_total`, `plan_title`,
  `data_plan_days_left`, `data_usage_pct`, `data_usage_down` and
  `data_usage_up`. Neither scraper
  class defines them. The model takes them as an optional input, where None
  means reading them raises AttributeError, which ends the run with the
  `NoStatistics` exit.

## Model

| member | source | states |
|---|---|---|
| PyText.SkipSpace | scrapers.py:119 | the left scan of `strip`: returns the first non-whitespace position from `i`, and everything skipped is whitespace |
| PyText.SkipSpaceBack | scrapers.py:119 | the right scan of `strip`: returns one past the last non-whitespace position before `j`, and everything skipped is whitespace |
| PyText.Strip | scrapers.py:119 | the stripped text is no longer than the input, and when it is not empty it neither starts nor ends with whitespace |
| PyText.StripSpec | scrapers.py:119 | `strip()` removes exactly the leading and trailing whitespace: what is left neither starts nor ends with whitespace, and only whitespace was dropped |
| PyText.StripUnique | scrapers.py:119 | removing the surrounding whitespace has exactly one result, so `StripSpec` describes `strip()` completely |
| PyText.StripIdempotent | scrapers.py:119 | stripping an already stripped text changes nothing |
| PyText.PyIndex | scrapers.py:120 | a Python slice bound: a non-negative bound is clamped to `n`; a negative one counts from the end, and is 0 when it reaches past the start |
| PyText.PySlice | scrapers.py:122 | a slice never fails and is never longer than the text; within bounds it is the ordinary subsequence, `s[start:-k]` ends `k` before the end and `s[-k:]` is the last `k` elements |
| PyText.KeepDigits | scrapers.py:126-128 | `re.sub("[^0-9]", "", s)` yields only digits and is no longer than its input |
| PyText.KeepDigitsConcat | scrapers.py:126-128 | the filter works character by character: it distributes over concatenation, so the original order is kept |
| PyText.KeepDigitsChar | scrapers.py:126-128 | one character is kept exactly when it is a digit |
| PyText.KeepDigitsCount | scrapers.py:126-128 | every digit occurs in the result as often as in the input, and no other character occurs at all |
| PyText.KeepDigitsOfDigits | scrapers.py:126-128 | a digit string is left unchanged |
| PyText.KeepDigitsIdempotent | scrapers.py:126-128 | filtering twice is filtering once |
| PyText.KeepDigitsEmpty | scrapers.py:126-128 | the result is empty exactly when the input has no digit; the empty result is stored as it is |
| Scrapers.FieldAttr | internet_data_usage.py:213 | the four attributes that `__init__` sets can always be looked up; `_days_left` exists exactly once it has been assigned; no other name exists |
| Scrapers.WithCredentials | scrapers.py:102-110 | the payload is the form plus `IDToken1` = username and `IDToken2` = password; every other form field is kept as it is |
| Scrapers.PostData | scrapers.py:102-173 | each carrier's login payload carries the username in `IDToken1` and the password in `IDToken2` |
| Scrapers.PostDataCredentialsOnly | scrapers.py:164-173 | for either carrier, two payloads with different credentials have the same fields and agree on every field except `IDToken1` and `IDToken2` |
| Scrapers.TelusLoginGoesToUsagePage | scrapers.py:100-102 | the Telus login's `goto` field is the usage page the scraper then fetches |
| Scrapers.HttpHeaders | scrapers.py:112 | the headers are exactly one entry, `user-agent`, set to the given agent |
| Scrapers.UnitIsLastTwo | scrapers.py:120 | the unit is the last two characters of the stripped card text, or all of it when shorter |
| Scrapers.TotalTextSlice | scrapers.py:122 | the total text is the stripped card text minus its first character and last two, stripped again; it is empty when the stripped text has at most three characters |
| Scrapers.Extract | scrapers.py:116-142 | the try block succeeds exactly when the plan heading, the card span, the used element and the carrier's days element all have a string; otherwise it takes the parse exit |
| Scrapers.ExtractFields | scrapers.py:119-128 | on success, the plan is the heading without surrounding whitespace and the unit comes from the card text; used, total and days left are the digits of their texts, in order |
| Scrapers.ExtractKeepsDigits | scrapers.py:126-128 | on success, used, total and days left hold each digit of their source text as often as the text does, and nothing else; used is empty exactly when its text has no digit |
| Scrapers.ParseOutcome | scrapers.py:116-145 | a parse succeeds exactly when the try block does and, for Telus, the chart's `data-url` exists; a failed try block is the parse exit (`sys.exit` inside `_parse`); a Telus parse whose try block succeeded can still fail at that lookup, with the missing-`data-url` error |
| Scrapers.TryEffect | scrapers.py:117-128 | an unreadable plan heading changes nothing; a try block that runs to its end sets all five base attributes; the JSON URL is never touched |
| Scrapers.ParseEffect | scrapers.py:116-145 | an unreadable plan heading changes nothing; Koodo never changes the JSON URL |
| Scrapers.ParseEffectOnSuccess | scrapers.py:117-145 | after a successful try block every base attribute holds the extracted value; Telus also sets `_json_url` to the Telus origin followed by `data-url`, and Koodo leaves it alone |
| Scrapers.ParseEffectInOrder | scrapers.py:118-128 | from a fresh object the attributes are filled in source order: a later one is set only when all earlier ones are, and only Telus sets the JSON URL |
| Scrapers.ParseEffectNoHeading | scrapers.py:118-119 | an unreadable plan heading changes no attribute and ends in the parse exit |
| Scrapers.TelusKoodoDifferOnlyInDays | scrapers.py:179-195 | Koodo's parse is Telus's with the days element read from `records-header-info`, up to the JSON URL that only Telus sets |
| Scrapers.LocatorsIgnored | scrapers.py:145 | each parser ignores the other carrier's days element, and Koodo never reads the chart's `data-url` |
| Scrapers.ExampleParenthesisedCard | scrapers.py:120-126 | the card text "(50GB)" gives the unit "B)" and the total "50" |
| Scrapers.ExampleShortCard | scrapers.py:120-122 | the stripped card text "5GB" gives the unit "GB" and an empty total |
| Scrapers.ExampleDigitFields | scrapers.py:127-128 | the used text "32" is stored as "32", and the days text "19 days left" as "19" |
| Scrapers.GoOutcome | scrapers.py:45-80 | `go` never ends in "Not logged in"; it ends in AttributeError exactly when no session existed and none could be opened; with a session, a GET that raised ends in the transport error, and a fetched page succeeds exactly when its parse does; a failed try block ends in the parse exit and any other parse failure in the missing-`data-url` error; on success the result is the page's extraction |
| Scrapers.PostFailureIgnored | scrapers.py:47-55 | a login whose POST raised leads to the same run as one whose POST completed |
| Scrapers.Scraper.constructor | scrapers.py:23-43 | stores the given profile; every usage attribute is unset; not logged in; no session; nothing sent |
| Scrapers.Scraper.GetDataUsage | scrapers.py:57-58 | returns the `_data_usage` attribute |
| Scrapers.Scraper.GetPlan | scrapers.py:60-61 | returns the `_plan` attribute |
| Scrapers.Scraper.Login | scrapers.py:45-55 | always ends logged in, and nothing is re-raised; `login_failed` becomes 1 when the session or the POST raised; the POST is sent exactly when a session was opened |
| Scrapers.Scraper.FetchDataPage | scrapers.py:63-70 | GETs the data URL with the headers only when logged in and a session exists; otherwise it raises ("Not logged in" or AttributeError) and sends nothing |
| Scrapers.Scraper.ParseTry | scrapers.py:117-128 | assigns the base attributes step by step, exactly as `TryEffect` describes, and reports whether the try block ran to its end, which is exactly when `Extract` succeeds |
| Scrapers.Scraper.Parse | scrapers.py:116-145 | the try block, then the Telus JSON URL: the attributes end as `ParseEffect` describes and the result is `ParseOutcome` |
| Scrapers.Scraper.Go | scrapers.py:75-80 | login, then fetch, then parse, each once and in that order; the request trace grows by exactly the login POST (when a session opened) and the GET (when a session exists); the result is `GoOutcome`; on success the attributes are the extracted usage |
| InternetDataUsage.Carriers | internet_data_usage.py:73-78 | the registry's keys are exactly `telus_wireline` and `koodo_mobile` |
| InternetDataUsage.CarrierItems | internet_data_usage.py:56-70 | the item map's keys are exactly `data_usage`, `data_plan_total`, `data_use_unit` and `plan`; `days_remaining` is not one of them |
| InternetDataUsage.CarriersRegistry | internet_data_usage.py:73-78 | every carrier is in the registry, and each is reached through exactly one key |
| InternetDataUsage.CarrierItemsMap | internet_data_usage.py:56-70 | different items name different attributes, and every named attribute exists from construction on |
| InternetDataUsage.DefaultCarriers | internet_data_usage.py:92-116 | the term and influxdb default carrier is in the registry; the zabbix default is not; the zabbix default item is in the item map; the default user agent becomes the scraper's only header |
| InternetDataUsage.Exited | internet_data_usage.py:260-265 | a fault in `go` becomes the error exit, and a success passes through unchanged |
| InternetDataUsage.Scrape | internet_data_usage.py:247-265 | an unknown key fails with the unknown-carrier exit, and only such a key does; for a known key, a session that could not be opened fails with the AttributeError exit; with a session, a GET that raised fails with the transport error and a fetched page succeeds exactly when its parse does; a failed try block ends in the parse exit and any other parse failure in the missing-`data-url` error; success yields that page's extraction |
| InternetDataUsage.ScraperGet | internet_data_usage.py:247-257 | an unknown key takes the error exit and returns no scraper; otherwise it returns a fresh scraper of the registered carrier with that carrier's own name, description, login and data URLs, the login payload around the given credentials, and the agent header; every usage attribute is unset, and `_logged_in` and `login_failed` do not exist yet |
| InternetDataUsage.ScraperRun | internet_data_usage.py:260-265 | runs `go` once: the object ends logged in, holds a session exactly when it had one or could open one, has `login_failed` set when a login step raised, and has sent the login POST and the GET as `go` does; its attributes are `go`'s; a fault becomes the error exit; on success the object holds the returned usage |
| InternetDataUsage.Printed | internet_data_usage.py:213 | a missing attribute is a KeyError exit; a set attribute prints its text |
| InternetDataUsage.ZabbixReport | internet_data_usage.py:196-213 | a failed scrape fails the zabbix run with the same error; a printed value needs a successful scrape and a known item |
| InternetDataUsage.ZabbixItems | internet_data_usage.py:210-213 | after a successful scrape each item prints exactly its own field, and `days_remaining` is refused |
| InternetDataUsage.ZabbixNumericItems | internet_data_usage.py:210-213 | the `data_usage` and `data_plan_total` items print digit strings only |
| InternetDataUsage.ZabbixDefaultCarrierFails | internet_data_usage.py:111 | a zabbix run left at the default carrier ends with the unknown-carrier exit, whatever the item and the HTTP responses |
| InternetDataUsage.OutputZabbix | internet_data_usage.py:196-213 | the run over real scraper objects produces exactly `ZabbixReport` |
| InternetDataUsage.TermPassword | internet_data_usage.py:231-235 | uses the `--password` argument when given, and the prompted password otherwise |
| InternetDataUsage.OutputTerm | internet_data_usage.py:231-241 | warns exactly when the password is empty; the scrape proceeds and its result is `Scrape`'s, whatever the password |
| InternetDataUsage.JsonBody | internet_data_usage.py:158-191 | exactly one point; its measurement is the scraper name followed by `_usage`; its tags are exactly `carrier` set to the name |
| InternetDataUsage.JsonBodyFields | internet_data_usage.py:158-191 | the fields are the five base ones, plus `data_usage_down` and `data_usage_up` exactly when extended stats are on; each field carries its statistic |
| InternetDataUsage.JsonBodyShape | internet_data_usage.py:158-191 | the field set depends only on the extended-stats flag |
| InternetDataUsage.InfluxReport | internet_data_usage.py:146-193 | a failed scrape fails the run with the same error; after a successful scrape, missing statistics end in the `NoStatistics` exit and present ones give exactly the point built from the scraper's own name and those statistics |
| InternetDataUsage.OutputInfluxdb | internet_data_usage.py:146-193 | the run over real scraper objects produces exactly `InfluxReport` |
| InternetDataUsage.TelusMeasurement | internet_data_usage.py:168 | the default carrier's point is measured as `TelusWireline_usage`: the class's name, not the registry key |

## Left out

- The network:
  - `requests.session()`, POST and GET, their cookies and responses;
  - the InfluxDB client and `write_points`.

  These are I/O. How each request ends is an input to the model.
- BeautifulSoup:
  - HTML parsing, the `find(class_=...)` tree search, and the UTF-8
    re-encoding of the response.

  These are a foreign library. Each located element is an input `Located`
  value.
- argparse, getpass, logging, `print` and `sys.exit`. These are CLI plumbing
  and I/O. Exits are `Err` results. The prompted password is an input.
- argparse's `choices` check on `--carrier` and `--item` is not modelled.
  Every key reaches the model's lookups, which is what happens whenever a
  default is used.
- `print_all`: terminal formatting of the attributes. `OutputTerm` stops at
  the scrape result it would print.
- The fetch of `_json_url`. Only its construction is in `scrapers.py`.
- The lookup of `data-url` is one optional input, so the model does not say
  which link of that chain was missing.
- How `data_usage_pct`, `extended_stats`, upload and download are computed.
  Nothing in `scrapers.py` defines them, so they are opaque inputs to the
  record builder.
- Turning the digit strings into numbers. The code stores strings.
- Scrapers.Scraper.Attribute covers only the usage attributes of
  `__dict__`. The profile, session, logger and `login_failed` attributes
  cannot be looked up through it.
- Scrapers.Scraper.constructor: does not itself require the profile to be
  its carrier's own. It models `CarrierUsageScraper.__init__`, which stores
  whatever it is given. The only place that builds a scraper,
  `InternetDataUsage.ScraperGet`, states that the profile is the carrier's.
- Scrapers.UnitOf, Scrapers.TotalTextOf: their facts are stated as the
  lemmas `UnitIsLastTwo` and `TotalTextSlice`, not as their own
  postconditions, so the parser's proof stays small.
- Scrapers.FormConstants: no contract lists its key set or its fixed values
  (`"encoded": "false"`, `"userLanguage": "en"`, Koodo's
  `"Login.Submit": "Log in"` and the rest); only its body gives them. The
  contracts state three things about the payloads: the credentials go into
  `IDToken1` and `IDToken2` (`PostData`), no other field depends on them
  (`PostDataCredentialsOnly`), and Telus's `goto` is its data URL
  (`TelusLoginGoesToUsagePage`). Postconditions that mention the long URL
  literals make every proof that uses the payload too costly.
- Scrapers.ProfileOf: has no postcondition of its own. `ScraperGet` states
  which profile a built scraper holds, and `HttpHeaders` states the headers.
- InternetDataUsage.ScraperGet: construction never raises in the model. The
  subclass constructors only build dictionaries, so the `except` branch around
  them is left out.
- InternetDataUsage.Printed: `print` of a non-string value is only modelled
  for None, since the zabbix items all name string attributes.
