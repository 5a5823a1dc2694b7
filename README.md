# NBP ingestion scripts in Dafny

This project models the two ingestion scripts of a small data pipeline. Each script
fetches JSON from the public API of the National Bank of Poland (NBP), reshapes it into
newline-delimited JSON (NDJSON), stages the result as a dated object in the
`nbp-upload-temp` Cloud Storage bucket and loads that object into a BigQuery table.

- `fetch_todays_exchange_rates` fetches today's table A of average exchange rates.
  - Nested loops flatten every rate entry of every table into a record with the keys
    `table_type`, `effective_date`, `currency`, `code` and `mid`.
  - The records are staged as `fx_today_<date>.ndjson` and loaded into `fx_today_raw`.
- `fetch_gold_history` fetches the gold prices from 2013-01-01 to 2025-05-26.
  - A list comprehension keeps the elements that hold both `data` and `cena` and renames
    those keys to `effective_date` and `price`.
  - The records are staged as `gold_history_<date>.ndjson` and loaded into
    `gold_history_raw`.

Both scripts return a failure message, before anything is staged, when:
- the status is not 200;
- the body is not JSON.

The modules:
- `Text`: Python's `sep.join`, `sub in s` and `str(n)`, which the scripts call, and
  `s.split` and `int(s)`, which they do not: those read the text back, to state that
  splitting a joined text gives back its parts.
- `Json`:
  - parsed JSON values, with objects kept as ordered member lists (a Python dict keeps
    insertion order);
  - the Python operations the transforms apply to them (`for`, `in`, `d[k]`,
    `d.get(k, default)`), where a response of an unexpected shape raises `TypeError` or
    `AttributeError` (`KeyError` is modelled for `d[k]` but neither script can reach it:
    the gold comprehension subscripts a dict only after both keys were found);
  - `json.dumps` with its default settings.
- `Staging`:
  - the response a run starts from;
  - the NDJSON payload;
  - the dated object name and the `gs://` URI;
  - the calls a run makes to the API, the bucket and the warehouse;
  - how a run ends.
- `ExchangeRates`: the flattening as specification functions, `FlattenRates`, which is
  the nested loop proved against those functions, and the driver
  `FetchTodaysExchangeRates`.
- `GoldHistory`: the comprehension as specification functions, an independent
  description of the kept elements (`Priced`, `PricedPositions`) with the lemmas that tie
  the two together, and the driver `FetchGoldHistory`.

Each driver method returns how the run ended and the list of external calls it made,
in order. Its contract fixes both completely from the response, the date and the load
job's verdict. So two runs on the same data and date stage the same content under the
same name.

The model follows the code in two places worth noting:
- A gold element whose `data` or `cena` key is present but null is kept. The filter
  tests only that the key is present, so a record can carry a null (`NullPriceKept`).
- A failed load job is not returned as a message. `load_job.result()` raises, and the
  exception escapes the function after the object has already been uploaded.

## Model

| member | source | states |
|---|---|---|
| `Text.SplitJoin` | scripts/fetch_exchange_rates.py:33 | Splitting `"\n".join(lines)` on line breaks gives back exactly `lines`, provided there is at least one line and no line holds a line break. |
| `Text.SeparatorCount` | scripts/fetch_exchange_rates.py:33 | Joining `n >= 1` parts that hold no separator puts exactly `n - 1` separators into the text. |
| `Text.JoinEndsWithLastPart` | scripts/fetch_exchange_rates.py:33 | The joined text ends with the last part: join adds no separator after it. |
| `Text.IntTextRoundTrip` | scripts/fetch_exchange_rates.py:13 | The decimal text of the status code in the failure message reads back as that status code. |
| `Text.IsSubstring` | scripts/fetch_gold_history.py:26 | Python's `"data" in d` on a string `d` holds exactly when `"data"` occurs in `d` at some position. |
| `Json.LookupFindsPresentKeys` | scripts/fetch_exchange_rates.py:25-29 | A dict lookup finds a value exactly when the key is present, and the value it finds is bound to that key. |
| `Json.GetOrMissingKey` | scripts/fetch_exchange_rates.py:23 | When the key is missing, `d.get(key, default)` gives the default; when it is present, it gives a value bound to the key. |
| `Json.EncodeHasNoNewline` | scripts/fetch_exchange_rates.py:31 | `json.dumps` never writes a raw line break, whatever the value, so every record fits on one NDJSON line. |
| `Staging.NdjsonContentSplits` | scripts/fetch_exchange_rates.py:31-33 | No records give the empty payload. For one or more records, the payload has one line break fewer than records and splits back into their `json.dumps` lines in order. It ends with the last record's closing brace. |
| `Staging.IsoDateRoundTrip` | scripts/fetch_exchange_rates.py:34 | The `YYYY-MM-DD` text of a date reads back as that date. |
| `Staging.StagedNameRoundTrip` | scripts/fetch_exchange_rates.py:35 | The staged file name made from a prefix and a date has the form `<prefix>YYYY-MM-DD.ndjson`, and the date can be read back from it. |
| `Staging.StagedNamesCollideOnlyOnSameDay` | scripts/fetch_gold_history.py:29 | Two runs of one pipeline name their staged objects alike exactly when they run on the same day. |
| `ExchangeRates.RateRecordTableFields` | scripts/fetch_exchange_rates.py:24-26 | A flat record has exactly the keys `table_type`, `effective_date`, `currency`, `code`, `mid`, in that order, which are the load schema's columns. Its table type and date are the parent table's `table` and `effectiveDate`, or null where the table lacks them. |
| `ExchangeRates.RateRecordRateFields` | scripts/fetch_exchange_rates.py:27-29 | A flat record's `currency`, `code` and `mid` are the rate entry's own, or null where the entry lacks them. |
| `ExchangeRates.RateRecordsShape` | scripts/fetch_exchange_rates.py:23-31 | When the inner loop completes, it yields one record per rate entry. Record `j` is built from the table and entry `j`. |
| `ExchangeRates.RateRecordsSucceed` | scripts/fetch_exchange_rates.py:23-29 | The inner loop completes exactly when every rate entry is a dict. Otherwise `rate.get` raises `AttributeError`. |
| `ExchangeRates.RecordCount` | scripts/fetch_exchange_rates.py:21-31 | The number of records is the sum of the lengths of the tables' `rates` lists. A table without `rates` adds none. |
| `ExchangeRates.RecordPosition` | scripts/fetch_exchange_rates.py:22-31 | Entry `j` of table `i` becomes the record at position (entries of tables before `i`) + `j`. It combines table `i` with that entry. So table `i`'s records all precede table `i + 1`'s, and within a table they follow the order of `rates`. |
| `ExchangeRates.StagedPayload` | scripts/fetch_exchange_rates.py:21-33 | The payload is empty when there are no rate entries. Otherwise it has one line break fewer than entries and splits into exactly one `json.dumps` line per entry, in loop order. |
| `ExchangeRates.TablesRecordsSucceed` | scripts/fetch_exchange_rates.py:22-27 | The loops get through the response exactly when every table is a dict whose `rates` can be iterated and holds only dicts. |
| `ExchangeRates.TextOrDictResponse` | scripts/fetch_exchange_rates.py:22-23 | A response that is a non-empty string or dict makes the first `.get` raise `AttributeError`. An empty one gives no records. |
| `ExchangeRates.EntryRecord` | scripts/fetch_exchange_rates.py:24-30 | A rate entry `{"currency", "code", "mid"}` becomes a record holding its three values after the table's type and date. |
| `ExchangeRates.TwoRatesScenario` | scripts/fetch_exchange_rates.py:21-31 | Table A of 2024-01-02 with a dollar rate and a euro rate flattens to two records, dollar first, each carrying `A` and the date. |
| `ExchangeRates.FlattenRates` | scripts/fetch_exchange_rates.py:21-31 | The nested loops build one `json.dumps` line per record of the flattening, in loop order. They raise exactly when the flattening raises, and with the same exception. |
| `ExchangeRates.FetchTodaysExchangeRates` | scripts/fetch_exchange_rates.py:9-66 | A non-200 status returns `❌ Failed to fetch data: status <code>` and makes no call after the GET. An unparsable body returns `❌ Failed to parse JSON: <error>` and makes no call after the GET. A flattening error escapes before any call after the GET. Otherwise the run uploads the joined lines as `fx_today_<date>.ndjson` to `nbp-upload-temp` and loads that URI into `fx_today_raw` with the five-column schema. It then returns the success message naming the file and table, or the load job's exception escapes. Nothing is staged unless the fetch and the flattening succeeded. |
| `GoldHistory.PricedPositionsExact` | scripts/fetch_gold_history.py:25-26 | `PricedPositions` lists, once each and in increasing order, the positions of exactly those elements that are dicts holding both `data` and `cena`. |
| `GoldHistory.ElementOutcome` | scripts/fetch_gold_history.py:24-26 | The filter raises only on null, a bool or a number. A dict passes it exactly when both keys are present, null values included, and yields its `data` and `cena`. A string or list that passes it raises `TypeError` on subscripting. |
| `GoldHistory.KeptRecordsSucceed` | scripts/fetch_gold_history.py:22-27 | The comprehension gets through the list exactly when every element is a dict, or a string or list that fails the filter. Otherwise it raises `TypeError`, never `KeyError`. |
| `GoldHistory.GoldSubsequence` | scripts/fetch_gold_history.py:22-27 | There are as many records as elements holding both keys. Record `k` comes from the `k`-th such element, so the output is an order-preserving subsequence. An element missing either key is dropped, not null-filled. |
| `GoldHistory.StagedPayload` | scripts/fetch_gold_history.py:22-28 | The payload is empty when no element holds both keys. Otherwise it has one line break fewer than such elements and splits into one `json.dumps` line per kept element, in order. |
| `GoldHistory.EveryElementPriced` | scripts/fetch_gold_history.py:22-27 | When every element holds both keys, there is exactly one record per element, in the same order. |
| `GoldHistory.PricedRecordFields` | scripts/fetch_gold_history.py:24 | A record has exactly the keys `effective_date` and `price`, which are the load schema's columns. Their values are the element's `data` and `cena`. |
| `GoldHistory.MissingDateScenario` | scripts/fetch_gold_history.py:22-27 | A dated price followed by an element without `data` yields one record, for the dated price. |
| `GoldHistory.NullPriceKept` | scripts/fetch_gold_history.py:26 | An element whose `cena` is present but null is kept and yields a record with a null price. |
| `GoldHistory.FetchGoldHistory` | scripts/fetch_gold_history.py:8-53 | A non-200 status returns `❌ API error: <code>` and makes no call after the GET. An unparsable body returns `❌ Failed to parse JSON: <error>` and makes no call after the GET. An exception in the comprehension escapes before any call after the GET. Otherwise the run uploads the joined records as `gold_history_<date>.ndjson` to `nbp-upload-temp` and loads that URI into `gold_history_raw` with the two-column schema. It then returns `✅ Loaded gold history to <table>`, or the load job's exception escapes. Nothing is staged unless the fetch and the comprehension succeeded. |

## Left out

- HTTP: `requests.get` is not performed. The driver receives the response (a status and a parsed or unparsable body) as input and records the GET as its first call.
- JSON parsing: `response.json()` is not modelled. The body arrives already parsed, or as the text of the parse error.
  - A parsed object binds each key once, and lookups read the first binding.
- Cloud Storage and BigQuery:
  - The upload and the load job are recorded as calls with their arguments: bucket, name, content, content type, URI, table and job configuration.
  - What the services do with those calls is not modelled: storage, schema coercion, `WRITE_TRUNCATE`, partitioning and clustering.
  - Whether the load job succeeds is an input to the driver.
  - A failing upload is not modelled.
- Clock: `datetime.now()` is not read. The date is a parameter, valid for years 1 to 9999.
  - Years below 1000 are written with four zero-padded digits. `strftime("%Y")` pads them differently on some platforms.
- Numbers:
  - The text `json.dumps` writes for an int or float (`mid`, `cena`) is kept opaque: digits, sign, point, exponent, `NaN` and `Infinity`.
  - Floating-point parsing and `repr` are not modelled.
- Exception text: a JSON parse error appears in the message as the text it arrives with. Other exceptions are named by their class only: `TypeError`, `AttributeError`, `KeyError`, or the load job's reason.
- `json.dumps` options other than the defaults are not used by the scripts and are not modelled.
- The `if __name__ == "__main__"` entry points only call the two functions and are not modelled.
- Strings holding a lone UTF-16 surrogate: a model character is a Unicode scalar value, so the string `json.loads('"\\ud800"')` returns cannot be represented, and neither can `json.dumps` writing it back as `\ud800`.
