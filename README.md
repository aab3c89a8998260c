# price_bot, modelled in Dafny

price_bot keeps a Google Sheet of products up to date. Each row holds:

- a SKU;
- links to three shops: Geizhals, Campuspoint and edustore.

For every row the bot:

- scrapes the shop prices and the edustore stock text;
- asks the ITScope B2B platform for the stock of three Austrian distributors: Ingram Micro, ALSO and TD SYNNEX;
- writes the seven values back into the row as one batch of cell updates;
- colours the availability cell.

A row whose SKU shares a `-`-separated token with the previous written row reuses that row's values. Only the edustore price is scraped again.

The model has one module per component:

| module | file | models |
|---|---|---|
| `Text` | text.dfy | the Python value semantics the code relies on: `Result` with the raised exception, JSON members that are absent, null or present, `str()`, `split`, `join`, `strip`, `replace`, `count` |
| `Dicts` | dicts.dfy | Python dicts as insertion-ordered association lists, whose values are strings or `None` |
| `IsoDate` | iso_date.dfy | `_format_date`: `datetime.fromisoformat` and `strftime("%d/%m/%y")` |
| `Getters` | getters.dfy | the three distributor stock interpreters `get_availability_for_*` |
| `Client` | client.dfy | the `ITscopeClient` class: the request it builds, and the filter `_get_suppliers` |
| `Retry` | retry.dfy | `retry_after_timeout` |
| `Formatters` | formatters.dfy | `standardize_price_format`, plus the colour and cell of both formatting requests |
| `SkuProcessor` | sku_processor.dfy | `process_sku`: the reuse test, the two task lists, the distributor lookup, the gathering and the record |
| `DataManager` | data_manager.dfy | `get_data` and `get_sku_list` |
| `BatchDriver` | batch.dfy | the row loop of `main_async`, the batch of one row, the cache seed between rows and the runtime string |

Functions state what the code computes, without its loops. Each loop of the source is a method proved equal to such a function:

- the getters' scan;
- the supplier filter;
- the retry loop;
- the gathering of results;
- the filling of the record;
- the batch loop;
- the row loop.

Lemmas then state the properties of those functions.

Outside effects become parameters:

- Each shop adapter is a function from an adapter, a link and an attempt number to "returns this text" or "raises".
- The HTTP transport of the distributor API is a function from the request to a decoded body, a request failure or an undecodable body.
- The worksheet is given as its cell grid and its first column.
- Whether a `batch_update` succeeds is a per-row flag.
- The elapsed run time is given in whole seconds.

Four behaviours of the code differ from what its own comments and docstrings suggest. The model follows the code:

- **Short stock snapshot.** The comment at `scrapers/ITScope/getters.py:42` says a snapshot needs at least 2 entries. A distributor record with fewer is skipped with `continue`. The getter does not return `'no data'` at once: scanning goes on, and an earlier tentative text survives (`Getters.ShortSnapshotSkipped`, `Getters.SkippedRecordIrrelevant`).
- **Fixed retry delay.** The docstring at `utils/error_retry.py:6` speaks of exponential backoff. The code sleeps the same `delay` between attempts (`Retry.RetryAfterTimeout`).
- **Reuse condition.** The comments at `processors/sku_processor.py:46` and `:53` speak of the base SKU before the first hyphen and of variants of the same base product. Reuse happens when any `-`-separated token is shared, not only the first block (`SkuProcessor.ReuseIffSharedToken`, `SkuProcessor.LaterTokenShares`).
- **First-row failure ends the run.** The row handler is meant to skip a failing row. Its message reads `sku`. If `process_sku` raises before any row has bound `sku`, reading it raises `NameError`. That exception escapes to the run-level handler, and no further row is processed (`BatchDriver.FirstRowFailureEndsRun`). A later failure only skips its row (`BatchDriver.LaterFailureSkipsRow`).

## Model

| member | source | states |
|---|---|---|
| Getters.FirstDecided | scrapers/ITScope/getters.py:38-68 | the index found is of a record that reaches a return branch, and no earlier record does; none is found only when no record returns |
| Getters.LastTentative | scrapers/ITScope/getters.py:46-49 | the index found is of the last record that sets `ret` and continues; none is found only when no record does |
| Getters.Availability | scrapers/ITScope/getters.py:12-179 | the loop of each getter computes the loop-free reading: the first record that returns decides; otherwise the last tentative text is returned; otherwise `'no data'`; a missing key raises `KeyError`; a null text is returned as `None`, and a null status equals none of the codes |
| Getters.ScanAgrees | scrapers/ITScope/getters.py:35-70 | the scan from any running result agrees with the loop-free reading, where the running result stands in for "no tentative text" |
| Getters.ScanIsInterpretation | scrapers/ITScope/getters.py:35-70 | started from `'no data'`, the scan is the loop-free reading |
| Getters.ShortSnapshotSkipped | scrapers/ITScope/getters.py:42-44 | a record of the wanted supplier with a null snapshot or fewer than two entries is skipped |
| Getters.SkippedRecordIrrelevant | scrapers/ITScope/getters.py:42-44 | removing a skipped record from the input never changes the result |
| Getters.OnlyOwnRecordsMatter | scrapers/ITScope/getters.py:38-39 | the result depends only on the records with the getter's own supplier name |
| Getters.NoRecordNoData | scrapers/ITScope/getters.py:35-70 | without a record of the supplier the getter returns `'no data'` |
| Getters.DecidedAt | scrapers/ITScope/getters.py:51-68 | the first record reaching a return branch gives the result, whatever follows it |
| Getters.TentativeKept | scrapers/ITScope/getters.py:46-49 | a tentative text is the result when no record returns and no later record sets another |
| Getters.MissingStatusRaises | scrapers/ITScope/getters.py:47-60 | a snapshot whose first or second entry has no `stockStatus` key raises `KeyError` |
| Getters.RealtimeWins | scrapers/ITScope/getters.py:52-54 | realtime status "1" or "6" returns the realtime entry's text, `None` for a null text, whatever the cached status |
| Getters.NullRealtimeText | scrapers/ITScope/getters.py:52-54 | realtime "1" with a null text returns `None` rather than raising |
| Getters.CachedSixRealtimeEight | scrapers/ITScope/getters.py:47-49 | cached "6" with realtime "8" keeps the cached text (`None` for a null) only tentatively; an absent text raises `KeyError` |
| Getters.RealtimeDate | scrapers/ITScope/getters.py:57-59 | any realtime status other than "1", "6" and "8", a null one included, returns the realtime entry's formatted date |
| Getters.NullRealtimeStatus | scrapers/ITScope/getters.py:52-59 | a null realtime status fails the `in ("1", "6")` test and passes the `not in ("1", "6", "8")` one: the realtime date is returned |
| Getters.CachedFallback | scrapers/ITScope/getters.py:62-68 | realtime "8" falls back to the cached entry: its text for "1" and "8", its formatted date otherwise, a null cached status included |
| Getters.DateAnswer | scrapers/ITScope/getters.py:181-209 | a date answer is a string, never `None`: "No date available", a `DD/MM/YY` date, or "Invalid date: " followed by the input |
| IsoDate.ParseIsoString | scrapers/ITScope/getters.py:204-204 | every valid date written as `YYYY-MM-DD` parses back to itself |
| IsoDate.ParseIsoWithTime | scrapers/ITScope/getters.py:204-204 | a date followed by `T` or a space and a well-formed time of day parses to that date |
| IsoDate.ParseIsoSound | scrapers/ITScope/getters.py:204-204 | whatever parses is a date that exists, and its ten-character rendering is the input's prefix |
| IsoDate.FormatDateRearranges | scrapers/ITScope/getters.py:204-205 | on a parsable input the result only rearranges its digits: day, month and the last two year digits |
| IsoDate.FormatDateOfIso | scrapers/ITScope/getters.py:199-206 | a valid ISO date, with or without a time of day, is printed as its own `DD/MM/YY` |
| IsoDate.OffsetBoundedByTotal | scrapers/ITScope/getters.py:204-204 | an offset with any two-digit hours and minutes is accepted exactly when it makes less than a day, as `timezone` requires |
| IsoDate.OffsetMinutesUnchecked | scrapers/ITScope/getters.py:204-206 | a date with a clock and such an offset, `+05:75` included, is formatted as its own `DD/MM/YY` |
| IsoDate.FormatDateOutcomes | scrapers/ITScope/getters.py:199-209 | "No date available" exactly for null or empty input; "Invalid date: <input>" for unparsable input; `DD/MM/YY` for parsable input |
| Client.KeptNamesAreGetterNames | scrapers/ITScope/client.py:74-74 | the kept supplier names are exactly the names the three getters look for |
| Client.ItScopeClient.constructor | scrapers/ITScope/client.py:27-31 | the client's base URL is the configured one |
| Client.ItScopeClient.RealtimeParam | scrapers/ITScope/client.py:61-61 | the `realtime` parameter is "true" exactly when realtime is requested, otherwise "false" |
| Client.ItScopeClient.GetSuppliers | scrapers/ITScope/client.py:72-102 | the filter loop computes the loop-free filter |
| Client.ItScopeClient.GetProductById | scrapers/ITScope/client.py:56-70 | the one request sent is for the product URL with the realtime flag; a request failure raises; an undecodable body raises `JSONDecodeError`; otherwise the result is the filtered suppliers |
| Client.ItScopeClient.ProductUrlInjective | scrapers/ITScope/client.py:57-58 | the URL determines the SKU and the format, so different products are never confused |
| Client.FilterItemsAppend | scrapers/ITScope/client.py:89-100 | the filter result splits over a concatenation of its input, so input order is kept |
| Client.FilterRaisesIffNullSupplier | scrapers/ITScope/client.py:90-92 | the filter raises exactly when some item has a null `supplier` |
| Client.FilterSound | scrapers/ITScope/client.py:89-102 | the output is no longer than the input, and each kept record carries one of the three names |
| Client.FilterComplete | scrapers/ITScope/client.py:94-100 | every item named after one of the three suppliers is kept |
| Client.OnlyFirstProduct | scrapers/ITScope/client.py:86-86 | products after the first never change the result |
| Client.NoProductNoSuppliers | scrapers/ITScope/client.py:77-83 | a falsy body, or a missing, null or empty product list, gives no records |
| Retry.FirstSuccess | utils/error_retry.py:36-38 | the attempt found is the first that returns; none is found only when every allowed attempt raises |
| Retry.RetryAfterTimeout | utils/error_retry.py:15-47 | returns the first successful attempt's value after that many calls and one delay before each retry; when every call fails, gives up with the sentinel after all attempts and one delay fewer than attempts |
| Retry.FirstSuccessStable | utils/error_retry.py:36-38 | allowing more attempts never changes an earlier success |
| Retry.FailuresThenSuccess | utils/error_retry.py:36-38 | k - 1 failures and then a success return the k-th attempt's value |
| Retry.FirstSuccessUpTo | utils/error_retry.py:36-47 | when every allowed attempt raises, nothing succeeds |
| Retry.DefaultSentinel | utils/error_retry.py:47-47 | with the default three attempts, the give-up text is "Failed after 3 attempts" |
| Formatters.StandardizePriceFormat | utils/formatters.py:17-64 | the result is null exactly when the input is null |
| Formatters.StandardizeOutcomes | utils/formatters.py:36-64 | empty input and the scraper failure texts pass through; the cleaned text comes back when there is no readable number; otherwise the result is the standard form of the first numeric run's value |
| Formatters.NumericNotSentinel | utils/formatters.py:36-37 | no text starting with a digit is one of the scraper failure texts, so such a text is always parsed |
| Formatters.FirstRun | utils/formatters.py:44-49 | a match is a non-empty run of digits, dots and commas |
| Formatters.FirstRunOf | utils/formatters.py:44-49 | the leftmost maximal run is the match, and what follows it never matters |
| Formatters.CleanFixed | utils/formatters.py:40-40 | a text without non-breaking spaces and without leading or trailing white space is unchanged by cleaning |
| Formatters.CleanIdempotent | utils/formatters.py:40-40 | cleaning twice is cleaning once |
| Formatters.CommaDecimalValue | utils/formatters.py:55-57 | with a comma alone, the comma is the decimal separator |
| Formatters.DotDecimalValue | utils/formatters.py:52-61 | with a dot alone, the dot is the decimal point |
| Formatters.GroupedDecimalValue | utils/formatters.py:52-54 | with both separators, the dots group thousands and the comma separates the decimals |
| Formatters.UnreadableRun | utils/formatters.py:59-64 | a run with two commas, or with two dots and no comma, is not a number, and the cleaned text is returned |
| Formatters.SwapGivesEuro | utils/formatters.py:62-62 | the three replacements turn Python's `€ 1,234.56` into `€ 1.234,56` |
| Formatters.PriceFromRun | utils/formatters.py:44-62 | a text whose first numeric run reads as a number comes out in the standard form of that number |
| Formatters.TrailingEuroPrice | utils/formatters.py:36-62 | a text `<g>,<dd>€`, with `g` digits that dots may group, comes out as the standard form of the number it writes |
| Formatters.EuroPriceFixed | utils/formatters.py:36-62 | the standard form reads back as the same amount and is its own standardisation |
| Formatters.Idempotent | utils/formatters.py:17-64 | standardising twice gives what standardising once gives |
| Formatters.ExampleTrailingEuro | utils/formatters.py:32-32 | "867,22€" becomes "€ 867,22" |
| Formatters.ExampleThousands | utils/formatters.py:33-33 | "1.039,00€" becomes "€ 1.039,00" |
| Formatters.ExampleStandard | utils/formatters.py:34-34 | "€ 867,22" is unchanged |
| Formatters.AvailabilityBucket | utils/formatters.py:87-97 | green exactly for "Ja", light green exactly for "Vorbestellbar", light red exactly for "Nein", light yellow exactly for everything else |
| Formatters.ItscopeBucket | utils/formatters.py:147-157 | the first test that holds wins: "auf Lager" anywhere is green; otherwise a `dd/dd/dd` prefix is light green; otherwise "nicht verfügbar" or "no data" is light red; all else is light yellow |
| Formatters.FormattedDateIsLightGreen | utils/formatters.py:150-151 | every date a getter formats is coloured light green |
| Formatters.GetterTextsColoured | utils/formatters.py:153-157 | the getters' fixed texts "no data" and "nicht verfügbar" are light red; "No date available" is light yellow |
| Formatters.AvailabilityFormat | utils/formatters.py:100-117 | the request covers the single cell of the row in column C, coloured by the availability ladder |
| Formatters.ItscopeFormat | utils/formatters.py:160-177 | the request covers the single cell of the row in the given column, coloured by the distributor ladder |
| Dicts.GetKeys | processors/sku_processor.py:137-139 | a key is found exactly when it has been stored |
| Dicts.PutGetSame | processors/sku_processor.py:139-139 | after `d[k] = v`, `d[k]` is `v` |
| Dicts.PutGetOther | processors/sku_processor.py:139-139 | `d[k] = v` leaves every other key as it was |
| Dicts.PutKeys | processors/sku_processor.py:139-139 | a new key goes last in iteration order; an existing key keeps its place |
| Dicts.PutUnique | processors/sku_processor.py:139-139 | keys stay distinct under assignment |
| SkuProcessor.ProcessSku | processors/sku_processor.py:20-141 | the step-by-step processing returns the specified SKU and record, or the `KeyError` of a missing column |
| SkuProcessor.CachedTaskList | processors/sku_processor.py:57-64 | the reuse branch's seven appends, each reuse read of the previous record raising `KeyError` when the key is missing |
| SkuProcessor.FreshTaskList | processors/sku_processor.py:69-131 | the fetch branch's appends, with the distributor texts of the one lookup |
| SkuProcessor.LookupDistributors | processors/sku_processor.py:96-131 | the `try` around the lookup and the three getters gives the specified three texts |
| SkuProcessor.GatherResults | processors/sku_processor.py:134-134 | the results, in task order: a reused or constant value as is, a scrape through the retry wrapper |
| SkuProcessor.FillPrices | processors/sku_processor.py:137-139 | the record filled key by key is the specified record |
| SkuProcessor.AssembleGet | processors/sku_processor.py:137-139 | with distinct keys, each task's key holds its own result |
| SkuProcessor.AssembleKeys | processors/sku_processor.py:137-139 | the record's keys are the tasks' keys, in task order |
| SkuProcessor.TaskListsCoverFields | processors/sku_processor.py:53-131 | both branches schedule seven tasks with distinct keys, covering exactly the seven fields |
| SkuProcessor.ProcessedRecord | processors/sku_processor.py:40-141 | a processed row returns its own SKU and a record of exactly the seven fields, with distinct keys |
| SkuProcessor.PairedByPosition | processors/sku_processor.py:134-139 | the value under each task's key is the gathered result at that task's position |
| SkuProcessor.ReuseIffSharedToken | processors/sku_processor.py:54-54 | reuse happens exactly when the previous record is non-empty and shares a token with this SKU text; a non-empty previous record without "SKU" raises `KeyError`, and one whose "SKU" is `None` raises `AttributeError` |
| SkuProcessor.SharesTokenSymmetric | processors/sku_processor.py:54-54 | the reuse test does not depend on which SKU came first |
| SkuProcessor.EmptyRecordNeverReuses | processors/sku_processor.py:54-54 | an empty previous record never reuses |
| SkuProcessor.SameFirstBlockShares | processors/sku_processor.py:47-54 | variants with the same first block always reuse |
| SkuProcessor.LaterTokenShares | processors/sku_processor.py:54-54 | SKUs with different first blocks but a common later token also reuse |
| SkuProcessor.SharedSecondToken | processors/sku_processor.py:47-54 | SKUs `<p>-<t>` and `<q>-<t>` with different first blocks share the token `t`, so the second reuses the first's record |
| SkuProcessor.ReuseCopiesSixFields | processors/sku_processor.py:57-64 | under reuse, six fields are the previous values verbatim, and the edustore price is scraped afresh whatever its link |
| SkuProcessor.ReuseScrapesOnlyEdustorePrice | processors/sku_processor.py:57-64 | under reuse, the edustore price adapter is the only one scheduled |
| SkuProcessor.FreshScrapesByLocator | processors/sku_processor.py:70-91 | in the fetch branch an adapter is scheduled exactly when its link is not "^"; the edustore link drives both edustore adapters |
| SkuProcessor.FreshShopPrices | processors/sku_processor.py:70-81 | each fetched shop price is the retried scrape, or "No valid URL" for a "^" link |
| SkuProcessor.FreshEdustoreFields | processors/sku_processor.py:86-91 | both edustore fields are scraped, or both are "No valid URL" |
| SkuProcessor.FreshDistributorFields | processors/sku_processor.py:96-120 | the three distributor fields come from the one lookup of the SKU's first block |
| SkuProcessor.OneLookupByFirstBlock | processors/sku_processor.py:96-131 | the distributor API is asked once, for the first block with the developer format and realtime data; under reuse it is not asked at all |
| SkuProcessor.LookupSentinels | processors/sku_processor.py:111-131 | an empty answer gives "no data" for all three; a decode error gives "no such product" for all three; any other failure gives "error fetching data" for all three |
| SkuProcessor.LookupAnswered | processors/sku_processor.py:101-131 | a non-empty answer gives each getter's text, unless some getter raises, which makes all three "error fetching data" |
| SkuProcessor.ProcessRaisesOnlyKeyError | processors/sku_processor.py:40-64 | `KeyError` is the only exception that escapes, apart from `AttributeError` for a previous SKU that is `None`; a row with its four columns and a previous record with a SKU text and the six reused fields never raises |
| SkuProcessor.TasksRaiseOnlyKeyError | processors/sku_processor.py:53-64 | building the task list raises only `KeyError`, or `AttributeError` for a previous SKU that is `None`; it succeeds for an empty previous record or one with a SKU text and the six reused fields |
| DataManager.Zip | google_sheets/data_manager.py:35-35 | the record's keys are exactly the headers within the zipped width |
| DataManager.GetData | google_sheets/data_manager.py:30-35 | an empty grid raises `IndexError`; otherwise there is one record per row after the header |
| DataManager.RecordOfRow | google_sheets/data_manager.py:32-35 | record i pairs grid row i + 1 with the header row |
| DataManager.ZipLastColumnWins | google_sheets/data_manager.py:35-35 | a header's value is its cell, unless a later column repeats the header |
| DataManager.ZipTruncates | google_sheets/data_manager.py:35-35 | cells beyond the headers, and headers beyond the cells, are dropped |
| DataManager.RowNumbers | google_sheets/data_manager.py:61-64 | every listed SKU, and nothing else, has a row number |
| DataManager.RowNumberOfLastOccurrence | google_sheets/data_manager.py:61-64 | each SKU maps to 2 plus the index of its last occurrence |
| DataManager.SkuRowBounds | google_sheets/data_manager.py:57-64 | every row number lies in 2 to the column's length and names a row holding that SKU |
| DataManager.SkuRowOfPosition | google_sheets/data_manager.py:57-64 | a SKU that does not occur again maps to its own one-based row |
| DataManager.DuplicateSkuLastWins | google_sheets/data_manager.py:61-64 | a duplicated SKU does not map to its earlier row |
| DataManager.HeaderExcluded | google_sheets/data_manager.py:57-58 | the header cell is no SKU unless it is repeated below |
| BatchDriver.BatchFor | main.py:36-45 | a batch exists exactly when every key is in the column map; it then has one update per key, in order, addressing the key's column in the row |
| BatchDriver.BuildBatch | main.py:36-45 | the loop over `prices.items()` builds the specified batch |
| BatchDriver.BatchMissingKey | main.py:38-39 | a key missing from the column map gives no batch |
| BatchDriver.BatchOfRecord | main.py:36-45 | the batch of a processed record has seven updates, one per field, and none for "SKU" |
| BatchDriver.ProcessRow | main.py:23-68 | one iteration of the row loop computes the specified step |
| BatchDriver.RowLoop | main.py:23-68 | the loop over the records computes the specified run |
| BatchDriver.StoppedStays | main.py:66-71 | once an exception escapes the row handler, the remaining records change nothing |
| BatchDriver.ProcessedHasFields | main.py:53-55 | every processed record has a value for each of the seven fields, among them "Verfügbar" |
| BatchDriver.SeedStaysWellFormed | main.py:21-62 | the seed between rows is always empty or a seven-field record carrying its SKU |
| BatchDriver.StepKeepsSeed | main.py:50-62 | one row keeps the seed well formed: it is left alone or replaced by a seven-field record with its SKU |
| BatchDriver.FirstRowNeverReuses | main.py:21-30 | the first record is processed with an empty seed, so it never reuses |
| BatchDriver.UnknownSkuKeepsSeed | main.py:33-64 | a SKU missing from the lookup table writes nothing and keeps the seed |
| BatchDriver.MissingColumnSkipsRow | main.py:36-68 | a key missing from the column map skips the row: nothing is written, the seed is kept, and the loop goes on |
| BatchDriver.WrittenRowSeeds | main.py:50-62 | a written row becomes the next seed with its SKU, whether or not the sheet accepted the batch; the availability cell is coloured only after an accepted batch and only when its value is not `None` |
| BatchDriver.LaterFailureSkipsRow | main.py:66-68 | once some row has bound `sku`, a failing row changes nothing |
| BatchDriver.FirstRowFailureEndsRun | main.py:66-71 | a failure on the first record ends the run with nothing written |
| BatchDriver.MainAsync | main.py:8-91 | an empty grid writes nothing; otherwise the calls are those of the row loop over the records with the SKU table; the runtime string is reported either way |
| BatchDriver.RuntimeString | main.py:77-90 | the runtime string is the parts joined by spaces, and it reads back as the elapsed seconds |
| BatchDriver.RuntimeArithmetic | main.py:77-80 | hours, minutes and seconds add up to the elapsed seconds |
| BatchDriver.TimePartsSum | main.py:83-88 | the kept parts add up to the duration they name |
| BatchDriver.RuntimePartsSum | main.py:77-88 | leaving out zero hours or minutes loses no time |
| BatchDriver.RuntimePartsSpaceFree | main.py:83-90 | no part holds the separator |
| BatchDriver.RuntimeReadsBack | main.py:77-90 | the reported runtime names exactly the elapsed seconds |
| Text.Split | processors/sku_processor.py:47-47 | `split('-')` yields at least one piece, and no piece holds the separator |
| Text.SplitJoin | processors/sku_processor.py:47-47 | joining the pieces with the separator gives the SKU back |
| Text.JoinSplit | main.py:90-90 | splitting a join of separator-free parts gives the parts back |
| Text.SplitLength | processors/sku_processor.py:54-54 | there is one piece more than separators |
| Text.Strip | utils/formatters.py:40-40 | the stripped text neither starts nor ends with white space |
| Text.StripIdempotent | utils/formatters.py:40-40 | stripping twice is stripping once |
| Text.NatToStringRoundTrip | main.py:84-88 | `str(n)` of a count reads back as that count |

## Left out

- The Playwright shop scrapers (`get_price_from_geizhals`, `_campuspoint`, `get_price_from_edustore`, `get_stock_from_edustore`) are not modelled. They are oracles from adapter, link and attempt number to a returned text or an exception. The adapters are taken to return strings.
- HTTP (`requests.get`, `raise_for_status`, `.json()`) is replaced by the transport parameter. The credentials, headers and timeout are not modelled.
- Concurrency (`asyncio`, the semaphore, `gather`'s interleaving) is left out. Tasks are gathered one after the other, which gives the same results and order, because each adapter's answer depends only on its own inputs. The sleeps are not performed: the retry loop returns the delays it would sleep, and the staggering sleeps of `process_sku` and the row loop are dropped.
- The transport and the shops may answer differently for every row. Within one row the answers are fixed.
- The gspread worksheet is not modelled. `get_all_values` and `col_values(1)` are inputs, and `setup_google_worksheet` is not part of this model. `batch_update` success is a per-row flag. How the sheet applies a request is not modelled, and the formatting request's own failure handling is not modelled: the request is listed whenever the batch succeeded.
- Colours are exact RGB floats in the source. They are modelled as the four named buckets.
- `COLUMN_MAP` and `BASE_URL` come from configuration files that are not part of this model. They are parameters, and the client is constructed by the caller.
- The decoded JSON body is assumed to hold objects, lists and strings where the code reads them. Its types cannot express other shapes, which the source handles as follows:
  - a truthy body that is not an object (`json_data.get` at `scrapers/ITScope/client.py:80`), a null or non-object element of `product` or `supplierItems`, or a `supplier` that is not an object (`.get` at `client.py:86`, `:90-91`) raises `AttributeError`;
  - a null element of `supplierStockInfo` makes `stock_info[0]['stockStatus']` raise `TypeError` (`scrapers/ITScope/getters.py:47`);
  - these three errors end as "error fetching data" for all three distributors (`processors/sku_processor.py:127-131`);
  - a `stockStatus` that is not a string, such as the number `1`, equals none of the string codes, so the date branch runs (`getters.py:52-59`);
  - a `stockAvailabilityDate` that is not a string and not falsy makes `fromisoformat` raise `TypeError`, and `_format_date` returns "Invalid date: " followed by its `str()` (`getters.py:204-209`).
- Logging and every `print` are left out, including the JSON dump of the lookup answer.
- `datetime.fromisoformat` is modelled on `YYYY-MM-DD`, optionally followed by `T` or a space, an `HH:MM` or `HH:MM:SS` time and an optional `+HH:MM` or `-HH:MM` offset. As in Python, the offset's two fields are bounded only by their total, which must be less than a day, so `+05:75` is accepted. Python accepts any single character as the separator at index 10; the model accepts only `T` and a space, and reads a date with any other separator character as invalid. An hour-only time, fractional seconds, offsets with seconds and the wider forms of newer Python versions are also read as invalid dates.
- `Formatters.StandardizePriceFormat` reads `\d` as the ASCII digits, while Python also accepts other Unicode digits.
- `Formatters.ItscopeBucket`: the `dd/dd/dd` prefix test reads `\d` as the ASCII digits. Python's `re.match(r'\d{2}/\d{2}/\d{2}', ...)` also matches other Unicode decimal digits, such as Arabic-Indic ones, so such a prefix is light green in Python and falls through to the later tests in the model. The getters' own dates are ASCII, so their colour is the same (`Formatters.FormattedDateIsLightGreen`).
- `Formatters.StandardizePriceFormat` computes in exact cents, where Python converts the number to a binary double. A double holds only 15 to 17 significant decimal digits. For an amount that needs more, Python's result differs in the leading and integer digits too, not only in the last cent: "12345678901234567890,12€" gives "€ 12.345.678.901.234.567.168,00" in Python and "€ 12.345.678.901.234.567.890,12" in the model. For amounts within that precision, rounding beyond two fractional digits can still differ in the last cent: the model rounds the exact decimal half to even, and Python rounds the nearest double. Amounts beyond the double range are never turned into `inf`.
- `Formatters.StandardizePriceFormat` swaps the separators through the single character `T` instead of the marker `TEMP`. The formatted number holds no letters, so the result is the same.
- `BatchDriver.BatchOfRecord` states the size and the keys of the batch but not each update. `BatchDriver.BatchFor` states each update.
- `BatchDriver.MainAsync` takes the elapsed time in whole seconds. The clock and `int()` truncation of the duration are not modelled.
- `SkuProcessor.ProcessSku` gives its client to the lookup, as the source's `ITscopeClient()` constructed per row does. The constructor's effects beyond the base URL are not modelled.
