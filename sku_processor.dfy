/** `process_sku`: one spreadsheet row becomes a record of seven fields. Either the
    previous row's record is reused (SKU variants sharing a `-` token), with only the
    edustore price fetched again, or every field is fetched afresh: three shop prices and
    the edustore stock through the retry wrapper, and the three distributor availabilities
    from one lookup of the text before the first hyphen. The shop scrapers and the HTTP
    transport are parameters. */
module SkuProcessor {
  import opened Text
  import opened Getters
  import opened Client
  import opened Retry
  import opened Dicts

  /** A record of `get_data`: column header to cell text. */
  type Row = map<string, string>

  // ---------------------------------------------------------------- the seven fields

  const GEIZHALS: string := "Geizhals Preis"
  const CAMPUSPOINT: string := "Campuspoint Preis"
  const EDUSTORE: string := "edustore VK"
  const AVAILABLE: string := "Verfügbar"
  const INGRAM: string := "INGRAM"
  const ALSO: string := "ALSO"
  const TD_SYNNEX: string := "TD Synnex"

  const Fields: set<string> := {GEIZHALS, CAMPUSPOINT, EDUSTORE, AVAILABLE, INGRAM, ALSO, TD_SYNNEX}

  /** The locator that stands for "no page to scrape", and the text put in its place. */
  const NO_LOCATOR: string := "^"
  const NO_VALID_URL: string := "No valid URL"

  /** The sentinels for the three ways the distributor lookup can fail. */
  const NO_DATA: string := "no data"
  const NO_SUCH_PRODUCT: string := "no such product"
  const FETCH_ERROR: string := "error fetching data"

  /** The four shop adapters: `get_price_from_geizhals`, `get_price_from_campuspoint`,
      `get_price_from_edustore` and `get_stock_from_edustore`. */
  datatype Adapter = GeizhalsPrice | CampuspointPrice | EdustorePrice | EdustoreStock

  /** What each adapter does on each locator, attempt by attempt. */
  type Scrapers = (Adapter, string) -> (nat -> Attempt<string>)

  /** The awaitable paired with a field: a previous value re-served, a text known
      already (the no-URL text or a distributor availability), or a scrape through
      `retry_after_timeout`. */
  datatype Source = Copied(value: Value) | Constant(value: Value) | Fetched(adapter: Adapter, url: string)

  type Task = (string, Source)

  function TaskKeys(tasks: seq<Task>): (ks: seq<string>)
    ensures |ks| == |tasks|
    ensures forall i :: 0 <= i < |tasks| ==> ks[i] == tasks[i].0
  {
    if |tasks| == 0 then [] else [tasks[0].0] + TaskKeys(tasks[1..])
  }

  predicate DistinctKeys(tasks: seq<Task>) {
    forall i, j :: 0 <= i < j < |tasks| ==> tasks[i].0 != tasks[j].0
  }

  /** The adapters some task of the list scrapes with. */
  function Scraped(tasks: seq<Task>): set<Adapter> {
    set i | 0 <= i < |tasks| && tasks[i].1.Fetched? :: tasks[i].1.adapter
  }

  // ---------------------------------------------------------------- the cache decision

  /** `row[key]`. */
  function Column(row: Row, key: string): Result<string> {
    if key in row then Ok(row[key]) else Raised(KeyError)
  }

  /** `sku.split('-')[0]`, the key of the distributor lookup. */
  function FirstBlock(sku: string): string {
    Split(sku, '-')[0]
  }

  /** The two SKUs have a `-`-separated token in common. */
  predicate SharesToken(previous: string, sku: string) {
    TokenSet(previous, '-') * TokenSet(sku, '-') != {}
  }

  /** The condition of the `if` at the top: an empty previous record never reuses, a
      non-empty one without its `"SKU"` entry raises `KeyError`, and one whose `"SKU"` is
      `None` raises `AttributeError` at `.split`. */
  function ReuseCache(sku: string, last: Dict): Result<bool> {
    if |last| == 0 then Ok(false)
    else match Get(last, "SKU")
      case None => Raised(KeyError)
      case Some(NoneValue) => Raised(AttributeError)
      case Some(Str(previous)) => Ok(SharesToken(previous, sku))
  }

  // ---------------------------------------------------------------- the task lists

  /** The reuse branch: six values read back from the previous record, in the order the
      branch reads them (a missing one raises), and the edustore price fetched again. */
  function CachedTasks(last: Dict, urlEdu: string): Result<seq<Task>> {
    var g, c, v := Get(last, GEIZHALS), Get(last, CAMPUSPOINT), Get(last, AVAILABLE);
    var i, a, t := Get(last, INGRAM), Get(last, ALSO), Get(last, TD_SYNNEX);
    if g.None? || c.None? || v.None? || i.None? || a.None? || t.None? then Raised(KeyError)
    else Ok([(GEIZHALS, Copied(g.value)), (CAMPUSPOINT, Copied(c.value)), (AVAILABLE, Copied(v.value)),
             (EDUSTORE, Fetched(EdustorePrice, urlEdu)),
             (INGRAM, Copied(i.value)), (ALSO, Copied(a.value)), (TD_SYNNEX, Copied(t.value))])
  }

  /** The three distributor fields. */
  datatype Availabilities = Availabilities(ingram: Value, also: Value, tdSynnex: Value)

  function AllThree(text: string): Availabilities {
    Availabilities(Str(text), Str(text), Str(text))
  }

  /** What `get_product_by_id(sku)` returns or raises for this transport. */
  function ProductLookup(client: ItScopeClient, transport: Request -> Response, sku: string): Result<seq<SupplierRecord>> {
    match transport(Request(client.ProductUrl(sku, true), ItScopeClient.RealtimeParam(true)))
    case HttpFailure => Raised(RequestError)
    case UndecodableBody => Raised(JsonDecodeError)
    case Body(json) => Suppliers(json)
  }

  /** The `try` around the lookup: the three getters on a non-empty answer, and one
      sentinel for all three fields on an empty answer, on a decode error, and on any
      other exception (a getter's `KeyError` included). */
  function DistributorTexts(lookup: Result<seq<SupplierRecord>>): Availabilities {
    match lookup
    case Raised(JsonDecodeError) => AllThree(NO_SUCH_PRODUCT)
    case Raised(_) => AllThree(FETCH_ERROR)
    case Ok(data) =>
      if |data| == 0 then AllThree(NO_DATA)
      else
        var i, a, t := Interpretation(data, SupplierName(Ingram)), Interpretation(data, SupplierName(Also)),
                       Interpretation(data, SupplierName(TdSynnex));
        if i.Ok? && a.Ok? && t.Ok? then Availabilities(i.value, a.value, t.value)
        else AllThree(FETCH_ERROR)
  }

  /** A shop price: scraped unless the locator is `"^"`. */
  function PriceTask(key: string, adapter: Adapter, url: string): Task {
    if url != NO_LOCATOR then (key, Fetched(adapter, url)) else (key, Constant(Str(NO_VALID_URL)))
  }

  /** The fetch branch, in the order it appends. */
  function FreshTasks(urlGh: string, urlCamp: string, urlEdu: string, d: Availabilities): seq<Task> {
    ScrapeTasks(urlGh, urlCamp, urlEdu) + DistributorTasks(d)
  }

  /** The two shop prices, then the edustore price and stock. */
  function ScrapeTasks(urlGh: string, urlCamp: string, urlEdu: string): seq<Task> {
    [PriceTask(GEIZHALS, GeizhalsPrice, urlGh), PriceTask(CAMPUSPOINT, CampuspointPrice, urlCamp)] +
    (if urlEdu != NO_LOCATOR then [(EDUSTORE, Fetched(EdustorePrice, urlEdu)), (AVAILABLE, Fetched(EdustoreStock, urlEdu))]
     else [(EDUSTORE, Constant(Str(NO_VALID_URL))), (AVAILABLE, Constant(Str(NO_VALID_URL)))])
  }

  /** The three distributor availabilities. */
  function DistributorTasks(d: Availabilities): seq<Task> {
    [(INGRAM, Constant(d.ingram)), (ALSO, Constant(d.also)), (TD_SYNNEX, Constant(d.tdSynnex))]
  }

  /** The task list of a row whose columns were read. */
  function Tasks(sku: string, urlGh: string, urlCamp: string, urlEdu: string, last: Dict,
                 client: ItScopeClient, transport: Request -> Response): Result<seq<Task>>
  {
    match ReuseCache(sku, last)
    case Raised(e) => Raised(e)
    case Ok(reuse) =>
      if reuse then CachedTasks(last, urlEdu)
      else Ok(FreshTasks(urlGh, urlCamp, urlEdu, DistributorTexts(ProductLookup(client, transport, FirstBlock(sku)))))
  }

  // ---------------------------------------------------------------- gather and assemble

  /** What `retry_after_timeout(func, url, semaphore)` returns with its default of three
      attempts: the first result, or the failure sentinel. */
  function RetryValue(call: nat -> Attempt<string>): string {
    match FirstSuccess(call, AttemptCount(DEFAULT_RETRIES))
    case Some(k) => call(k).value
    case None => Sentinel(DEFAULT_RETRIES)
  }

  function TaskResult(s: Source, scrape: Scrapers): Value {
    match s
    case Copied(v) => v
    case Constant(v) => v
    case Fetched(a, url) => Str(RetryValue(scrape(a, url)))
  }

  /** `asyncio.gather`: the results, in task order. */
  function Gathered(tasks: seq<Task>, scrape: Scrapers): seq<Value> {
    seq(|tasks|, i requires 0 <= i < |tasks| => TaskResult(tasks[i].1, scrape))
  }

  /** `for i, (key, _) in enumerate(tasks): prices[key] = results[i]`. */
  function Assemble(tasks: seq<Task>, results: seq<Value>): Dict
    requires |results| == |tasks|
  {
    if |tasks| == 0 then []
    else
      var n := |tasks| - 1;
      Put(Assemble(tasks[..n], results[..n]), tasks[n].0, results[n])
  }

  /** The whole of `process_sku`: the returned SKU and the prices record. */
  function Process(row: Row, last: Dict, client: ItScopeClient, transport: Request -> Response,
                   scrape: Scrapers): Result<(string, Dict)>
  {
    var sku, gh, camp, edu := Column(row, "SKU"), Column(row, "Geizhals link"), Column(row, "Campuspoint link"),
                              Column(row, "edustore link");
    if sku.Raised? || gh.Raised? || camp.Raised? || edu.Raised? then Raised(KeyError)
    else match Tasks(sku.value, gh.value, camp.value, edu.value, last, client, transport)
      case Raised(e) => Raised(e)
      case Ok(tasks) => Ok((sku.value, Assemble(tasks, Gathered(tasks, scrape))))
  }

  // ---------------------------------------------------------------- the method

  /** `process_sku`, step by step: the columns read, the reuse test, the task list built
      by appends, the scrapes run through the retry wrapper, and the record filled in an
      indexed loop. */
  method ProcessSku(row: Row, last: Dict, client: ItScopeClient, transport: Request -> Response,
                    scrape: Scrapers)
    returns (r: Result<(string, Dict)>)
    ensures r == Process(row, last, client, transport, scrape)
  {
    if "SKU" !in row || "Geizhals link" !in row || "Campuspoint link" !in row || "edustore link" !in row {
      return Raised(KeyError);
    }
    var sku, urlGh, urlCamp, urlEdu := row["SKU"], row["Geizhals link"], row["Campuspoint link"], row["edustore link"];
    var firstBlock := Split(sku, '-')[0];

    var reuse := false;
    if |last| > 0 {
      var previous := Get(last, "SKU");
      if previous.None? {
        return Raised(KeyError);
      }
      if previous.value.NoneValue? {
        return Raised(AttributeError);
      }
      reuse := SharesToken(previous.value.s, sku);
    }

    var tasks: seq<Task>;
    if reuse {
      var cached := CachedTaskList(last, urlEdu);
      if cached.Raised? {
        return Raised(cached.error);
      }
      tasks := cached.value;
    } else {
      tasks := FreshTaskList(urlGh, urlCamp, urlEdu, client, transport, firstBlock);
    }
    var results := GatherResults(tasks, scrape);
    var prices := FillPrices(tasks, results);
    r := Ok((sku, prices));
  }

  /** Lines 58 to 64: the reuse branch's appends; each read of the previous record
      raises when its key is missing. */
  method CachedTaskList(last: Dict, urlEdu: string) returns (r: Result<seq<Task>>)
    ensures r == CachedTasks(last, urlEdu)
  {
    var g, c, v := Get(last, GEIZHALS), Get(last, CAMPUSPOINT), Get(last, AVAILABLE);
    var i, a, t := Get(last, INGRAM), Get(last, ALSO), Get(last, TD_SYNNEX);
    if g.None? || c.None? || v.None? || i.None? || a.None? || t.None? {
      return Raised(KeyError);
    }
    r := Ok([(GEIZHALS, Copied(g.value)), (CAMPUSPOINT, Copied(c.value)), (AVAILABLE, Copied(v.value)),
             (EDUSTORE, Fetched(EdustorePrice, urlEdu)),
             (INGRAM, Copied(i.value)), (ALSO, Copied(a.value)), (TD_SYNNEX, Copied(t.value))]);
  }

  /** The fetch branch's appends, with the one distributor lookup. */
  method FreshTaskList(urlGh: string, urlCamp: string, urlEdu: string, client: ItScopeClient,
                       transport: Request -> Response, firstBlock: string)
    returns (tasks: seq<Task>)
    ensures tasks == FreshTasks(urlGh, urlCamp, urlEdu, DistributorTexts(ProductLookup(client, transport, firstBlock)))
  {
    tasks := [];
    if urlGh != NO_LOCATOR {
      tasks := tasks + [(GEIZHALS, Fetched(GeizhalsPrice, urlGh))];
    } else {
      tasks := tasks + [(GEIZHALS, Constant(Str(NO_VALID_URL)))];
    }
    if urlCamp != NO_LOCATOR {
      tasks := tasks + [(CAMPUSPOINT, Fetched(CampuspointPrice, urlCamp))];
    } else {
      tasks := tasks + [(CAMPUSPOINT, Constant(Str(NO_VALID_URL)))];
    }
    if urlEdu != NO_LOCATOR {
      tasks := tasks + [(EDUSTORE, Fetched(EdustorePrice, urlEdu))];
      tasks := tasks + [(AVAILABLE, Fetched(EdustoreStock, urlEdu))];
    } else {
      tasks := tasks + [(EDUSTORE, Constant(Str(NO_VALID_URL)))];
      tasks := tasks + [(AVAILABLE, Constant(Str(NO_VALID_URL)))];
    }
    assert tasks == ScrapeTasks(urlGh, urlCamp, urlEdu);
    var d := LookupDistributors(client, transport, firstBlock);
    tasks := tasks + [(INGRAM, Constant(d.ingram))];
    tasks := tasks + [(ALSO, Constant(d.also))];
    tasks := tasks + [(TD_SYNNEX, Constant(d.tdSynnex))];
    assert tasks == ScrapeTasks(urlGh, urlCamp, urlEdu) + DistributorTasks(d);
  }

  /** The `try` around `get_product_by_id(sku_first_block)` and the three getters. */
  method LookupDistributors(client: ItScopeClient, transport: Request -> Response, firstBlock: string)
    returns (d: Availabilities)
    ensures d == DistributorTexts(ProductLookup(client, transport, firstBlock))
  {
    d := AllThree(FETCH_ERROR);
    var lookup := client.GetProductById(firstBlock, true, true, transport);
    match lookup {
      case Raised(e) =>
        if e == JsonDecodeError { d := AllThree(NO_SUCH_PRODUCT); }
      case Ok(data) =>
        if |data| == 0 {
          d := AllThree(NO_DATA);
        } else {
          var ingram := Availability(data, Ingram);
          if ingram.Ok? {
            var also := Availability(data, Also);
            if also.Ok? {
              var tdSynnex := Availability(data, TdSynnex);
              if tdSynnex.Ok? {
                d := Availabilities(ingram.value, also.value, tdSynnex.value);
              }
            }
          }
        }
    }
  }

  /** `await asyncio.gather(...)`, one awaitable after the other. */
  method GatherResults(tasks: seq<Task>, scrape: Scrapers) returns (results: seq<Value>)
    ensures results == Gathered(tasks, scrape)
  {
    results := [];
    var k := 0;
    while k < |tasks|
      invariant 0 <= k <= |tasks|
      invariant |results| == k
      invariant forall j :: 0 <= j < k ==> results[j] == TaskResult(tasks[j].1, scrape)
    {
      var value: Value;
      match tasks[k].1 {
        case Copied(v) => value := v;
        case Constant(v) => value := v;
        case Fetched(a, url) =>
          var outcome, _, _ := RetryAfterTimeout(scrape(a, url), DEFAULT_RETRIES, DEFAULT_DELAY);
          value := Str(match outcome case Succeeded(v) => v case GaveUp(m) => m);
      }
      results := results + [value];
      k := k + 1;
    }
  }

  /** Lines 137 to 139: the record filled key by key. */
  method FillPrices(tasks: seq<Task>, results: seq<Value>) returns (prices: Dict)
    requires |results| == |tasks|
    ensures prices == Assemble(tasks, results)
  {
    prices := [];
    var k := 0;
    while k < |tasks|
      invariant 0 <= k <= |tasks|
      invariant prices == Assemble(tasks[..k], results[..k])
    {
      assert tasks[..k + 1][..k] == tasks[..k] && results[..k + 1][..k] == results[..k];
      prices := Put(prices, tasks[k].0, results[k]);
      k := k + 1;
    }
    assert tasks[..k] == tasks && results[..k] == results;
  }

  // ---------------------------------------------------------------- lemmas: the record

  /** Filling the record from tasks with distinct keys pairs every key with its own
      task's result. */
  lemma {:induction false} AssembleGet(tasks: seq<Task>, results: seq<Value>, i: nat)
    requires DistinctKeys(tasks) && |results| == |tasks| && i < |tasks|
    ensures Get(Assemble(tasks, results), tasks[i].0) == Some(results[i])
  {
    var n := |tasks| - 1;
    var prefix := Assemble(tasks[..n], results[..n]);
    if i < n {
      assert tasks[..n][i] == tasks[i] && results[..n][i] == results[i];
      assert DistinctKeys(tasks[..n]);
      AssembleGet(tasks[..n], results[..n], i);
      PutGetOther(prefix, tasks[n].0, results[n], tasks[i].0);
    } else {
      PutGetSame(prefix, tasks[n].0, results[n]);
    }
  }

  /** ... and the record's keys are the tasks' keys, in task order. */
  lemma {:induction false} AssembleKeys(tasks: seq<Task>, results: seq<Value>)
    requires DistinctKeys(tasks) && |results| == |tasks|
    ensures Keys(Assemble(tasks, results)) == TaskKeys(tasks)
  {
    if |tasks| > 0 {
      var n := |tasks| - 1;
      assert DistinctKeys(tasks[..n]) by {
        forall i, j | 0 <= i < j < n ensures tasks[..n][i].0 != tasks[..n][j].0 {
          assert tasks[..n][i] == tasks[i] && tasks[..n][j] == tasks[j];
        }
      }
      AssembleKeys(tasks[..n], results[..n]);
      var prefix := Assemble(tasks[..n], results[..n]);
      PutKeys(prefix, tasks[n].0, results[n]);
      LastKeyFresh(tasks);
      TaskKeysSnoc(tasks);
    }
  }

  /** The last task's key is not among the earlier keys. */
  lemma LastKeyFresh(tasks: seq<Task>)
    requires DistinctKeys(tasks) && |tasks| > 0
    ensures tasks[|tasks| - 1].0 !in TaskKeys(tasks[..|tasks| - 1])
  {
    var n := |tasks| - 1;
    forall j | 0 <= j < n ensures TaskKeys(tasks[..n])[j] != tasks[n].0 {
      assert tasks[..n][j] == tasks[j];
    }
  }

  lemma TaskKeysSnoc(tasks: seq<Task>)
    requires |tasks| > 0
    ensures TaskKeys(tasks) == TaskKeys(tasks[..|tasks| - 1]) + [tasks[|tasks| - 1].0]
  {
    var n := |tasks| - 1;
    var a, b := TaskKeys(tasks), TaskKeys(tasks[..n]) + [tasks[n].0];
    assert |a| == |b|;
    forall i | 0 <= i < |tasks| ensures a[i] == b[i] {
      if i < n { assert b[i] == TaskKeys(tasks[..n])[i] == tasks[..n][i].0; }
    }
  }

  /** The keys in the order the fetch branch appends them, and in the order the reuse
      branch does. */
  const FetchOrder: seq<string> := [GEIZHALS, CAMPUSPOINT, EDUSTORE, AVAILABLE, INGRAM, ALSO, TD_SYNNEX]
  const ReuseOrder: seq<string> := [GEIZHALS, CAMPUSPOINT, AVAILABLE, EDUSTORE, INGRAM, ALSO, TD_SYNNEX]

  /** Seven tasks with distinct keys, covering exactly the seven fields. */
  predicate CoversFields(tasks: seq<Task>) {
    |tasks| == 7 && DistinctKeys(tasks) && (set k | k in TaskKeys(tasks)) == Fields
  }

  /** The seven field names start with seven different letters. */
  lemma FieldHeads()
    ensures |GEIZHALS| > 0 && GEIZHALS[0] == 'G' && |CAMPUSPOINT| > 0 && CAMPUSPOINT[0] == 'C'
    ensures |EDUSTORE| > 0 && EDUSTORE[0] == 'e' && |AVAILABLE| > 0 && AVAILABLE[0] == 'V'
    ensures |INGRAM| > 0 && INGRAM[0] == 'I' && |ALSO| > 0 && ALSO[0] == 'A'
    ensures |TD_SYNNEX| > 0 && TD_SYNNEX[0] == 'T'
  {
  }

  /** A task list whose keys come in either branch's order covers the fields. */
  lemma KeyOrderCovers(tasks: seq<Task>)
    requires TaskKeys(tasks) == FetchOrder || TaskKeys(tasks) == ReuseOrder
    ensures CoversFields(tasks)
  {
    var ks := TaskKeys(tasks);
    FieldHeads();
    forall i, j | 0 <= i < j < |tasks| ensures tasks[i].0 != tasks[j].0 {
      assert ks[i][0] != ks[j][0];
    }
    assert forall k :: k in ks <==> k in Fields;
  }

  lemma FreshTasksCover(urlGh: string, urlCamp: string, urlEdu: string, d: Availabilities)
    ensures CoversFields(FreshTasks(urlGh, urlCamp, urlEdu, d))
  {
    var tasks := FreshTasks(urlGh, urlCamp, urlEdu, d);
    assert TaskKeys(tasks) == FetchOrder;
    KeyOrderCovers(tasks);
  }

  lemma CachedTasksCover(last: Dict, urlEdu: string)
    requires CachedTasks(last, urlEdu).Ok?
    ensures CoversFields(CachedTasks(last, urlEdu).value)
  {
    var tasks := CachedTasks(last, urlEdu).value;
    assert TaskKeys(tasks) == ReuseOrder;
    KeyOrderCovers(tasks);
  }

  /** Both task lists cover the seven fields once each. */
  lemma TaskListsCoverFields(sku: string, urlGh: string, urlCamp: string, urlEdu: string, last: Dict,
                             client: ItScopeClient, transport: Request -> Response)
    requires Tasks(sku, urlGh, urlCamp, urlEdu, last, client, transport).Ok?
    ensures var tasks := Tasks(sku, urlGh, urlCamp, urlEdu, last, client, transport).value;
      |tasks| == 7 && DistinctKeys(tasks) && (set k | k in TaskKeys(tasks)) == Fields
  {
    var reuse := ReuseCache(sku, last);
    if reuse.value {
      CachedTasksCover(last, urlEdu);
    } else {
      FreshTasksCover(urlGh, urlCamp, urlEdu, DistributorTexts(ProductLookup(client, transport, FirstBlock(sku))));
    }
  }

  /** The task list of a row whose four columns are present. */
  function RowTasks(row: Row, last: Dict, client: ItScopeClient, transport: Request -> Response): Result<seq<Task>>
    requires "SKU" in row && "Geizhals link" in row && "Campuspoint link" in row && "edustore link" in row
  {
    Tasks(row["SKU"], row["Geizhals link"], row["Campuspoint link"], row["edustore link"], last, client, transport)
  }

  /** A processed row had its four columns and a task list, and its record is that list
      filled with the gathered results. */
  lemma ProcessParts(row: Row, last: Dict, client: ItScopeClient, transport: Request -> Response,
                     scrape: Scrapers)
    requires Process(row, last, client, transport, scrape).Ok?
    ensures "SKU" in row && "Geizhals link" in row && "Campuspoint link" in row && "edustore link" in row
    ensures RowTasks(row, last, client, transport).Ok?
    ensures var tasks := RowTasks(row, last, client, transport).value;
      Process(row, last, client, transport, scrape).value == (row["SKU"], Assemble(tasks, Gathered(tasks, scrape)))
  {
  }

  /** The fetch branch's record: the shop prices scraped or "No valid URL" by their
      locators, ... */
  lemma FreshShopRecord(urlGh: string, urlCamp: string, urlEdu: string, d: Availabilities, scrape: Scrapers)
    ensures var tasks := FreshTasks(urlGh, urlCamp, urlEdu, d);
      var prices := Assemble(tasks, Gathered(tasks, scrape));
      Get(prices, GEIZHALS) == Some(Str(if urlGh != NO_LOCATOR then RetryValue(scrape(GeizhalsPrice, urlGh)) else NO_VALID_URL)) &&
      Get(prices, CAMPUSPOINT) == Some(Str(if urlCamp != NO_LOCATOR then RetryValue(scrape(CampuspointPrice, urlCamp)) else NO_VALID_URL))
  {
    var tasks := FreshTasks(urlGh, urlCamp, urlEdu, d);
    FreshKeysDistinct(urlGh, urlCamp, urlEdu, d);
    FieldOf(tasks, scrape, 0, GEIZHALS, PriceTask(GEIZHALS, GeizhalsPrice, urlGh).1);
    FieldOf(tasks, scrape, 1, CAMPUSPOINT, PriceTask(CAMPUSPOINT, CampuspointPrice, urlCamp).1);
  }

  /** ... the two edustore fields both scraped or both "No valid URL", ... */
  lemma FreshEdustoreRecord(urlGh: string, urlCamp: string, urlEdu: string, d: Availabilities, scrape: Scrapers)
    ensures var tasks := FreshTasks(urlGh, urlCamp, urlEdu, d);
      var prices := Assemble(tasks, Gathered(tasks, scrape));
      Get(prices, EDUSTORE) == Some(Str(if urlEdu != NO_LOCATOR then RetryValue(scrape(EdustorePrice, urlEdu)) else NO_VALID_URL)) &&
      Get(prices, AVAILABLE) == Some(Str(if urlEdu != NO_LOCATOR then RetryValue(scrape(EdustoreStock, urlEdu)) else NO_VALID_URL))
  {
    var tasks := FreshTasks(urlGh, urlCamp, urlEdu, d);
    FreshKeysDistinct(urlGh, urlCamp, urlEdu, d);
    if urlEdu != NO_LOCATOR {
      FieldOf(tasks, scrape, 2, EDUSTORE, Fetched(EdustorePrice, urlEdu));
      FieldOf(tasks, scrape, 3, AVAILABLE, Fetched(EdustoreStock, urlEdu));
    } else {
      FieldOf(tasks, scrape, 2, EDUSTORE, Constant(Str(NO_VALID_URL)));
      FieldOf(tasks, scrape, 3, AVAILABLE, Constant(Str(NO_VALID_URL)));
    }
  }

  /** ... and the distributor fields from the lookup. */
  lemma FreshDistributorRecord(urlGh: string, urlCamp: string, urlEdu: string, d: Availabilities, scrape: Scrapers)
    ensures var tasks := FreshTasks(urlGh, urlCamp, urlEdu, d);
      var prices := Assemble(tasks, Gathered(tasks, scrape));
      Get(prices, INGRAM) == Some(d.ingram) && Get(prices, ALSO) == Some(d.also) && Get(prices, TD_SYNNEX) == Some(d.tdSynnex)
  {
    var tasks := FreshTasks(urlGh, urlCamp, urlEdu, d);
    FreshKeysDistinct(urlGh, urlCamp, urlEdu, d);
    FieldOf(tasks, scrape, 4, INGRAM, Constant(d.ingram));
    FieldOf(tasks, scrape, 5, ALSO, Constant(d.also));
    FieldOf(tasks, scrape, 6, TD_SYNNEX, Constant(d.tdSynnex));
  }

  lemma FreshKeysDistinct(urlGh: string, urlCamp: string, urlEdu: string, d: Availabilities)
    ensures DistinctKeys(FreshTasks(urlGh, urlCamp, urlEdu, d))
  {
    FreshTasksCover(urlGh, urlCamp, urlEdu, d);
  }

  lemma CachedKeysDistinct(last: Dict, urlEdu: string)
    requires CachedTasks(last, urlEdu).Ok?
    ensures DistinctKeys(CachedTasks(last, urlEdu).value)
  {
    CachedTasksCover(last, urlEdu);
  }

  /** The key of task `i` holds the result of its source. */
  lemma FieldOf(tasks: seq<Task>, scrape: Scrapers, i: nat, key: string, source: Source)
    requires DistinctKeys(tasks) && i < |tasks| && tasks[i] == (key, source)
    ensures Get(Assemble(tasks, Gathered(tasks, scrape)), key) == Some(TaskResult(source, scrape))
  {
    FieldResult(tasks, scrape, i);
  }

  /** A row that does not reuse gets the fetch branch's list. */
  lemma FreshRowTasks(row: Row, last: Dict, client: ItScopeClient, transport: Request -> Response)
    requires "SKU" in row && "Geizhals link" in row && "Campuspoint link" in row && "edustore link" in row
    requires ReuseCache(row["SKU"], last) == Ok(false)
    ensures RowTasks(row, last, client, transport) ==
      Ok(FreshTasks(row["Geizhals link"], row["Campuspoint link"], row["edustore link"],
                    DistributorTexts(ProductLookup(client, transport, FirstBlock(row["SKU"])))))
  {
  }

  /** With distinct keys, each task's key holds that task's result in the filled record. */
  lemma FieldResult(tasks: seq<Task>, scrape: Scrapers, i: nat)
    requires DistinctKeys(tasks) && i < |tasks|
    ensures Get(Assemble(tasks, Gathered(tasks, scrape)), tasks[i].0) == Some(TaskResult(tasks[i].1, scrape))
  {
    AssembleGet(tasks, Gathered(tasks, scrape), i);
  }

  /** A processed row returns its own SKU and a record of exactly the seven fields, each
      with the result of its own task. */
  lemma ProcessedRecord(row: Row, last: Dict, client: ItScopeClient, transport: Request -> Response,
                        scrape: Scrapers)
    requires Process(row, last, client, transport, scrape).Ok?
    ensures "SKU" in row && Process(row, last, client, transport, scrape).value.0 == row["SKU"]
    ensures var prices := Process(row, last, client, transport, scrape).value.1;
      |prices| == 7 && UniqueKeys(prices) && (set k | k in Keys(prices)) == Fields
  {
    ProcessParts(row, last, client, transport, scrape);
    var tasks := RowTasks(row, last, client, transport).value;
    TaskListsCoverFields(row["SKU"], row["Geizhals link"], row["Campuspoint link"], row["edustore link"], last, client, transport);
    var results := Gathered(tasks, scrape);
    var prices := Assemble(tasks, results);
    AssembleKeys(tasks, results);
    assert Keys(prices) == TaskKeys(tasks);
    assert UniqueKeys(prices) by {
      forall i, j | 0 <= i < j < |prices| ensures prices[i].0 != prices[j].0 {
        assert Keys(prices)[i] == prices[i].0 && Keys(prices)[j] == prices[j].0;
      }
    }
  }

  /** The value under each task's key is that task's result. */
  lemma PairedByPosition(row: Row, last: Dict, client: ItScopeClient, transport: Request -> Response,
                         scrape: Scrapers, i: nat)
    requires Process(row, last, client, transport, scrape).Ok?
    requires i < 7
    ensures var tasks := Tasks(row["SKU"], row["Geizhals link"], row["Campuspoint link"], row["edustore link"],
                               last, client, transport).value;
      Get(Process(row, last, client, transport, scrape).value.1, tasks[i].0) == Some(TaskResult(tasks[i].1, scrape))
  {
    ProcessParts(row, last, client, transport, scrape);
    var tasks := RowTasks(row, last, client, transport).value;
    TaskListsCoverFields(row["SKU"], row["Geizhals link"], row["Campuspoint link"], row["edustore link"], last, client, transport);
    FieldResult(tasks, scrape, i);
  }

  // ---------------------------------------------------------------- lemmas: the cache

  /** Reuse happens exactly when the previous record is non-empty and some token of its
      SKU is a token of this one; a previous record without its SKU raises `KeyError`, and
      one whose SKU is `None` raises `AttributeError`. */
  lemma ReuseIffSharedToken(sku: string, last: Dict)
    ensures ReuseCache(sku, last) == Ok(true) <==>
      |last| > 0 && Get(last, "SKU").Some? && Get(last, "SKU").value.Str? &&
      exists t :: t in Split(Get(last, "SKU").value.s, '-') && t in Split(sku, '-')
    ensures ReuseCache(sku, last) == Raised(KeyError) <==> |last| > 0 && Get(last, "SKU").None?
    ensures ReuseCache(sku, last) == Raised(AttributeError) <==> |last| > 0 && Get(last, "SKU") == Some(NoneValue)
  {
    if |last| > 0 && Get(last, "SKU").Some? && Get(last, "SKU").value.Str? {
      var previous := Get(last, "SKU").value.s;
      if SharesToken(previous, sku) {
        var t :| t in TokenSet(previous, '-') * TokenSet(sku, '-');
        assert t in Split(previous, '-') && t in Split(sku, '-');
      }
      if exists t :: t in Split(previous, '-') && t in Split(sku, '-') {
        var t :| t in Split(previous, '-') && t in Split(sku, '-');
        assert t in TokenSet(previous, '-') * TokenSet(sku, '-');
      }
    }
  }

  /** The token test does not depend on which SKU came first. */
  lemma SharesTokenSymmetric(a: string, b: string)
    ensures SharesToken(a, b) == SharesToken(b, a)
  {
    assert TokenSet(a, '-') * TokenSet(b, '-') == TokenSet(b, '-') * TokenSet(a, '-');
  }

  /** An empty previous record (the first row) never reuses. */
  lemma EmptyRecordNeverReuses(sku: string)
    ensures ReuseCache(sku, []) == Ok(false)
  {
  }

  /** SKUs with the same first block share a token, so variants of one base product reuse. */
  lemma SameFirstBlockShares(a: string, b: string)
    requires FirstBlock(a) == FirstBlock(b)
    ensures SharesToken(a, b)
  {
    assert FirstBlock(a) in TokenSet(a, '-') * TokenSet(b, '-');
  }

  /** Any common token suffices, not only the first block: a later token shared by two
      different base products also reuses. */
  lemma LaterTokenShares()
    ensures FirstBlock("ABC-EDU") != FirstBlock("XYZ-EDU")
    ensures SharesToken("ABC-EDU", "XYZ-EDU")
  {
    assert "ABC-EDU" == "ABC" + ['-'] + "EDU";
    assert "XYZ-EDU" == "XYZ" + ['-'] + "EDU";
    SharedSecondToken("ABC-EDU", "XYZ-EDU", "ABC", "XYZ", "EDU");
  }

  /** Two SKUs `<p>-<t>` and `<q>-<t>` with different first blocks share the token `t`. */
  lemma SharedSecondToken(a: string, b: string, p: string, q: string, t: string)
    requires a == p + ['-'] + t && b == q + ['-'] + t
    requires '-' !in p && '-' !in q && '-' !in t && p != q
    ensures FirstBlock(a) != FirstBlock(b)
    ensures SharesToken(a, b)
  {
    SplitPrefix(p, t, '-');
    SplitPrefix(q, t, '-');
    SplitSepFree(t, '-');
    assert t in TokenSet(a, '-') * TokenSet(b, '-');
  }

  // ---------------------------------------------------------------- lemmas: the branches

  /** In the reuse branch six fields are the previous record's values verbatim, and the
      edustore price is scraped afresh through the retry wrapper whatever its locator. */
  lemma ReuseCopiesSixFields(row: Row, last: Dict, client: ItScopeClient, transport: Request -> Response,
                             scrape: Scrapers)
    requires Process(row, last, client, transport, scrape).Ok?
    requires ReuseCache(row["SKU"], last) == Ok(true)
    ensures var prices := Process(row, last, client, transport, scrape).value.1;
      Get(prices, GEIZHALS) == Get(last, GEIZHALS) && Get(prices, CAMPUSPOINT) == Get(last, CAMPUSPOINT) &&
      Get(prices, AVAILABLE) == Get(last, AVAILABLE) && Get(prices, INGRAM) == Get(last, INGRAM) &&
      Get(prices, ALSO) == Get(last, ALSO) && Get(prices, TD_SYNNEX) == Get(last, TD_SYNNEX)
    ensures Get(Process(row, last, client, transport, scrape).value.1, EDUSTORE) ==
      Some(Str(RetryValue(scrape(EdustorePrice, row["edustore link"]))))
  {
    ProcessParts(row, last, client, transport, scrape);
    var tasks := CachedTasks(last, row["edustore link"]).value;
    assert RowTasks(row, last, client, transport) == Ok(tasks);
    CachedKeysDistinct(last, row["edustore link"]);
    FieldResult(tasks, scrape, 0);
    FieldResult(tasks, scrape, 1);
    FieldResult(tasks, scrape, 2);
    FieldResult(tasks, scrape, 3);
    FieldResult(tasks, scrape, 4);
    FieldResult(tasks, scrape, 5);
    FieldResult(tasks, scrape, 6);
  }

  /** In the reuse branch only the edustore price adapter is scheduled. */
  lemma ReuseScrapesOnlyEdustorePrice(last: Dict, urlEdu: string)
    requires CachedTasks(last, urlEdu).Ok?
    ensures Scraped(CachedTasks(last, urlEdu).value) == {EdustorePrice}
  {
    var tasks := CachedTasks(last, urlEdu).value;
    assert tasks[3].1.Fetched?;
    forall a | a in Scraped(tasks) ensures a == EdustorePrice {
      var i :| 0 <= i < |tasks| && tasks[i].1.Fetched? && tasks[i].1.adapter == a;
      assert i == 3;
    }
  }

  /** In the fetch branch an adapter is scheduled exactly when its locator is not `"^"`;
      the edustore locator serves both the price and the stock adapter. */
  lemma FreshScrapesByLocator(urlGh: string, urlCamp: string, urlEdu: string, d: Availabilities)
    ensures var s := Scraped(FreshTasks(urlGh, urlCamp, urlEdu, d));
      (GeizhalsPrice in s <==> urlGh != NO_LOCATOR) &&
      (CampuspointPrice in s <==> urlCamp != NO_LOCATOR) &&
      (EdustorePrice in s <==> urlEdu != NO_LOCATOR) &&
      (EdustoreStock in s <==> urlEdu != NO_LOCATOR)
  {
    var tasks := FreshTasks(urlGh, urlCamp, urlEdu, d);
    var s := Scraped(tasks);
    assert |tasks| == 7;
    if urlGh != NO_LOCATOR { assert tasks[0].1.Fetched? && tasks[0].1.adapter == GeizhalsPrice; }
    if urlCamp != NO_LOCATOR { assert tasks[1].1.Fetched? && tasks[1].1.adapter == CampuspointPrice; }
    if urlEdu != NO_LOCATOR {
      assert tasks[2].1.Fetched? && tasks[2].1.adapter == EdustorePrice;
      assert tasks[3].1.Fetched? && tasks[3].1.adapter == EdustoreStock;
    }
    forall a | a in s
      ensures a == GeizhalsPrice ==> urlGh != NO_LOCATOR
      ensures a == CampuspointPrice ==> urlCamp != NO_LOCATOR
      ensures (a == EdustorePrice || a == EdustoreStock) ==> urlEdu != NO_LOCATOR
    {
      var i :| 0 <= i < |tasks| && tasks[i].1.Fetched? && tasks[i].1.adapter == a;
      assert i < 4;
    }
  }

  /** The fetch branch's shop prices: a scrape result, or "No valid URL" for a `"^"`
      locator. */
  lemma FreshShopPrices(row: Row, last: Dict, client: ItScopeClient, transport: Request -> Response,
                        scrape: Scrapers)
    requires Process(row, last, client, transport, scrape).Ok?
    requires ReuseCache(row["SKU"], last) == Ok(false)
    ensures var prices := Process(row, last, client, transport, scrape).value.1;
      var gh, camp := row["Geizhals link"], row["Campuspoint link"];
      Get(prices, GEIZHALS) == Some(Str(if gh != NO_LOCATOR then RetryValue(scrape(GeizhalsPrice, gh)) else NO_VALID_URL)) &&
      Get(prices, CAMPUSPOINT) == Some(Str(if camp != NO_LOCATOR then RetryValue(scrape(CampuspointPrice, camp)) else NO_VALID_URL))
  {
    ProcessParts(row, last, client, transport, scrape);
    var d := DistributorTexts(ProductLookup(client, transport, FirstBlock(row["SKU"])));
    FreshRowTasks(row, last, client, transport);
    FreshShopRecord(row["Geizhals link"], row["Campuspoint link"], row["edustore link"], d, scrape);
  }

  /** The fetch branch's edustore fields: both scraped, or both "No valid URL" for a
      `"^"` edustore locator. */
  lemma FreshEdustoreFields(row: Row, last: Dict, client: ItScopeClient, transport: Request -> Response,
                            scrape: Scrapers)
    requires Process(row, last, client, transport, scrape).Ok?
    requires ReuseCache(row["SKU"], last) == Ok(false)
    ensures var prices := Process(row, last, client, transport, scrape).value.1;
      var edu := row["edustore link"];
      Get(prices, EDUSTORE) == Some(Str(if edu != NO_LOCATOR then RetryValue(scrape(EdustorePrice, edu)) else NO_VALID_URL)) &&
      Get(prices, AVAILABLE) == Some(Str(if edu != NO_LOCATOR then RetryValue(scrape(EdustoreStock, edu)) else NO_VALID_URL))
  {
    ProcessParts(row, last, client, transport, scrape);
    var d := DistributorTexts(ProductLookup(client, transport, FirstBlock(row["SKU"])));
    FreshRowTasks(row, last, client, transport);
    FreshEdustoreRecord(row["Geizhals link"], row["Campuspoint link"], row["edustore link"], d, scrape);
  }

  /** The fetch branch's distributor fields come from the one lookup of the SKU's first
      block. */
  lemma FreshDistributorFields(row: Row, last: Dict, client: ItScopeClient, transport: Request -> Response,
                               scrape: Scrapers)
    requires Process(row, last, client, transport, scrape).Ok?
    requires ReuseCache(row["SKU"], last) == Ok(false)
    ensures var prices := Process(row, last, client, transport, scrape).value.1;
      var d := DistributorTexts(ProductLookup(client, transport, FirstBlock(row["SKU"])));
      Get(prices, INGRAM) == Some(d.ingram) && Get(prices, ALSO) == Some(d.also) &&
      Get(prices, TD_SYNNEX) == Some(d.tdSynnex)
  {
    ProcessParts(row, last, client, transport, scrape);
    var d := DistributorTexts(ProductLookup(client, transport, FirstBlock(row["SKU"])));
    FreshRowTasks(row, last, client, transport);
    FreshDistributorRecord(row["Geizhals link"], row["Campuspoint link"], row["edustore link"], d, scrape);
  }

  /** The transport is consulted once, for the first block of the SKU: transports that
      answer that one request alike give the same result, and in the reuse branch the
      transport is not consulted at all. */
  lemma OneLookupByFirstBlock(row: Row, last: Dict, client: ItScopeClient, t1: Request -> Response,
                              t2: Request -> Response, scrape: Scrapers)
    requires "SKU" in row
    requires ReuseCache(row["SKU"], last) == Ok(true) ||
             t1(Request(client.ProductUrl(FirstBlock(row["SKU"]), true), "true")) ==
             t2(Request(client.ProductUrl(FirstBlock(row["SKU"]), true), "true"))
    ensures Process(row, last, client, t1, scrape) == Process(row, last, client, t2, scrape)
  {
    assert ItScopeClient.RealtimeParam(true) == "true";
  }

  // ---------------------------------------------------------------- lemmas: the lookup

  /** Each failure class of the lookup puts its one sentinel in all three fields; a
      non-empty answer gives the three getters' texts, unless one of them raises. */
  lemma LookupSentinels(lookup: Result<seq<SupplierRecord>>)
    ensures lookup == Ok([]) ==> DistributorTexts(lookup) == AllThree("no data")
    ensures lookup == Raised(JsonDecodeError) ==> DistributorTexts(lookup) == AllThree("no such product")
    ensures lookup.Raised? && lookup.error != JsonDecodeError ==>
      DistributorTexts(lookup) == AllThree("error fetching data")
  {
  }

  /** On a non-empty answer each field is its getter's text, and a getter that raises
      makes all three "error fetching data". */
  lemma LookupAnswered(data: seq<SupplierRecord>)
    requires |data| > 0
    ensures var d := DistributorTexts(Ok(data));
      var i, a, t := Interpretation(data, SupplierName(Ingram)), Interpretation(data, SupplierName(Also)),
                     Interpretation(data, SupplierName(TdSynnex));
      if i.Ok? && a.Ok? && t.Ok? then d.ingram == i.value && d.also == a.value && d.tdSynnex == t.value
      else d == AllThree("error fetching data")
  {
  }

  /** A missing column of the row, or a previous record without the `"SKU"` key or one
      of the six reused fields, raises `KeyError`; a previous record whose SKU is `None`
      raises `AttributeError`; nothing else raises. */
  lemma ProcessRaisesOnlyKeyError(row: Row, last: Dict, client: ItScopeClient, transport: Request -> Response,
                                  scrape: Scrapers)
    ensures Process(row, last, client, transport, scrape).Raised? ==>
      Process(row, last, client, transport, scrape).error == KeyError ||
      (Process(row, last, client, transport, scrape).error == AttributeError && Get(last, "SKU") == Some(NoneValue))
    ensures ("SKU" in row && "Geizhals link" in row && "Campuspoint link" in row && "edustore link" in row &&
             (|last| == 0 || (Get(last, "SKU").Some? && Get(last, "SKU").value.Str? &&
                              forall k :: k in Fields ==> Get(last, k).Some?))) ==>
      Process(row, last, client, transport, scrape).Ok?
  {
    var sku, gh, camp, edu := Column(row, "SKU"), Column(row, "Geizhals link"), Column(row, "Campuspoint link"),
                              Column(row, "edustore link");
    if !(sku.Raised? || gh.Raised? || camp.Raised? || edu.Raised?) {
      TasksRaiseOnlyKeyError(sku.value, gh.value, camp.value, edu.value, last, client, transport);
      CachedRaisesOnlyKeyError(last, edu.value);
    }
  }

  /** Building the task list raises `KeyError` from the reuse test, for a previous record
      without its `"SKU"` key, or from the reuse branch; and `AttributeError` for a previous
      SKU that is `None`. */
  lemma TasksRaiseOnlyKeyError(sku: string, urlGh: string, urlCamp: string, urlEdu: string, last: Dict,
                               client: ItScopeClient, transport: Request -> Response)
    ensures Tasks(sku, urlGh, urlCamp, urlEdu, last, client, transport).Raised? ==>
      Tasks(sku, urlGh, urlCamp, urlEdu, last, client, transport).error == KeyError ||
      (Tasks(sku, urlGh, urlCamp, urlEdu, last, client, transport).error == AttributeError &&
       Get(last, "SKU") == Some(NoneValue))
    ensures (|last| == 0 || (Get(last, "SKU").Some? && Get(last, "SKU").value.Str? && CachedTasks(last, urlEdu).Ok?)) ==>
      Tasks(sku, urlGh, urlCamp, urlEdu, last, client, transport).Ok?
  {
    var reuse := ReuseCache(sku, last);
    if |last| > 0 {
      var previous := Get(last, "SKU");
      if previous.None? {
        assert reuse == Raised(KeyError);
      } else if previous.value.NoneValue? {
        assert reuse == Raised(AttributeError);
      } else {
        assert reuse == Ok(SharesToken(previous.value.s, sku));
      }
    }
    if reuse.Raised? {
      assert Tasks(sku, urlGh, urlCamp, urlEdu, last, client, transport) == Raised(reuse.error);
    } else if reuse.value {
      CachedRaisesOnlyKeyError(last, urlEdu);
      assert Tasks(sku, urlGh, urlCamp, urlEdu, last, client, transport) == CachedTasks(last, urlEdu);
    }
  }

  /** The reuse branch raises only `KeyError`, and only for a missing field. */
  lemma CachedRaisesOnlyKeyError(last: Dict, urlEdu: string)
    ensures CachedTasks(last, urlEdu).Raised? ==> CachedTasks(last, urlEdu).error == KeyError
    ensures (forall k :: k in Fields ==> Get(last, k).Some?) ==> CachedTasks(last, urlEdu).Ok?
  {
    if forall k :: k in Fields ==> Get(last, k).Some? {
      assert Get(last, GEIZHALS).Some? && Get(last, CAMPUSPOINT).Some? && Get(last, AVAILABLE).Some?;
      assert Get(last, INGRAM).Some? && Get(last, ALSO).Some? && Get(last, TD_SYNNEX).Some?;
    }
  }
}
