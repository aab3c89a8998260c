/** The batch driver `main_async`: every record of the sheet is processed in turn, the
    previous row's record seeding the cache; a row whose SKU is in the lookup table is
    written back as one batch of cell updates, with the availability cell coloured; a
    failing row is skipped. The run ends by reporting its duration. The worksheet, the
    clock and the per-row behaviour of the shops and of the distributor API are
    parameters. */
module BatchDriver {
  import opened Text
  import opened Dicts
  import opened Client
  import opened Formatters
  import opened SkuProcessor
  import opened DataManager

  /** One entry of `batch_data`: `{"range": ..., "values": [[value]]}`. */
  datatype Update = Update(range: string, values: seq<seq<Value>>)

  /** The worksheet calls a row makes. */
  datatype SheetCall = BatchUpdate(updates: seq<Update>) | FormatAvailability(format: CellFormat)

  /** What the loop sees of the world, row `k` by row `k`: `COLUMN_MAP`, the distributor
      API and the shops while that row is processed, and whether its `batch_update`
      succeeds. */
  datatype Env = Env(
    columnMap: map<string, string>,
    transport: nat -> (Request -> Response),
    scrape: nat -> Scrapers,
    sheetAccepts: nat -> bool)

  /** The loop's state: the cache seed `last_prices`, whether the variable `sku` has been
      bound by some row, whether an exception escaped the row handler, and the worksheet
      calls made so far. */
  datatype Run = Run(seed: Dict, skuBound: bool, stopped: bool, calls: seq<SheetCall>)

  const Start: Run := Run([], false, false, [])

  // ---------------------------------------------------------------- the batch of one row

  /** `f"{col_letter}{row_index}"`. */
  function CellRange(letter: string, rowIndex: int): string {
    letter + IntToString(rowIndex)
  }

  /** The loop over `prices.items()`: one update per key, in order; a key missing from
      `COLUMN_MAP` raises, which is `None` here. */
  function BatchFor(prices: Dict, rowIndex: int, columnMap: map<string, string>): (r: Option<seq<Update>>)
    ensures r.Some? <==> forall i :: 0 <= i < |prices| ==> prices[i].0 in columnMap
    ensures r.Some? ==> |r.value| == |prices|
    ensures r.Some? ==> forall i :: 0 <= i < |prices| ==>
      r.value[i] == Update(CellRange(columnMap[prices[i].0], rowIndex), [[prices[i].1]])
  {
    if |prices| == 0 then Some([])
    else
      var n := |prices| - 1;
      match BatchFor(prices[..n], rowIndex, columnMap)
      case None => None
      case Some(b) =>
        if prices[n].0 in columnMap then Some(b + [Update(CellRange(columnMap[prices[n].0], rowIndex), [[prices[n].1]])])
        else None
  }

  /** The inner `try`: the batch is sent; only if that succeeds is the availability cell
      coloured, and only when the record's `"Verfügbar"` value is not `None`. */
  function WriteCalls(batch: seq<Update>, prices: Dict, rowIndex: int, accepted: bool): seq<SheetCall> {
    var availability := Get(prices, AVAILABLE);
    [BatchUpdate(batch)] +
    if accepted && availability.Some? && availability.value.Str? then
      [FormatAvailability(AvailabilityFormat(rowIndex, availability.value.s))]
    else []
  }

  // ---------------------------------------------------------------- the loop, specified

  /** One iteration for record `k`. An exception from `process_sku` is caught by the row
      handler, whose message reads `sku`: if no row has bound it yet, that read raises
      `NameError`, which escapes to the run-level handler and ends the loop. */
  function RowStep(st: Run, row: Row, k: nat, table: map<string, int>, env: Env, client: ItScopeClient): Run {
    match Process(row, st.seed, client, env.transport(k), env.scrape(k))
    case Raised(_) => if st.skuBound then st else st.(stopped := true)
    case Ok(res) =>
      var sku, prices := res.0, res.1;
      var bound := st.(skuBound := true);
      if sku !in table then bound
      else match BatchFor(prices, table[sku], env.columnMap)
        case None => bound
        case Some(batch) =>
          bound.(calls := st.calls + WriteCalls(batch, prices, table[sku], env.sheetAccepts(k)),
                 seed := Put(prices, "SKU", Str(sku)))
  }

  /** The loop over the first `|records|` records. */
  function RunRows(records: seq<Row>, table: map<string, int>, env: Env, client: ItScopeClient): Run {
    if |records| == 0 then Start
    else
      var n := |records| - 1;
      var st := RunRows(records[..n], table, env, client);
      if st.stopped then st else RowStep(st, records[n], n, table, env, client)
  }

  // ---------------------------------------------------------------- the methods

  /** The loop over `prices.items()` building `batch_data`. */
  method BuildBatch(prices: Dict, rowIndex: int, columnMap: map<string, string>) returns (r: Option<seq<Update>>)
    ensures r == BatchFor(prices, rowIndex, columnMap)
  {
    var batch: seq<Update> := [];
    var i := 0;
    while i < |prices|
      invariant 0 <= i <= |prices|
      invariant BatchFor(prices[..i], rowIndex, columnMap) == Some(batch)
    {
      assert prices[..i + 1][..i] == prices[..i];
      var key := prices[i].0;
      if key !in columnMap {
        BatchMissingKey(prices, rowIndex, columnMap, i);
        return None;
      }
      batch := batch + [Update(CellRange(columnMap[key], rowIndex), [[prices[i].1]])];
      i := i + 1;
    }
    assert prices[..i] == prices;
    r := Some(batch);
  }

  /** `for row in records: try ...`. */
  method RowLoop(records: seq<Row>, table: map<string, int>, env: Env, client: ItScopeClient) returns (st: Run)
    ensures st == RunRows(records, table, env, client)
  {
    st := Start;
    var k := 0;
    while k < |records|
      invariant 0 <= k <= |records|
      invariant st == RunRows(records[..k], table, env, client)
    {
      assert records[..k + 1][..k] == records[..k];
      if st.stopped {
        StoppedStays(records, k, table, env, client);
        return;
      }
      st := ProcessRow(st, records[k], k, table, env, client);
      k := k + 1;
    }
    assert records[..k] == records;
  }

  /** The body of the row loop, for record `k`: `last_prices` is `st.seed`. */
  method ProcessRow(st: Run, row: Row, k: nat, table: map<string, int>, env: Env, client: ItScopeClient)
    returns (next: Run)
    ensures next == RowStep(st, row, k, table, env, client)
  {
    var processed := ProcessSku(row, st.seed, client, env.transport(k), env.scrape(k));
    if processed.Raised? {
      return if st.skuBound then st else st.(stopped := true);
    }
    var sku, prices := processed.value.0, processed.value.1;
    next := st.(skuBound := true);
    if sku in table {
      var rowIndex := table[sku];
      var batch := BuildBatch(prices, rowIndex, env.columnMap);
      if batch.Some? {
        var calls := st.calls + [BatchUpdate(batch.value)];
        if env.sheetAccepts(k) {
          var availability := Get(prices, AVAILABLE);
          if availability.Some? && availability.value.Str? {
            calls := calls + [FormatAvailability(AvailabilityFormat(rowIndex, availability.value.s))];
          }
        }
        assert calls == st.calls + WriteCalls(batch.value, prices, rowIndex, env.sheetAccepts(k));
        next := next.(calls := calls, seed := Put(prices, "SKU", Str(sku)));
      }
    }
  }

  /** `main_async`: the sheet is read (an empty grid raises `IndexError`, caught by the
      run-level handler, and no row is processed), the rows are run, and the runtime
      string is reported whatever happened. */
  method MainAsync(grid: seq<seq<string>>, firstColumn: seq<string>, env: Env, client: ItScopeClient,
                   elapsedSeconds: nat)
    returns (calls: seq<SheetCall>, runtime: string)
    ensures GetData(grid).Raised? ==> calls == []
    ensures GetData(grid).Ok? ==> calls == RunRows(GetData(grid).value, GetSkuList(firstColumn), env, client).calls
    ensures runtime == Join(RuntimeParts(elapsedSeconds), " ")
  {
    calls := [];
    var records := GetData(grid);
    if records.Ok? {
      var st := RowLoop(records.value, GetSkuList(firstColumn), env, client);
      calls := st.calls;
    }
    runtime := RuntimeString(elapsedSeconds);
  }

  // ---------------------------------------------------------------- the runtime string

  /** `time_parts`: hours only when non-zero, minutes only when non-zero, seconds
      always. */
  function TimeParts(h: nat, m: nat, s: nat): seq<string> {
    (if h > 0 then [NatToString(h) + "h"] else []) + (if m > 0 then [NatToString(m) + "m"] else []) +
    [NatToString(s) + "s"]
  }

  function RuntimeParts(total: nat): seq<string> {
    TimeParts(total / 3600, (total % 3600) / 60, total % 60)
  }

  method RuntimeString(totalSeconds: nat) returns (timeStr: string)
    ensures timeStr == Join(RuntimeParts(totalSeconds), " ")
    ensures ReadRuntime(timeStr) == totalSeconds
  {
    var hours := totalSeconds / 3600;
    var minutes := (totalSeconds % 3600) / 60;
    var seconds := totalSeconds % 60;
    var timeParts: seq<string> := [];
    if hours > 0 {
      timeParts := timeParts + [NatToString(hours) + "h"];
    }
    if minutes > 0 {
      timeParts := timeParts + [NatToString(minutes) + "m"];
    }
    timeParts := timeParts + [NatToString(seconds) + "s"];
    assert timeParts == RuntimeParts(totalSeconds);
    timeStr := Join(timeParts, " ");
    RuntimeReadsBack(totalSeconds);
  }

  /** Reading a runtime string back: each space-separated part is a number and a unit. */
  function UnitSeconds(c: char): nat {
    if c == 'h' then 3600 else if c == 'm' then 60 else if c == 's' then 1 else 0
  }

  function PartSeconds(p: string): nat {
    if |p| >= 1 && AllDigits(p[..|p| - 1]) then DigitsValue(p[..|p| - 1]) * UnitSeconds(p[|p| - 1]) else 0
  }

  function SumParts(ps: seq<string>): nat {
    if |ps| == 0 then 0 else PartSeconds(ps[0]) + SumParts(ps[1..])
  }

  function ReadRuntime(s: string): nat {
    SumParts(Split(s, ' '))
  }

  // ---------------------------------------------------------------- lemmas

  lemma {:induction false} BatchMissingKey(prices: Dict, rowIndex: int, columnMap: map<string, string>, i: nat)
    requires i < |prices| && prices[i].0 !in columnMap
    ensures BatchFor(prices, rowIndex, columnMap) == None
  {
  }

  /** Once an exception has escaped the row handler, the remaining records change
      nothing. */
  lemma {:induction false} StoppedStays(records: seq<Row>, k: nat, table: map<string, int>, env: Env,
                                        client: ItScopeClient)
    requires k <= |records| && RunRows(records[..k], table, env, client).stopped
    ensures RunRows(records, table, env, client) == RunRows(records[..k], table, env, client)
  {
    if k < |records| {
      var n := |records| - 1;
      assert records[..n][..k] == records[..k];
      StoppedStays(records[..n], k, table, env, client);
      assert records[..n] == records[..|records| - 1];
    } else {
      assert records[..k] == records;
    }
  }

  /** The part of a runtime string with a number and a unit reads back as that many
      seconds of that unit. */
  lemma {:induction false} PartReadsBack(n: nat, unit: string)
    requires |unit| == 1
    ensures PartSeconds(NatToString(n) + unit) == n * UnitSeconds(unit[0])
    ensures ' ' !in NatToString(n) + unit || unit[0] == ' '
  {
    var p := NatToString(n) + unit;
    assert p[..|p| - 1] == NatToString(n);
    NatToStringRoundTrip(n);
  }

  /** Hours, minutes and seconds add up to the elapsed seconds. */
  lemma RuntimeArithmetic(total: nat)
    ensures total == 3600 * (total / 3600) + 60 * ((total % 3600) / 60) + total % 60
  {
    var h, m, s := total / 3600, (total % 3600) / 60, total % 60;
    var r := total % 3600;
    assert total == 3600 * h + r;
    assert r == 60 * m + r % 60;
    assert total == 60 * (60 * h + m) + r % 60;
    assert r % 60 == s;
  }

  lemma SumPartsCons(p: string, ps: seq<string>)
    ensures SumParts([p] + ps) == PartSeconds(p) + SumParts(ps)
  {
    assert ([p] + ps)[1..] == ps;
  }

  /** The parts add up to the duration they name. */
  lemma {:induction false} TimePartsSum(h: nat, m: nat, s: nat)
    ensures SumParts(TimeParts(h, m, s)) == 3600 * h + 60 * m + s
  {
    var tail := if m > 0 then [NatToString(m) + "m", NatToString(s) + "s"] else [NatToString(s) + "s"];
    MinutesSum(m, s);
    if h > 0 {
      SumPartsCons(NatToString(h) + "h", tail);
      PartReadsBack(h, "h");
    }
    TimePartsShape(h, m, s);
  }

  /** The minutes part, when kept, and the seconds part add up to their duration. */
  lemma {:induction false} MinutesSum(m: nat, s: nat)
    ensures SumParts(if m > 0 then [NatToString(m) + "m", NatToString(s) + "s"] else [NatToString(s) + "s"]) ==
      60 * m + s
  {
    var pm, ps := NatToString(m) + "m", NatToString(s) + "s";
    SecondsSum(s);
    if m > 0 {
      assert [pm, ps] == [pm] + [ps];
      SumPartsCons(pm, [ps]);
      PartReadsBack(m, "m");
      assert PartSeconds(pm) == 60 * m;
    }
  }

  /** The seconds part alone reads back as its seconds. */
  lemma {:induction false} SecondsSum(s: nat)
    ensures SumParts([NatToString(s) + "s"]) == s
  {
    SumPartsCons(NatToString(s) + "s", []);
    PartReadsBack(s, "s");
  }

  /** The parts, with the seconds part last and each leading part kept only when non-zero. */
  lemma TimePartsShape(h: nat, m: nat, s: nat)
    ensures var ph, pm, ps := NatToString(h) + "h", NatToString(m) + "m", NatToString(s) + "s";
      var tail := if m > 0 then [pm, ps] else [ps];
      TimeParts(h, m, s) == if h > 0 then [ph] + tail else tail
  {
  }

  lemma RuntimePartsSum(total: nat)
    ensures SumParts(RuntimeParts(total)) == total
  {
    TimePartsSum(total / 3600, (total % 3600) / 60, total % 60);
    RuntimeArithmetic(total);
  }

  /** No part holds the separator. */
  lemma RuntimePartsSpaceFree(total: nat)
    ensures forall p :: p in RuntimeParts(total) ==> ' ' !in p
  {
    PartReadsBack(total / 3600, "h");
    PartReadsBack((total % 3600) / 60, "m");
    PartReadsBack(total % 60, "s");
  }

  /** The runtime string names the duration it was made from. */
  lemma RuntimeReadsBack(total: nat)
    ensures ReadRuntime(Join(RuntimeParts(total), " ")) == total
  {
    RuntimePartsSpaceFree(total);
    JoinSplit(RuntimeParts(total), ' ');
    RuntimePartsSum(total);
  }

  // ---------------------------------------------------------------- lemmas: the row loop

  /** A seed is empty (before the first written row) or a record of the seven fields
      plus its `"SKU"` text. */
  predicate WellFormedSeed(seed: Dict) {
    seed == [] || (Get(seed, "SKU").Some? && Get(seed, "SKU").value.Str? && forall k :: k in Fields ==> Get(seed, k).Some?)
  }

  /** Every record `process_sku` returns has a value for each of the seven fields. */
  lemma ProcessedHasFields(row: Row, last: Dict, client: ItScopeClient, transport: Request -> Response,
                           scrape: Scrapers, k: string)
    requires Process(row, last, client, transport, scrape).Ok? && k in Fields
    ensures Get(Process(row, last, client, transport, scrape).value.1, k).Some?
  {
    ProcessedRecord(row, last, client, transport, scrape);
    var prices := Process(row, last, client, transport, scrape).value.1;
    GetKeys(prices, k);
  }

  /** The seed threaded between rows is always well formed, so a row that has its four
      columns never fails because of it. */
  lemma {:induction false} SeedStaysWellFormed(records: seq<Row>, table: map<string, int>, env: Env,
                                               client: ItScopeClient)
    ensures WellFormedSeed(RunRows(records, table, env, client).seed)
  {
    if |records| > 0 {
      var n := |records| - 1;
      SeedStaysWellFormed(records[..n], table, env, client);
      var st := RunRows(records[..n], table, env, client);
      if !st.stopped {
        StepKeepsSeed(st, records[n], n, table, env, client);
      }
    }
  }

  /** One row either keeps the seed or replaces it by its own record with its SKU. */
  lemma StepKeepsSeed(st: Run, row: Row, k: nat, table: map<string, int>, env: Env, client: ItScopeClient)
    requires WellFormedSeed(st.seed)
    ensures WellFormedSeed(RowStep(st, row, k, table, env, client).seed)
  {
    var p := Process(row, st.seed, client, env.transport(k), env.scrape(k));
    if p.Ok? {
      ProcessedSeed(row, st.seed, client, env.transport(k), env.scrape(k));
    }
  }

  /** A processed record with its SKU added is a well-formed seed. */
  lemma ProcessedSeed(row: Row, last: Dict, client: ItScopeClient, transport: Request -> Response, scrape: Scrapers)
    requires Process(row, last, client, transport, scrape).Ok?
    ensures var p := Process(row, last, client, transport, scrape).value;
      WellFormedSeed(Put(p.1, "SKU", Str(p.0)))
  {
    var p := Process(row, last, client, transport, scrape).value;
    forall k | k in Fields ensures Get(p.1, k).Some? {
      ProcessedHasFields(row, last, client, transport, scrape, k);
    }
    SeedOfRecord(p.1, p.0);
  }

  /** A record with all seven fields and its SKU added is a well-formed seed. */
  lemma SeedOfRecord(prices: Dict, sku: string)
    requires forall k :: k in Fields ==> Get(prices, k).Some?
    ensures WellFormedSeed(Put(prices, "SKU", Str(sku)))
  {
    PutGetSame(prices, "SKU", Str(sku));
    forall k | k in Fields ensures Get(Put(prices, "SKU", Str(sku)), k).Some? {
      PutGetOther(prices, "SKU", Str(sku), k);
    }
  }

  /** The first record is processed with the empty seed `{}`, so it never reuses. */
  lemma FirstRowNeverReuses(records: seq<Row>, table: map<string, int>, env: Env, client: ItScopeClient)
    requires |records| > 0
    ensures RunRows(records[..1], table, env, client) == RowStep(Start, records[0], 0, table, env, client)
    ensures forall sku :: ReuseCache(sku, Start.seed) == Ok(false)
  {
    assert records[..1][..0] == [];
  }

  /** A SKU missing from the lookup table writes nothing and leaves the seed alone. */
  lemma UnknownSkuKeepsSeed(st: Run, row: Row, k: nat, table: map<string, int>, env: Env, client: ItScopeClient)
    requires Process(row, st.seed, client, env.transport(k), env.scrape(k)).Ok?
    requires Process(row, st.seed, client, env.transport(k), env.scrape(k)).value.0 !in table
    ensures var next := RowStep(st, row, k, table, env, client);
      next.seed == st.seed && next.calls == st.calls && !next.stopped == !st.stopped
  {
  }

  /** A key missing from `COLUMN_MAP` skips the row: nothing is written, the seed is kept,
      and the loop goes on. */
  lemma MissingColumnSkipsRow(st: Run, row: Row, k: nat, table: map<string, int>, env: Env, client: ItScopeClient)
    requires Process(row, st.seed, client, env.transport(k), env.scrape(k)).Ok?
    requires var res := Process(row, st.seed, client, env.transport(k), env.scrape(k)).value;
      res.0 in table && exists i :: 0 <= i < |res.1| && res.1[i].0 !in env.columnMap
    ensures var next := RowStep(st, row, k, table, env, client);
      next.seed == st.seed && next.calls == st.calls && next.stopped == st.stopped
  {
  }

  /** A row written back replaces the seed by its record plus its SKU, whether or not the
      sheet accepted the batch; colouring follows only an accepted batch, and only a
      `"Verfügbar"` value that is not `None`. */
  lemma WrittenRowSeeds(st: Run, row: Row, k: nat, table: map<string, int>, env: Env, client: ItScopeClient)
    requires Process(row, st.seed, client, env.transport(k), env.scrape(k)).Ok?
    requires var res := Process(row, st.seed, client, env.transport(k), env.scrape(k)).value;
      res.0 in table && BatchFor(res.1, table[res.0], env.columnMap).Some?
    ensures Get(Process(row, st.seed, client, env.transport(k), env.scrape(k)).value.1, AVAILABLE).Some?
    ensures var res := Process(row, st.seed, client, env.transport(k), env.scrape(k)).value;
      var next := RowStep(st, row, k, table, env, client);
      var batch := BatchFor(res.1, table[res.0], env.columnMap).value;
      var availability := Get(res.1, AVAILABLE).value;
      next.seed == Put(res.1, "SKU", Str(res.0)) && Get(next.seed, "SKU") == Some(Str(res.0)) &&
      next.calls == st.calls + [BatchUpdate(batch)] +
        (if env.sheetAccepts(k) && availability.Str? then [FormatAvailability(AvailabilityFormat(table[res.0], availability.s))]
         else [])
  {
    var res := Process(row, st.seed, client, env.transport(k), env.scrape(k)).value;
    PutGetSame(res.1, "SKU", Str(res.0));
    ProcessedHasFields(row, st.seed, client, env.transport(k), env.scrape(k), AVAILABLE);
  }

  /** The batch of a record of the seven fields (as `ProcessedRecord` states every
      processed record is) has one update per field, seven in all (each as `BatchFor`
      states it); the `"SKU"` entry is added afterwards and never written. */
  lemma BatchOfRecord(prices: Dict, rowIndex: int, columnMap: map<string, string>)
    requires |prices| == 7 && (set k | k in Keys(prices)) == Fields
    requires BatchFor(prices, rowIndex, columnMap).Some?
    ensures |BatchFor(prices, rowIndex, columnMap).value| == 7
    ensures forall i :: 0 <= i < 7 ==> prices[i].0 in Fields && prices[i].0 != "SKU"
  {
    forall i | 0 <= i < 7 ensures prices[i].0 in Fields && prices[i].0 != "SKU" {
      KeyOfRecord(prices, i);
    }
  }

  /** Each key of a record of the seven fields is one of them, and none is `"SKU"`. */
  lemma KeyOfRecord(prices: Dict, i: nat)
    requires i < |prices| && (set k | k in Keys(prices)) == Fields
    ensures prices[i].0 in Fields && prices[i].0 != "SKU"
  {
    assert Keys(prices)[i] == prices[i].0;
    assert prices[i].0 in (set k | k in Keys(prices));
    SkuIsNoField();
  }

  lemma SkuIsNoField()
    ensures "SKU" !in Fields
  {
  }

  /** A failure after some row has bound `sku` is logged and the row skipped. */
  lemma LaterFailureSkipsRow(st: Run, row: Row, k: nat, table: map<string, int>, env: Env, client: ItScopeClient)
    requires st.skuBound && Process(row, st.seed, client, env.transport(k), env.scrape(k)).Raised?
    ensures RowStep(st, row, k, table, env, client) == st
  {
  }

  /** A failure of `process_sku` on the first record ends the whole run: the handler's
      read of the unbound `sku` raises, the run-level handler catches it, and no record is
      written. */
  lemma FirstRowFailureEndsRun(records: seq<Row>, table: map<string, int>, env: Env, client: ItScopeClient)
    requires |records| > 0 && Process(records[0], [], client, env.transport(0), env.scrape(0)).Raised?
    ensures RunRows(records, table, env, client) == Run([], false, true, [])
  {
    assert records[..1][..0] == [];
    StoppedStays(records, 1, table, env, client);
  }
}
