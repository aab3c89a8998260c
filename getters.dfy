/** The distributor stock interpreter (`get_availability_for_ingram`, `_also`,
    `_tdsynnex`): three copies of one scan over the filtered supplier records, differing
    only in the supplier name they look for. */
module Getters {
  import opened Text
  import IsoDate

  /** One entry of `supplierStockInfo`. Reading an absent key raises `KeyError`; a JSON
      null reads as `None`. */
  datatype StockEntry = StockEntry(
    stockStatus: Field<string>,
    stockStatusText: Field<string>,
    stockAvailabilityDate: Field<string>)

  /** A record as the client's supplier filter builds it; `supplierStockInfo` is `None`
      when the response held null there. */
  datatype SupplierRecord = SupplierRecord(
    supplierId: Option<string>,
    supplierName: string,
    supplierStockInfo: Option<seq<StockEntry>>)

  datatype Distributor = Ingram | Also | TdSynnex

  /** The supplier-name literal each getter compares against. */
  function SupplierName(d: Distributor): string {
    match d
    case Ingram => "Ingram Micro Österreich"
    case Also => "ALSO Österreich"
    case TdSynnex => "TD SYNNEX Austria"
  }

  /** What one record contributes to the scan. */
  datatype Step =
    | Skip                               // another supplier, or fewer than two entries
    | Tentative(text: Value)             // cached "6" with realtime "8": keep scanning
    | Decided(answer: Result<Value>)     // a return statement, or a KeyError

  /** `entry['stockStatusText']`: an absent key raises, a null is `None`. */
  function Lookup(f: Field<string>): Result<Value> {
    match f
    case Missing => Raised(KeyError)
    case Null => Ok(NoneValue)
    case Present(s) => Ok(Str(s))
  }

  /** `_format_date(entry['stockAvailabilityDate'])`. */
  function DateOf(f: Field<string>): Result<Value> {
    match f
    case Missing => Raised(KeyError)
    case Null => Ok(Str(IsoDate.FormatDate(None)))
    case Present(s) => Ok(Str(IsoDate.FormatDate(Some(s))))
  }

  /** The return branches, once both status codes have been read. A null status equals
      none of the codes: `in ("1", "6")` is false for it and `not in ("1", "6", "8")`
      true. */
  function Decide(e0: StockEntry, e1: StockEntry): Result<Value> {
    var s0, s1 := e0.stockStatus, e1.stockStatus;
    if s1 == Present("1") || s1 == Present("6") then Lookup(e1.stockStatusText)
    else if s1 != Present("8") then DateOf(e1.stockAvailabilityDate)
    else if s0 == Present("1") || s0 == Present("8") then Lookup(e0.stockStatusText)
    else DateOf(e0.stockAvailabilityDate)
  }

  /** The loop body for a record of the wanted supplier. Entry 0's status is read first;
      entry 1's is read next, under the `and` or in the test after it, so an absent one
      raises either way. */
  function Classify(info: Option<seq<StockEntry>>): Step {
    if info.None? || |info.value| < 2 then Skip
    else
      var e0, e1 := info.value[0], info.value[1];
      if e0.stockStatus.Missing? || e1.stockStatus.Missing? then Decided(Raised(KeyError))
      else if e0.stockStatus == Present("6") && e1.stockStatus == Present("8") then
        if e0.stockStatusText.Missing? then Decided(Raised(KeyError))
        else Tentative(Lookup(e0.stockStatusText).value)
      else Decided(Decide(e0, e1))
  }

  function StepOf(r: SupplierRecord, name: string): Step {
    if r.supplierName == name then Classify(r.supplierStockInfo) else Skip
  }

  /** The first record that ends the scan. */
  function FirstDecided(rs: seq<SupplierRecord>, name: string): (k: Option<nat>)
    ensures k.Some? ==> k.value < |rs| && StepOf(rs[k.value], name).Decided? &&
                        forall j :: 0 <= j < k.value ==> !StepOf(rs[j], name).Decided?
    ensures k.None? ==> forall j :: 0 <= j < |rs| ==> !StepOf(rs[j], name).Decided?
  {
    if |rs| == 0 then None
    else if StepOf(rs[0], name).Decided? then Some(0)
    else match FirstDecided(rs[1..], name)
      case Some(k) => Some(k + 1)
      case None => None
  }

  /** The last record that sets a tentative result. */
  function LastTentative(rs: seq<SupplierRecord>, name: string): (k: Option<nat>)
    ensures k.Some? ==> k.value < |rs| && StepOf(rs[k.value], name).Tentative? &&
                        forall j :: k.value < j < |rs| ==> !StepOf(rs[j], name).Tentative?
    ensures k.None? ==> forall j :: 0 <= j < |rs| ==> !StepOf(rs[j], name).Tentative?
  {
    if |rs| == 0 then None
    else if StepOf(rs[|rs| - 1], name).Tentative? then Some(|rs| - 1)
    else LastTentative(rs[..|rs| - 1], name)
  }

  /** What a getter returns, stated without the loop: the first record that reaches a
      return branch decides; if none does, the text of the last tentative record; if
      there is none, 'no data'. */
  function Interpretation(rs: seq<SupplierRecord>, name: string): Result<Value> {
    match FirstDecided(rs, name)
    case Some(k) => StepOf(rs[k], name).answer
    case None =>
      match LastTentative(rs, name)
      case Some(j) => Ok(StepOf(rs[j], name).text)
      case None => Ok(Str("no data"))
  }

  /** The scan itself, one record at a time, with `ret` the running result. */
  function Scan(rs: seq<SupplierRecord>, name: string, ret: Value): Result<Value> {
    if |rs| == 0 then Ok(ret)
    else match StepOf(rs[0], name)
      case Skip => Scan(rs[1..], name, ret)
      case Tentative(t) => Scan(rs[1..], name, t)
      case Decided(a) => a
  }

  // ---------------------------------------------------------------- the getters

  /** `get_availability_for_ingram` / `_also` / `_tdsynnex`, the supplier chosen by `d`. */
  method Availability(data: seq<SupplierRecord>, d: Distributor) returns (r: Result<Value>)
    ensures r == Interpretation(data, SupplierName(d))
  {
    var name := SupplierName(d);
    var ret := Str("no data");
    var i := 0;
    while i < |data|
      invariant 0 <= i <= |data|
      invariant Scan(data, name, Str("no data")) == Scan(data[i..], name, ret)
    {
      assert data[i..][1..] == data[i + 1..];
      var item := data[i];
      if item.supplierName == name {
        var info := item.supplierStockInfo;
        if info.None? || |info.value| < 2 {
          i := i + 1;
          continue;
        }
        var e0, e1 := info.value[0], info.value[1];
        if e0.stockStatus.Missing? {
          r := Raised(KeyError);
          ScanIsInterpretation(data, name);
          return;
        }
        var s0 := e0.stockStatus;
        if s0 == Present("6") {
          if e1.stockStatus.Missing? {
            r := Raised(KeyError);
            ScanIsInterpretation(data, name);
            return;
          }
          if e1.stockStatus == Present("8") {
            var text := Lookup(e0.stockStatusText);
            if text.Raised? {
              r := text;
              ScanIsInterpretation(data, name);
              return;
            }
            ret := text.value;
            i := i + 1;
            continue;
          }
        }
        if e1.stockStatus.Missing? {
          r := Raised(KeyError);
          ScanIsInterpretation(data, name);
          return;
        }
        var s1 := e1.stockStatus;
        if s1 == Present("1") || s1 == Present("6") {
          r := Lookup(e1.stockStatusText);
        } else if s1 != Present("1") && s1 != Present("6") && s1 != Present("8") {
          r := DateOf(e1.stockAvailabilityDate);
        } else if s0 == Present("1") || s0 == Present("8") {
          r := Lookup(e0.stockStatusText);
        } else {
          r := DateOf(e0.stockAvailabilityDate);
        }
        ScanIsInterpretation(data, name);
        return;
      }
      i := i + 1;
    }
    r := Ok(ret);
    ScanIsInterpretation(data, name);
  }

  // ---------------------------------------------------------------- lemmas

  /** The scan with running result `ret` agrees with the loop-free reading, `ret`
      standing in for 'no data'. */
  lemma {:induction false} ScanAgrees(rs: seq<SupplierRecord>, name: string, ret: Value)
    ensures Scan(rs, name, ret) ==
      match FirstDecided(rs, name)
      case Some(k) => StepOf(rs[k], name).answer
      case None =>
        match LastTentative(rs, name)
        case Some(j) => Ok(StepOf(rs[j], name).text)
        case None => Ok(ret)
  {
    if |rs| > 0 {
      var tail := rs[1..];
      match StepOf(rs[0], name)
      case Decided(a) =>
      case Skip =>
        ScanAgrees(tail, name, ret);
        ShiftFirstDecided(rs, name);
        ShiftLastTentative(rs, name);
      case Tentative(t) =>
        ScanAgrees(tail, name, t);
        ShiftFirstDecided(rs, name);
        ShiftLastTentative(rs, name);
    }
  }

  lemma ShiftFirstDecided(rs: seq<SupplierRecord>, name: string)
    requires |rs| > 0 && !StepOf(rs[0], name).Decided?
    ensures FirstDecided(rs, name) ==
      match FirstDecided(rs[1..], name) case Some(k) => Some(k + 1) case None => None
  {
  }

  /** Dropping the first record moves the last tentative index down by one, unless that
      record was the only tentative one. */
  lemma ShiftLastTentative(rs: seq<SupplierRecord>, name: string)
    requires |rs| > 0
    ensures LastTentative(rs, name) ==
      match LastTentative(rs[1..], name)
      case Some(k) => Some(k + 1)
      case None => if StepOf(rs[0], name).Tentative? then Some(0) else None
  {
    forall j | 0 < j < |rs| ensures rs[j] == rs[1..][j - 1] { }
    match LastTentative(rs[1..], name)
    case Some(k) =>
      LastTentativeUnique(rs, name, k + 1);
    case None =>
      if StepOf(rs[0], name).Tentative? {
        LastTentativeUnique(rs, name, 0);
      }
  }

  lemma LastTentativeUnique(rs: seq<SupplierRecord>, name: string, m: nat)
    requires m < |rs| && StepOf(rs[m], name).Tentative?
    requires forall j :: m < j < |rs| ==> !StepOf(rs[j], name).Tentative?
    ensures LastTentative(rs, name) == Some(m)
  {
  }

  lemma ScanIsInterpretation(rs: seq<SupplierRecord>, name: string)
    ensures Scan(rs, name, Str("no data")) == Interpretation(rs, name)
  {
    ScanAgrees(rs, name, Str("no data"));
  }

  /** A record of the wanted supplier whose snapshot is null or has fewer than two entries
      is skipped without reading any entry, whatever the entries hold. */
  lemma ShortSnapshotSkipped(r: SupplierRecord, name: string)
    requires r.supplierStockInfo.None? || |r.supplierStockInfo.value| < 2
    ensures StepOf(r, name) == Skip
  {
  }

  /** A skipped record can be removed from the input without changing the result. */
  lemma {:induction false} SkippedRecordIrrelevant(a: seq<SupplierRecord>, r: SupplierRecord,
                                                   b: seq<SupplierRecord>, name: string, ret: Value)
    requires StepOf(r, name) == Skip
    ensures Scan(a + [r] + b, name, ret) == Scan(a + b, name, ret)
  {
    if |a| == 0 {
      assert a + [r] + b == [r] + b && ([r] + b)[1..] == b && a + b == b;
    } else {
      assert (a + [r] + b)[1..] == a[1..] + [r] + b;
      assert (a + b)[1..] == a[1..] + b;
      match StepOf(a[0], name)
      case Skip => SkippedRecordIrrelevant(a[1..], r, b, name, ret);
      case Tentative(t) => SkippedRecordIrrelevant(a[1..], r, b, name, t);
      case Decided(_) =>
    }
  }

  function RecordsOf(rs: seq<SupplierRecord>, name: string): (f: seq<SupplierRecord>)
    ensures forall r :: r in f ==> r in rs && r.supplierName == name
  {
    if |rs| == 0 then []
    else (if rs[0].supplierName == name then [rs[0]] else []) + RecordsOf(rs[1..], name)
  }

  /** Each getter only looks at its own supplier's records: the other suppliers' records
      can be taken out of the input without changing its result. */
  lemma {:induction false} OnlyOwnRecordsMatter(rs: seq<SupplierRecord>, name: string, ret: Value)
    ensures Scan(rs, name, ret) == Scan(RecordsOf(rs, name), name, ret)
  {
    if |rs| > 0 {
      if rs[0].supplierName == name {
        var f := RecordsOf(rs, name);
        assert f == [rs[0]] + RecordsOf(rs[1..], name);
        assert f[0] == rs[0] && f[1..] == RecordsOf(rs[1..], name);
        match StepOf(rs[0], name)
        case Skip => OnlyOwnRecordsMatter(rs[1..], name, ret);
        case Tentative(t) => OnlyOwnRecordsMatter(rs[1..], name, t);
        case Decided(_) =>
      } else {
        assert RecordsOf(rs, name) == RecordsOf(rs[1..], name);
        OnlyOwnRecordsMatter(rs[1..], name, ret);
      }
    }
  }

  /** If no record carries the supplier's name, the getter returns 'no data'. */
  lemma NoRecordNoData(rs: seq<SupplierRecord>, name: string)
    requires forall j :: 0 <= j < |rs| ==> rs[j].supplierName != name
    ensures Interpretation(rs, name) == Ok(Str("no data"))
  {
  }

  /** The record that decides: when record `k` reaches a return branch and no earlier
      record did, its answer is the result, whatever tentative texts came before. */
  lemma DecidedAt(rs: seq<SupplierRecord>, name: string, k: nat)
    requires k < |rs| && StepOf(rs[k], name).Decided?
    requires forall j :: 0 <= j < k ==> !StepOf(rs[j], name).Decided?
    ensures Interpretation(rs, name) == StepOf(rs[k], name).answer
  {
    var f := FirstDecided(rs, name);
    assert f.Some?;
    if f.value < k {
    } else if f.value > k {
    }
  }

  /** A tentative text survives only if no record decides and no later record sets another
      tentative text. */
  lemma TentativeKept(rs: seq<SupplierRecord>, name: string, k: nat)
    requires k < |rs| && StepOf(rs[k], name).Tentative?
    requires forall j :: 0 <= j < |rs| ==> !StepOf(rs[j], name).Decided?
    requires forall j :: k < j < |rs| ==> !StepOf(rs[j], name).Tentative?
    ensures Interpretation(rs, name) == Ok(StepOf(rs[k], name).text)
  {
    var l := LastTentative(rs, name);
    assert l.Some?;
    if l.value < k {
    }
  }

  /** A snapshot whose entry 0 or entry 1 has no `stockStatus` key raises `KeyError`. */
  lemma MissingStatusRaises(info: seq<StockEntry>)
    requires |info| >= 2 && (info[0].stockStatus.Missing? || info[1].stockStatus.Missing?)
    ensures Classify(Some(info)) == Decided(Raised(KeyError))
  {
  }

  /** Realtime data wins: when entry 1 says "1" or "6", the result is entry 1's text
      (`None` for a null text), whatever status entry 0 holds. */
  lemma RealtimeWins(info: seq<StockEntry>)
    requires |info| >= 2 && !info[0].stockStatus.Missing?
    requires info[1].stockStatus == Present("1") || info[1].stockStatus == Present("6")
    ensures Classify(Some(info)) == Decided(Lookup(info[1].stockStatusText))
  {
  }

  /** A null text under realtime "1" is returned as `None`, and is no error. */
  lemma NullRealtimeText(info: seq<StockEntry>)
    requires |info| >= 2 && !info[0].stockStatus.Missing?
    requires info[1].stockStatus == Present("1") && info[1].stockStatusText.Null?
    ensures Classify(Some(info)) == Decided(Ok(NoneValue))
  {
    RealtimeWins(info);
  }

  /** Cached "6" with realtime "8" keeps entry 0's text (`None` for a null text) as a
      tentative result; an absent text raises. */
  lemma CachedSixRealtimeEight(info: seq<StockEntry>)
    requires |info| >= 2
    requires info[0].stockStatus == Present("6") && info[1].stockStatus == Present("8")
    ensures info[0].stockStatusText.Missing? ==> Classify(Some(info)) == Decided(Raised(KeyError))
    ensures !info[0].stockStatusText.Missing? ==>
      Classify(Some(info)) == Tentative(Lookup(info[0].stockStatusText).value)
  {
  }

  /** A realtime status other than "1", "6" and "8", a null one included, gives entry 1's
      availability date. */
  lemma RealtimeDate(info: seq<StockEntry>)
    requires |info| >= 2 && !info[0].stockStatus.Missing? && !info[1].stockStatus.Missing?
    requires info[1].stockStatus !in [Present("1"), Present("6"), Present("8")]
    ensures Classify(Some(info)) == Decided(DateOf(info[1].stockAvailabilityDate))
  {
  }

  /** A null realtime status is such a status: the date branch is taken. */
  lemma NullRealtimeStatus(info: seq<StockEntry>)
    requires |info| >= 2 && !info[0].stockStatus.Missing? && info[1].stockStatus.Null?
    ensures Classify(Some(info)) == Decided(DateOf(info[1].stockAvailabilityDate))
  {
    RealtimeDate(info);
  }

  /** Realtime "8" falls back to entry 0: its text for "1" and "8", else (a null status
      included) its date. */
  lemma CachedFallback(info: seq<StockEntry>)
    requires |info| >= 2 && !info[0].stockStatus.Missing? && info[1].stockStatus == Present("8")
    requires info[0].stockStatus != Present("6")
    ensures var s0 := info[0].stockStatus;
      Classify(Some(info)) ==
        if s0 == Present("1") || s0 == Present("8") then Decided(Lookup(info[0].stockStatusText))
        else Decided(DateOf(info[0].stockAvailabilityDate))
  {
  }

  /** A date answer is always one of `_format_date`'s three kinds of text. */
  lemma DateAnswer(f: Field<string>)
    requires DateOf(f).Ok?
    ensures DateOf(f).value.Str?
    ensures var r := DateOf(f).value.s;
      r == "No date available" || IsoDate.IsDayMonthYear(r) ||
      (f.Present? && r == "Invalid date: " + f.value)
  {
    match f
    case Null =>
    case Present(s) => IsoDate.FormatDateOutcomes(Some(s));
  }
}
