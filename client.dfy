/** The distributor API client (`ITscopeClient`): the request it builds for a product
    lookup and the supplier filter it applies to the decoded JSON response. The HTTP
    exchange itself is a parameter. */
module Client {
  import opened Text
  import opened Getters

  // ---------------------------------------------------------------- the raw response

  /** `item["supplier"]`: its `id` and `name`, `None` when absent or null. */
  datatype RawSupplier = RawSupplier(id: Option<string>, name: Option<string>)

  datatype RawItem = RawItem(supplier: Field<RawSupplier>, supplierStockInfo: Field<seq<StockEntry>>)

  datatype RawProduct = RawProduct(supplierItems: Field<seq<RawItem>>)

  /** The decoded body: a falsy value (null, `{}`, `[]`, ...) or an object whose
      `"product"` member holds the list of products. */
  datatype RawResponse = Falsy | Object(product: Field<seq<RawProduct>>)

  /** The request `get_product_by_id` sends: the URL and its `realtime` query parameter. */
  datatype Request = Request(url: string, realtime: string)

  /** What the transport does with a request: a decoded body, a failure of `requests.get`
      or of `raise_for_status`, or a body that `.json()` cannot decode. */
  datatype Response = Body(json: RawResponse) | HttpFailure | UndecodableBody

  /** `suppliers_to_keep`. */
  const SuppliersToKeep: set<string> :=
    {"Ingram Micro Österreich", "TD SYNNEX Austria", "ALSO Österreich"}

  /** The kept names are exactly the three names the getters look for. */
  lemma KeptNamesAreGetterNames(name: string)
    ensures name in SuppliersToKeep <==> exists d :: SupplierName(d) == name
  {
    if name == "Ingram Micro Österreich" { assert SupplierName(Ingram) == name; }
    if name == "TD SYNNEX Austria" { assert SupplierName(TdSynnex) == name; }
    if name == "ALSO Österreich" { assert SupplierName(Also) == name; }
  }

  // ---------------------------------------------------------------- the filter, specified

  /** `item.get("supplierStockInfo", [])`, with null kept as `None`. */
  function StockInfoOf(f: Field<seq<StockEntry>>): Option<seq<StockEntry>> {
    match f
    case Missing => Some([])
    case Null => None
    case Present(xs) => Some(xs)
  }

  predicate IsKept(item: RawItem) {
    item.supplier.Present? && item.supplier.value.name.Some? &&
    item.supplier.value.name.value in SuppliersToKeep
  }

  /** The record a kept item becomes. */
  function Project(item: RawItem): SupplierRecord
    requires IsKept(item)
  {
    var s := item.supplier.value;
    SupplierRecord(s.id, s.name.value, StockInfoOf(item.supplierStockInfo))
  }

  /** The loop over `supplier_items`: `item.get("supplier", {})` on a null supplier calls
      `.get` on `None` and raises. */
  function FilterItems(items: seq<RawItem>): Result<seq<SupplierRecord>> {
    if |items| == 0 then Ok([])
    else
      var item := items[0];
      if item.supplier.Null? then Raised(AttributeError)
      else match FilterItems(items[1..])
        case Raised(e) => Raised(e)
        case Ok(rest) => Ok((if IsKept(item) then [Project(item)] else []) + rest)
  }

  /** `_get_suppliers`. */
  function Suppliers(json: RawResponse): Result<seq<SupplierRecord>> {
    match json
    case Falsy => Ok([])
    case Object(p) =>
      if !p.Present? || |p.value| == 0 then Ok([])
      else match p.value[0].supplierItems
        case Missing => Ok([])
        case Null => Raised(TypeError)
        case Present(items) => FilterItems(items)
  }

  // ---------------------------------------------------------------- the client

  class ItScopeClient {
    const base: string

    /** `__init__`: the base URL comes from the configuration; the credentials and
        headers it also stores are not modelled. */
    constructor(base: string)
      ensures this.base == base
    {
      this.base := base;
    }

    /** The endpoint `get_product_by_id` requests. */
    function ProductUrl(sku: string, developer: bool): string {
      base + "/products/search/hstpid=" + sku + FormatPath(developer)
    }

    /** `/{return_format}.json`, with `return_format` `"developer"` or `"standard"`. */
    static function FormatPath(developer: bool): string {
      "/" + (if developer then "developer" else "standard") + ".json"
    }

    /** The two format paths differ six characters from the end. */
    static lemma FormatPathEnds(developer: bool)
      ensures |FormatPath(developer)| >= 6
      ensures FormatPath(developer)[|FormatPath(developer)| - 6] == if developer then 'r' else 'd'
    {
    }

    /** `str(realtime).lower()`. */
    static function RealtimeParam(realtime: bool): (s: string)
      ensures s == "true" || s == "false"
      ensures (s == "true") == realtime
    {
      if realtime then "true" else "false"
    }

    /** `_get_suppliers`, as the loop that appends to `filtered`. */
    method GetSuppliers(json: RawResponse) returns (r: Result<seq<SupplierRecord>>)
      ensures r == Suppliers(json)
    {
      if json.Falsy? {
        return Ok([]);
      }
      var products := json.product;
      if !products.Present? || |products.value| == 0 {
        return Ok([]);
      }
      var items: seq<RawItem>;
      match products.value[0].supplierItems {
        case Missing => items := [];
        case Null => return Raised(TypeError);
        case Present(xs) => items := xs;
      }
      var filtered: seq<SupplierRecord> := [];
      var i := 0;
      while i < |items|
        invariant 0 <= i <= |items|
        invariant FilterItems(items[..i]) == Ok(filtered)
      {
        var item := items[i];
        assert items[..i + 1] == items[..i] + [item];
        FilterItemsAppend(items[..i], [item]);
        assert [item][1..] == [];
        if item.supplier.Null? {
          FilterItemsAppend(items[..i + 1], items[i + 1..]);
          assert items[..i + 1] + items[i + 1..] == items;
          return Raised(AttributeError);
        }
        var kept: seq<SupplierRecord> := if IsKept(item) then [Project(item)] else [];
        assert FilterItems([item]) == Ok(kept + []);
        assert kept + [] == kept;
        assert FilterItems(items[..i + 1]) == Ok(filtered + kept);
        filtered := filtered + kept;
        i := i + 1;
      }
      assert items[..i] == items;
      r := Ok(filtered);
    }

    /** `get_product_by_id`: the request is built from the SKU and the two flags, and the
        transport's answer is decoded and filtered. */
    method GetProductById(sku: string, developer: bool, realtime: bool, transport: Request -> Response)
      returns (r: Result<seq<SupplierRecord>>)
      ensures r == match transport(Request(ProductUrl(sku, developer), RealtimeParam(realtime)))
        case HttpFailure => Raised(RequestError)
        case UndecodableBody => Raised(JsonDecodeError)
        case Body(json) => Suppliers(json)
    {
      var url := ProductUrl(sku, developer);
      var response := transport(Request(url, RealtimeParam(realtime)));
      match response {
        case HttpFailure => r := Raised(RequestError);
        case UndecodableBody => r := Raised(JsonDecodeError);
        case Body(json) => r := GetSuppliers(json);
      }
    }

    /** Different SKUs or formats give different URLs: the SKU can be read back from
        between `hstpid=` and the format suffix. */
    lemma ProductUrlInjective(s1: string, d1: bool, s2: string, d2: bool)
      requires ProductUrl(s1, d1) == ProductUrl(s2, d2)
      ensures s1 == s2 && d1 == d2
    {
      var head := base + "/products/search/hstpid=";
      FormatPathEnds(d1);
      FormatPathEnds(d2);
      SameEnding(head + s1, FormatPath(d1), head + s2, FormatPath(d2), 6);
      SameMiddle(head, s1, s2, FormatPath(d1));
    }
  }

  /** Equal texts have equal characters at the same distance from the end. */
  lemma SameEnding(x: string, f: string, y: string, g: string, k: nat)
    requires x + f == y + g && 0 < k <= |f| && k <= |g|
    ensures f[|f| - k] == g[|g| - k]
  {
    assert (x + f)[|x + f| - k] == f[|f| - k];
    assert (y + g)[|y + g| - k] == g[|g| - k];
  }

  /** Equal texts with the same head and tail have the same middle. */
  lemma SameMiddle(h: string, a: string, b: string, f: string)
    requires h + a + f == h + b + f
    ensures a == b
  {
    assert a == (h + a + f)[|h|..|h| + |a|];
    assert b == (h + b + f)[|h|..|h| + |b|];
  }

  // ---------------------------------------------------------------- lemmas

  /** The loop's work splits over a concatenation, so input order is kept. */
  lemma {:induction false} FilterItemsAppend(a: seq<RawItem>, b: seq<RawItem>)
    ensures FilterItems(a + b) ==
      match FilterItems(a)
      case Raised(e) => Raised(e)
      case Ok(x) =>
        match FilterItems(b)
        case Raised(e) => Raised(e)
        case Ok(y) => Ok(x + y)
  {
    if |a| == 0 {
      assert a + b == b;
      match FilterItems(b) {
        case Raised(_) =>
        case Ok(y) => assert [] + y == y;
      }
    } else {
      assert (a + b)[0] == a[0] && (a + b)[1..] == a[1..] + b;
      FilterItemsAppend(a[1..], b);
      match FilterItems(a[1..]) {
        case Raised(_) =>
        case Ok(x) =>
          match FilterItems(b) {
            case Raised(_) =>
            case Ok(y) =>
              var h := if IsKept(a[0]) then [Project(a[0])] else [];
              assert h + (x + y) == (h + x) + y;
          }
      }
    }
  }

  /** The filter raises exactly when some item has a null `supplier`. */
  lemma {:induction false} FilterRaisesIffNullSupplier(items: seq<RawItem>)
    ensures FilterItems(items).Raised? <==> exists i :: 0 <= i < |items| && items[i].supplier.Null?
  {
    if |items| > 0 {
      FilterRaisesIffNullSupplier(items[1..]);
      if exists i :: 0 <= i < |items[1..]| && items[1..][i].supplier.Null? {
        var i :| 0 <= i < |items[1..]| && items[1..][i].supplier.Null?;
        assert items[i + 1].supplier.Null?;
      }
      if exists i :: 0 <= i < |items| && items[i].supplier.Null? {
        var i :| 0 <= i < |items| && items[i].supplier.Null?;
        if i > 0 { assert items[1..][i - 1].supplier.Null?; }
      }
    }
  }

  /** Every kept record carries one of the three names, and the output is no longer than
      the input. */
  lemma {:induction false} FilterSound(items: seq<RawItem>)
    requires FilterItems(items).Ok?
    ensures |FilterItems(items).value| <= |items|
    ensures forall r :: r in FilterItems(items).value ==> r.supplierName in SuppliersToKeep
  {
    if |items| > 0 {
      FilterSound(items[1..]);
    }
  }

  /** Every item named after one of the three suppliers is kept, projected. */
  lemma {:induction false} FilterComplete(items: seq<RawItem>, i: nat)
    requires FilterItems(items).Ok? && i < |items| && IsKept(items[i])
    ensures Project(items[i]) in FilterItems(items).value
  {
    if i > 0 {
      assert items[1..][i - 1] == items[i];
      FilterComplete(items[1..], i - 1);
    }
  }

  /** Only the first product is read: later products never change the result. */
  lemma OnlyFirstProduct(p: RawProduct, more: seq<RawProduct>)
    ensures Suppliers(Object(Present([p] + more))) == Suppliers(Object(Present([p])))
  {
  }

  /** A falsy body, or a missing, null or empty product list, gives no records. */
  lemma NoProductNoSuppliers(json: RawResponse)
    requires json.Falsy? || !json.product.Present? || json.product.value == []
    ensures Suppliers(json) == Ok([])
  {
  }
}
