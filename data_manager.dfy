/** The sheet row mapping: `get_data` turns the worksheet's cell grid into one record
    per row after the header, and `get_sku_list` maps each SKU of the first column to its
    1-based row number. The worksheet reads (`get_all_values`, `col_values(1)`) become
    the inputs. */
module DataManager {
  import opened Text

  /** `dict(zip(headers, row))`: the pairs up to the shorter of the two, a later
      duplicate header overwriting an earlier one. */
  function Zip(headers: seq<string>, row: seq<string>): (m: map<string, string>)
    ensures forall k :: k in m <==> exists i :: 0 <= i < |headers| && i < |row| && headers[i] == k
  {
    var n := if |headers| < |row| then |headers| else |row|;
    if n == 0 then map[]
    else Zip(headers[..n - 1], row[..n - 1])[headers[n - 1] := row[n - 1]]
  }

  /** `get_data`: the header row is `data[0]`, so an empty grid raises `IndexError`. */
  function GetData(data: seq<seq<string>>): (r: Result<seq<map<string, string>>>)
    ensures r.Raised? <==> |data| == 0
    ensures r.Ok? ==> |r.value| == |data| - 1
  {
    if |data| == 0 then Raised(IndexError)
    else Ok(seq(|data| - 1, i requires 0 <= i < |data| - 1 => Zip(data[0], data[i + 1])))
  }

  /** The dict comprehension over `enumerate(skus)`: a later occurrence overwrites an
      earlier one, so each SKU maps to `2 +` the index of its last occurrence. */
  function RowNumbers(skus: seq<string>): (m: map<string, int>)
    ensures forall k :: k in m <==> k in skus
  {
    if |skus| == 0 then map[]
    else
      var n := |skus| - 1;
      assert forall k :: k in skus <==> k in skus[..n] || k == skus[n];
      RowNumbers(skus[..n])[skus[n] := n + 2]
  }

  /** Each SKU maps to `2 +` the index of its last occurrence. */
  lemma {:induction false} RowNumberOfLastOccurrence(skus: seq<string>, k: string)
    requires k in skus
    ensures 2 <= RowNumbers(skus)[k] <= |skus| + 1
    ensures skus[RowNumbers(skus)[k] - 2] == k
    ensures forall j :: RowNumbers(skus)[k] - 2 < j < |skus| ==> skus[j] != k
  {
    var n := |skus| - 1;
    if skus[n] != k {
      assert k in skus[..n];
      RowNumberOfLastOccurrence(skus[..n], k);
      var r := RowNumbers(skus[..n])[k];
      assert skus[..n][r - 2] == skus[r - 2];
      forall j | r - 2 < j < |skus| ensures skus[j] != k {
        if j < n { assert skus[..n][j] == skus[j]; }
      }
    }
  }

  /** `get_sku_list`: the first column without its header cell. */
  function GetSkuList(column: seq<string>): map<string, int> {
    RowNumbers(if |column| == 0 then [] else column[1..])
  }

  // ---------------------------------------------------------------- lemmas

  /** The value under header `headers[i]` is the cell `row[i]` when no later column
      within the zipped width has the same header. */
  lemma {:induction false} ZipLastColumnWins(headers: seq<string>, row: seq<string>, i: nat)
    requires i < |headers| && i < |row|
    requires forall j :: i < j < |headers| && j < |row| ==> headers[j] != headers[i]
    ensures headers[i] in Zip(headers, row) && Zip(headers, row)[headers[i]] == row[i]
  {
    var n := if |headers| < |row| then |headers| else |row|;
    if i < n - 1 {
      ZipLastColumnWins(headers[..n - 1], row[..n - 1], i);
    }
  }

  /** Cells beyond the last header and headers beyond the last cell are dropped. */
  lemma {:induction false} ZipTruncates(headers: seq<string>, row: seq<string>)
    ensures var n := if |headers| < |row| then |headers| else |row|;
      Zip(headers, row) == Zip(headers[..n], row[..n])
  {
    var n := if |headers| < |row| then |headers| else |row|;
    if n > 0 {
      assert headers[..n][..n - 1] == headers[..n - 1] && row[..n][..n - 1] == row[..n - 1];
    }
  }

  /** Record `i` is built from grid row `i + 1` under the header row. */
  lemma RecordOfRow(data: seq<seq<string>>, i: nat)
    requires 0 < |data| && i < |data| - 1
    ensures GetData(data).value[i] == Zip(data[0], data[i + 1])
  {
  }

  /** Every row number lies between 2 and the column's length, and names a row holding
      that SKU. */
  lemma SkuRowBounds(column: seq<string>, sku: string)
    requires sku in GetSkuList(column)
    ensures 2 <= GetSkuList(column)[sku] <= |column|
    ensures column[GetSkuList(column)[sku] - 1] == sku
  {
    var skus := column[1..];
    RowNumberOfLastOccurrence(skus, sku);
    assert skus[GetSkuList(column)[sku] - 2] == column[GetSkuList(column)[sku] - 1];
  }

  /** The SKU at 0-based position `i` after the header maps to `i + 2` unless it occurs
      again later. */
  lemma SkuRowOfPosition(column: seq<string>, i: nat)
    requires 0 < |column| && i < |column| - 1
    requires forall j :: i + 1 < j < |column| ==> column[j] != column[i + 1]
    ensures GetSkuList(column)[column[i + 1]] == i + 2
  {
    var skus := column[1..];
    var k := column[i + 1];
    assert skus[i] == k;
    RowNumberOfLastOccurrence(skus, k);
    var r := RowNumbers(skus)[k];
    assert column[r - 1] == skus[r - 2];
  }

  /** A SKU that occurs twice maps to the row of its later occurrence. */
  lemma DuplicateSkuLastWins(column: seq<string>, i: nat, j: nat)
    requires 0 < i < j < |column| && column[i] == column[j]
    ensures GetSkuList(column)[column[i]] != i + 1
  {
    var skus := column[1..];
    assert skus[j - 1] == column[j] && skus[i - 1] == column[i];
    RowNumberOfLastOccurrence(skus, column[i]);
  }

  /** The header cell is not a key unless the same text appears in a later cell. */
  lemma HeaderExcluded(column: seq<string>)
    requires 0 < |column|
    requires forall j :: 0 < j < |column| ==> column[j] != column[0]
    ensures column[0] !in GetSkuList(column)
  {
  }
}
