/** The price standardiser (`standardize_price_format`) and the colour bucket and target
    cell of the two availability formatters. Prices are exact numbers of cents. */
module Formatters {
  import opened Text
  import opened IsoDate

  const NBSP: char := '\U{A0}'

  /** The scraper failure texts that are passed through untouched. */
  const Sentinels: seq<string> := [
    "N/A",
    "Error in get_price_from_geizhals()",
    "Error get_price_from_campuspoint()",
    "Error get_price_from_edustore()",
    // one text, written in two pieces so that its characters can be reasoned about
    "The product above " + "is not related to this one!"
  ]

  // ---------------------------------------------------------------- reading the price text

  /** The character class `[\d.,]`. */
  predicate IsNumChar(c: char) { IsDigit(c) || c == '.' || c == ',' }

  predicate NoNumChar(s: string) { forall i :: 0 <= i < |s| ==> !IsNumChar(s[i]) }

  predicate AllNumChars(s: string) { forall i :: 0 <= i < |s| ==> IsNumChar(s[i]) }

  /** `price_text.replace('\xa0', ' ').strip()`. */
  function Clean(s: string): string {
    Strip(ReplaceChar(s, NBSP, ' '))
  }

  /** The first position at or after `from` where the class matches. */
  function FirstNumIndex(t: string, from: nat): (k: Option<nat>)
    requires from <= |t|
    ensures k.Some? ==> from <= k.value < |t| && IsNumChar(t[k.value]) &&
                        forall j :: from <= j < k.value ==> !IsNumChar(t[j])
    ensures k.None? ==> forall j :: from <= j < |t| ==> !IsNumChar(t[j])
    decreases |t| - from
  {
    if from == |t| then None
    else if IsNumChar(t[from]) then Some(from)
    else FirstNumIndex(t, from + 1)
  }

  /** The end of the longest run of class characters starting at `i`. */
  function RunEnd(t: string, i: nat): (j: nat)
    requires i <= |t|
    ensures i <= j <= |t|
    ensures forall k :: i <= k < j ==> IsNumChar(t[k])
    ensures j < |t| ==> !IsNumChar(t[j])
    decreases |t| - i
  {
    if i < |t| && IsNumChar(t[i]) then RunEnd(t, i + 1) else i
  }

  /** `re.search(r'[\d.,]+', t)`: the leftmost, longest run. */
  function FirstRun(t: string): (run: Option<string>)
    ensures run.Some? ==> |run.value| > 0 && AllNumChars(run.value)
  {
    match FirstNumIndex(t, 0)
    case None => None
    case Some(i) => Some(t[i..RunEnd(t, i)])
  }

  /** The separator rules: with both separators present the dots group thousands and the
      comma is the decimal separator; a comma alone is the decimal separator; dots alone
      are kept as decimal points. */
  function Normalize(num: string): string {
    if ',' in num && '.' in num then ReplaceChar(RemoveChar(num, '.'), ',', '.')
    else if ',' in num then ReplaceChar(num, ',', '.')
    else num
  }

  /** The first two fractional digits as cents. */
  function Frac2(b: string): (f: nat)
    requires AllDigits(b)
    ensures f < 100
  {
    if |b| == 0 then 0
    else if |b| == 1 then DigitValue(b[0]) * 10
    else
      var p := b[..2];
      assert p == [b[0], b[1]];
      TwoDigitsValue(p);
      DigitsValue(p)
  }

  /** The decimal `a.b` rounded to whole cents, half to even. */
  function Cents(a: string, b: string): nat
    requires AllDigits(a) && AllDigits(b)
  {
    var c := DigitsValue(a) * 100 + Frac2(b);
    if |b| <= 2 then c
    else
      var v, h := DigitsValue(b[2..]), Pow10(|b| - 2);
      if 2 * v > h || (2 * v == h && c % 2 == 1) then c + 1 else c
  }

  /** `float(num)` in cents, on what reaches it (digits and dots): at most one dot and at
      least one digit, otherwise the `ValueError` branch. */
  function ParseFloat(num: string): Option<nat> {
    var parts := Split(num, '.');
    if |parts| > 2 then None
    else
      var a := parts[0];
      var b := if |parts| == 2 then parts[1] else "";
      if AllDigits(a) && AllDigits(b) && |a| + |b| > 0 then Some(Cents(a, b)) else None
  }

  function Pad3(n: nat): (s: string)
    requires n < 1000
    ensures |s| == 3 && AllDigits(s) && DigitsValue(s) == n
  {
    var s := [DigitChar(n / 100)] + PadTwo(n % 100);
    DigitsValueConcat([DigitChar(n / 100)], PadTwo(n % 100));
    assert [DigitChar(n / 100)][..0] == [];
    s
  }

  /** The integer part written in groups of three, as the format spec `,` does, with `sep`
      between the groups. */
  function Group(n: nat, sep: char): string {
    if n < 1000 then NatToString(n) else Group(n / 1000, sep) + [sep] + Pad3(n % 1000)
  }

  /** `f"€ {price_float:,.2f}"`. */
  function PyFixed(c: nat): string {
    "€ " + Group(c / 100, ',') + "." + PadTwo(c % 100)
  }

  /** `.replace(',', 'TEMP').replace('.', ',').replace('TEMP', '.')`. The formatted text
      holds no letters, so the single character 'T' stands for the marker `TEMP`. */
  function SwapSeparators(s: string): string {
    ReplaceChar(ReplaceChar(ReplaceChar(s, ',', 'T'), '.', ','), 'T', '.')
  }

  /** `€ <integer part>,<decimals>`. */
  function EuroText(integer: string, decimals: string): string {
    "€ " + integer + "," + decimals
  }

  /** The standard form `€ 1.234,56`. */
  function EuroPrice(c: nat): string {
    EuroText(Group(c / 100, '.'), PadTwo(c % 100))
  }

  /** `standardize_price_format` on a string. */
  function StandardizeText(s: string): string {
    if s == "" || s in Sentinels then s
    else
      var t := Clean(s);
      match FirstRun(t)
      case None => t
      case Some(run) =>
        match ParseFloat(Normalize(run))
        case None => t
        case Some(c) => SwapSeparators(PyFixed(c))
  }

  /** `standardize_price_format`: `None` is falsy and comes back unchanged. */
  function StandardizePriceFormat(p: Option<string>): (r: Option<string>)
    ensures r.None? <==> p.None?
  {
    match p
    case None => None
    case Some(s) => Some(StandardizeText(s))
  }

  // ---------------------------------------------------------------- helper lemmas

  lemma SwapAppend(x: string, y: string)
    ensures SwapSeparators(x + y) == SwapSeparators(x) + SwapSeparators(y)
  {
    ReplaceCharAppend(x, y, ',', 'T');
    ReplaceCharAppend(ReplaceChar(x, ',', 'T'), ReplaceChar(y, ',', 'T'), '.', ',');
    ReplaceCharAppend(ReplaceChar(ReplaceChar(x, ',', 'T'), '.', ','),
                      ReplaceChar(ReplaceChar(y, ',', 'T'), '.', ','), 'T', '.');
  }

  lemma SwapDigits(s: string)
    requires AllDigits(s)
    ensures SwapSeparators(s) == s
  {
    var a := ReplaceChar(s, ',', 'T');
    assert a == s;
    var b := ReplaceChar(a, '.', ',');
    assert b == s;
  }

  lemma {:induction false} GroupSwap(n: nat)
    ensures SwapSeparators(Group(n, ',')) == Group(n, '.')
  {
    if n < 1000 {
      SwapDigits(NatToString(n));
    } else {
      GroupSwap(n / 1000);
      SwapAppend(Group(n / 1000, ',') + [','], Pad3(n % 1000));
      SwapAppend(Group(n / 1000, ','), [',']);
      SwapDigits(Pad3(n % 1000));
      assert SwapSeparators([',']) == ['.'];
    }
  }

  /** The three replacements turn Python's `1,234.56` into `1.234,56`. */
  lemma SwapGivesEuro(c: nat)
    ensures SwapSeparators(PyFixed(c)) == EuroPrice(c)
  {
    var g, d := Group(c / 100, ','), PadTwo(c % 100);
    SwapAppend("€ " + g + ".", d);
    SwapAppend("€ " + g, ".");
    SwapAppend("€ ", g);
    GroupSwap(c / 100);
    SwapDigits(d);
    assert SwapSeparators("€ ") == "€ ";
    assert SwapSeparators(".") == ",";
  }

  /** The grouped integer part: class characters only, no comma, and its digits read back
      the number. */
  lemma GroupDigits(n: nat)
    ensures AllNumChars(Group(n, '.')) && ',' !in Group(n, '.')
    ensures var d := RemoveChar(Group(n, '.'), '.'); AllDigits(d) && |d| > 0 && DigitsValue(d) == n
  {
    GroupChars(n);
    GroupValue(n);
  }

  lemma {:induction false} GroupChars(n: nat)
    ensures AllNumChars(Group(n, '.')) && ',' !in Group(n, '.')
  {
    var s := Group(n, '.');
    if n < 1000 {
      forall i | 0 <= i < |s| ensures IsNumChar(s[i]) && s[i] != ',' { assert IsDigit(s[i]); }
    } else {
      var g, p := Group(n / 1000, '.'), Pad3(n % 1000);
      GroupChars(n / 1000);
      assert s == g + ['.'] + p;
      forall i | 0 <= i < |s| ensures IsNumChar(s[i]) && s[i] != ',' {
        if i < |g| { assert s[i] == g[i]; }
        else if i > |g| { assert s[i] == p[i - |g| - 1]; assert IsDigit(p[i - |g| - 1]); }
      }
    }
  }

  lemma {:induction false} GroupValue(n: nat)
    ensures var d := RemoveChar(Group(n, '.'), '.'); AllDigits(d) && |d| > 0 && DigitsValue(d) == n
  {
    if n < 1000 {
      NatToStringRoundTrip(n);
      DigitsHoldNo(NatToString(n), '.');
    } else {
      var g, p := Group(n / 1000, '.'), Pad3(n % 1000);
      GroupValue(n / 1000);
      var dg := RemoveChar(g, '.');
      GroupRemoveDots(g, p);
      DigitsValueConcat(dg, p);
      assert Pow10(3) == 1000;
    }
  }

  /** The dots of `g.p` go, with `p` a digit string. */
  lemma {:induction false} GroupRemoveDots(g: string, p: string)
    requires AllDigits(p)
    ensures RemoveChar(g + ['.'] + p, '.') == RemoveChar(g, '.') + p
  {
    var dot: string := ['.'];
    assert RemoveChar(dot, '.') == [] by {
      assert dot[1..] == [];
    }
    assert RemoveChar(p, '.') == p by {
      DigitsHoldNo(p, '.');
    }
    RemoveCharAppend(g, dot, '.');
    RemoveCharAppend(g + dot, p, '.');
  }

  /** A digit string with a dot between holds exactly one dot. */
  lemma SplitDecimal(d: string, f: string)
    requires AllDigits(d) && AllDigits(f)
    ensures Split(d + "." + f, '.') == [d, f]
  {
    assert '.' !in d by {
      forall i | 0 <= i < |d| ensures d[i] != '.' { assert IsDigit(d[i]); }
    }
    assert '.' !in f by {
      forall i | 0 <= i < |f| ensures f[i] != '.' { assert IsDigit(f[i]); }
    }
    SplitPrefix(d, f, '.');
    SplitSepFree(f, '.');
  }

  /** `D.dd` with two fractional digits is read exactly. */
  lemma DecimalValue(d: string, f: string)
    requires AllDigits(d) && AllDigits(f) && |f| == 2
    ensures ParseFloat(d + "." + f) == Some(DigitsValue(d) * 100 + DigitsValue(f))
  {
    SplitDecimal(d, f);
    var parts := Split(d + "." + f, '.');
    assert parts[0] == d && parts[1] == f && |parts| == 2;
    assert f[..2] == f;
    assert Frac2(f) == DigitsValue(f);
    assert Cents(d, f) == DigitsValue(d) * 100 + DigitsValue(f);
  }

  /** A run whose integer part may hold grouping dots and no comma, then a comma and
      digits: the dots go and the comma becomes the decimal point. */
  lemma {:induction false} NormalizeGroupedRun(g: string, f: string)
    requires ',' !in g && AllDigits(RemoveChar(g, '.')) && AllDigits(f)
    ensures Normalize(g + "," + f) == RemoveChar(g, '.') + "." + f
  {
    var run := g + "," + f;
    var d := RemoveChar(g, '.');
    assert run[|g|] == ',';
    DigitsHoldNo(f, '.');
    DigitsHoldNo(f, ',');
    DigitsHoldNo(d, ',');
    RemoveCharAppend(g + ",", f, '.');
    RemoveCharAppend(g, ",", '.');
    assert RemoveChar(",", '.') == ",";
    assert RemoveChar(f, '.') == f;
    ReplaceCharAppend(d + ",", f, ',', '.');
    ReplaceCharAppend(d, ",", ',', '.');
    ReplaceAbsent(d, ',', '.');
    ReplaceAbsent(f, ',', '.');
    assert ReplaceChar(",", ',', '.') == ".";
    if '.' !in run {
      assert '.' !in g by {
        forall i | 0 <= i < |g| ensures g[i] != '.' { assert g[i] == run[i]; }
      }
      assert d == g;
      ReplaceCharAppend(g + ",", f, ',', '.');
      ReplaceCharAppend(g, ",", ',', '.');
    }
  }

  lemma NormalizeGrouped(n: nat, f: string)
    requires AllDigits(f) && |f| == 2
    ensures Normalize(Group(n, '.') + "," + f) == RemoveChar(Group(n, '.'), '.') + "." + f
  {
    GroupDigits(n);
    NormalizeGroupedRun(Group(n, '.'), f);
  }

  lemma NormalizeComma(d: string, f: string)
    requires AllDigits(d) && AllDigits(f)
    ensures Normalize(d + "," + f) == d + "." + f
  {
    var run := d + "," + f;
    assert run[|d|] == ',';
    DigitsHoldNo(d, '.');
    DigitsHoldNo(f, '.');
    DigitsHoldNo(d, ',');
    DigitsHoldNo(f, ',');
    assert '.' !in run by {
      forall i | 0 <= i < |run| ensures run[i] != '.' {
        if i < |d| { assert run[i] == d[i]; }
        else if i > |d| { assert run[i] == f[i - |d| - 1]; }
      }
    }
    ReplaceCharAppend(d + ",", f, ',', '.');
    ReplaceCharAppend(d, ",", ',', '.');
    ReplaceAbsent(d, ',', '.');
    ReplaceAbsent(f, ',', '.');
    assert ReplaceChar(",", ',', '.') == ".";
  }

  /** Separator rules, by value. A comma alone is the decimal separator. */
  lemma {:induction false} CommaDecimalValue(d: string, f: string)
    requires AllDigits(d) && AllDigits(f) && |f| == 2
    ensures ParseFloat(Normalize(d + "," + f)) == Some(DigitsValue(d) * 100 + DigitsValue(f))
  {
    NormalizeComma(d, f);
    DecimalValue(d, f);
  }

  /** A dot alone is kept as the decimal point. */
  lemma {:induction false} DotDecimalValue(d: string, f: string)
    requires AllDigits(d) && AllDigits(f) && |f| == 2
    ensures ParseFloat(Normalize(d + "." + f)) == Some(DigitsValue(d) * 100 + DigitsValue(f))
  {
    var run := d + "." + f;
    DigitsHoldNo(d, ',');
    DigitsHoldNo(f, ',');
    assert ',' !in run by {
      forall i | 0 <= i < |run| ensures run[i] != ',' {
        if i < |d| { assert run[i] == d[i]; }
        else if i > |d| { assert run[i] == f[i - |d| - 1]; }
      }
    }
    DecimalValue(d, f);
  }

  /** With both separators, dots group thousands and the comma is the decimal separator:
      the grouped form of any number reads back as that number. */
  lemma {:induction false} GroupedDecimalValue(n: nat, f: string)
    requires AllDigits(f) && |f| == 2
    ensures ParseFloat(Normalize(Group(n, '.') + "," + f)) == Some(n * 100 + DigitsValue(f))
  {
    GroupDigits(n);
    GroupedRunValue(Group(n, '.'), f, n * 100 + DigitsValue(f));
  }

  /** Any text whose first numeric run reads as a number comes out in the standard form. */
  lemma {:induction false} PriceFromRun(s: string, run: string, c: nat)
    requires s != "" && s !in Sentinels
    requires FirstRun(Clean(s)) == Some(run) && ParseFloat(Normalize(run)) == Some(c)
    ensures StandardizeText(s) == EuroPrice(c)
  {
    SwapGivesEuro(c);
  }

  /** A text whose first character and last character are not white space and that holds
      no non-breaking space is left alone by the cleaning step. */
  lemma CleanFixed(s: string)
    requires NBSP !in s
    requires |s| > 0 ==> !IsPySpace(s[0]) && !IsPySpace(s[|s| - 1])
    ensures Clean(s) == s
  {
    assert ReplaceChar(s, NBSP, ' ') == s;
    StripFixed(s);
  }

  // ---------------------------------------------------------------- properties

  lemma {:induction false} FirstNumIndexAt(t: string, from: nat, k: nat)
    requires from <= k < |t| && IsNumChar(t[k])
    requires forall j :: from <= j < k ==> !IsNumChar(t[j])
    ensures FirstNumIndex(t, from) == Some(k)
    decreases k - from
  {
    if from < k {
      FirstNumIndexAt(t, from + 1, k);
    }
  }

  lemma {:induction false} RunEndAt(t: string, i: nat, j: nat)
    requires i <= j <= |t| && (forall k :: i <= k < j ==> IsNumChar(t[k]))
    requires j < |t| ==> !IsNumChar(t[j])
    ensures RunEnd(t, i) == j
    decreases j - i
  {
    if i < j {
      RunEndAt(t, i + 1, j);
    }
  }

  /** Only the first `[\d.,]+` run is interpreted: what follows it never matters. */
  lemma FirstRunOf(p: string, run: string, q: string)
    requires NoNumChar(p) && |run| > 0 && AllNumChars(run)
    requires q == [] || !IsNumChar(q[0])
    ensures FirstRun(p + run + q) == Some(run)
  {
    var t := p + run + q;
    assert t[|p|] == run[0];
    assert forall j :: 0 <= j < |p| ==> t[j] == p[j];
    FirstNumIndexAt(t, 0, |p|);
    var e := |p| + |run|;
    assert forall k :: |p| <= k < e ==> t[k] == run[k - |p|];
    if e < |t| {
      assert t[e] == q[0];
    }
    RunEndAt(t, |p|, e);
    assert t[|p|..e] == run;
  }

  /** The standardiser's three outcomes: passthrough of empty input and of the scraper
      failure texts, the cleaned text when there is no number to read, and otherwise the
      standard form of the number read. */
  lemma {:induction false} StandardizeOutcomes(s: string)
    ensures s == "" || s in Sentinels ==> StandardizeText(s) == s
    ensures s != "" && s !in Sentinels && FirstRun(Clean(s)).None? ==> StandardizeText(s) == Clean(s)
    ensures s != "" && s !in Sentinels && FirstRun(Clean(s)).Some? ==>
      match ParseFloat(Normalize(FirstRun(Clean(s)).value))
      case None => StandardizeText(s) == Clean(s)
      case Some(c) => StandardizeText(s) == EuroPrice(c)
  {
    if s != "" && s !in Sentinels && FirstRun(Clean(s)).Some? {
      var run := FirstRun(Clean(s)).value;
      if ParseFloat(Normalize(run)).Some? {
        PriceFromRun(s, run, ParseFloat(Normalize(run)).value);
      }
    }
  }

  /** No text starting with the euro sign is a scraper failure text. */
  lemma NotSentinel(o: string)
    requires |o| > 0 && o[0] == '€'
    ensures o != "" && o !in Sentinels
  {
    SentinelHeads();
    forall i | 0 <= i < |Sentinels| ensures o != Sentinels[i] {
      assert o[0] != Sentinels[i][0];
    }
  }

  /** The cleaning step leaves a `€ ` followed by class characters alone. */
  lemma CleanEuroText(run: string)
    requires |run| > 0 && AllNumChars(run)
    ensures Clean("€ " + run) == "€ " + run
  {
    var o := "€ " + run;
    assert NBSP !in o by {
      forall i | 0 <= i < |o| ensures o[i] != NBSP {
        if i >= 2 { assert o[i] == run[i - 2]; }
      }
    }
    assert o[|o| - 1] == run[|run| - 1];
    CleanFixed(o);
  }

  lemma GroupedRunChars(g: string, dd: string)
    requires AllNumChars(g) && AllDigits(dd)
    ensures AllNumChars(g + "," + dd)
  {
    var run := g + "," + dd;
    forall i | 0 <= i < |run| ensures IsNumChar(run[i]) {
      if i < |g| { assert run[i] == g[i]; }
      else if i > |g| { assert run[i] == dd[i - |g| - 1]; }
    }
  }

  /** A text `€ <g>,<dd>` is not a failure text, and its numeric run, after cleaning,
      is `<g>,<dd>`. */
  lemma {:induction false} EuroTextRun(g: string, dd: string)
    requires AllNumChars(g) && AllDigits(dd) && |dd| > 0
    ensures EuroText(g, dd) != "" && EuroText(g, dd) !in Sentinels
    ensures FirstRun(Clean(EuroText(g, dd))) == Some(g + "," + dd)
  {
    var run := g + "," + dd;
    var o := EuroText(g, dd);
    assert o == "€ " + run;
    GroupedRunChars(g, dd);
    CleanEuroText(run);
    NotSentinel(o);
    FirstRunOf("€ ", run, []);
    assert "€ " + run + [] == o;
  }

  /** The run `<g>,<dd>` reads as the number it writes. */
  lemma {:induction false} GroupedRunValue(g: string, dd: string, c: nat)
    requires ',' !in g && AllDigits(RemoveChar(g, '.'))
    requires AllDigits(dd) && |dd| == 2
    requires c == DigitsValue(RemoveChar(g, '.')) * 100 + DigitsValue(dd)
    ensures ParseFloat(Normalize(g + "," + dd)) == Some(c)
  {
    var d := RemoveChar(g, '.');
    NormalizeGroupedRun(g, dd);
    assert Normalize(g + "," + dd) == d + "." + dd;
    DecimalValue(d, dd);
  }

  /** A text `€ <g>,<dd>`, with `g` an integer part that may hold grouping dots, comes
      out as the standard form of the number it writes. */
  lemma {:induction false} StandardOfRun(g: string, dd: string, c: nat)
    requires AllNumChars(g) && ',' !in g && AllDigits(RemoveChar(g, '.'))
    requires AllDigits(dd) && |dd| == 2
    requires c == DigitsValue(RemoveChar(g, '.')) * 100 + DigitsValue(dd)
    ensures StandardizeText(EuroText(g, dd)) == EuroPrice(c)
  {
    EuroTextRun(g, dd);
    GroupedRunValue(g, dd, c);
    PriceFromRun(EuroText(g, dd), g + "," + dd, c);
  }

  /** The standard form is a fixed point: it reads back as the same number of cents. */
  lemma EuroPriceFixed(c: nat)
    ensures StandardizeText(EuroPrice(c)) == EuroPrice(c)
  {
    var g, dd := Group(c / 100, '.'), PadTwo(c % 100);
    GroupDigits(c / 100);
    StandardOfRun(g, dd, c);
  }

  lemma CleanIdempotent(s: string)
    ensures Clean(Clean(s)) == Clean(s)
  {
    var u := ReplaceChar(s, NBSP, ' ');
    var t := Strip(u);
    assert NBSP !in t by {
      forall i | 0 <= i < |t| ensures t[i] != NBSP {
        assert t[i] in u;
      }
    }
    CleanFixed(t);
  }

  /** A cleaned text with no readable number is its own standard form. */
  lemma {:induction false} UnreadableFixed(t: string)
    requires Clean(t) == t
    requires FirstRun(t).None? || ParseFloat(Normalize(FirstRun(t).value)).None?
    ensures StandardizeText(t) == t
  {
  }

  /** Standardising twice gives what standardising once gives. */
  lemma {:induction false} Idempotent(s: string)
    ensures StandardizeText(StandardizeText(s)) == StandardizeText(s)
  {
    if s != "" && s !in Sentinels {
      var t := Clean(s);
      var run := FirstRun(t);
      if run.Some? && ParseFloat(Normalize(run.value)).Some? {
        var c := ParseFloat(Normalize(run.value)).value;
        PriceFromRun(s, run.value, c);
        EuroPriceFixed(c);
      } else {
        assert StandardizeText(s) == t;
        CleanIdempotent(s);
        UnreadableFixed(t);
      }
    }
  }

  /** A numeric run with two commas, or with two dots and no comma, is not a number: the
      cleaned text comes back. */
  lemma {:induction false} UnreadableRun(s: string, run: string)
    requires s != "" && s !in Sentinels && FirstRun(Clean(s)) == Some(run)
    requires Count(run, ',') >= 2 || (Count(run, ',') == 0 && Count(run, '.') >= 2)
    ensures StandardizeText(s) == Clean(s)
  {
    var m := Normalize(run);
    CountPositive(run, ',');
    CountPositive(run, '.');
    if ',' in run && '.' in run {
      CountRemove(run, '.', ',');
      var x := RemoveChar(run, '.');
      CountReplace(x, ',', '.');
    } else if ',' in run {
      CountReplace(run, ',', '.');
    }
    assert Count(m, '.') >= 2;
    SplitLength(m, '.');
  }

  /** No text starting with a digit is a scraper failure text. */
  lemma NumericNotSentinel(o: string)
    requires |o| > 0 && IsDigit(o[0])
    ensures o != "" && o !in Sentinels
  {
    SentinelHeads();
    forall i | 0 <= i < |Sentinels| ensures o != Sentinels[i] {
      assert o[0] != Sentinels[i][0];
    }
  }

  /** Every failure text starts with `N`, `E` or `T`. */
  lemma SentinelHeads()
    ensures forall i :: 0 <= i < |Sentinels| ==> |Sentinels[i]| > 0 && Sentinels[i][0] in "NET"
  {
    assert Sentinels[0][0] == 'N';
    assert Sentinels[1][0] == 'E';
    assert Sentinels[2][0] == 'E';
    assert Sentinels[3][0] == 'E';
    assert Sentinels[4][0] == "The product above "[0] == 'T';
  }

  /** A numeric run starting with a digit and followed by the euro sign is left alone by
      the cleaning step and is the text's first run. */
  lemma {:induction false} TrailingEuroRun(run: string)
    requires |run| > 0 && IsDigit(run[0]) && AllNumChars(run)
    ensures var o := run + "€"; o != "" && o !in Sentinels && FirstRun(Clean(o)) == Some(run)
  {
    var o := run + "€";
    NumericNotSentinel(o);
    assert NBSP !in o by {
      forall i | 0 <= i < |o| ensures o[i] != NBSP {
        if i < |run| { assert o[i] == run[i]; }
      }
    }
    CleanFixed(o);
    FirstRunOf("", run, "€");
    assert "" + run + "€" == o;
  }

  /** A price written `<g>,<dd>€`, with `g` an integer part that may hold grouping dots,
      comes out as the standard form of the number it writes. */
  lemma {:induction false} TrailingEuroPrice(s: string, g: string, dd: string, c: nat)
    requires s == g + "," + dd + "€"
    requires |g| > 0 && IsDigit(g[0]) && AllNumChars(g) && ',' !in g && AllDigits(RemoveChar(g, '.'))
    requires AllDigits(dd) && |dd| == 2
    requires c == DigitsValue(RemoveChar(g, '.')) * 100 + DigitsValue(dd)
    ensures StandardizeText(s) == EuroPrice(c)
  {
    var run := g + "," + dd;
    GroupedRunChars(g, dd);
    assert run[0] == g[0];
    TrailingEuroRun(run);
    GroupedRunValue(g, dd, c);
    assert s == run + "€";
    PriceFromRun(s, run, c);
  }

  // The documented examples, computed step by step.

  lemma DigitsOf867()
    ensures NatToString(867) == "867" && DigitsValue("867") == 867
  {
    assert NatToString(8) == "8";
    assert NatToString(86) == "86";
    NatToStringRoundTrip(867);
  }

  lemma DigitsOf1039()
    ensures NatToString(1039) == "1039" && DigitsValue("1039") == 1039
  {
    assert NatToString(1) == "1";
    assert NatToString(10) == "10";
    assert NatToString(103) == "103";
    NatToStringRoundTrip(1039);
  }

  lemma EuroPrice86722()
    ensures EuroPrice(86722) == "€ 867,22"
  {
    DigitsOf867();
    assert PadTwo(22) == "22";
  }

  /** "867,22€" becomes "€ 867,22": a comma alone is the decimal separator. */
  lemma ExampleTrailingEuro()
    ensures StandardizeText("867,22€") == "€ 867,22"
  {
    DigitsOf867();
    assert DigitsValue("22") == 22 by { assert "22"[..1] == "2" && "2"[..0] == ""; }
    assert RemoveChar("867", '.') == "867";
    assert "867,22€" == "867" + "," + "22" + "€";
    TrailingEuroPrice("867,22€", "867", "22", 86722);
    EuroPrice86722();
  }

  lemma EuroPrice103900()
    ensures EuroPrice(103900) == "€ 1.039,00"
  {
    assert NatToString(1) == "1";
    assert Pad3(39) == "039";
    assert Group(1039, '.') == "1.039";
    assert PadTwo(0) == "00";
  }

  /** "1.039,00€" becomes "€ 1.039,00": with both separators the dot groups thousands. */
  lemma ExampleThousands()
    ensures StandardizeText("1.039,00€") == "€ 1.039,00"
  {
    DigitsOf1039();
    assert RemoveChar("1.039", '.') == "1039";
    assert DigitsValue("00") == 0 by { assert "00"[..1] == "0" && "0"[..0] == ""; }
    assert "1.039,00€" == "1.039" + "," + "00" + "€";
    TrailingEuroPrice("1.039,00€", "1.039", "00", 103900);
    EuroPrice103900();
  }

  /** "€ 867,22" is already standard and comes back unchanged. */
  lemma ExampleStandard()
    ensures StandardizeText("€ 867,22") == "€ 867,22"
  {
    EuroPrice86722();
    EuroPriceFixed(86722);
  }

  // ---------------------------------------------------------------- colour buckets

  /** The four background colours, by name. */
  datatype Bucket = Green | LightGreen | LightRed | LightYellow

  /** The ladder of `format_availability_column`. */
  function AvailabilityBucket(v: string): (b: Bucket)
    ensures b == Green <==> v == "Ja"
    ensures b == LightGreen <==> v == "Vorbestellbar"
    ensures b == LightRed <==> v == "Nein"
    ensures b == LightYellow <==> v != "Ja" && v != "Vorbestellbar" && v != "Nein"
  {
    if v == "Ja" then Green
    else if v == "Vorbestellbar" then LightGreen
    else if v == "Nein" then LightRed
    else LightYellow
  }

  /** `re.match(r'\d{2}/\d{2}/\d{2}', v)`: a `dd/dd/dd` prefix. */
  predicate StartsWithDate(v: string) {
    |v| >= 8 && IsDigit(v[0]) && IsDigit(v[1]) && v[2] == '/' && IsDigit(v[3]) &&
    IsDigit(v[4]) && v[5] == '/' && IsDigit(v[6]) && IsDigit(v[7])
  }

  /** The ladder of `format_itscope_availability_columns`; the first test that holds wins. */
  function ItscopeBucket(v: string): (b: Bucket)
    ensures b == Green <==> Contains(v, "auf Lager")
    ensures b == LightGreen <==> !Contains(v, "auf Lager") && StartsWithDate(v)
    ensures b == LightRed <==> !Contains(v, "auf Lager") && !StartsWithDate(v) &&
                               (v == "nicht verfügbar" || v == "no data")
  {
    if Contains(v, "auf Lager") then Green
    else if StartsWithDate(v) then LightGreen
    else if v == "nicht verfügbar" || v == "no data" then LightRed
    else LightYellow
  }

  /** Every date the getters format is coloured light green. */
  lemma FormattedDateIsLightGreen(date: Option<string>)
    requires date.Some? && ParseIso(date.value).Some?
    ensures ItscopeBucket(FormatDate(date)) == LightGreen
  {
    FormatDateOutcomes(date);
    var r := FormatDate(date);
    assert forall i :: 0 <= i < |r| ==> r[i] != 'a' by {
      forall i | 0 <= i < |r| ensures r[i] != 'a' {
        if i < 2 { assert r[i] == r[0..2][i]; }
        else if 2 < i < 5 { assert r[i] == r[3..5][i - 3]; }
        else if 5 < i { assert r[i] == r[6..8][i - 6]; }
      }
    }
    NotContainsByChar(r, "auf Lager", 0);
    assert r[0..2][0] == r[0] && r[0..2][1] == r[1];
    assert r[3..5][0] == r[3] && r[3..5][1] == r[4];
    assert r[6..8][0] == r[6] && r[6..8][1] == r[7];
  }

  /** The getters' fixed texts: "no data" and "nicht verfügbar" are light red, and the
      missing-date text is light yellow. */
  lemma GetterTextsColoured()
    ensures ItscopeBucket("no data") == LightRed
    ensures ItscopeBucket("nicht verfügbar") == LightRed
    ensures ItscopeBucket("No date available") == LightYellow
  {
    NotContainsByChar("no data", "auf Lager", 1);
    NotContainsByChar("nicht verfügbar", "auf Lager", 4);
    NotContainsByChar("No date available", "auf Lager", 4);
  }

  // ---------------------------------------------------------------- target cells

  /** A sheet grid range: zero-based, end-exclusive rows and columns. */
  datatype GridRange = GridRange(startRow: int, endRow: int, startColumn: int, endColumn: int)

  /** The formatting request of one cell: where, and which colour. */
  datatype CellFormat = CellFormat(range: GridRange, bucket: Bucket)

  /** The cell one-based sheet row `row` has in the zero-based column `column`. */
  predicate IsSingleCell(g: GridRange, row: int, column: int) {
    g.startRow == row - 1 && g.endRow == row && g.startColumn == column && g.endColumn == column + 1
  }

  /** `format_availability_column`: column C of the row. */
  function AvailabilityFormat(row: int, v: string): (r: CellFormat)
    ensures IsSingleCell(r.range, row, 2) && r.bucket == AvailabilityBucket(v)
  {
    CellFormat(GridRange(row - 1, row, 2, 3), AvailabilityBucket(v))
  }

  /** `format_itscope_availability_columns`: the given column of the row. */
  function ItscopeFormat(row: int, v: string, column: int): (r: CellFormat)
    ensures IsSingleCell(r.range, row, column) && r.bucket == ItscopeBucket(v)
  {
    CellFormat(GridRange(row - 1, row, column, column + 1), ItscopeBucket(v))
  }
}
