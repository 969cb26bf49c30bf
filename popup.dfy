/**
 * The browser extension's popup rules: the currency sign shown beside a
 * price, the symbol a prediction is requested for, the per-symbol usage
 * record and the five most recently used saved stocks.
 */
module Popup {
  import opened Results
  import opened Strings

  // ---------------------------------------------------------------------------
  // Currency signs
  // ---------------------------------------------------------------------------

  /** The currency codes the popup knows, with the sign it shows for each. */
  const CURRENCY_SIGNS: map<string, string> := map[
    "USD" := "$",
    "INR" := "₹",
    "EUR" := "€",
    "GBP" := "£",
    "JPY" := "¥",
    "CNY" := "¥",
    "AUD" := "A$",
    "CAD" := "C$",
    "CHF" := "CHF"
  ]

  /** getCurrencySymbol: the sign of a known code, the code itself otherwise. */
  function CurrencySymbol(code: string): (r: string)
    ensures code in CURRENCY_SIGNS ==> r == CURRENCY_SIGNS[code]
    ensures code !in CURRENCY_SIGNS ==> r == code
  {
    if code in CURRENCY_SIGNS && CURRENCY_SIGNS[code] != "" then CURRENCY_SIGNS[code] else code
  }

  /**
   * A code is shown as itself exactly when it is unknown or is "CHF"; every
   * other known code is shown as a sign different from the code.
   */
  lemma ShownAsItself(code: string)
    ensures CurrencySymbol(code) == code <==> code !in CURRENCY_SIGNS || code == "CHF"
  {
    if code in CURRENCY_SIGNS && code != "CHF" {
      assert |CURRENCY_SIGNS[code]| < 3;
    }
  }

  /** The yen and the yuan share a sign; a code outside the table is shown as it is. */
  lemma SignExamples()
    ensures CurrencySymbol("JPY") == CurrencySymbol("CNY") == "¥"
    ensures CurrencySymbol("SEK") == "SEK"
  {
  }

  // ---------------------------------------------------------------------------
  // The symbol a prediction is requested for
  // ---------------------------------------------------------------------------

  /**
   * The predict button: the symbol picked from the suggestions when there is
   * one, else the typed text trimmed and upper-cased; None when that is empty
   * and no request is sent.
   */
  function SelectSymbol(selected: string, input: string): (r: Option<string>)
    ensures r.None? <==> selected == [] && Strip(input, IsSpace) == []
    ensures selected != [] ==> r == Some(selected)
    ensures selected == [] && r.Some? ==> r.value == Upper(Strip(input, IsSpace)) && UpperTrimmed(r.value)
  {
    var typed := Upper(Strip(input, IsSpace));
    UpperKeepsEnds(Strip(input, IsSpace));
    if selected != [] then Some(selected)
    else if typed == [] then None
    else Some(typed)
  }

  /** Non-empty, no lower-case letter and no whitespace at either end. */
  predicate UpperTrimmed(s: string)
  {
    && s != []
    && (forall i :: 0 <= i < |s| ==> !IsLower(s[i]))
    && !IsSpace(s[0]) && !IsSpace(s[|s| - 1])
  }

  /** Upper-casing keeps the length, and keeps non-whitespace ends non-whitespace. */
  lemma UpperKeepsEnds(t: string)
    requires t != [] ==> !IsSpace(t[0]) && !IsSpace(t[|t| - 1])
    ensures |Upper(t)| == |t|
    ensures t != [] ==> UpperTrimmed(Upper(t))
  {
  }

  // ---------------------------------------------------------------------------
  // Usage record
  // ---------------------------------------------------------------------------

  /** The stored usage map: the time each symbol was last predicted. */
  class UsageMap {
    var entries: map<string, int>

    constructor ()
      ensures entries == map[]
    {
      entries := map[];
    }

    /** Records a prediction of `symbol` at time `now`; no other entry changes. */
    method RecordUsage(symbol: string, now: int)
      modifies this
      ensures entries == old(entries)[symbol := now]
      ensures symbol in entries && entries[symbol] == now
      ensures forall s :: s != symbol ==> (s in entries <==> s in old(entries))
      ensures forall s :: s != symbol && s in old(entries) ==> entries[s] == old(entries)[s]
    {
      entries := entries[symbol := now];
    }
  }

  /** The recorded time of a symbol, 0 when it was never recorded. */
  function LastUsed(usage: map<string, int>, symbol: string): (t: int)
    ensures symbol in usage ==> t == usage[symbol]
    ensures symbol !in usage ==> t == 0
  {
    if symbol in usage && usage[symbol] != 0 then usage[symbol] else 0
  }

  /** Recording a symbol moves only that symbol's time. */
  lemma RecordMovesOnlyThatSymbol(usage: map<string, int>, symbol: string, now: int, other: string)
    ensures LastUsed(usage[symbol := now], symbol) == now
    ensures other != symbol ==> LastUsed(usage[symbol := now], other) == LastUsed(usage, other)
  {
  }

  // ---------------------------------------------------------------------------
  // Saved stocks
  // ---------------------------------------------------------------------------

  datatype Saved = Saved(symbol: string, lastUsed: int)

  /** One entry per available stock, in the order the server listed them. */
  function SavedEntries(stocks: seq<string>, usage: map<string, int>): (r: seq<Saved>)
    ensures |r| == |stocks|
    ensures forall i :: 0 <= i < |r| ==> r[i].symbol == stocks[i] && r[i].lastUsed == LastUsed(usage, stocks[i])
  {
    seq(|stocks|, i requires 0 <= i < |stocks| => Saved(stocks[i], LastUsed(usage, stocks[i])))
  }

  /** Non-increasing by last use: the order the comparator `b.lastUsed - a.lastUsed` asks for. */
  predicate MostRecentFirst(s: seq<Saved>)
  {
    forall i, j :: 0 <= i < j < |s| ==> s[i].lastUsed >= s[j].lastUsed
  }

  /** Places `e` before the first entry used no later than it. */
  function Insert(e: Saved, s: seq<Saved>): (r: seq<Saved>)
    requires MostRecentFirst(s)
    ensures |r| == |s| + 1
    ensures r[0] == e || (s != [] && r[0] == s[0])
    ensures MostRecentFirst(r)
    ensures multiset(r) == multiset(s) + multiset{e}
    decreases |s|
  {
    if s == [] || e.lastUsed >= s[0].lastUsed then [e] + s
    else
      var rest := Insert(e, s[1..]);
      assert s == [s[0]] + s[1..];
      [s[0]] + rest
  }

  /** Array.prototype.sort with that comparator: the entries reordered, most recent first. */
  function SortByRecency(s: seq<Saved>): (r: seq<Saved>)
    ensures |r| == |s|
    ensures MostRecentFirst(r)
    ensures multiset(r) == multiset(s)
    decreases |s|
  {
    if s == [] then []
    else
      assert s == [s[0]] + s[1..];
      Insert(s[0], SortByRecency(s[1..]))
  }

  /** How many chips are rendered for n saved stocks: Math.min(5, n). */
  function ChipCount(n: nat): nat
  {
    if n < 5 then n else 5
  }

  /**
   * renderSavedStocks: builds the entries, sorts them and returns the symbols
   * of the chips it renders, the first min(5, n) after sorting.
   */
  method RenderSavedStocks(stocks: seq<string>, usage: map<string, int>) returns (chips: seq<string>)
    ensures |chips| == ChipCount(|stocks|)
    ensures forall i :: 0 <= i < |chips| ==> chips[i] == SortByRecency(SavedEntries(stocks, usage))[i].symbol
  {
    var saved: seq<Saved> := [];
    for i := 0 to |stocks|
      invariant saved == SavedEntries(stocks[..i], usage)
    {
      saved := saved + [Saved(stocks[i], LastUsed(usage, stocks[i]))];
    }
    assert stocks[..|stocks|] == stocks;
    saved := SortByRecency(saved);
    chips := [];
    for i := 0 to ChipCount(|saved|)
      invariant |chips| == i
      invariant forall k :: 0 <= k < i ==> chips[k] == saved[k].symbol
    {
      chips := chips + [saved[i].symbol];
    }
  }

  /**
   * The chips are the most recently used stocks: each shown stock was used no
   * earlier than any stock left out, and every shown symbol is an available stock.
   */
  lemma ChipsAreMostRecent(stocks: seq<string>, usage: map<string, int>)
    ensures var sorted := SortByRecency(SavedEntries(stocks, usage));
      && |sorted| == |stocks|
      && (forall i, j :: 0 <= i < ChipCount(|sorted|) <= j < |sorted| ==> sorted[i].lastUsed >= sorted[j].lastUsed)
      && (forall i :: 0 <= i < |sorted| ==> sorted[i].symbol in stocks && sorted[i].lastUsed == LastUsed(usage, sorted[i].symbol))
  {
    var entries := SavedEntries(stocks, usage);
    var sorted := SortByRecency(entries);
    forall i | 0 <= i < |sorted|
      ensures sorted[i].symbol in stocks && sorted[i].lastUsed == LastUsed(usage, sorted[i].symbol)
    {
      assert sorted[i] in multiset(entries);
      var k :| 0 <= k < |entries| && entries[k] == sorted[i];
    }
  }
}
