/**
 * The data pipeline of server/utils.py: the price-history cache and its
 * incremental merge, the min-max normaliser and the sequence windower.
 */
module Utils {
  import opened Results
  import opened Strings

  // ---------------------------------------------------------------------------
  // Price rows and the date -> price table they describe
  // ---------------------------------------------------------------------------

  /** One row of a price cache: a trading day (a day number) and its closing price. */
  datatype Row = Row(date: int, price: real)

  /** The date -> price table a run of rows describes; a later row overrides an earlier one of the same date. */
  function PriceTable(rows: seq<Row>): map<int, real>
  {
    if rows == [] then map[] else map[rows[0].date := rows[0].price] + PriceTable(rows[1..])
  }

  predicate UniqueDates(rows: seq<Row>)
  {
    forall i, j :: 0 <= i < j < |rows| ==> rows[i].date != rows[j].date
  }

  predicate StrictlyAscending(rows: seq<Row>)
  {
    forall i, j :: 0 <= i < j < |rows| ==> rows[i].date < rows[j].date
  }

  lemma {:induction false} RowDateInTable(rows: seq<Row>, k: nat)
    requires k < |rows|
    ensures rows[k].date in PriceTable(rows)
  {
    if k > 0 {
      RowDateInTable(rows[1..], k - 1);
    }
  }

  lemma AllDatesInTable(rows: seq<Row>)
    ensures forall k :: 0 <= k < |rows| ==> rows[k].date in PriceTable(rows)
  {
    forall k | 0 <= k < |rows| {
      RowDateInTable(rows, k);
    }
  }

  lemma {:induction false} TableKeyHasRow(rows: seq<Row>, d: int)
    requires d in PriceTable(rows)
    ensures exists k :: 0 <= k < |rows| && rows[k].date == d
  {
    if rows[0].date != d {
      TableKeyHasRow(rows[1..], d);
      var k :| 0 <= k < |rows[1..]| && rows[1..][k].date == d;
      assert rows[k + 1].date == d;
    }
  }

  lemma {:induction false} AbsentDateNotInTable(rows: seq<Row>, d: int)
    requires forall k :: 0 <= k < |rows| ==> rows[k].date != d
    ensures d !in PriceTable(rows)
  {
    if rows != [] {
      AbsentDateNotInTable(rows[1..], d);
    }
  }

  /** Concatenating runs of rows overrides the first table with the second. */
  lemma {:induction false} PriceTableAppend(a: seq<Row>, b: seq<Row>)
    ensures PriceTable(a + b) == PriceTable(a) + PriceTable(b)
  {
    if a == [] {
      assert a + b == b;
    } else {
      assert (a + b)[1..] == a[1..] + b;
      PriceTableAppend(a[1..], b);
    }
  }

  /** keep="last": a row that no later row shares a date with gives the table its price. */
  lemma {:induction false} LastOccurrenceWins(rows: seq<Row>, k: nat)
    requires k < |rows|
    requires forall j :: k < j < |rows| ==> rows[j].date != rows[k].date
    ensures rows[k].date in PriceTable(rows) && PriceTable(rows)[rows[k].date] == rows[k].price
  {
    RowDateInTable(rows, k);
    if k == 0 {
      AbsentDateNotInTable(rows[1..], rows[0].date);
    } else {
      LastOccurrenceWins(rows[1..], k - 1);
    }
  }

  /** In a strictly ascending run the first date is the smallest date of the table. */
  lemma AscendingTableBound(rows: seq<Row>)
    requires StrictlyAscending(rows) && rows != []
    ensures forall d :: d in PriceTable(rows) ==> rows[0].date <= d
  {
    forall d | d in PriceTable(rows) ensures rows[0].date <= d {
      TableKeyHasRow(rows, d);
    }
  }

  /** Peeling the first row off a strictly ascending run removes exactly its date from the table. */
  lemma AscendingTail(rows: seq<Row>)
    requires StrictlyAscending(rows) && rows != []
    ensures rows[0].date !in PriceTable(rows[1..])
    ensures PriceTable(rows)[rows[0].date] == rows[0].price
    ensures PriceTable(rows[1..]) == PriceTable(rows) - {rows[0].date}
    ensures forall d :: d in PriceTable(rows[1..]) ==> rows[0].date < d
  {
    forall d | d in PriceTable(rows[1..]) ensures rows[0].date < d {
      TableKeyHasRow(rows[1..], d);
      var j :| 0 <= j < |rows[1..]| && rows[1..][j].date == d;
      assert rows[j + 1].date == d;
    }
  }

  /** A strictly ascending run is determined by its table: sorting after deduplication has one answer. */
  lemma {:induction false} AscendingDeterminedByTable(a: seq<Row>, b: seq<Row>)
    requires StrictlyAscending(a) && StrictlyAscending(b)
    requires PriceTable(a) == PriceTable(b)
    ensures a == b
  {
    if a != [] && b != [] {
      RowDateInTable(a, 0);
      RowDateInTable(b, 0);
      AscendingTableBound(a);
      AscendingTableBound(b);
      assert a[0].date == b[0].date;
      AscendingTail(a);
      AscendingTail(b);
      assert a[0] == b[0];
      AscendingDeterminedByTable(a[1..], b[1..]);
      assert a == [a[0]] + a[1..];
      assert b == [b[0]] + b[1..];
    } else if a != [] {
      RowDateInTable(a, 0);
    } else if b != [] {
      RowDateInTable(b, 0);
    }
  }

  // ---------------------------------------------------------------------------
  // Cleaning: drop_duplicates(keep="last") followed by sort_values
  // ---------------------------------------------------------------------------

  /** drop_duplicates(subset=date, keep="last"): a row survives when no later row has its date. */
  function DropDuplicates(rows: seq<Row>): (r: seq<Row>)
    ensures UniqueDates(r)
    ensures PriceTable(r) == PriceTable(rows)
  {
    if rows == [] then []
    else if rows[0].date in PriceTable(rows[1..]) then
      var rest := DropDuplicates(rows[1..]);
      assert PriceTable(rows) == PriceTable(rows[1..]);
      rest
    else
      var rest := DropDuplicates(rows[1..]);
      AllDatesInTable(rest);
      var r := [rows[0]] + rest;
      assert r[1..] == rest;
      r
  }

  /** A row dated before every date of a strictly ascending run can go in front of it. */
  lemma ConsBelowTable(first: Row, rest: seq<Row>)
    requires StrictlyAscending(rest)
    requires forall d :: d in PriceTable(rest) ==> first.date < d
    ensures StrictlyAscending([first] + rest)
    ensures PriceTable([first] + rest) == map[first.date := first.price] + PriceTable(rest)
  {
    var r := [first] + rest;
    AllDatesInTable(rest);
    assert r[1..] == rest;
  }

  /** Inserts one row into a strictly ascending run whose dates do not include the row's date. */
  function InsertByDate(x: Row, s: seq<Row>): (r: seq<Row>)
    requires StrictlyAscending(s) && x.date !in PriceTable(s)
    ensures StrictlyAscending(r)
    ensures PriceTable(r) == PriceTable(s)[x.date := x.price]
  {
    if s == [] then [x]
    else if x.date < s[0].date then
      AscendingTableBound(s);
      AllDatesInTable(s);
      [x] + s
    else
      RowDateInTable(s, 0);
      AscendingTail(s);
      var rest := InsertByDate(x, s[1..]);
      ConsBelowTable(s[0], rest);
      [s[0]] + rest
  }

  /** sort_values(by=date) on deduplicated rows. */
  function SortByDate(rows: seq<Row>): (r: seq<Row>)
    requires UniqueDates(rows)
    ensures StrictlyAscending(r)
    ensures PriceTable(r) == PriceTable(rows)
  {
    if rows == [] then []
    else
      var sorted := SortByDate(rows[1..]);
      AbsentDateNotInTable(rows[1..], rows[0].date);
      InsertByDate(rows[0], sorted)
  }

  /** The two cleaning steps: one row per date with its last price, in ascending date order. */
  function CleanRows(rows: seq<Row>): (r: seq<Row>)
    ensures StrictlyAscending(r)
    ensures PriceTable(r) == PriceTable(rows)
  {
    SortByDate(DropDuplicates(rows))
  }

  // ---------------------------------------------------------------------------
  // Incremental fetch and merge
  // ---------------------------------------------------------------------------

  /** A download request: an explicit date range (end exclusive) or a trailing period such as "5y". */
  datatype Request = Between(start: int, end: int) | Trailing(period: string)

  /** The remote quote source, with "today" as the day number the call happens on. */
  datatype Remote = Remote(download: (string, Request) -> seq<Row>, today: int)

  /** The largest date of a non-empty run (the source takes the column's max, not its last entry). */
  function LatestDate(rows: seq<Row>): (d: int)
    requires rows != []
    ensures exists k :: 0 <= k < |rows| && rows[k].date == d
    ensures forall k :: 0 <= k < |rows| ==> rows[k].date <= d
  {
    if |rows| == 1 then rows[0].date
    else
      var m := LatestDate(rows[1..]);
      if rows[0].date >= m then rows[0].date else m
  }

  function Existing(cache: Option<seq<Row>>): seq<Row>
  {
    if cache.Some? then cache.value else []
  }

  /** The request made for a symbol: from the latest cached day (inclusive) through today, or the whole period. */
  function RequestFor(cache: Option<seq<Row>>, today: int, period: string): (q: Request)
    requires cache != Some([])
    ensures cache.None? ==> q == Trailing(period)
    ensures cache.Some? ==> q.Between? && q.end == today + 1
    ensures cache.Some? ==>
      && (exists k :: 0 <= k < |cache.value| && cache.value[k].date == q.start)
      && (forall k :: 0 <= k < |cache.value| ==> cache.value[k].date <= q.start)
  {
    if cache.Some? then Between(LatestDate(cache.value), today + 1) else Trailing(period)
  }

  /** Cached rows followed by freshly downloaded ones, then cleaned; None when there is nothing at all. */
  function Merge(cache: Option<seq<Row>>, incoming: seq<Row>): (r: Option<seq<Row>>)
    requires cache != Some([])
    ensures r.None? <==> cache.None? && incoming == []
    ensures r.Some? ==> r.value != [] && StrictlyAscending(r.value)
    ensures r.Some? ==> PriceTable(r.value) == PriceTable(Existing(cache)) + PriceTable(incoming)
  {
    if cache.None? && incoming == [] then None
    else
      var combined :=
        if cache.Some? && incoming != [] then cache.value + incoming
        else if cache.Some? then cache.value
        else incoming;
      PriceTableAppend(Existing(cache), incoming);
      assert combined == Existing(cache) + incoming;
      RowDateInTable(combined, 0);
      Some(CleanRows(combined))
  }

  function CacheOf(caches: map<string, seq<Row>>, key: string): Option<seq<Row>>
  {
    if key in caches then Some(caches[key]) else None
  }

  /**
   * The rows fetch_stock_data returns (and writes back) for a symbol, given the
   * cache files (keyed by the upper-cased symbol) and the remote source.
   */
  function FetchRows(caches: map<string, seq<Row>>, remote: Remote, symbol: string, period: string)
    : (r: Result<seq<Row>>)
    ensures var key := Upper(symbol);
      key in caches && caches[key] == [] ==> r == Err(UnreadableCache(key))
    ensures var key := Upper(symbol);
      var cache := CacheOf(caches, key);
      cache != Some([]) ==>
        var incoming := remote.download(key, RequestFor(cache, remote.today, period));
        && (r.Err? <==> cache.None? && incoming == [])
        && (r.Err? ==> r.error == NoData(key))
        && (r.Ok? ==> r.value != [] && StrictlyAscending(r.value))
        && (r.Ok? ==> PriceTable(r.value) == PriceTable(Existing(cache)) + PriceTable(incoming))
  {
    var key := Upper(symbol);
    var cache := CacheOf(caches, key);
    if cache == Some([]) then Err(UnreadableCache(key))
    else
      var incoming := remote.download(key, RequestFor(cache, remote.today, period));
      var merged := Merge(cache, incoming);
      if merged.None? then Err(NoData(key)) else Ok(merged.value)
  }

  /** The close-price column of a run of rows. */
  function Prices(rows: seq<Row>): seq<real>
  {
    seq(|rows|, i requires 0 <= i < |rows| => rows[i].price)
  }

  /** Every cache file holds at least one row, one per date, in ascending date order. */
  ghost predicate CachesValid(caches: map<string, seq<Row>>)
  {
    forall key :: key in caches ==> caches[key] != [] && StrictlyAscending(caches[key])
  }

  /** The data directory: one CSV cache of price rows per upper-cased symbol. */
  class DataDir {
    var caches: map<string, seq<Row>>

    ghost predicate Valid()
      reads this
    {
      CachesValid(caches)
    }

    constructor ()
      ensures caches == map[] && Valid()
    {
      caches := map[];
    }
  }

  /**
   * fetch_stock_data: reads the cache, downloads incrementally, merges, cleans,
   * optionally overwrites the cache file and returns the close prices.
   */
  method FetchStockData(dir: DataDir, remote: Remote, symbol: string, period: string, saveCsv: bool)
    returns (r: Result<seq<real>>)
    modifies dir
    ensures var rows := FetchRows(old(dir.caches), remote, symbol, period);
      && r == (if rows.Ok? then Ok(Prices(rows.value)) else Err(rows.error))
      && dir.caches == (if rows.Ok? && saveCsv then old(dir.caches)[Upper(symbol) := rows.value] else old(dir.caches))
    ensures old(dir.Valid()) ==> dir.Valid()
  {
    var key := Upper(symbol);
    var existing: Option<seq<Row>> := None;
    if key in dir.caches {
      existing := Some(dir.caches[key]);
      if existing.value == [] {
        return Err(UnreadableCache(key));
      }
    }
    var request := RequestFor(existing, remote.today, period);
    var incoming := remote.download(key, request);
    if incoming == [] && existing.None? {
      return Err(NoData(key));
    }
    var merged := Merge(existing, incoming);
    if saveCsv {
      dir.caches := dir.caches[key := merged.value];
    }
    r := Ok(Prices(merged.value));
  }

  // ---------------------------------------------------------------------------
  // Properties of the merge
  // ---------------------------------------------------------------------------

  /** Without a cache the fetch fails exactly when the remote has nothing; with a valid cache it never fails. */
  lemma FetchFailsOnlyWithoutData(caches: map<string, seq<Row>>, remote: Remote, symbol: string, period: string)
    requires CachesValid(caches)
    ensures var key := Upper(symbol);
      FetchRows(caches, remote, symbol, period).Err?
      <==> key !in caches && remote.download(key, Trailing(period)) == []
  {
  }

  /** A fetch keeps every cache file non-empty, deduplicated and sorted. */
  lemma FetchKeepsCachesValid(caches: map<string, seq<Row>>, remote: Remote, symbol: string, period: string)
    requires CachesValid(caches)
    requires FetchRows(caches, remote, symbol, period).Ok?
    ensures CachesValid(caches[Upper(symbol) := FetchRows(caches, remote, symbol, period).value])
  {
  }

  /** The freshest price wins: the last incoming row of each date is in the merged series. */
  lemma FreshRowKept(cache: Option<seq<Row>>, incoming: seq<Row>, k: nat)
    requires cache != Some([])
    requires k < |incoming|
    requires forall j :: k < j < |incoming| ==> incoming[j].date != incoming[k].date
    ensures Merge(cache, incoming).Some? && incoming[k] in Merge(cache, incoming).value
  {
    var merged := Merge(cache, incoming).value;
    var d := incoming[k].date;
    RowDateInTable(incoming, k);
    LastOccurrenceWins(incoming, k);
    assert PriceTable(merged) == PriceTable(Existing(cache)) + PriceTable(incoming);
    assert d in PriceTable(merged) && PriceTable(merged)[d] == incoming[k].price;
    TableKeyHasRow(merged, d);
    var i :| 0 <= i < |merged| && merged[i].date == d;
    LastOccurrenceWins(merged, i);
  }

  /** A cached date absent from the incoming rows keeps its cached price. */
  lemma CachedRowKept(cache: seq<Row>, incoming: seq<Row>, k: nat)
    requires cache != [] && StrictlyAscending(cache) && k < |cache|
    requires cache[k].date !in PriceTable(incoming)
    ensures cache[k] in Merge(Some(cache), incoming).value
  {
    var merged := Merge(Some(cache), incoming).value;
    var d := cache[k].date;
    RowDateInTable(cache, k);
    LastOccurrenceWins(cache, k);
    assert PriceTable(merged) == PriceTable(cache) + PriceTable(incoming);
    assert d in PriceTable(merged) && PriceTable(merged)[d] == cache[k].price;
    TableKeyHasRow(merged, d);
    var i :| 0 <= i < |merged| && merged[i].date == d;
    LastOccurrenceWins(merged, i);
  }

  /** With a clean cache and nothing new from the remote, the merge returns the cache itself. */
  lemma MergeNothingNew(cache: seq<Row>)
    requires cache != [] && StrictlyAscending(cache)
    ensures Merge(Some(cache), []) == Some(cache)
  {
    AscendingDeterminedByTable(Merge(Some(cache), []).value, cache);
  }

  /** Merging the same incoming rows into an already merged series changes nothing. */
  lemma MergeIdempotent(cache: Option<seq<Row>>, incoming: seq<Row>)
    requires cache != Some([])
    requires Merge(cache, incoming).Some?
    ensures Merge(Some(Merge(cache, incoming).value), incoming) == Merge(cache, incoming)
  {
    var once := Merge(cache, incoming).value;
    var twice := Merge(Some(once), incoming).value;
    assert PriceTable(twice) == PriceTable(once) + PriceTable(incoming);
    assert PriceTable(twice) == PriceTable(once);
    AscendingDeterminedByTable(twice, once);
  }

  // ---------------------------------------------------------------------------
  // Min-max normaliser
  // ---------------------------------------------------------------------------

  /**
   * A fitted MinMaxScaler with feature range [0, 1]. A zero data range is
   * treated as 1, so a constant series maps to 0.
   */
  datatype Scaler = Scaler(dataMin: real, dataMax: real)
  {
    function Scale(): real
    {
      if dataMax == dataMin then 1.0 else dataMax - dataMin
    }

    function Apply(x: real): real
    {
      (x - dataMin) / Scale()
    }

    function Invert(y: real): real
    {
      y * Scale() + dataMin
    }
  }

  function Min(data: seq<real>): (m: real)
    requires data != []
    ensures m in data
    ensures forall x :: x in data ==> m <= x
  {
    if |data| == 1 then data[0]
    else
      var rest := Min(data[1..]);
      assert forall x :: x in data ==> x == data[0] || x in data[1..];
      if data[0] <= rest then data[0] else rest
  }

  function Max(data: seq<real>): (m: real)
    requires data != []
    ensures m in data
    ensures forall x :: x in data ==> x <= m
  {
    if |data| == 1 then data[0]
    else
      var rest := Max(data[1..]);
      assert forall x :: x in data ==> x == data[0] || x in data[1..];
      if data[0] >= rest then data[0] else rest
  }

  /** MinMaxScaler.fit: the smallest and largest value of the slice. */
  function Fit(data: seq<real>): (s: Scaler)
    requires data != []
    ensures s.dataMin in data && s.dataMax in data
    ensures forall x :: x in data ==> s.dataMin <= x <= s.dataMax
  {
    Scaler(Min(data), Max(data))
  }

  function Transform(s: Scaler, data: seq<real>): seq<real>
  {
    seq(|data|, i requires 0 <= i < |data| => s.Apply(data[i]))
  }

  /**
   * normalize_data: fits a new scaler on the slice when none is given, and
   * otherwise applies the given scaler unchanged, without refitting.
   */
  function NormalizeData(data: seq<real>, scaler: Option<Scaler>): (r: (seq<real>, Scaler))
    requires data != []
    ensures scaler.Some? ==> r.1 == scaler.value
    ensures scaler.None? ==> r.1.dataMin in data && r.1.dataMax in data
    ensures scaler.None? ==> forall x :: x in data ==> r.1.dataMin <= x <= r.1.dataMax
    ensures |r.0| == |data| && forall i :: 0 <= i < |data| ==> r.0[i] == r.1.Apply(data[i])
  {
    if scaler.None? then
      var fitted := Fit(data);
      (Transform(fitted, data), fitted)
    else
      (Transform(scaler.value, data), scaler.value)
  }

  /** A freshly fitted scaler sends the slice into [0, 1], its minimum to 0 and its maximum to 1. */
  lemma FitMapsOntoUnitInterval(data: seq<real>)
    requires data != []
    ensures forall x :: x in data ==> 0.0 <= Fit(data).Apply(x) <= 1.0
    ensures Fit(data).Apply(Fit(data).dataMin) == 0.0
    ensures Fit(data).dataMax != Fit(data).dataMin ==> Fit(data).Apply(Fit(data).dataMax) == 1.0
  {
    var s := Fit(data);
    forall x | x in data ensures 0.0 <= s.Apply(x) <= 1.0 {
      if s.dataMax != s.dataMin {
        UnitQuotient(x - s.dataMin, s.dataMax - s.dataMin);
      }
    }
    if s.dataMax != s.dataMin {
      SelfQuotient(s.dataMax - s.dataMin);
    }
  }

  lemma SelfQuotient(c: real)
    requires c != 0.0
    ensures c / c == 1.0
  {
  }

  lemma UnitQuotient(y: real, c: real)
    requires 0.0 <= y <= c && c > 0.0
    ensures 0.0 <= y / c <= 1.0
  {
    assert y / c * c == y;
  }

  /** The inverse transform undoes the transform, and the other way round. */
  lemma ScalerRoundTrip(s: Scaler, x: real)
    ensures s.Invert(s.Apply(x)) == x
    ensures s.Apply(s.Invert(x)) == x
  {
    var c := s.Scale();
    assert (x - s.dataMin) / c * c == x - s.dataMin;
    assert (x * c + s.dataMin - s.dataMin) / c == x;
  }

  // ---------------------------------------------------------------------------
  // Sequence windower
  // ---------------------------------------------------------------------------

  /** The sliding input windows of a series: window k is data[k .. k + len). */
  function Windows(data: seq<real>, len: nat): (r: seq<seq<real>>)
    ensures |r| == if |data| > len then |data| - len else 0
    ensures forall k :: 0 <= k < |r| ==> |r[k]| == len && r[k] == data[k..k + len]
  {
    if |data| <= len then []
    else seq(|data| - len, k requires 0 <= k < |data| - len => data[k..k + len])
  }

  /** The next-value target of each window. */
  function Targets(data: seq<real>, len: nat): (r: seq<real>)
    ensures |r| == if |data| > len then |data| - len else 0
    ensures forall k :: 0 <= k < |r| ==> r[k] == data[k + len]
  {
    if |data| <= len then []
    else seq(|data| - len, k requires 0 <= k < |data| - len => data[k + len])
  }

  /** Consecutive windows overlap: the next window is this one shifted by one, ending in this one's target. */
  lemma WindowsSlide(data: seq<real>, len: nat, k: nat)
    requires len > 0 && k + 1 < |Windows(data, len)|
    ensures Windows(data, len)[k + 1] == Windows(data, len)[k][1..] + [Targets(data, len)[k]]
  {
    assert data[k + 1..k + 1 + len] == data[k..k + len][1..] + [data[k + len]];
  }

  /** create_sequences: every window of seqLength values together with the value that follows it. */
  method CreateSequences(data: seq<real>, seqLength: nat) returns (xs: seq<seq<real>>, ys: seq<real>)
    ensures xs == Windows(data, seqLength) && ys == Targets(data, seqLength)
  {
    xs, ys := [], [];
    var i := seqLength;
    while i < |data|
      invariant |xs| == |ys| == if i <= |data| then i - seqLength else 0
      invariant seqLength <= i
      invariant i > |data| ==> i == seqLength
      invariant forall k :: 0 <= k < |xs| ==> xs[k] == data[k..k + seqLength]
      invariant forall k :: 0 <= k < |ys| ==> ys[k] == data[k + seqLength]
    {
      xs := xs + [data[i - seqLength..i]];
      ys := ys + [data[i]];
      i := i + 1;
    }
  }
}
