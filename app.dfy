/**
 * The server's batch update, model listing and company search endpoints,
 * over the stores of the Train module.
 */
module App {
  import opened Results
  import opened Strings
  import opened Config
  import opened Utils
  import opened Train

  // ---------------------------------------------------------------------------
  // POST /update
  // ---------------------------------------------------------------------------

  /**
   * A batch over the requested symbols: each is attempted in turn on the store
   * the earlier ones left; `attempt` gives the store afterwards and whether the
   * attempt succeeded. Returns the final store and the upper-cased symbols of
   * the successful attempts.
   */
  function Batch(fs: Files, attempt: (Files, string) -> (Files, bool), symbols: seq<string>): (r: (Files, seq<string>))
    ensures |r.1| <= |symbols|
    decreases |symbols|
  {
    if symbols == [] then (fs, [])
    else
      var (before, updated) := Batch(fs, attempt, symbols[..|symbols| - 1]);
      var symbol := symbols[|symbols| - 1];
      var (after, ok) := attempt(before, symbol);
      (after, if ok then updated + [Upper(symbol)] else updated)
  }

  /** One update of update_stocks: update_stock_model with EPOCHS_UPDATE epochs, successful when it did not raise. */
  function UpdateAttempt(env: Env): (Files, string) -> (Files, bool)
  {
    (fs: Files, symbol: string) =>
      var outcome := UpdateModel(fs, env, symbol, EPOCHS_UPDATE);
      (outcome.0, outcome.1.Ok?)
  }

  /** update_stocks: the store afterwards and the symbols it reports as updated. */
  function UpdateAll(fs: Files, env: Env, symbols: seq<string>): (r: (Files, seq<string>))
    ensures |r.1| <= |symbols|
  {
    Batch(fs, UpdateAttempt(env), symbols)
  }

  /** Whether the i-th attempt succeeds, on the store the earlier attempts left. */
  predicate SucceedsAt(fs: Files, attempt: (Files, string) -> (Files, bool), symbols: seq<string>, i: nat)
    requires i < |symbols|
  {
    attempt(Batch(fs, attempt, symbols[..i]).0, symbols[i]).1
  }

  /** The positions in the request whose attempt succeeded, in request order. */
  function Succeeded(fs: Files, attempt: (Files, string) -> (Files, bool), symbols: seq<string>): (r: seq<nat>)
    ensures forall k :: 0 <= k < |r| ==> r[k] < |symbols|
    ensures forall k, l :: 0 <= k < l < |r| ==> r[k] < r[l]
    decreases |symbols|
  {
    if symbols == [] then []
    else
      var n := |symbols|;
      Succeeded(fs, attempt, symbols[..n - 1]) + (if SucceedsAt(fs, attempt, symbols, n - 1) then [n - 1] else [])
  }

  lemma SucceedsAtPrefix(fs: Files, attempt: (Files, string) -> (Files, bool), symbols: seq<string>, i: nat)
    requires i < |symbols| - 1
    ensures SucceedsAt(fs, attempt, symbols[..|symbols| - 1], i) == SucceedsAt(fs, attempt, symbols, i)
  {
    assert symbols[..|symbols| - 1][..i] == symbols[..i];
  }

  /**
   * The reported list is, in request order, the upper-cased symbols at the
   * positions Succeeded reports.
   */
  lemma {:induction false} UpdatedInRequestOrder(fs: Files, attempt: (Files, string) -> (Files, bool), symbols: seq<string>)
    ensures var updated := Batch(fs, attempt, symbols).1;
      var idx := Succeeded(fs, attempt, symbols);
      && |idx| == |updated|
      && (forall k :: 0 <= k < |idx| ==> updated[k] == Upper(symbols[idx[k]]))
    decreases |symbols|
  {
    if symbols != [] {
      var n := |symbols|;
      var earlier := symbols[..n - 1];
      UpdatedInRequestOrder(fs, attempt, earlier);
      forall k | 0 <= k < |Succeeded(fs, attempt, earlier)|
        ensures earlier[Succeeded(fs, attempt, earlier)[k]] == symbols[Succeeded(fs, attempt, earlier)[k]]
      {
      }
    }
  }

  /**
   * Succeeded holds exactly the positions whose attempt succeeded, each made
   * on the store the earlier attempts left: a failure does not stop the
   * symbols after it.
   */
  lemma {:induction false} SucceededExactly(fs: Files, attempt: (Files, string) -> (Files, bool), symbols: seq<string>)
    ensures forall i :: 0 <= i < |symbols| ==> (i in Succeeded(fs, attempt, symbols) <==> SucceedsAt(fs, attempt, symbols, i))
    decreases |symbols|
  {
    if symbols != [] {
      var n := |symbols|;
      var earlier := symbols[..n - 1];
      SucceededExactly(fs, attempt, earlier);
      var idx0 := Succeeded(fs, attempt, earlier);
      var idx := Succeeded(fs, attempt, symbols);
      forall i | 0 <= i < n
        ensures i in idx <==> SucceedsAt(fs, attempt, symbols, i)
      {
        if i < n - 1 {
          SucceedsAtPrefix(fs, attempt, symbols, i);
          assert i in idx <==> i in idx0;
        } else {
          assert i !in idx0;
        }
      }
    }
  }

  /** A symbol whose update fails leaves the store and the report as the earlier symbols left them. */
  lemma FailedUpdateSkipped(fs: Files, env: Env, symbols: seq<string>, symbol: string)
    requires UpdateModel(UpdateAll(fs, env, symbols).0, env, symbol, EPOCHS_UPDATE).1.Err?
    ensures UpdateAll(fs, env, symbols + [symbol]) == UpdateAll(fs, env, symbols)
  {
    assert (symbols + [symbol])[..|symbols|] == symbols;
  }

  /** A batch update keeps the store valid. */
  lemma {:induction false} UpdateAllKeepsValid(fs: Files, env: Env, symbols: seq<string>)
    requires FilesValid(fs)
    ensures FilesValid(UpdateAll(fs, env, symbols).0)
    decreases |symbols|
  {
    if symbols != [] {
      var earlier := symbols[..|symbols| - 1];
      UpdateAllKeepsValid(fs, env, earlier);
      UpdateKeepsValid(UpdateAll(fs, env, earlier).0, env, symbols[|symbols| - 1], EPOCHS_UPDATE);
    }
  }

  /** The endpoint: the update loop, returning the updated symbols and their count. */
  method UpdateStocks(data: DataDir, dir: ModelsDir, env: Env, symbols: seq<string>)
    returns (updated: seq<string>, count: nat)
    modifies data, dir
    ensures (Snapshot(data, dir), updated) == UpdateAll(old(Snapshot(data, dir)), env, symbols)
    ensures count == |updated|
  {
    ghost var start := Snapshot(data, dir);
    updated := [];
    for i := 0 to |symbols|
      invariant (Snapshot(data, dir), updated) == UpdateAll(start, env, symbols[..i])
    {
      assert symbols[..i + 1][..i] == symbols[..i];
      var outcome := UpdateStockModel(data, dir, env, symbols[i], EPOCHS_UPDATE);
      if outcome.Ok? {
        updated := updated + [Upper(symbols[i])];
      }
    }
    assert symbols[..|symbols|] == symbols;
    count := |updated|;
  }

  // ---------------------------------------------------------------------------
  // GET /available_stocks
  // ---------------------------------------------------------------------------

  /** The names the listing reports: files ending in ".pt", with ".pt" deleted. */
  function ListedStocks(files: seq<string>): (r: seq<string>)
    ensures |r| <= |files|
    ensures forall x :: x in r <==> exists f :: f in files && EndsWith(f, ".pt") && RemoveAll(f, ".pt") == x
    decreases |files|
  {
    if files == [] then []
    else
      var f := files[|files| - 1];
      var earlier := ListedStocks(files[..|files| - 1]);
      assert forall g :: g in files <==> g in files[..|files| - 1] || g == f;
      if EndsWith(f, ".pt") then earlier + [RemoveAll(f, ".pt")] else earlier
  }

  /** available_stocks over the directory entries in the order the directory lists them. */
  method AvailableStocks(files: seq<string>) returns (stocks: seq<string>)
    ensures stocks == ListedStocks(files)
  {
    stocks := [];
    for i := 0 to |files|
      invariant stocks == ListedStocks(files[..i])
    {
      assert files[..i + 1][..i] == files[..i];
      if EndsWith(files[i], ".pt") {
        stocks := stocks + [RemoveAll(files[i], ".pt")];
      }
    }
    assert files[..|files|] == files;
  }

  /** Upper-cased names contain no 'p'. */
  lemma UpperHasNoP(s: string)
    ensures forall i :: 0 <= i < |Upper(s)| ==> Upper(s)[i] != 'p'
  {
  }

  /** A symbol's model file is listed as the upper-cased symbol. */
  lemma ModelFileListed(files: seq<string>, symbol: string)
    requires ModelPath(symbol) in files
    ensures Upper(symbol) in ListedStocks(files)
  {
    UpperHasNoP(symbol);
    RemovePtSuffix(Upper(symbol));
    assert EndsWith(ModelPath(symbol), ".pt");
  }

  /** Scaler files never end in ".pt", so they contribute nothing to the listing. */
  lemma ScalerFileNotListed(symbol: string)
    ensures !EndsWith(ScalerPath(symbol), ".pt")
    ensures ListedStocks([ScalerPath(symbol)]) == []
  {
    var p := ScalerPath(symbol);
    assert p[|p| - 1] == 'l';
  }

  /** Every symbol with a model in the store is listed when the listing covers the models directory. */
  lemma ModelsAreListed(fs: Files, files: seq<string>)
    requires forall name :: name in fs.models ==> name in files
    ensures forall s :: ModelPath(s) in fs.models ==> Upper(s) in ListedStocks(files)
  {
    forall s | ModelPath(s) in fs.models
      ensures Upper(s) in ListedStocks(files)
    {
      ModelFileListed(files, s);
    }
  }

  // ---------------------------------------------------------------------------
  // GET /search
  // ---------------------------------------------------------------------------

  /** An entry of the master stock list. */
  datatype Stock = Stock(name: string, symbol: string, currency: string)

  /** The query as the endpoint compares it: lower-cased, then stripped. */
  function Query(q: string): string
  {
    Strip(Lower(q), IsPySpace)
  }

  /** The master-list entries whose lower-cased name contains the query, in list order. */
  function SubstringMatches(query: string, stocks: seq<Stock>): (r: seq<Stock>)
    ensures |r| <= |stocks|
    ensures forall x :: x in r <==> x in stocks && Contains(Lower(x.name), query)
    decreases |stocks|
  {
    if stocks == [] then []
    else
      var x := stocks[|stocks| - 1];
      var earlier := SubstringMatches(query, stocks[..|stocks| - 1]);
      assert forall y :: y in stocks <==> y in stocks[..|stocks| - 1] || y == x;
      if Contains(Lower(x.name), query) then earlier + [x] else earlier
  }

  /** No entry after position i of the master list has the name of entry i. */
  predicate LastWithName(stocks: seq<Stock>, i: nat)
    requires i < |stocks|
  {
    forall j :: i < j < |stocks| ==> stocks[j].name != stocks[i].name
  }

  /**
   * The name -> stock dictionary: every name of the master list is a key, and
   * it maps to the last entry with that name.
   */
  function NameMap(stocks: seq<Stock>): (r: map<string, Stock>)
    ensures forall i :: 0 <= i < |stocks| ==> stocks[i].name in r
    ensures forall n :: n in r ==> r[n] in stocks && r[n].name == n
    decreases |stocks|
  {
    if stocks == [] then map[]
    else
      var n := |stocks|;
      var x := stocks[n - 1];
      var earlier := NameMap(stocks[..n - 1]);
      assert forall y :: y in stocks <==> y in stocks[..n - 1] || y == x;
      earlier[x.name := x]
  }

  /** The dictionary maps a name to the last master-list entry with that name. */
  lemma {:induction false} LastEntryWins(stocks: seq<Stock>, i: nat)
    requires i < |stocks| && LastWithName(stocks, i)
    ensures NameMap(stocks)[stocks[i].name] == stocks[i]
    decreases |stocks|
  {
    var n := |stocks|;
    var last := stocks[n - 1];
    var earlier := stocks[..n - 1];
    assert NameMap(stocks) == NameMap(earlier)[last.name := last];
    if i < n - 1 {
      var x := stocks[i];
      assert earlier[i] == x;
      assert last.name != x.name;
      forall j | i < j < n - 1
        ensures earlier[j].name != x.name
      {
        assert earlier[j] == stocks[j];
      }
      assert LastWithName(earlier, i);
      LastEntryWins(earlier, i);
    }
  }

  /**
   * The fuzzy phase: each name the matcher returned, in its order, adds its
   * stock unless that stock is already in the results.
   */
  function AddFuzzy(results: seq<Stock>, names: seq<string>, nameMap: map<string, Stock>): (r: seq<Stock>)
    requires forall n :: n in names ==> n in nameMap
    ensures |results| <= |r| <= |results| + |names|
    ensures r[..|results|] == results
    ensures forall i, j :: 0 <= i < j < |r| && |results| <= j ==> r[i] != r[j]
    ensures forall n :: n in names ==> nameMap[n] in r
    decreases |names|
  {
    if names == [] then results
    else
      var n := names[|names| - 1];
      var earlier := AddFuzzy(results, names[..|names| - 1], nameMap);
      assert forall m :: m in names ==> m in names[..|names| - 1] || m == n;
      var stock := nameMap[n];
      if stock in earlier then earlier else earlier + [stock]
  }

  /** The position of the first of `names` that stands for stock x, or |names| when none does. */
  function FirstNameOf(x: Stock, names: seq<string>, nameMap: map<string, Stock>): (k: nat)
    requires forall n :: n in names ==> n in nameMap
    ensures k <= |names|
    ensures k < |names| ==> nameMap[names[k]] == x
    decreases |names|
  {
    if names == [] then 0
    else
      var m := |names|;
      var k := FirstNameOf(x, names[..m - 1], nameMap);
      if k < m - 1 then k
      else if nameMap[names[m - 1]] == x then m - 1
      else m
  }

  /** No name before FirstNameOf(x, ...) stands for x. */
  lemma {:induction false} FirstNameIsFirst(x: Stock, names: seq<string>, nameMap: map<string, Stock>, i: nat)
    requires forall n :: n in names ==> n in nameMap
    requires i < FirstNameOf(x, names, nameMap) && i < |names|
    ensures nameMap[names[i]] != x
    decreases |names|
  {
    var m := |names|;
    if i < m - 1 {
      var earlierNames := names[..m - 1];
      assert earlierNames[i] == names[i];
      FirstNameIsFirst(x, earlierNames, nameMap, i);
    }
  }

  /** Appending a name moves no stock's first name that was already among the earlier names. */
  lemma FirstNameKept(x: Stock, names: seq<string>, nameMap: map<string, Stock>)
    requires names != [] && forall n :: n in names ==> n in nameMap
    ensures var k := FirstNameOf(x, names[..|names| - 1], nameMap);
      k < |names| - 1 ==> FirstNameOf(x, names, nameMap) == k
  {
  }

  /** A stock the fuzzy phase appends for the last name has no earlier name. */
  lemma AppendedFirstName(results: seq<Stock>, names: seq<string>, nameMap: map<string, Stock>)
    requires names != [] && forall n :: n in names ==> n in nameMap
    requires nameMap[names[|names| - 1]] !in AddFuzzy(results, names[..|names| - 1], nameMap)
    ensures FirstNameOf(nameMap[names[|names| - 1]], names, nameMap) == |names| - 1
  {
    var m := |names|;
    var x := nameMap[names[m - 1]];
    var earlierNames := names[..m - 1];
    var k := FirstNameOf(x, earlierNames, nameMap);
    if k < m - 1 {
      assert false;
    }
  }

  /** Each stock the fuzzy phase adds has a name among `names`. */
  lemma {:induction false} AddedHasName(results: seq<Stock>, names: seq<string>, nameMap: map<string, Stock>, j: nat)
    requires forall n :: n in names ==> n in nameMap
    requires |results| <= j < |AddFuzzy(results, names, nameMap)|
    ensures FirstNameOf(AddFuzzy(results, names, nameMap)[j], names, nameMap) < |names|
    decreases |names|
  {
    var m := |names|;
    var earlierNames := names[..m - 1];
    var earlier := AddFuzzy(results, earlierNames, nameMap);
    var r := AddFuzzy(results, names, nameMap);
    if j < |earlier| {
      assert r[j] == earlier[j];
      AddedHasName(results, earlierNames, nameMap, j);
      FirstNameKept(r[j], names, nameMap);
    } else {
      AppendedFirstName(results, names, nameMap);
    }
  }

  /** Of two stocks the fuzzy phase adds, the earlier one's first name comes first. */
  lemma {:induction false} AddedInOrder(results: seq<Stock>, names: seq<string>, nameMap: map<string, Stock>, j1: nat, j2: nat)
    requires forall n :: n in names ==> n in nameMap
    requires |results| <= j1 < j2 < |AddFuzzy(results, names, nameMap)|
    ensures var r := AddFuzzy(results, names, nameMap);
      FirstNameOf(r[j1], names, nameMap) < FirstNameOf(r[j2], names, nameMap)
    decreases |names|
  {
    var m := |names|;
    var earlierNames := names[..m - 1];
    var earlier := AddFuzzy(results, earlierNames, nameMap);
    var r := AddFuzzy(results, names, nameMap);
    assert r[j1] == earlier[j1];
    AddedHasName(results, earlierNames, nameMap, j1);
    FirstNameKept(r[j1], names, nameMap);
    if j2 < |earlier| {
      assert r[j2] == earlier[j2];
      AddedInOrder(results, earlierNames, nameMap, j1, j2);
      AddedHasName(results, earlierNames, nameMap, j2);
      FirstNameKept(r[j2], names, nameMap);
    } else {
      AppendedFirstName(results, names, nameMap);
    }
  }

  /**
   * The stocks the fuzzy phase adds are the stocks of the matcher's names, in
   * the order in which their first names come: each added stock has a name
   * among `names`, and of two added stocks the earlier one's first name comes
   * first.
   */
  lemma FuzzyInMatcherOrder(results: seq<Stock>, names: seq<string>, nameMap: map<string, Stock>)
    requires forall n :: n in names ==> n in nameMap
    ensures var r := AddFuzzy(results, names, nameMap);
      forall j :: |results| <= j < |r| ==> FirstNameOf(r[j], names, nameMap) < |names|
    ensures var r := AddFuzzy(results, names, nameMap);
      forall j1, j2 :: |results| <= j1 < j2 < |r| ==>
        FirstNameOf(r[j1], names, nameMap) < FirstNameOf(r[j2], names, nameMap)
  {
    var r := AddFuzzy(results, names, nameMap);
    forall j | |results| <= j < |r|
      ensures FirstNameOf(r[j], names, nameMap) < |names|
    {
      AddedHasName(results, names, nameMap, j);
    }
    forall j1, j2 | |results| <= j1 < j2 < |r|
      ensures FirstNameOf(r[j1], names, nameMap) < FirstNameOf(r[j2], names, nameMap)
    {
      AddedInOrder(results, names, nameMap, j1, j2);
    }
  }

  function Min(a: int, b: int): int
  {
    if a < b then a else b
  }

  /**
   * search_stocks, with `fuzzy` the names the fuzzy matcher returns for the
   * query (it returns keys of the name dictionary).
   */
  function Search(q: string, master: seq<Stock>, fuzzy: seq<string>): (r: seq<Stock>)
    requires forall n :: n in fuzzy ==> n in NameMap(master)
    ensures |r| <= 5
  {
    var matches := SubstringMatches(Query(q), master);
    var results := if |matches| < 5 then AddFuzzy(matches, fuzzy, NameMap(master)) else matches;
    results[..Min(5, |results|)]
  }

  /**
   * The substring matches come first, in master-list order, and when there
   * are five or more of them the fuzzy matcher contributes nothing.
   */
  lemma SubstringMatchesFirst(q: string, master: seq<Stock>, fuzzy: seq<string>)
    requires forall n :: n in fuzzy ==> n in NameMap(master)
    ensures var r := Search(q, master, fuzzy);
      var matches := SubstringMatches(Query(q), master);
      && Min(5, |matches|) <= |r|
      && r[..Min(5, |matches|)] == matches[..Min(5, |matches|)]
      && (|matches| >= 5 ==> r == matches[..5])
  {
    var matches := SubstringMatches(Query(q), master);
    var r := Search(q, master, fuzzy);
    if |matches| < 5 {
      var results := AddFuzzy(matches, fuzzy, NameMap(master));
      assert r == results[..Min(5, |results|)];
      assert |matches| <= |r|;
      assert r[..|matches|] == results[..|matches|] == matches;
    } else {
      assert r == matches[..5];
    }
  }

  /** The fuzzy phase adds only stocks of the master list, and never one already in the results. */
  lemma FuzzyAddsNoDuplicates(q: string, master: seq<Stock>, fuzzy: seq<string>)
    requires forall n :: n in fuzzy ==> n in NameMap(master)
    ensures var r := Search(q, master, fuzzy);
      var matches := SubstringMatches(Query(q), master);
      && (forall i, j :: 0 <= i < j < |r| && |matches| <= j ==> r[i] != r[j])
      && (forall j :: |matches| <= j < |r| ==> r[j] in master)
  {
    var matches := SubstringMatches(Query(q), master);
    if |matches| < 5 {
      var nameMap := NameMap(master);
      var results := AddFuzzy(matches, fuzzy, nameMap);
      var r := Search(q, master, fuzzy);
      assert r == results[..Min(5, |results|)];
      forall j | |matches| <= j < |r|
        ensures r[j] in master
      {
        AddedHasName(matches, fuzzy, nameMap, j);
        var k := FirstNameOf(results[j], fuzzy, nameMap);
        assert nameMap[fuzzy[k]] == r[j];
        assert fuzzy[k] in nameMap;
      }
    }
  }

  /**
   * With fewer than five substring matches the remaining places go to the
   * fuzzy matcher's stocks: each is the stock of a matched name that is not a
   * substring match, they come in the order of their first matched names,
   * and when fewer than five results come back every matched name's stock is
   * among them.
   */
  lemma FuzzyFillsRemainingPlaces(q: string, master: seq<Stock>, fuzzy: seq<string>)
    requires forall n :: n in fuzzy ==> n in NameMap(master)
    ensures var matches := SubstringMatches(Query(q), master);
      var nameMap := NameMap(master);
      var r := Search(q, master, fuzzy);
      |matches| < 5 ==>
        && (forall j :: |matches| <= j < |r| ==> r[j] !in matches && FirstNameOf(r[j], fuzzy, nameMap) < |fuzzy|)
        && (forall j1, j2 :: |matches| <= j1 < j2 < |r| ==>
              FirstNameOf(r[j1], fuzzy, nameMap) < FirstNameOf(r[j2], fuzzy, nameMap))
        && (|r| < 5 ==> forall k :: 0 <= k < |fuzzy| ==> nameMap[fuzzy[k]] in r)
  {
    var matches := SubstringMatches(Query(q), master);
    if |matches| < 5 {
      var nameMap := NameMap(master);
      var results := AddFuzzy(matches, fuzzy, nameMap);
      FuzzyPrefixFacts(matches, fuzzy, nameMap, Min(5, |results|));
      assert Search(q, master, fuzzy) == results[..Min(5, |results|)];
    }
  }

  /** The per-place facts of FuzzyFillsRemainingPlaces, for any prefix of the fuzzy phase's output. */
  lemma FuzzyPrefixFacts(matches: seq<Stock>, fuzzy: seq<string>, nameMap: map<string, Stock>, n: nat)
    requires forall k :: k in fuzzy ==> k in nameMap
    requires n <= |AddFuzzy(matches, fuzzy, nameMap)|
    ensures var r := AddFuzzy(matches, fuzzy, nameMap)[..n];
      && (forall j :: |matches| <= j < |r| ==> r[j] !in matches && FirstNameOf(r[j], fuzzy, nameMap) < |fuzzy|)
      && (forall j1, j2 :: |matches| <= j1 < j2 < |r| ==>
            FirstNameOf(r[j1], fuzzy, nameMap) < FirstNameOf(r[j2], fuzzy, nameMap))
      && (n == |AddFuzzy(matches, fuzzy, nameMap)| ==> forall k :: 0 <= k < |fuzzy| ==> nameMap[fuzzy[k]] in r)
  {
    var results := AddFuzzy(matches, fuzzy, nameMap);
    var r := results[..n];
    forall j | |matches| <= j < |r|
      ensures r[j] !in matches && FirstNameOf(r[j], fuzzy, nameMap) < |fuzzy|
    {
      assert r[j] == results[j];
      AddedHasName(matches, fuzzy, nameMap, j);
    }
    forall j1, j2 | |matches| <= j1 < j2 < |r|
      ensures FirstNameOf(r[j1], fuzzy, nameMap) < FirstNameOf(r[j2], fuzzy, nameMap)
    {
      assert r[j1] == results[j1] && r[j2] == results[j2];
      AddedInOrder(matches, fuzzy, nameMap, j1, j2);
    }
    if n == |results| {
      assert r == results;
      forall k | 0 <= k < |fuzzy|
        ensures nameMap[fuzzy[k]] in r
      {
        assert fuzzy[k] in fuzzy;
      }
    }
  }

  /** The substring loop: the master-list entries whose lower-cased name contains the query. */
  method CollectSubstringMatches(query: string, master: seq<Stock>) returns (results: seq<Stock>)
    ensures results == SubstringMatches(query, master)
  {
    results := [];
    for i := 0 to |master|
      invariant results == SubstringMatches(query, master[..i])
    {
      assert master[..i + 1][..i] == master[..i];
      if Contains(Lower(master[i].name), query) {
        results := results + [master[i]];
      }
    }
    assert master[..|master|] == master;
  }

  /** The fuzzy loop: appends the stock of each matched name unless it is already listed. */
  method AppendFuzzyMatches(matches: seq<Stock>, fuzzy: seq<string>, nameMap: map<string, Stock>)
    returns (results: seq<Stock>)
    requires forall n :: n in fuzzy ==> n in nameMap
    ensures results == AddFuzzy(matches, fuzzy, nameMap)
  {
    results := matches;
    for j := 0 to |fuzzy|
      invariant results == AddFuzzy(matches, fuzzy[..j], nameMap)
    {
      assert fuzzy[..j + 1][..j] == fuzzy[..j];
      var stock := nameMap[fuzzy[j]];
      if stock !in results {
        results := results + [stock];
      }
    }
    assert fuzzy[..|fuzzy|] == fuzzy;
  }

  /** The endpoint: the substring loop, the fuzzy loop when needed, and the top five. */
  method SearchStocks(q: string, master: seq<Stock>, fuzzy: seq<string>) returns (r: seq<Stock>)
    requires forall n :: n in fuzzy ==> n in NameMap(master)
    ensures r == Search(q, master, fuzzy)
  {
    var results := CollectSubstringMatches(Query(q), master);
    if |results| < 5 {
      results := AppendFuzzyMatches(results, fuzzy, NameMap(master));
    }
    r := results[..Min(5, |results|)];
  }
}
