# Stockify prediction core in Dafny

Stockify predicts a stock's next-day closing price with one sequence model per
ticker symbol. The server keeps two directories:

- a data directory with one price-history cache per upper-cased symbol;
- a models directory with a `<SYMBOL>.pt` model file and a `<SYMBOL>_scaler.pkl`
  min-max scaler file per symbol.

The server answers search, predict, update and listing requests. A browser
extension shows the predictions and ranks recently used stocks.

This project models the following, and proves properties of it:

- **The price pipeline** (`Utils`):
  - the incremental fetch-and-merge of a symbol's price history: the cached
    rows, then the freshly downloaded rows, deduplicated by date with the last
    row winning, then sorted by date;
  - the min-max normaliser and its inverse;
  - the sliding-window builder.
- **The artifact lifecycle** (`Train`):
  - model and scaler paths, and loading an artifact;
  - training from scratch and fine-tuning;
  - next-day prediction;
  - both directories are classes updated in place by methods, and each method
    is proved equal to a specification function over a snapshot of the files.
- **The endpoints** (`App`):
  - the batch update with per-symbol partial success;
  - the listing of trained models;
  - company search: the substring phase, the fuzzy phase that fills the
    remaining places from the name matcher's answer, and the top-five cut.
- **The extension's popup rules** (`Popup`):
  - the currency sign;
  - the symbol a prediction is requested for;
  - the usage record;
  - the five most recently used saved stocks.

The constants live in `Config`: `SEQ_LENGTH` = 60, `NORMALIZE_DAYS` = 500,
`EPOCHS_NEW` = 100 and `EPOCHS_UPDATE` = 5.

Collaborators the model cannot see are parameters:

- The quote source is a `Remote`: a download function from a symbol and a
  request (a date range or a trailing period) to rows, together with today's
  day number.
- The network is a `Net`: initial parameters, one optimiser step over the
  training windows, and a forward pass.
- A trained model is `Trained(net, start, xs, ys, n)`, that is, `n` steps from
  `start`.
- The fuzzy name matcher is the list of names it returns.

Dates are day numbers and prices are reals.

## Model

| member | source | states |
|---|---|---|
| Strings.Upper | server/train.py:13 | str.upper: same length, no lower-case letter left, a..z shifted to A..Z, every other character kept |
| Strings.Lower | server/app.py:44 | str.lower: same length, no upper-case letter left, A..Z shifted to a..z, every other character kept |
| Strings.UpperOfUpper | server/train.py:13 | upper-casing a string with no lower-case letter changes nothing |
| Strings.TrimLeft | server/app.py:44 | the result is the suffix of the input that starts after StripStart characters; every removed character is whitespace and the result does not start with whitespace |
| Strings.TrimRight | server/app.py:44 | the result is a prefix of the input; every removed character is whitespace and the result does not end with whitespace |
| Strings.Strip | server/train.py:77 | str.strip with Python's whitespace (IsPySpace, which adds U+001C..U+001F) and String.prototype.trim with IsSpace: never longer, and a non-empty result starts and ends with non-whitespace |
| Strings.StripRemovesMargins | server/app.py:44 | the stripped string is the input with a whitespace-only prefix and a whitespace-only suffix cut off |
| Strings.StripEmptyIffAllSpace | stockify-extension/popup.js:81-82 | stripping leaves nothing exactly when every character is whitespace |
| Strings.StripKeepsNoLower | server/train.py:77 | stripping an upper-cased string leaves no lower-case letter |
| Strings.RemoveAll | server/app.py:101 | str.replace(pat, "") never lengthens the name |
| Strings.RemovePtSuffix | server/app.py:101 | deleting ".pt" from `name + ".pt"` gives `name` back when the name has no 'p' |
| Utils.PriceTableAppend | server/utils.py:54 | concatenating cached and fresh rows makes the fresh rows' prices override the cached ones date by date |
| Utils.LastOccurrenceWins | server/utils.py:61 | a row with no later row of the same date gives the date -> price table its price |
| Utils.AscendingDeterminedByTable | server/utils.py:61-62 | two strictly ascending runs with the same date -> price table are equal, so deduplicate-then-sort has one answer |
| Utils.DropDuplicates | server/utils.py:61 | drop_duplicates(keep="last"): every date at most once, with the same date -> price table as the input |
| Utils.InsertByDate | server/utils.py:62 | inserting a row with a new date keeps a run strictly ascending and adds exactly that date to its table |
| Utils.SortByDate | server/utils.py:62 | sort_values on deduplicated rows: strictly ascending dates, table unchanged |
| Utils.CleanRows | server/utils.py:61-62 | the cleaned rows are strictly ascending and keep the input's last price for every date |
| Utils.LatestDate | server/utils.py:22 | the cache's latest date is one of its dates and no cached date is later |
| Utils.RequestFor | server/utils.py:27-41 | with a cache, the request runs from the latest cached date, inclusive, to today + 1; without one, the whole default period is requested |
| Utils.Merge | server/utils.py:52-62 | nothing is produced exactly when there is no cache and nothing was downloaded; otherwise the rows are non-empty, strictly ascending, and their table is the cache's table overridden by the downloaded one |
| Utils.FetchRows | server/utils.py:11-62 | keyed by the upper-cased symbol; an empty cache file is unreadable; otherwise it fails exactly when there is no cache and the download is empty, with NoData, and succeeds with the merged rows |
| Utils.FetchStockData | server/utils.py:11-67 | the method returns the close prices of FetchRows, rewrites only that symbol's cache when saving, and keeps every cache valid |
| Utils.FetchFailsOnlyWithoutData | server/utils.py:43-44 | with valid caches, a fetch fails exactly when the symbol has no cache and the trailing-period download is empty |
| Utils.FetchKeepsCachesValid | server/utils.py:60-65 | writing the merged rows back keeps every cache non-empty and strictly ascending |
| Utils.FreshRowKept | server/utils.py:53-61 | the last downloaded row of each date is in the merged series: the fresh price wins |
| Utils.CachedRowKept | server/utils.py:53-61 | a cached row whose date was not downloaded again survives the merge unchanged |
| Utils.MergeNothingNew | server/utils.py:55-62 | with a clean cache and an empty download, the merge returns the cache itself |
| Utils.MergeIdempotent | server/utils.py:53-62 | merging the same downloaded rows into an already merged series a second time leaves it unchanged |
| Utils.Min | server/utils.py:78 | the minimum is a value of the slice and no value is smaller |
| Utils.Max | server/utils.py:78 | the maximum is a value of the slice and no value is larger |
| Utils.Fit | server/utils.py:77-78 | a fitted scaler's min and max are values of the slice and bound every value |
| Utils.NormalizeData | server/utils.py:71-81 | a supplied scaler is returned unchanged and never refitted; with none, a scaler fitted on the slice is returned; every output value is the scaler applied to the input value at the same index |
| Utils.FitMapsOntoUnitInterval | server/utils.py:76-78 | a freshly fitted scaler sends the slice into [0, 1], its min to 0 and, for a non-constant slice, its max to 1 |
| Utils.ScalerRoundTrip | server/train.py:92 | the inverse transform undoes the transform, and the transform undoes the inverse |
| Utils.Windows | server/utils.py:91-93 | max(0, n - L) windows; window k has length L and is data[k..k+L] |
| Utils.Targets | server/utils.py:91-93 | max(0, n - L) targets; target k is data[k+L] |
| Utils.WindowsSlide | server/utils.py:91-93 | each window is the previous one shifted by one, ending in the previous window's target |
| Utils.CreateSequences | server/utils.py:84-94 | the loop returns exactly the windows and targets of the series |
| Train.GetModelPaths | server/train.py:12-16 | the model path ends in ".pt" and the scaler path ends in "_scaler.pkl"; cutting either suffix leaves the upper-cased symbol |
| Train.SamePathsIffSameUpper | server/train.py:12-16 | two symbols free of path syntax share their artifact files exactly when they agree after upper-casing |
| Train.LowerAndUpperShareArtifacts | server/train.py:13 | "aapl" and "AAPL" name the same model and scaler files |
| Train.ModelAndScalerPathsDiffer | server/train.py:14-15 | no model file name is ever a scaler file name |
| Train.PathsDetermineSymbol | server/train.py:12-16 | equal model paths, or equal scaler paths, mean equal upper-cased symbols |
| Train.LoadModel | server/train.py:42-51 | absent exactly when the model file is missing; an error exactly when the model file exists and the scaler file does not; otherwise the stored pair |
| Train.LastN | server/train.py:20 | prices[-n:]: the last min(n, len) values |
| Train.WriteOthersUntouched | server/train.py:36-39 | writing one symbol's cache, model and scaler leaves every other symbol's artifact and cache, keyed by file name, as it was |
| Train.TrainNew | server/train.py:18-40 | it succeeds exactly when the fetch does; a failed fetch changes nothing and its error is returned; a success stores the merged download as the symbol's cache and writes a model that loads back with the new scaler; the scaler is fitted on the last NORMALIZE_DAYS prices of that cache; the model is `epochs` steps from fresh parameters on those windows; no other symbol changes |
| Train.UpdateModel | server/train.py:53-74 | a failure changes nothing; it succeeds exactly when the fetch does and a stored model has its scaler; a model without its scaler gives ScalerMissing; without a model it is exactly TrainNew with EPOCHS_NEW; with one, the merged download becomes the cache, the scaler file is untouched, the data is normalised with the stored scaler, and only the model file is rewritten with `epochs` steps continuing from the stored parameters |
| Train.LastWindow | server/train.py:85-87 | none exactly when fewer than SEQ_LENGTH points exist; otherwise the last SEQ_LENGTH points |
| Train.Forecast | server/train.py:82-97 | a failed fetch changes nothing and returns its error; otherwise only the symbol's cache changes, to the merged download; it succeeds exactly when that history has at least SEQ_LENGTH prices and fails with NotEnoughData otherwise; a prediction is the given scaler's inverse of the model output on the last SEQ_LENGTH normalised prices, with the last raw close as current price |
| Train.CanonicalIsUpper | server/train.py:77 | the upper-cased, stripped symbol is already upper case, so get_model_paths names its files after it verbatim |
| Train.PredictNext | server/train.py:76-98 | works on the upper-cased, stripped symbol; a model without its scaler gives ScalerMissing and changes nothing; a stored artifact is used as it is for Forecast; without one, a failed bootstrap training returns its error and changes nothing, and a successful one is followed by Forecast with the new model and scaler; a successful prediction is made from the stored model and scaler |
| Train.RunEpochs | server/train.py:29-34 | the epoch loop performs exactly `epochs` optimiser steps from its start |
| Train.TrainNewStock | server/train.py:18-40 | the method's new directories and result are those of TrainNew on the old directories |
| Train.UpdateStockModel | server/train.py:53-74 | the method's new directories and result are those of UpdateModel on the old directories |
| Train.PredictNextDay | server/train.py:76-98 | the method's new directories and result are those of PredictNext on the old directories |
| Train.LoadNeverFailsWhenValid | server/train.py:42-51 | in a store the server itself wrote, loading never hits the missing-scaler error |
| Train.TrainNewKeepsValid | server/train.py:36-39 | training keeps the store valid: clean caches, and every model with its scaler and its cache |
| Train.UpdateKeepsValid | server/train.py:53-74 | an update keeps the store valid |
| Train.ForecastKeepsValid | server/train.py:82 | the fetch before a forecast keeps the store valid |
| Train.PredictKeepsValid | server/train.py:76-82 | a prediction, bootstrap included, keeps the store valid |
| Train.UpdateFailsOnlyWithoutData | server/train.py:53-57 | in a valid store, an update fails exactly when the symbol has no cache and the trailing-period download is empty |
| Train.PredictNeedsSeqLengthRows | server/train.py:82-86 | with a model in a valid store, a prediction fails exactly when the merged history has fewer than SEQ_LENGTH rows, and then with NotEnoughData |
| App.Batch | server/app.py:80-85 | a batch reports at most as many symbols as were requested |
| App.UpdateAll | server/app.py:76-90 | update_stocks reports at most as many symbols as were requested |
| App.Succeeded | server/app.py:80-85 | the successful positions are valid request positions, in strictly increasing order |
| App.UpdatedInRequestOrder | server/app.py:80-83 | the reported list is the upper-cased symbols at the successful positions, in request order |
| App.SucceededExactly | server/app.py:80-85 | a position is reported exactly when its attempt, on the store the earlier symbols left, succeeded: a failure does not stop the later symbols |
| App.FailedUpdateSkipped | server/app.py:84-85 | a failing symbol leaves both the store and the report as they were |
| App.UpdateAllKeepsValid | server/app.py:80-82 | a batch update keeps the store valid |
| App.UpdateStocks | server/app.py:76-90 | the loop's new directories and updated list are those of UpdateAll, and count is the list's length |
| App.ListedStocks | server/app.py:93-103 | a name is listed exactly when some directory entry ends in ".pt" and deleting ".pt" from it gives that name |
| App.AvailableStocks | server/app.py:93-103 | the loop lists exactly ListedStocks of the directory entries, in directory order |
| App.ModelFileListed | server/app.py:99-102 | a symbol's model file is listed as the upper-cased symbol |
| App.ScalerFileNotListed | server/app.py:100 | a scaler file never ends in ".pt" and contributes nothing to the listing |
| App.ModelsAreListed | server/app.py:98-102 | every symbol with a model file is listed when the listing covers the models directory |
| App.SubstringMatches | server/app.py:48-51 | a stock is a match exactly when it is in the master list and its lower-cased name contains the query |
| App.NameMap | server/app.py:56 | every master-list name is a key, and each key maps to a master-list stock of that name |
| App.LastEntryWins | server/app.py:56 | the dict comprehension keeps the last master-list entry of each name |
| App.AddFuzzy | server/app.py:57-61 | the results so far stay in front, at most one stock per matched name is added, no added stock repeats an earlier one, and every matched name's stock ends up in the results |
| App.FirstNameOf | server/app.py:58-59 | the position of a name that stands for the stock, or the number of names when none does |
| App.FirstNameIsFirst | server/app.py:58-59 | no name before that position stands for the stock |
| App.AddedHasName | server/app.py:58-61 | every stock the fuzzy loop adds is the stock of one of the matched names |
| App.AddedInOrder | server/app.py:58-61 | the fuzzy loop adds stocks in the order of their first matched names |
| App.FuzzyInMatcherOrder | server/app.py:57-61 | both facts for all added stocks at once |
| App.Search | server/app.py:38-64 | at most five stocks are returned |
| App.SubstringMatchesFirst | server/app.py:44-64 | the substring matches of the lower-cased, stripped query come first, in master-list order, and with five or more of them the result is their first five |
| App.FuzzyAddsNoDuplicates | server/app.py:54-61 | a stock added by the fuzzy phase is a master-list stock not already in the results |
| App.FuzzyFillsRemainingPlaces | server/app.py:53-64 | with fewer than five substring matches, the remaining places go to stocks of matched names that are not substring matches, in the order of their first matched names; when fewer than five results come back, every matched name's stock is among them |
| App.FuzzyPrefixFacts | server/app.py:58-64 | the same facts for any prefix of the fuzzy loop's output |
| App.CollectSubstringMatches | server/app.py:48-51 | the substring loop returns exactly SubstringMatches |
| App.AppendFuzzyMatches | server/app.py:58-61 | the fuzzy loop returns exactly AddFuzzy |
| App.SearchStocks | server/app.py:38-64 | the loops return exactly Search |
| Popup.CurrencySymbol | stockify-extension/popup.js:63-77 | a listed code gives its sign; any other code gives the code itself |
| Popup.ShownAsItself | stockify-extension/popup.js:63-77 | a code is shown as itself exactly when it is unlisted or is "CHF" |
| Popup.SignExamples | stockify-extension/popup.js:69-70 | JPY and CNY share "¥"; an unlisted code such as "SEK" is shown as it is |
| Popup.SelectSymbol | stockify-extension/popup.js:81-82 | no request exactly when nothing was selected and the typed text is blank; a selection is used as it is; otherwise the typed text is used trimmed and upper-cased |
| Popup.UsageMap.RecordUsage | stockify-extension/popup.js:106-110 | only the symbol's entry is set to the new time; all other entries are unchanged |
| Popup.LastUsed | stockify-extension/popup.js:141 | the recorded time of a symbol, and 0 when none is recorded |
| Popup.RecordMovesOnlyThatSymbol | stockify-extension/popup.js:107-108 | after recording, the symbol's time is the new one and every other symbol's time is unchanged |
| Popup.SavedEntries | stockify-extension/popup.js:138-143 | one entry per available stock, in listing order, with its recorded time or 0 |
| Popup.Insert | stockify-extension/popup.js:145 | inserting into a most-recent-first list keeps it most-recent-first and adds exactly that entry |
| Popup.SortByRecency | stockify-extension/popup.js:145 | the sorted list is a permutation of the entries with non-increasing last use |
| Popup.RenderSavedStocks | stockify-extension/popup.js:119-158 | exactly min(5, n) chips are rendered, namely the first entries after sorting |
| Popup.ChipsAreMostRecent | stockify-extension/popup.js:145-151 | every rendered stock was used no earlier than any stock left out; every entry is an available stock with its recorded time |

## Left out

- Network and file I/O are not modelled as such. The yfinance download, CSV
  reading and writing, `os.path.exists`, `pickle`, `torch.save`/`torch.load`
  and `os.listdir` become map lookups and updates, or parameters.
- "Today" comes from the clock; here it is the `today` field of the `Remote`
  parameter.
- The network internals are not modelled: the LSTM, Adam, the MSE loss,
  backward passes, the device and the learning rate (server/lstm_model.py is
  not part of this model). The network is the `Net` parameter, and the model is
  its step function applied a counted number of times.
- Floating point is replaced by real arithmetic. A constant slice
  (max == min) is scaled by 1, so it maps to 0. This follows scikit-learn's
  zero-range handling, which the model assumes rather than proves.
- Case mapping and whitespace are ASCII only. Python's str.upper/lower/strip
  and JavaScript's toUpperCase/trim also handle other Unicode letters and
  spaces. Within ASCII the two languages differ, and both sets are modelled:
  the server strips IsPySpace, which includes U+001C..U+001F, and the popup
  trims IsSpace, which does not.
- NormalizeData: requires a non-empty slice. scikit-learn rejects an empty
  array, but the modelled fetch never returns one, so that error path does
  not arise.
- TrainNew: with 60 or fewer prices there are no training windows, and the
  model still succeeds, running its steps on an empty training set. In the
  code, create_sequences then returns a one-dimensional empty array
  (server/utils.py:94), and the LSTM rejects it (server/lstm_model.py is not
  part of this model). So train_new_stock and update_stock_model raise after
  the cache has been written (server/utils.py:65), and update_stocks leaves
  the symbol out of its report (server/app.py:84-85). The model reports such a
  symbol as updated.
- UpdateModel: the same zero-window case is modelled as a success, as above.
- FailedUpdateSkipped: covers the failures the model has, all of which happen
  before anything is written. A failure after the cache write, as in the
  zero-window case, is not modelled.
- SamePathsIffSameUpper: file names are opaque keys here. The code joins the
  symbol into a path (server/train.py:14-15, server/utils.py:13), so a symbol
  with path syntax such as "./AAPL" names AAPL's files. Symbols are assumed
  free of path syntax, and only for those does the lemma describe the files.
- WriteOthersUntouched: likewise keyed by file name; through path syntax a
  different symbol could rewrite another symbol's files, which is not modelled.
- OthersUntouched, as stated by TrainNew and UpdateModel, carries the same
  assumption that symbols are free of path syntax.
- Trained: the model is `n` applications of one deterministic step. The code
  builds a fresh Adam optimiser on every call (server/train.py:27, 64), starts
  from random weights (server/train.py:25) and uses dropout, so neither the
  optimiser's state nor the randomness is captured, and a fine-tune is not
  claimed to continue one longer run.
- LoadModel: the code checks only the model file (server/train.py:44). A
  model whose scaler file is missing raises when it is loaded, and the model
  reports this as ScalerMissing rather than retraining. Training never
  self-heals a half-present artifact. The model follows the code here, not a
  both-or-neither check.
- FetchRows: an empty cache file makes pandas raise before any merge. The
  model reports this as UnreadableCache. A valid store never contains one.
- SortByRecency: the stability of Array.prototype.sort (ties keep listing
  order) is not stated. Only the ordering and the permutation are proved.
- CurrencySymbol: a code naming a JavaScript object property such as
  "toString" would yield that property rather than the code. This is not
  modelled.
- Search: the rapidfuzz scorer is not modelled. Its answer is the `fuzzy`
  parameter, assumed to hold keys of the name map.
- Stock: a master-list entry has only name, symbol and currency; other JSON
  fields are not modelled.
- The FastAPI plumbing is not modelled: routing, CORS, pydantic validation of
  the query's minimum length, HTTPException conversion, and the
  /predict and /health endpoints (server/app.py:14-26, 67-73, 106-108).
- The master-list JSON load is not modelled.
- stockify-extension/background.js is not part of this model: it is alarm
  scheduling and fetches.
- The popup's DOM updates, debounce timer, fetch calls, chrome.storage
  callbacks and Date.now() are not modelled. The time of use is a parameter.
- Concurrency is not modelled: requests are handled one at a time, with no
  locking.
- The side effects of server/config.py (directory creation, device choice)
  are not modelled; only the numeric constants are kept.
