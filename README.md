# mqt stock screener, modelled in Dafny

This project models the core of the mqt quantitative-trading workspace: the
acquisition of screener data from TradingView and the services around it.

- **Field parsers.** These read the cells of the screener table:
  - `parse_f64` and `parse_percentage`, with the -404 "no data" and -500
    "not a number" sentinels and the three dash glyphs that negate;
  - `parse_large_number`, with its T/B/M/K suffixes;
  - `Rating::from_str`.
- **Per-tab row mapping.** `parse_stock_data_from_json` turns the rows
  scraped from one tab into partial `StockData` records.
- **Record merge.** After merging, each field keeps the first value that is
  not the default:
  - `merge_stock_data` merges two records;
  - `merge_stock_data_sources` folds the per-tab lists into one record per
    stock code.
- **Scraper control flow.** This covers:
  - the scroll-until-stable counter loop;
  - the tab-switch check;
  - the fold over the ten tabs;
  - the `"[]"` fallback for a script reply that is not a string.
- **Fetch coordinators.** Two small state machines control a fetch:
  - `StockDataState` of the HTTP server, with its price cache;
  - the older `AppState` of the stand-alone screener server, with the abort
    ladder of `perform_fetch`.
- **Secondary services:**
  - portfolio bookkeeping: positions, transactions, the position manager and
    the portfolio handlers;
  - the momentum and mean-reversion signal rules, the strategy factory,
    strategy parameters and the strategy handlers;
  - the ntfy notification builder;
  - the interactive client's command parser;
  - the server's uptime report.

## How the model is organised

- **Records.** A `StockData` record is its code plus a finite map from a
  `Field` enumeration to a `Value`. Fields that hold their default are not
  stored in the map. This lets the 93 copy blocks of `merge_stock_data`
  become one rule stated for every field. `MergeStockData` still visits the
  fields one at a time, as the source does.
- **Numbers.** `f64` is `real`, and Rust's `str::parse::<f64>` is a small
  decimal grammar (`FieldParser.ParseDecimal`).
- **Inputs.** The following become parameters:
  - browser, WebDriver and script replies;
  - clock readings;
  - random identifiers;
  - the package version.
- **Functions and methods.** Code that only computes is a function. Code
  that updates state step by step is a method:
  - `StockDataState`, `AppState`, `PositionManager`, `PositionState`,
    `StrategyFactory`, `StrategyParams` and `StrategyState` are classes;
  - the source's loops are `while` loops with invariants.
- **Background completion.** A fetch is finished by a task the handler
  spawns. In the model that task is a separate `CompleteFetch` method.

## Model

| member | source | states |
|---|---|---|
| Tabs.Id | stockdata/src/tabs.rs:16-29 | every page identifier is a non-empty camel-case ASCII word starting with a lower-case letter |
| Tabs.Name | stockdata/src/tabs.rs:31-44 | every caption is two to five CJK ideographs |
| Tabs.All | stockdata/src/tabs.rs:46-59 | there are ten tabs, Overview first and Technicals last |
| Tabs.AllInDeclarationOrder | stockdata/src/tabs.rs:46-59 | `all()` lists the tabs in declaration order, with no tab twice |
| Tabs.AllContainsEveryTab | stockdata/src/tabs.rs:46-59 | every tab occurs in `all()` exactly once |
| Tabs.IdInjective | stockdata/src/tabs.rs:16-29 | distinct tabs have distinct page identifiers |
| Tabs.NameInjective | stockdata/src/tabs.rs:31-44 | distinct tabs have distinct captions |
| FieldParser.RatingFromStr | stockdata/src/models.rs:14-23 | a known rating comes only from its own label after trimming; the result is Unknown exactly when no label matches |
| FieldParser.RatingLabelRoundTrip | stockdata/src/models.rs:14-23 | each of the five labels, with any blanks around it, reads back as its rating |
| FieldParser.ParseDecimal | stockdata/src/models.rs:179-182 | `parse::<f64>` succeeds exactly on an optional '+' or '-' followed by an unsigned decimal |
| FieldParser.CleanDecimal | stockdata/src/models.rs:158-163 | the cleaned text keeps no '%', ',', '"' or space and is no longer than the cell |
| FieldParser.CleanLarge | stockdata/src/models.rs:194-198 | the cleaned text keeps no ',', '"' or space (a '%' stays) and is no longer than the cell |
| FieldParser.StripSigns | stockdata/src/models.rs:177 | what is left is the text with a leading run of '+', '-', '—' and '−' cut off; it does not start with '−'; a text that starts with none of them is unchanged |
| FieldParser.ParseF64 | stockdata/src/models.rs:156-183 | a cleaned cell that is empty or a lone dash gives -404; a cleaned, sign-stripped text that is not a number gives -500 |
| FieldParser.ParseF64OfDecimal | stockdata/src/models.rs:170-182 | a decimal with no sign or '+' reads as its value, and with '-', '—' or '−' as its negation, whether it has a "%" or " CNY" unit or none |
| FieldParser.ParseF64CleanedError | stockdata/src/models.rs:179-182 | a cleaned cell that holds data but whose sign-stripped text is not a number gives -500 |
| FieldParser.ParseF64OfWord | stockdata/src/models.rs:179-182 | a word that is not a number reads as -500 |
| FieldParser.ParsePercentage | stockdata/src/models.rs:186-190 | a percentage is not divided by 100: it equals `parse_f64` on every input |
| FieldParser.TruncateToInt | stockdata/src/models.rs:249 | `as i64` truncates toward zero: the result is within one of the value, on the zero side |
| FieldParser.ParseLargeNumber | stockdata/src/models.rs:193-250 | a cleaned cell that is empty or a lone dash gives -404 |
| FieldParser.ParseLargeNumberOfDecimal | stockdata/src/models.rs:204-249 | a signed decimal with suffix T, B, M or K, or none, is scaled by 10^12, 10^9, 10^6, 10^3 or 1, signed, and truncated toward zero |
| FieldParser.TrillionMagnitude | stockdata/src/models.rs:214-220 | with a 'T' anywhere, the number before the first 'T' is scaled by 10^12 |
| FieldParser.BillionMagnitude | stockdata/src/models.rs:221-227 | with no 'T' but a 'B', the number before the first 'B' is scaled by 10^9 |
| FieldParser.MillionMagnitude | stockdata/src/models.rs:228-234 | with no 'T' or 'B' but an 'M', the number before the first 'M' is scaled by 10^6 |
| FieldParser.ThousandMagnitude | stockdata/src/models.rs:235-241 | with only a 'K', the number before the first 'K' is scaled by 10^3 |
| FieldParser.NoLetterMagnitude | stockdata/src/models.rs:242-247 | with no suffix letter, the whole text is parsed |
| FieldParser.NoLetterFailed | stockdata/src/models.rs:242-247 | with no suffix letter and no number, the magnitude is 0, not -500 |
| FieldParser.UnreadableLarge | stockdata/src/models.rs:242-249 | a cleaned cell with no suffix letter and no number reads as 0 |
| FieldParser.ParseLargeNumberOfWord | stockdata/src/models.rs:242-249 | a word that is not a number reads as 0 |
| FieldParser.ParseOfWord | stockdata/src/models.rs:156-250 | a word cell is -500 for `parse_f64` but 0 for `parse_large_number` |
| FieldParser.LargeNumberKeepsPercent | stockdata/src/models.rs:194-198 | `parse_large_number` keeps the '%', so a percentage cell reads as 0 there, while `parse_f64` reads the same cell as its value |
| StockRecord.DefaultFor | stockdata/src/models.rs:26-33 | the default of each field type has that type (0.0, 0, "" and Unknown) |
| StockRecord.Get | stockdata/src/models.rs:34-153 | a field reads as its default exactly when the record stores no value for it |
| StockRecord.Set | stockdata/src/models.rs:34-153 | an assignment changes that one field and nothing else, the code included |
| StockRecord.NewRecord | stockdata/src/parser.rs:11-15 | a fresh record has the code and every field at its default |
| StockRecord.MergeField | stockdata/src/models.rs:259-261 | a destination value that is not the default is kept; when the destination holds the default, it takes the source value |
| StockRecord.Merged | stockdata/src/models.rs:253-636 | the merged record keeps the destination's code and merges every field the same way |
| StockRecord.MergeStockData | stockdata/src/models.rs:253-636 | visiting the fields one at a time in declaration order yields exactly the merged record |
| StockRecord.MergeKeepsPopulated | stockdata/src/models.rs:253-636 | a field the destination already holds is never overwritten |
| StockRecord.MissingBlocksLaterValues | stockdata/src/models.rs:259-261 | a -404 sentinel is not a default, so it blocks any later real value |
| StockRecord.MergeIdempotent | stockdata/src/models.rs:253-636 | merging the same source twice equals merging it once |
| StockRecord.MergeSelf | stockdata/src/models.rs:253-636 | a record merged with itself is unchanged |
| StockRecord.MergeWithNew | stockdata/src/models.rs:253-636 | a fresh record contributes nothing, and a fresh record filled from `r` holds all of `r`'s fields |
| StockRecord.MergeAssociative | stockdata/src/models.rs:253-636 | merging three records left to right equals merging the last two first |
| RowParser.ParserOf | stockdata/src/parser.rs:31-420 | every field is parsed into a value of its own type |
| RowParser.RowValue | stockdata/src/parser.rs:31-420 | a field's value from a row always has the field's type |
| RowParser.RowRecord | stockdata/src/parser.rs:11-422 | a row yields a record exactly when it has a string `code`; the record carries that code, and every field holds what its tab's branch reads |
| RowParser.Rows | stockdata/src/parser.rs:10-423 | there are never more records than rows |
| RowParser.ParsedRows | stockdata/src/parser.rs:9-426 | there are never more records than array items, and none for input that is not an array |
| RowParser.ParseStockDataFromJson | stockdata/src/parser.rs:6-427 | the loop always returns `Ok` with exactly the records of the rows, in order |
| RowParser.RowsAppend | stockdata/src/parser.rs:10-423 | parsing two batches of rows one after the other equals parsing them joined, so input order is kept |
| RowParser.RowsOfCoded | stockdata/src/parser.rs:14-19 | rows without a string `code` are dropped; every other row gives one record in input order, with that row's code |
| RowParser.NotAnArray | stockdata/src/parser.rs:9-426 | input that is not a JSON array yields no records |
| RowParser.NameAndPriceOnEveryTab | stockdata/src/parser.rs:21-28 | `name` is copied and `price` is parsed with `parse_f64` on every tab |
| RowParser.UnassignedStaysDefault | stockdata/src/parser.rs:31-420 | a field its tab's branch does not assign keeps its default |
| RowParser.NonStringIgnored | stockdata/src/parser.rs:26-28 | a value that is not a string leaves the field at its default |
| RowParser.IgnoredOnExtendedHours | stockdata/src/parser.rs:124-161 | the ExtendedHours branch never sets `change_percent` or `volume` |
| RowParser.IgnoredOnValuation | stockdata/src/parser.rs:162-207 | the Valuation branch never sets `market_cap` or `pe_ratio` |
| RowParser.IgnoredOnDividends | stockdata/src/parser.rs:208-233 | the Dividends branch never sets `dividend_yield` |
| RowParser.ReadField | stockdata/src/parser.rs:31-420 | a field its tab reads gets the parsed text under its key |
| RowParser.RatingFields | stockdata/src/parser.rs:380-390 | the three rating fields are read on Technicals with `Rating::from_str` |
| RowParser.TechnicalsRatings | stockdata/src/parser.rs:380-390 | on Technicals each rating text becomes `Rating::from_str` of it |
| RowParser.TechnicalsPattern | stockdata/src/parser.rs:416-418 | on Technicals `candlestickPattern` is copied verbatim |
| SourceMerge.Absorb | stockdata/src/io.rs:86-90 | one record adds its code to the table and leaves every other entry alone |
| SourceMerge.Fold | stockdata/src/io.rs:83-93 | after the loops the table holds exactly the codes seen, each entry under its own code |
| SourceMerge.MergeAll | stockdata/src/io.rs:78-97 | the table built from a list of records is keyed by exactly the codes in the list |
| SourceMerge.FoldAppend | stockdata/src/io.rs:83-93 | folding two lists one after the other equals folding them joined |
| SourceMerge.FirstNonDefault | stockdata/src/io.rs:86-87 | the reference rule: the result is the default only when every value is |
| SourceMerge.MergeAllFirstNonDefault | stockdata/src/io.rs:83-93 | the merged record for a code holds, in each field, the first value that is not the default among that code's records, in source order |
| SourceMerge.MergeTwice | stockdata/src/io.rs:83-93 | merging the records of a source a second time changes nothing |
| SourceMerge.SameSourceTwice | stockdata/src/io.rs:78-97 | sources `[S, S]` and `[S]` give the same records |
| SourceMerge.NoSources | stockdata/src/io.rs:78-97 | no sources give no records |
| SourceMerge.DisjointFieldsCombine | stockdata/src/io.rs:104-176 | rows for one code from three tabs that fill different fields combine into one record holding all of those fields |
| SourceMerge.MergeStockDataSources | stockdata/src/io.rs:78-97 | the output has no code twice and exactly the codes of all sources, and each record is the merged table's entry for its code |
| SourceMerge.AbsorbSource | stockdata/src/io.rs:84-92 | the inner loop absorbs one source's records in order |
| SourceMerge.AbsorbStock | stockdata/src/io.rs:86-90 | the loop body merges into the record held for the code, or inserts a copy |
| SourceMerge.ListValues | stockdata/src/io.rs:96 | `into_values` lists each entry once, in some order |
| SourceMerge.Timestamp | stockdata/src/io.rs:44-45 | the stamp has at least 15 characters, all digits except one underscore right after the zero-padded date |
| SourceMerge.TimestampedFilename | stockdata/src/io.rs:43-51 | the name splits back into `dir/prefix_`, the timestamp and the dotted extension |
| SourceMerge.TimestampLayout | stockdata/src/io.rs:45 | the stamp is eight digits, an underscore and six digits |
| SourceMerge.Dotted | stockdata/src/io.rs:50 | the result starts with '.': one dot is prepended when the extension has none, and an extension that already starts with '.' is kept as given |
| SourceMerge.ExtensionDotOptional | stockdata/src/io.rs:43-51 | an extension given with or without its dot names the same file |
| SourceMerge.FilenameLayout | stockdata/src/io.rs:43-51 | the name is `dir/prefix_`, then the 15-character stamp, then the dotted extension |
| Scraper.RowCount | stockdata/src/scraper.rs:64 | a reply that is not a 64-bit integer counts as 0 |
| Scraper.Observe | stockdata/src/scraper.rs:65-74 | a new non-zero count resets the quiet counter and becomes the last count; a 0 or a repeated count adds one quiet poll |
| Scraper.ScrollToLoadAll | stockdata/src/scraper.rs:38-77 | the loop over the driver's replies ends exactly as the recursive reference run does: loaded on the poll that ends the quiet streak, a driver error on the first failing script, or still loading when the replies run out |
| Scraper.StopsOnThirtyFirstQuietPoll | stockdata/src/scraper.rs:65-70 | the loop stops exactly on the poll that makes 31 quiet polls in a row |
| Scraper.NoStopWhileGrowing | stockdata/src/scraper.rs:65-74 | while the count keeps changing, the loop never stops |
| Scraper.LoadedNeedsQuietPolls | stockdata/src/scraper.rs:65-70 | the loop never stops before 31 quiet polls in a row |
| Scraper.TabNotFound | stockdata/src/scraper.rs:98 | the message is "找不到", the tab's caption, then "标签页", so the caption can be read back from it |
| Scraper.SwitchToTab | stockdata/src/scraper.rs:95-99 | switching succeeds exactly when the click script returns the boolean `true`; a failed script passes its error on, any other reply gives the tab-not-found message |
| Scraper.FetchStockDataFromTab | stockdata/src/scraper.rs:135-406 | a tab yields records exactly when the switch succeeds, the script runs and its text (or "[]" for a non-string reply) decodes; the records are then the rows parsed from the decoded JSON for that tab |
| Scraper.NonStringReplyYieldsNothing | stockdata/src/scraper.rs:398-402 | a reply that is not a string is read as `"[]"`, which yields no records |
| Scraper.Successes | stockdata/src/scraper.rs:115-125 | the kept results are never more than the tabs |
| Scraper.FetchStockData | stockdata/src/scraper.rs:108-132 | the fetch always succeeds; its records have distinct codes, exactly the codes of the successful tabs, and each is the merge, in `all()` order, of that code's records |
| Scraper.AllTabsFailing | stockdata/src/scraper.rs:115-131 | when every tab fails, the fetch yields no records |
| FetchCoordinator.FirstWithCode | server/src/stockdata.rs:280-293 | the index found is that of the first record with the code, or past the end when none has it |
| FetchCoordinator.DataLookup | server/src/stockdata.rs:267-298 | with no data the answer is NotFound; with a code it is the first record with that code or NotFound; without a code it is every record in stored order |
| FetchCoordinator.PriceLookup | server/src/stockdata.rs:251-262 | a price is served exactly when no code is asked for or the code is cached |
| FetchCoordinator.StockDataState.constructor | server/src/stockdata.rs:21-31 | nothing is initialised, fetched or cached |
| FetchCoordinator.StockDataState.InitWebdriver | server/src/stockdata.rs:48-80 | refused with no change when a client or driver is present; otherwise both are set exactly when creation succeeded |
| FetchCoordinator.StockDataState.CloseWebdriver | server/src/stockdata.rs:84-130 | refused with the handles untouched while fetching, and refused when nothing is open; otherwise both handles are gone even if closing one failed, and the report names a kill failure before a close failure |
| FetchCoordinator.StockDataState.FetchData | server/src/stockdata.rs:134-189 | the busy check comes before the client check, and both refuse with no change; an accepted fetch locks, clears the data and stamps the start |
| FetchCoordinator.StockDataState.CompleteFetch | server/src/stockdata.rs:167-181 | completion always unlocks; the data is replaced only on success |
| FetchCoordinator.StockDataState.GetStatus | server/src/stockdata.rs:193-205 | `initialized` means a client is present, and the count is the number of stored records |
| FetchCoordinator.StockDataState.GetStockdata | server/src/stockdata.rs:267-298 | the answer is the data lookup over the stored records |
| FetchCoordinator.PriceStale | server/src/stockdata.rs:233 | an empty cache is always refreshed, a filled one exactly when its last fetch is more than 60 s old |
| FetchCoordinator.StockDataState.GetPriceAsWritten | server/src/stockdata.rs:208-263 | the as-written price handler: refused while busy or without a client; the cache is refreshed only when empty or older than 60 s; the lock is released only on the refresh path |
| FetchCoordinator.StockDataState.GetPrice | server/src/stockdata.rs:208-263 | the corrected price handler: the same answers, and a request that is not refused always leaves the state unlocked |
| FetchCoordinator.CacheHitLocksOut | server/src/stockdata.rs:227-248 | after one request served from the cache, `/price`, `/fetch` and `/close` are all refused as busy |
| FetchCoordinator.CacheHitServes | server/src/stockdata.rs:227-248 | with the corrected handler, the same sequence is served from the cache and the fetch starts |
| ScreenerServer.CreateWebdriverClient | stockdata/src/server.rs:76-103 | client creation succeeds exactly when the driver starts and the connection succeeds, as two distinct failures |
| ScreenerServer.PerformFetch | stockdata/src/server.rs:187-238 | the first failing step among navigation, page load, scrolling and data fetch aborts with its own message; otherwise the result is the fetched records |
| ScreenerServer.SavingNeverAborts | stockdata/src/server.rs:187-238 | whether the result is saved, and whether saving works, never changes what a fetch returns |
| ScreenerServer.AppState.constructor | stockdata/src/server.rs:36-45 | no driver, no client, no stocks, not running |
| ScreenerServer.AppState.InitWebdriver | stockdata/src/server.rs:106-140 | refused with no change when a driver or client is present; otherwise both are set exactly when creation succeeded |
| ScreenerServer.AppState.CloseWebdriver | stockdata/src/server.rs:143-184 | refused while running; otherwise it answers even with nothing open, leaves no handle, and reports a kill failure before a close failure |
| ScreenerServer.AppState.FetchData | stockdata/src/server.rs:241-301 | the running check comes before the client check; an accepted fetch sets running and clears the stocks |
| ScreenerServer.AppState.CompleteFetch | stockdata/src/server.rs:279-293 | completion always resets running; the stocks are replaced only on success |
| ScreenerServer.AppState.GetStatus | stockdata/src/server.rs:304-311 | the status reports running and the number of stocks |
| ScreenerServer.AppState.GetData | stockdata/src/server.rs:314-324 | the stocks are served exactly when there are some; otherwise the answer is NotFound |
| ScreenerServer.FailedFetchLeavesNothing | stockdata/src/server.rs:262-293 | after a failed scrape there are no stocks, and a new fetch is accepted |
| Positions.NewTransaction | position/src/models.rs:126-137 | a new transaction has no fee and no note |
| Positions.TotalValue | position/src/models.rs:140-142 | a trade's value is non-negative for a non-negative amount and price, and zero when either is zero |
| Positions.NewPosition | position/src/models.rs:25-36 | a new position has no price and no transactions |
| Positions.MarketValue | position/src/models.rs:38-41 | the market value is known exactly when a price is, and is price times amount |
| Positions.PositionCost | position/src/models.rs:43-45 | on a position consistent with its transactions the cost is what its buys cost while something is held, and 0 once nothing is |
| Positions.ProfitLoss | position/src/models.rs:48-51 | the profit is known exactly when a price is |
| Positions.ProfitLossPercent | position/src/models.rs:53-59 | the percentage is absent without a price or with zero cost; otherwise it is profit over cost, times 100 |
| Positions.ProfitIsMarginTimesAmount | position/src/models.rs:43-51 | the profit is the price's margin over the average cost times the amount, and is positive exactly when the price exceeds that cost |
| Positions.UpdateFromTransactions | position/src/models.rs:68-94 | the loop sets the amount to bought minus sold, and the cost to the buys' value over the amount, or 0 when nothing is held |
| Positions.WithTransaction | position/src/models.rs:62-94 | the transaction is appended and the position recomputed; nothing else changes |
| Positions.AddTransactionToPosition | position/src/models.rs:62-65 | adding a transaction yields the recomputed position |
| Positions.WithTransactionAmount | position/src/models.rs:68-85 | a buy adds its amount and a sell subtracts it |
| Positions.SellsKeepBoughtValue | position/src/models.rs:76-81 | sells change neither what the buys cost nor the amount bought |
| Positions.NewPortfolio | position/src/models.rs:161-169 | a new portfolio has the name and cash given and no positions |
| Positions.Priced | position/src/models.rs:173-175 | a priced position contributes its market value, an unpriced one nothing |
| Positions.SumRemove | position/src/models.rs:172-187 | a sum over the positions does not depend on the hash order: any entry can be the one taken off first |
| Positions.SumRemoveAny | position/src/models.rs:172-187 | the same, for every entry at once |
| Positions.SumUpdate | position/src/models.rs:172-187 | storing a position adds its contribution and takes away that of the entry it replaces |
| Positions.TotalMarketValue | position/src/models.rs:172-178 | cash alone without positions; otherwise, for any position, its priced value plus that of the others plus cash |
| Positions.TotalCost | position/src/models.rs:181-187 | cash alone without positions; otherwise, for any position, its cost plus that of the others plus cash |
| Positions.TotalProfitLoss | position/src/models.rs:190-192 | the cash cancels out: the total profit is priced value minus held cost |
| Positions.TotalProfitLossPercent | position/src/models.rs:195-202 | the percentage is absent exactly when the total cost is zero; otherwise, applied to the total cost, it gives the total profit, and over a positive cost it is positive exactly on a gain |
| Positions.EmptyPortfolioTotals | position/src/models.rs:172-192 | a portfolio with no positions is worth its cash and has no profit |
| Positions.AddPosition | position/src/models.rs:205-208 | the position is inserted or replaced under its code; other entries and the cash are untouched |
| Positions.RemovePosition | position/src/models.rs:211-217 | the entry under the code is returned and dropped, the others are untouched, and only a real removal updates the timestamp |
| Positions.AddPositionTotals | position/src/models.rs:205-208 | adding a position raises the total cost and the market value by its contribution, less that of the position it replaces |
| Positions.RemovePositionTotals | position/src/models.rs:211-217 | removing a position lowers each total by exactly its contribution; a missing code changes neither |
| Positions.Applied | position/src/models.rs:220-277 | a buy is refused exactly when it costs more than the cash; a sell is refused exactly when the position is missing or too small, each with its own error; an accepted trade moves cash by `amount*price`, touches no other code, and appends the transaction; a buy keeps a held position's code, name and price, and opens a new one named `Unknown Stock <code>` with no price, consistent with its transactions; a sell that empties a position removes it |
| Positions.AddTransaction | position/src/models.rs:220-277 | the in-place update yields exactly the applied transaction |
| Positions.CashNeverNegative | position/src/models.rs:224-232 | with non-negative amounts and prices, cash never goes below zero |
| Positions.AppliedKeepsConsistent | position/src/models.rs:220-277 | every position stays consistent with its transactions |
| Positions.SellAllCloses | position/src/models.rs:249-272 | selling all of a position closes it; a partial sell leaves it open with the amount reduced |
| PositionManagement.Repriced | position/src/position_manager.rs:60-72 | every held code with a new price gets that price, and nothing else changes |
| PositionManagement.RepriceOne | position/src/position_manager.rs:64-68 | one loop step reprices the code only when it is held |
| PositionManagement.Reprice | position/src/position_manager.rs:60-72 | the loop reprices the held codes and counts the held codes among those priced |
| PositionManagement.PositionManager.constructor | position/src/position_manager.rs:10-14 | the manager starts with the portfolio 默认组合, 100000 in cash and no positions |
| PositionManagement.PositionManager.AddPosition | position/src/position_manager.rs:17-30 | adding a position is exactly a buy through the portfolio |
| PositionManagement.PositionManager.RemovePosition | position/src/position_manager.rs:33-57 | refused with no change when the code is not held or too little is held; otherwise exactly a sell |
| PositionManagement.PositionManager.UpdatePrices | position/src/position_manager.rs:60-72 | only held codes are repriced, and the count is the number of held codes priced |
| PositionManagement.PositionManager.GetPositions | position/src/position_manager.rs:75-77 | the list holds the map's values one per key, in some order of the keys that lists each key once |
| PositionManagement.PositionManager.GetPosition | position/src/position_manager.rs:80-82 | a plain lookup by code |
| PositionServer.Names | server/src/position.rs:64 | the portfolio names, in stored order |
| PositionServer.Without | server/src/position.rs:114 | `retain` keeps only the portfolios with other names |
| PositionServer.WithoutUnique | server/src/position.rs:114 | with unique names, removing a name drops exactly that portfolio and keeps the order of the rest |
| PositionServer.WithoutNone | server/src/position.rs:114 | a name nobody carries removes nothing |
| PositionServer.FirstNamed | server/src/position.rs:76 | `find` stops at the first portfolio with the name, or finds none exactly when no portfolio has it |
| PositionServer.PositionState.constructor | server/src/position.rs:14-18 | the state starts with no portfolios |
| PositionServer.PositionState.ListPositions | server/src/position.rs:60-67 | the list is the portfolio names in stored order |
| PositionServer.PositionState.GetPortfolio | server/src/position.rs:71-84 | name, cash and positions of the first portfolio with the name; an error exactly when there is none |
| PositionServer.PositionState.AddPortfolio | server/src/position.rs:87-100 | a duplicate name is refused with no change; otherwise a new portfolio is appended, so names stay unique |
| PositionServer.PositionState.RemovePortfolio | server/src/position.rs:103-116 | an unknown name is refused; otherwise that portfolio is removed and the others keep their order |
| Strategies.MomentumSignal | strategy/src/strategy.rs:63-85 | a momentum signal is for the stock asked about, at the data's time and price, for 100 shares, with a tenth of the move as strength; it buys with "rose above 5%" or sells with "fell below 5%", never holds |
| Strategies.MeanReversionSignal | strategy/src/strategy.rs:140-163 | a mean-reversion signal carries the stock's price, 100 shares and strength 0.7; it sells above the mean or buys below it, never holds |
| Strategies.MomentumRule | strategy/src/strategy.rs:63-85 | momentum buys exactly above the threshold and sells exactly below its negation; each signal has the stock's price, 100 shares and a positive strength of a tenth of the move |
| Strategies.MeanReversionRule | strategy/src/strategy.rs:140-163 | over the reals, mean reversion never buys and sells exactly the stocks with a negative price |
| Strategies.GenerateSignals | strategy/src/strategy.rs:54-88 | there is one signal per stock whose rule fires, none for other stocks, and each is the rule's own signal |
| Strategies.Strategy.Momentum | strategy/src/strategy.rs:22-34 | the momentum strategy starts disabled, with exactly the parameters lookback 20 and threshold 0.05 |
| Strategies.Strategy.MeanReversion | strategy/src/strategy.rs:99-111 | the mean-reversion strategy starts disabled, with exactly the parameters MA period 20 and std-dev multiplier 2.0 |
| Strategies.Strategy.Name | strategy/src/strategy.rs:38-40 | the name is the one the parameters were built with |
| Strategies.Strategy.IsEnabled | strategy/src/strategy.rs:46-48 | the flag stored in the parameters, which `set_enabled` sets |
| Strategies.Strategy.SetEnabled | strategy/src/strategy.rs:50-52 | `is_enabled` afterwards returns the value set |
| Strategies.Strategy.Signals | strategy/src/strategy.rs:54-88 | either strategy gives exactly one signal per firing stock, each the rule's own |
| Strategies.StrategyFactory.constructor | strategy/src/strategy.rs:175-186 | the factory starts with the two built-in strategies under their names |
| Strategies.StrategyFactory.RegisterStrategy | strategy/src/strategy.rs:187-189 | a strategy is filed under its name, replacing any strategy of the same name |
| Strategies.StrategyFactory.GetStrategy | strategy/src/strategy.rs:191-193 | a strategy is found exactly when its name is registered |
| Strategies.StrategyFactory.GetStrategyNames | strategy/src/strategy.rs:195-197 | every registered name is listed once |
| Strategies.RegisteredIsFound | strategy/src/strategy.rs:187-193 | a new name is not found before registration, and after it the registered strategy is |
| StrategyModels.StrategyParams.constructor | strategy/src/models.rs:37-51 | new settings are disabled, with an empty description, no parameters and risk defaults 0.1, 0.2, 0.05 and 0.1 |
| StrategyModels.StrategyParams.GetParam | strategy/src/models.rs:54-59 | an absent key gives `None`; a present one gives its decoded value |
| StrategyModels.StrategyParams.SetParam | strategy/src/models.rs:62-70 | a failed encoding returns the error with no change; otherwise only that key is set and the time is stamped |
| StrategyModels.SetThenGetParam | strategy/src/models.rs:54-70 | after `set_param`, the key reads back as the decoding of the value that encoded, every other key reads as before, and a failed encoding leaves every key as before |
| StrategyServer.SimulatedBacktest | server/src/strategy.rs:112-141 | the backtest covers the last 30 days, with capital defaulting to 100000, final capital 110000, and total trades equal to winning plus losing |
| StrategyServer.StrategyState.constructor | server/src/strategy.rs:15-29 | the state holds exactly the two strategies under their names, disabled, and no backtest results |
| StrategyServer.StrategyState.ListStrategies | server/src/strategy.rs:49-56 | every strategy's settings are listed once |
| StrategyServer.StrategyState.GetStrategy | server/src/strategy.rs:60-76 | the settings filed under the name, or NotFound; nothing changes |
| StrategyServer.StrategyState.RunStrategy | server/src/strategy.rs:80-100 | the strategy is reported as started, or NotFound; nothing changes |
| StrategyServer.StrategyState.BacktestStrategy | server/src/strategy.rs:104-149 | an unknown name is NotFound with no change; otherwise the result is stored under the name, replacing any earlier one |
| StrategyServer.StrategyState.GetBacktestResult | server/src/strategy.rs:153-169 | the last stored result for the name, or NotFound |
| StrategyServer.BacktestThenRead | server/src/strategy.rs:104-169 | there is no result before a backtest; a second backtest replaces the first |
| Ntfy.NewAction | common/src/utils/ntfy.rs:26-36 | a new button has every text empty and every option absent |
| Ntfy.ViewAction | common/src/utils/ntfy.rs:38-47 | a view button drops any request it described |
| Ntfy.HttpAction | common/src/utils/ntfy.rs:49-58 | an http button carries the request given, with `clear` absent |
| Ntfy.ActionsForgetTheirPast | common/src/utils/ntfy.rs:38-58 | either kind of button depends only on its new arguments |
| Ntfy.New | common/src/utils/ntfy.rs:110-127 | a new message has the topic and nothing else |
| Ntfy.Message | common/src/utils/ntfy.rs:130-134 | only the message changes |
| Ntfy.Title | common/src/utils/ntfy.rs:136-140 | only the title changes |
| Ntfy.AddTag | common/src/utils/ntfy.rs:142-150 | the tag goes at the end, the list is created when absent, and nothing else changes |
| Ntfy.Tags | common/src/utils/ntfy.rs:152-156 | only the tag list changes |
| Ntfy.Priority | common/src/utils/ntfy.rs:158-164 | a priority from 1 to 5 is taken; any other value leaves the message unchanged |
| Ntfy.AddAction | common/src/utils/ntfy.rs:166-174 | the button goes at the end, the list is created when absent, and nothing else changes |
| Ntfy.Click | common/src/utils/ntfy.rs:176-180 | only the click URL changes |
| Ntfy.Attach | common/src/utils/ntfy.rs:182-186 | only the attachment changes |
| Ntfy.WithMarkdown | common/src/utils/ntfy.rs:188-192 | only the markdown flag changes |
| Ntfy.Icon | common/src/utils/ntfy.rs:194-198 | only the icon changes |
| Ntfy.Filename | common/src/utils/ntfy.rs:200-204 | only the file name changes |
| Ntfy.Delay | common/src/utils/ntfy.rs:206-210 | only the delay changes |
| Ntfy.Email | common/src/utils/ntfy.rs:212-216 | only the e-mail changes |
| Ntfy.Call | common/src/utils/ntfy.rs:218-222 | only the phone number changes |
| Ntfy.TagsInOrder | common/src/utils/ntfy.rs:142-150 | tags added one after another end up in the order they were added, after the earlier ones |
| Ntfy.PresetShape | common/src/utils/ntfy.rs:234-264 | a preset is a fresh message with exactly the title, message, one tag and priority given |
| Ntfy.WarningMessage | common/src/utils/ntfy.rs:234-240 | the tag is "warning" and the priority 4 |
| Ntfy.SuccessMessage | common/src/utils/ntfy.rs:242-248 | the tag is "white_check_mark" and the priority 3 |
| Ntfy.ErrorMessage | common/src/utils/ntfy.rs:250-256 | the tag is "rotating_light" and the priority 5 |
| Ntfy.InfoMessage | common/src/utils/ntfy.rs:258-264 | the tag is "information" and the priority 3 |
| ClientCommands.Url | client/src/main.rs:20 | every endpoint address is the base URL followed by the path |
| ClientCommands.Parse | client/src/main.rs:31-55 | surrounding blanks are ignored: "exit" or "quit" exits, "help" helps, and a blank line is unknown |
| ClientCommands.Classify | client/src/main.rs:33-55 | each fixed word and each group prefix ("stockdata ", "position ", "strategy ") selects its own command, and a line matching none is unknown |
| ClientCommands.ParseStockdata | client/src/main.rs:92-135 | only the four exact words are recognised, each the typed form of its command |
| ClientCommands.ParsePosition | client/src/main.rs:137-193 | "list" lists; a change or its usage line comes exactly from a text led by "add " or "remove "; anything else is unknown |
| ClientCommands.ParseStrategy | client/src/main.rs:195-238 | "list" lists; after "run " or "backtest " the name is the rest of the text; anything else is unknown |
| ClientCommands.ParseAmendment | client/src/main.rs:146-187 | an add exactly when adding; a change exactly when there are at least two whitespace-separated parts, the first two being the code and the amount; otherwise the usage line |
| ClientCommands.RequestFor | client/src/main.rs:79-238 | a request is sent exactly for the commands the client does not answer itself (exit, help, usage lines and every unknown command or sub-command send nothing); every request goes below the base URL, `status` to `/status`, and each group's sub-commands below `/stockdata/`, `/position/` or `/strategy/`; `stockdata fetch` posts `save_to_file: true` |
| ClientCommands.LineReachesItsGroup | client/src/main.rs:31-55 | a line led by a group word sends, if anything, a request below that group's path, and a blank line sends nothing |
| ClientCommands.ClassifyStockdata | client/src/main.rs:44-46 | a line starting "stockdata " gives the rest after 10 characters to the stockdata handler |
| ClientCommands.ClassifyPosition | client/src/main.rs:47-49 | a line starting "position " gives the rest after 9 characters to the position handler |
| ClientCommands.ClassifyStrategy | client/src/main.rs:50-52 | a line starting "strategy " gives the rest after 9 characters to the strategy handler |
| ClientCommands.AddRoundTrip | client/src/main.rs:146-147 | "add " hands the rest to the add parser |
| ClientCommands.RemoveRoundTrip | client/src/main.rs:167-168 | "remove " hands the rest to the remove parser |
| ClientCommands.ChangeRoundTrip | client/src/main.rs:146-187 | `add` and `remove` with a code and an amount read back as that change |
| ClientCommands.UsageRoundTrip | client/src/main.rs:146-187 | `add` or `remove` with a single word after it gives its usage line |
| ClientCommands.StockdataRoundTrip | client/src/main.rs:92-135 | each stockdata sub-command reads back from its typed form |
| ClientCommands.PositionRoundTrip | client/src/main.rs:137-193 | each well-formed position sub-command reads back from its typed form |
| ClientCommands.StrategyRoundTrip | client/src/main.rs:195-238 | each well-formed strategy sub-command reads back, and the name is everything after `run ` or `backtest ` |
| ClientCommands.RoundTrip | client/src/main.rs:31-55 | every well-formed command, typed out, is read back as itself |
| ClientCommands.ParseTrimmed | client/src/main.rs:31 | the line is trimmed before dispatch, so surrounding blanks never matter |
| ClientCommands.Quit | client/src/main.rs:34 | "quit" also means exit |
| ServerStatus.TruncDiv | server/src/server.rs:33-35 | division rounding toward zero: the quotient brackets a non-negative dividend from below and a negative one from above |
| ServerStatus.UptimeParts | server/src/server.rs:32-36 | the parts are the whole days, the hours past those days and the minutes past the whole hours |
| ServerStatus.Uptime | server/src/server.rs:32-36 | the text gives the whole days, then the hours and the minutes left over, with their labels |
| ServerStatus.TruncMod | server/src/server.rs:34-35 | Rust's `%`: the remainder has the dividend's sign and adds back up to the dividend |
| ServerStatus.UnitsNest | server/src/server.rs:33-35 | hours are whole sixties of minutes and days whole twenty-fours of hours, each rounded toward zero |
| ServerStatus.UptimeAddsUp | server/src/server.rs:32-36 | the printed days, hours and minutes add back up to the total minutes, hours stay within 24 and minutes within 60, and a non-negative uptime prints no negative part |
| ServerStatus.NewServerState | server/src/server.rs:10-15 | the state records the start time and the version |
| ServerStatus.GetStatus | server/src/server.rs:26-41 | the status is always "running", with the uptime since start and the build version |
| ServerStatus.HealthCheck | server/src/server.rs:44-46 | the health check always answers "OK" |
| ServerStatus.DayTwoHoursThreeMinutes | server/src/server.rs:32-36 | an uptime of 1 day, 2 hours, 3 minutes and 4 seconds prints as 1, 2 and 3 |

## Left out

- **Browser and WebDriver plumbing.** Starting ChromeDriver, configuring the
  driver and every `execute`/`goto`/`close` call are left out, and so is the
  JavaScript they send. Each driver reply is an input value.
- **Functions defined outside the modelled files.** `perform_fetch`,
  `create_webdriver_client` and `fetch_price`, which the server crate calls
  but which are defined outside the modelled files, and
  `wait_until_script_return_true`, are not modelled. Their results are
  inputs.
- **Concurrency.** Mutexes, spawned tasks and sleeps are not modelled. The
  spawned completion of a fetch is a separate method, and nothing runs
  between a handler's start and its end.
- **Time and randomness.** Clock readings are an explicit `now` parameter in
  milliseconds, or a `DateTime` for the file stamp. The transaction id that
  `uuid` draws is a parameter. The `env!` package version of `ServerState`
  is a parameter.
- **Files, serialisation and HTTP.** The following are not modelled:
  - the JSON file helpers of `stockdata/src/io.rs`;
  - serde encoding;
  - actix routing;
  - the reqwest calls of the client;
  - `NtfyMessage::send`.
  Decoding a script reply (`serde_json::from_str`) is a function parameter.
  Encoding and decoding a strategy parameter are inputs.
- **Floating point.** Every `f64` is an exact `real`. The following are not
  modelled:
  - rounding;
  - exponent syntax, `inf` and `nan`, which Rust's parser accepts but
    `FieldParser.ParseDecimal` rejects;
  - the saturation of `as i64` on huge values.
- FieldParser.ParseLargeNumber: `as i64` is modelled as unbounded truncation, so values beyond 64 bits are not clipped as Rust clips them.
- FieldParser.IsLowercaseWord: excludes "inf", "infinity" and "nan", so the lemmas about word cells do not say what Rust makes of those three words.
- **A unit test.** The test at `stockdata/src/models.rs:648` expects "−2.02%"
  to read as -123.45, which the parser cannot produce. It is not carried as a
  property.
- **An out-of-date API.** `add_position` and `remove_position` of
  `server/src/position.rs` (lines 120-204) call functions that the position
  crate does not define (`PositionManager::new(portfolio)` and
  `new_transaction`). They are not modelled.
- **Placeholders.** `strategy/src/backtest.rs` is a fixed record with no
  logic, so it is not modelled. The backtest of `/backtest` is the fixed
  simulated result.
- **Row assignment.** `parse_stock_data_from_json` assigns a row's fields one
  statement at a time. The model builds the whole record with the
  `RowRecord` function, and the method loops over the rows only.
- **Map order.** `HashMap` iteration order is left open. The model states
  what holds for every order:
  - `merge_stock_data_sources` lists each record once;
  - `get_strategy_names`, `list_strategies` and `get_positions` list each
    entry once;
  - `generate_signals` gives one signal per firing stock.
  Which order Rust picks is not modelled.
- PositionManagement.PositionManager.RemovePosition: the "not enough held" message is the fixed prefix, without the held amount that Rust formats after it.
- **Signal and backtest text.** A signal's `reason` is the `Reason` datatype
  carrying the threshold in percent, not the formatted string. The
  `Utc::now()` stamps of the strategy settings and the backtest are the
  `now` parameter.
- **`get_portfolio` of `PositionManager`.** It only returns the field, and
  the model reads the field directly.

## Findings

| source | as written | input that shows it | evidently intended | confidence | as-written member | corrected member |
|---|---|---|---|---|---|---|
| server/src/stockdata.rs:227-248 | `get_price` sets `is_fetching` before its cache check and clears it only when it refreshes the cache | a request within 60 s of a refresh is served from the cache and leaves `is_fetching` true; from then on `/price`, `/fetch` and `/close` are all refused as "数据抓取正在进行中" | the flag guards only the refresh, so a cache hit leaves it cleared | not executed | FetchCoordinator.CacheHitLocksOut | FetchCoordinator.CacheHitServes |
