# Pokemon TCG price statistics, modelled in Dafny

This project models the statistics core of a Pokémon TCG price tracker. The
tracker works as follows:

- It asks the TCGplayer catalogue service which cards of a rarity a set holds.
- It fetches their product names and market prices, caching them per id and per day.
- It keeps a daily price ledger (`history.json`), one product record per card with at most one price entry per day.
- From the ledger it derives daily, weekly and monthly price changes, set indexes and set totals.
- It ranks cards by price gained per month since the release of their set.

Two generations of this code are modelled, plus the one-off migration script
that merged the old ledger layout into the new one:

- `src/util.ts`, `src/api.ts` and `src/migration.ts` (the current code).
- `util.js` (the older draft).

| module | file | models |
|---|---|---|
| `Types` | types.dfy | the records of `src/enums.ts`: sets, products, prices, ledger records and entries |
| `Lodash` | lodash.dfy | the lodash and array calls the code relies on: `_.find`, stable `_.orderBy`, `_.reverse`, `_.uniqBy`, `slice`, `_.round`, `_.keys` |
| `History` | history.dfy | `saveHistoricalData` of `src/util.ts`: the daily ingestion into the ledger |
| `Changes` | changes.dfy | `getChange` and `displayChanges`: the price moves of the cards in the ledger |
| `Totals` | totals.dfy | `getIndex` and `getTotals`: set indexes and set totals |
| `Appreciation` | appreciation.dfy | `getMonthsFromToday`, `aggregatePrices` and `getBestCardAppreciation` of `src/util.ts` |
| `Api` | api.dfy | `searchQuery`, `getProductInfo` and `getPriceInfo` of `src/api.ts`: caches, batches of one hundred ids, and the requests sent |
| `Migration` | migration.dfy | `src/migration.ts`: merging the entries of 2021-05-10 and 2021-05-11 from the old ledger |
| `Draft` | draft.dfy | `util.js`: the memoised listing cache, its appreciation ranking and its product-and-finish ledger |

Conventions:

- A calendar day is a day number counted from 1970-01-01. 2021-05-10 is day 18757 and 2021-05-11 is day 18758.
- The current day (`today`) and the current instant (`now`, in days) are parameters.
- A price is a whole number of cents, so rounding a sum or a difference to two decimals is the identity.
- `Math.round` and `_.round(x, 0)` round to the nearest integer, with halves going up.
- Ratios such as the price per month, the sort keys and the percentages are `real`.
- A product id used as an object key is the id itself.
- `_.keys` of an object keyed by ids lists the ids in ascending order.
- The network calls are parameters:
  - `Types.DataSource` gives the three lookups as the statistics code sees them.
  - `Api.Endpoint` gives the raw service calls behind them.
  - `Draft.DraftSource` gives the older api.js calls, whose price lookup returns every finish.
- A place where the JavaScript throws a `TypeError` is modelled as `None`.
- Objects that the code updates in place become classes whose methods modify their fields:
  - the caches of `src/api.ts`: `Api.Client`;
  - the ledger file: `Totals.LedgerFile`, `History.HistoryStore`;
  - the script's ledger: `Migration.NewHistory`;
  - the draft's cache and ledger: `Draft.DraftUtil`, `Draft.DraftHistory`.
- Each method is proved equal to a specification function, and the properties are proved about that function.

## Model

| member | source | states |
|---|---|---|
| `Types.Ids` | src/util.ts:118 | `_.map(cards, 'id')`: one id per card, at the same position |
| `Lodash.Find` | src/util.ts:48 | the result is the first element satisfying the predicate, and `None` exactly when no element does |
| `Lodash.FindIndexFirst` | src/util.ts:48 | the index found holds the first element satisfying the predicate |
| `Lodash.FindAppend` | src/util.ts:140-145 | appending an element changes the first match only when there was none and the new element matches |
| `Lodash.OrderBy` | src/util.ts:72 | `_.orderBy` returns a permutation of its input in ascending key order, stable: the elements of each key keep their input order |
| `Lodash.KeyFilterAppend` | src/util.ts:72 | the elements of one key in a concatenation are those of each part, in order |
| `Lodash.InsertAfterEqualStable` | src/util.ts:72 | inserting after the equal keys puts the new element last among the elements of its key |
| `Lodash.InsertAfterEqualSorted` | src/util.ts:72 | inserting one element into an ascending sequence keeps it ascending, the step of the stable sort |
| `Lodash.InsertAfterEqualPermutes` | src/util.ts:72 | inserting adds exactly that element to the multiset |
| `Lodash.OrderByMembers` | src/util.ts:72 | sorting keeps the length and exactly the elements it was given |
| `Lodash.Reverse` | src/util.ts:244 | `_.reverse` puts element `i` at position `n - 1 - i` |
| `Lodash.ReverseMultiset` | src/util.ts:244 | reversing is a permutation |
| `Lodash.OrderByDesc` | src/util.ts:244-253 | `_.reverse(_.orderBy(...))` is a permutation of its input in descending key order, where the elements of each key come in reverse input order |
| `Lodash.ReverseKeyFilter` | src/util.ts:244 | reversing reverses the elements of every key |
| `Lodash.OrderByDescMembers` | src/util.ts:244-253 | sorting by descending key keeps the length and exactly the elements |
| `Lodash.FirstWithKeyFound` | util.js:100 | a first element with a key exists exactly when some element has that key, and it has that key |
| `Lodash.FirstWithKeyAppend` | util.js:100 | appending changes the first element of a key only when the key was absent |
| `Lodash.FirstWithKeyMax` | util.js:100 | in a descending sequence, the first element of a key ranks at least as high as every element with that key |
| `Lodash.DistinctKeysOnce` | util.js:100 | with no repeated key, no element occurs twice |
| `Lodash.PermutationKeepsDistinctKeys` | src/util.ts:102 | reordering a sequence with distinct keys keeps the keys distinct |
| `Lodash.UniqFromMembers` | src/util.ts:102 | `_.uniqBy` keeps only input elements whose key was not already seen |
| `Lodash.UniqFromDistinct` | src/util.ts:102 | `_.uniqBy` leaves no two elements with the same key |
| `Lodash.UniqFromComplete` | src/util.ts:102 | every key of the input is still represented after `_.uniqBy` |
| `Lodash.UniqFromKeepsFirst` | src/util.ts:102 | the element `_.uniqBy` keeps for a key is the first input element with that key |
| `Lodash.UniqFromKeepsDesc` | src/util.ts:102 | `_.uniqBy` keeps a descending order |
| `Lodash.SliceTo` | src/util.ts:103-105 | `slice(0, end)` is a prefix of length `min(end, n)`, where a negative `end` counts from the back |
| `Lodash.RoundHalfUp` | src/util.ts:40 | the result is within one half of `x`, with halves rounding up |
| `Lodash.SortedIds` | src/migration.ts:6 | `_.keys` lists exactly the keys, strictly ascending |
| `History.PriceFor` | src/util.ts:127 | the first price of the id; `None` exactly when no price has that id |
| `History.ProductFor` | src/util.ts:128 | the first product of the id; `None` exactly when no product has that id |
| `History.SetNamed` | src/util.ts:48 | the first catalogue entry of the set; `None` exactly when no set has that name |
| `History.EntryOn` | src/util.ts:220 | the first ledger entry of a day; `None` exactly when the record has no entry for that day |
| `History.EntryOnAppend` | src/util.ts:140-145 | appending an entry changes a day's first entry only when the day had none |
| `History.TodayEntry` | src/util.ts:141-145 | the appended entry is dated today and carries the finish being saved |
| `History.IngestOne` | src/util.ts:126-145 | one iteration of the loop is the ingestion step of one card |
| `History.HistoryStore.SaveHistoricalData` | src/util.ts:112-151 | the ledger becomes the ingestion of every card, in order, from the prices and names fetched for their ids |
| `History.SettledIsFixed` | src/util.ts:140 | a card whose record already has today's entry and set name is not changed by ingesting it again |
| `History.IngestCardSettles` | src/util.ts:125-146 | after ingesting a card it is settled, and ingesting another card keeps a settled card settled |
| `History.IngestAllSettles` | src/util.ts:125-146 | after a run, every ingested card is settled |
| `History.IngestAllFixed` | src/util.ts:125-146 | a run over settled cards leaves the ledger unchanged |
| `History.IngestIdempotent` | src/util.ts:112-151 | a second run on the same day with the same data changes nothing |
| `History.IngestedRecordEvolves` | src/util.ts:130-145 | the record of an ingested card with data exists afterwards, and either evolved from the old one or was created with the fetched name |
| `History.IngestCardOthers` | src/util.ts:125-146 | ingesting a card touches its own record and no other, and adds a key only when it has data |
| `History.IngestCardEvolves` | src/util.ts:125-146 | one more ingested card keeps the run's evolution relation between the old and the new ledger |
| `History.IngestAllEvolves` | src/util.ts:125-146 | every record after a run is an evolution of its old record, or a newly created record of an ingested id |
| `History.IngestFrame` | src/util.ts:125-146 | after a run no record is lost; new records belong to ingested ids with data; records of other ids are untouched; names and ids never change and a non-empty set name is kept; each history only grows, by at most one entry, which is today's price |
| `History.IngestRecordsToday` | src/util.ts:125-146 | after a run, every card with fetched data has a record with an entry for today |
| `History.IngestKeepsOneEntryPerDay` | src/util.ts:140-145 | if no record had two entries for one day before a run, none has afterwards |
| `Changes.LookBackFindsMostDistant` | src/util.ts:177-186 | the scan finds nothing exactly when no day of the window is recorded; otherwise it finds the most distant recorded day of the window |
| `Changes.GetChange` | src/util.ts:166-194 | the reference is "Not Found" with price and change 0 exactly when none of the last `numDays` days is recorded; otherwise it is the most distant recorded day of the window, its price, and the difference to the current price |
| `Changes.AboveMinPrice` | src/util.ts:241-243 | the price filter keeps every change whose price today is non-zero and above `minPrice`, as often as it is given, and no other |
| `Changes.AboveMinPriceAppend` | src/util.ts:241-243 | the filter keeps the input order: filtering a concatenation concatenates the filtered parts |
| `Changes.AboveMinPriceMember` | src/util.ts:242 | a change that passes the filter is one of the given changes, above the floor |
| `Changes.Reports` | src/util.ts:273-280 | the final map adds the derived fields to each change, one report per change in the same order |
| `Changes.ReportFields` | src/util.ts:273-280 | each derived field is its rounded ratio times 100 (or the profit) when both operands are non-zero, and 0 otherwise |
| `Changes.ReportsCover` | src/util.ts:273-280 | every change has a report |
| `Changes.ArrangeFilterOrderLimit` | src/util.ts:241-256 | without a limit, the arranged changes are the changes above a positive `minPrice` (all when there is no floor), each as often as given, in descending key order; a non-zero `limit` keeps the first `limit` of those (all but the last `-limit` when negative), and they rank at least as high as every change dropped |
| `Changes.ArrangeFloor` | src/util.ts:241-253 | without a limit, arranging keeps exactly the changes above a positive floor, with their multiplicities |
| `Changes.ArrangeMembers` | src/util.ts:241-256 | the arranged changes are given changes above a positive floor, and no more than were given |
| `Changes.ArrangeKeepsAll` | src/util.ts:241-256 | with no floor and no limit, arranging is a permutation of the changes |
| `Changes.CollectReported` | src/util.ts:204-240 | the loop collects no more changes than there are ids, and each is built from the record of a requested id: today's price, yesterday's price and the 7-day and 31-day references |
| `Changes.CollectComplete` | src/util.ts:204-240 | every id that has a record and an entry for today is collected |
| `Changes.ChangeFor` | src/util.ts:205-239 | one iteration yields the change of the id, or nothing where the loop continues |
| `Changes.DisplayReportsTodayOnly` | src/util.ts:196-281 | `displayChanges` returns no more reports than requested ids, each about a requested card with an entry for today |
| `Changes.DisplayFilterOrderLimit` | src/util.ts:241-256 | the reports are above a positive floor, in descending order of the sort key, and a non-zero limit keeps the first `limit` reports of the unlimited output (all but the last `-limit` when negative) |
| `Changes.ReportsLimited` | src/util.ts:273-280 | the reports of the first changes are the first reports |
| `Changes.DisplayComplete` | src/util.ts:196-281 | without a limit, every requested id that has a record and an entry for today priced above a positive floor is reported |
| `Changes.DisplayReportIsDisplayable` | src/util.ts:196-281 | the result satisfies every property above at once: bounded, each report about a requested card with an entry for today, floor, order, completeness without a limit, and the limit as a prefix of the unlimited output |
| `Changes.DisplayChanges` | src/util.ts:196-281 | the method returns the specified report, and that report has every property of `Displayable`: bounded, floor, order, completeness without a limit, and the limit as a prefix |
| `Totals.Average` | src/util.ts:388 | the mean is the total over the count rounded to the nearest cent, halves up, and exists exactly when the count is non-zero (a zero count is NaN) |
| `Totals.SumOnAppend` | src/util.ts:372-382 | today's total over two id lists is the sum of their totals |
| `Totals.SumOnMissing` | src/util.ts:373-377 | ids without a record add nothing to the total |
| `Totals.IndexOver` | src/util.ts:372-388 | the index total is today's total over the ids, and its average exists exactly when there are ids |
| `Totals.IndexCountsMissing` | src/util.ts:372-388 | ids without a record are skipped by the total but counted by the average |
| `Totals.LedgerFile.GetIndex` | src/util.ts:364-389 | the method's index is today's total over the ids used, with a mean exactly when there are ids |
| `Totals.Watched` | src/util.ts:290-291 | the watched sets are exactly the catalogue sets released after the watch start: each named is one, every one is named, at most one name per catalogue entry |
| `Totals.WatchedAppend` | src/util.ts:291 | the filter keeps catalogue order: the watched sets of a concatenation are those of each part, in order |
| `Totals.RefsOf` | src/util.ts:299-300 | one card per id, at the same position, all of the current set |
| `Totals.RefsAppend` | src/util.ts:299-302 | the cards of two id lists are the cards of each, in order |
| `Totals.CardList.Push` | src/util.ts:302 | `push` appends one card and changes nothing else |
| `Totals.AliasedCardLists` | src/util.ts:299-302 | as written, `allCards` is the ultra rare array, so after the pushes the ultra rares hold the secret rares too |
| `Totals.SeparateCardLists` | src/util.ts:299-302 | with `allCards` a new array, the ultra rares, the secret rares and all cards are three separate lists |
| `Totals.ChangesOf` | src/util.ts:309 | the changes behind the reports, one per report |
| `Totals.ChangeSumAppend` | src/util.ts:331-333 | `_.sumBy` over two change lists is the sum of their sums |
| `Totals.ChangeSumRemove` | src/util.ts:331-333 | removing one change from a sum removes its move |
| `Totals.ChangeSumPermutation` | src/util.ts:331-333 | a sum of moves does not depend on the order of the changes |
| `Totals.ReportSumsOrderFree` | src/util.ts:309-333 | the sums over the sorted report equal the sums over the changes as collected |
| `Totals.ChangeTotals` | src/util.ts:309-333 | the three sums are taken over the changes reported for the set's cards |
| `Totals.MakeTotal` | src/util.ts:311-334 | the pushed total carries the set and its date; each group its count, index total and average; all cards the sum of both indexes and its mean over the count; the monthly increase is that sum over the months since release, rounded, and 0 without a date; and the three change sums |
| `Totals.TotalOf` | src/util.ts:304-334 | a total over given ultra, secret and all-card ids: each group counts its ids, totals today's prices over them and averages that total over its count; all cards total both groups; the monthly increase spreads that total over the set's age; the change sums are over the changes collected for all the ids |
| `Totals.TotalOfParts` | src/util.ts:304-334 | a total built from values equal to the indexes, date and sums is the specified total |
| `Totals.LedgerFile.AssembleTotal` | src/util.ts:304-334 | the pushed total is built from the set's date, two indexes over the ledger file, the card counts and the change sums |
| `Totals.AliasingDoubleCounts` | src/util.ts:299-302 | with any secret rares, the as-written total counts them among the ultra rares and counts them, and their prices, twice in all cards |
| `Totals.AliasedTotalFields` | src/util.ts:299-334 | every field of the as-written set total: ultra rares are the ultra and secret rares; all cards count the secret rares twice; each average is its group total over its count; the monthly increase spreads the all-cards total over the set's age; the change sums are over all the cards |
| `Totals.SetTotalGroups` | src/util.ts:299-334 | every field of the intended set total: each group counts and sums its own cards and averages that sum over its count; all cards is their union; the monthly increase spreads the all-cards total over the set's age; the change sums are over all the cards |
| `Totals.TotalsRun` | src/util.ts:295-344 | as intended, the loop pushes one total per watched set |
| `Totals.TotalsRunNames` | src/util.ts:295-344 | as intended, the pushed totals are those of the watched sets, in order |
| `Totals.NamesKept` | src/util.ts:348-361 | reordering totals keeps the set names they hold |
| `Totals.LedgerFile.SaveHistoricalDataAsWritten` | src/util.ts:112-151 | called without a ledger, the ingestion returns the updated ledger but leaves the file as it was |
| `Totals.UnsavedIngestionIsLost` | src/util.ts:117-119 | whenever a card with fetched data has no record in the file, the ingestion returns a ledger with a record for it, which differs from the unchanged file |
| `Totals.LedgerFile.SaveHistoricalData` | src/util.ts:112-151 | as intended, the updated ledger is both returned and written to the file |
| `Totals.TotalForSetAsWritten` | src/util.ts:296-334 | as written, one set's total is the aliased total over the unchanged file, and the ledger returned is the file plus this set's ingestion |
| `Totals.TotalForSet` | src/util.ts:296-334 | as intended, the file becomes the ingestion of the set's cards, and the total is the intended total over that updated file |
| `Totals.GetTotals` | src/util.ts:283-362 | as intended (separate card lists, and a save that writes the file), `getTotals` returns the totals of the watched sets in descending order of the sort key, and leaves in the file the ledger after every set's ingestion |
| `Totals.IngestSetKeys` | src/util.ts:125-146 | ingesting a set keeps every record and adds records only for the set's cards |
| `Totals.GetTotalsAsWritten` | src/util.ts:283-362 | as written, `getTotals` returns the aliased totals over the file as it was, in descending order of the sort key, and writes the file with only the last watched set's ingestion (the file itself when no set is watched) |
| `Totals.AsWrittenFileKeys` | src/util.ts:303-346 | as written, the file written at the end holds only records of the file as it was and of the last watched set's cards |
| `Totals.TotalsRunKeysGrow` | src/util.ts:295-344 | as intended, the records present after the first sets survive the rest of the run |
| `Totals.RunRecordsSet` | src/util.ts:295-303 | as intended, after a set's ingestion every card of it with fetched data has a record |
| `Totals.AsWrittenLosesEarlierSets` | src/util.ts:303-346 | as written, a card of an earlier watched set with fetched data, absent from the file and not a card of the last set, has no record in the file written at the end, while the intended run keeps one |
| `Totals.TotalsRanked` | src/util.ts:283-362 | as intended, the result has one total per watched set, is a permutation of the pushed totals in descending key order, and every total belongs to a set released after the watch start |
| `Appreciation.MonthsFromToday` | src/util.ts:40 | `getMonthsFromToday` is the distance to now in 30-day months, rounded to the nearest month, never negative |
| `Appreciation.MonthsWindow` | src/util.ts:93-96 | a set passes the month window exactly when its distance from now lies within the window widened by half a month at each end |
| `Appreciation.IncreasePerMonth` | src/util.ts:66 | the price per month times the months gives back the price |
| `Appreciation.TypedPriceFor` | src/util.ts:56 | the first price of the id and finish; `None` exactly when there is none |
| `Appreciation.MarketAtListed` | src/util.ts:54-69 | a search result yields a listing that carries its product, price, set age and price per month, and every qualifying result yields one |
| `Appreciation.GatherFrom` | src/util.ts:53-70 | every gathered listing comes from one of the search positions scanned, at most one per position |
| `Appreciation.GatherHas` | src/util.ts:53-70 | every listing a scanned position yields is gathered |
| `Appreciation.GatherListed` | src/util.ts:53-70 | every gathered listing is a listing of the set |
| `Appreciation.GatherCovers` | src/util.ts:53-70 | every qualifying result among those scanned has a gathered listing |
| `Appreciation.AggregateListsQualifying` | src/util.ts:42-80 | `aggregatePrices` lists only listings of the set, at most one per search result; it lists every result that has a catalogued set, a product and a price of the finish the floor admits; the listings are in ascending price order |
| `Appreciation.AggregatePrices` | src/util.ts:42-80 | the method returns the specified listings, in ascending price order |
| `Appreciation.CandidatesInWindow` | src/util.ts:91-101 | every candidate comes from a catalogued set inside the month window and is one of that set's listings |
| `Appreciation.BestRanked` | src/util.ts:91-105 | the ranking has one listing per product, in descending price per month, each the first candidate listing of its product; a non-zero `limit` keeps the first `limit` listings of the unlimited ranking (all but the last `-limit` when negative), which rank at least as high as every listing dropped |
| `Appreciation.BestComplete` | src/util.ts:91-102 | without a limit, every candidate product is ranked |
| `Appreciation.BestFromWindow` | src/util.ts:91-105 | every ranked listing comes from a set inside the month window |
| `Appreciation.GetBestCardAppreciation` | src/util.ts:82-110 | the method returns the specified ranking, which has one listing per product in descending order, and a non-zero limit keeps its first listings |
| `Api.SearchKey` | src/api.ts:16 | the search cache key is the set name, `-`, and the rarity's name |
| `Api.SearchKeyDistinguishesRarity` | src/api.ts:16 | two rarities of one set have the same key exactly when they are the same rarity |
| `Api.Truthy` | src/api.ts:51 | the found ids are exactly the keys whose cached value is defined |
| `Api.Found` | src/api.ts:51 | `foundIds` holds exactly the cached ids with a defined value |
| `Api.CachedValues` | src/api.ts:52 | the cached values of the found ids, in the same order |
| `Api.Reject` | src/api.ts:53 | the remaining ids are exactly the requested ids the cache cannot answer |
| `Api.RejectAppend` | src/api.ts:53 | the remaining ids keep request order and multiplicity: rejecting from a concatenation concatenates what is rejected from each part |
| `Api.RejectCons` | src/api.ts:53 | a first id is kept exactly when the cache cannot answer it, ahead of the rest |
| `Api.RejectNothing` | src/api.ts:53 | with nothing found, every requested id remains |
| `Api.OfType` | src/api.ts:105 | the finish filter keeps exactly the prices of the finish |
| `Api.Batch` | src/api.ts:86-87 | one batch holds at most one hundred ids |
| `Api.Batches` | src/api.ts:79-89 | under one hundred ids form one batch; otherwise there are `n / 100 + 1` batches of at most one hundred ids |
| `Api.BatchBounds` | src/api.ts:87 | batch `i` is the slice `[(i - 1) * 100, i * 100)` of the ids |
| `Api.BatchesPrefix` | src/api.ts:86-89 | the first `k` batches laid end to end are the first `100 k` ids |
| `Api.BatchesConcat` | src/api.ts:86-89 | the batches, laid end to end, are the ids in order |
| `Api.BatchMembers` | src/api.ts:86-89 | every id sent in a batch is a requested id |
| `Api.RequestsFor` | src/api.ts:56-72 | one request per non-empty batch, carrying that batch |
| `Api.SmallLookup` | src/api.ts:79-84 | fewer than one hundred ids cost one request with all of them, and no ids cost none |
| `Api.FetchedPricesOfType` | src/api.ts:125 | every fetched price is of the finish asked for |
| `Api.ProductsCachedFirst` | src/api.ts:46-93 | the product lookup returns every defined cached product first, and never sends an id the cache answers |
| `Api.PricesOfType` | src/api.ts:95-148 | every price the lookup returns, cached or fetched, is of the finish asked for |
| `Api.StoredProducts` | src/api.ts:74-77 | `saveProducts` stores each remaining id with its product in the result, or undefined, and keeps every other entry |
| `Api.StoredPrices` | src/api.ts:128-129 | `savePrices` stores each remaining id with its price in the result, or undefined, and keeps every other entry of the day |
| `Api.PricesSaved` | src/api.ts:128-133 | after `savePrices` only today's prices are left, updated for the remaining ids |
| `Api.Client.SearchQuery` | src/api.ts:10-44 | a cached search is answered without a request; otherwise the service is asked once and its answer cached under the key |
| `Api.Client.Send` | src/api.ts:56-72 | `getProducts` or `getPrices` sends one request unless there are no ids |
| `Api.Client.SendBatch` | src/api.ts:87-88 | one iteration sends one batch and appends what it brings back |
| `Api.Client.SendBatches` | src/api.ts:86-89 | the batch loop sends every non-empty batch, in order, and collects their results |
| `Api.Client.SendAll` | src/api.ts:79-89 | the lookup sends the batches of the remaining ids, in order, and appends their results to the cached ones |
| `Api.Client.SaveProducts` | src/api.ts:74-77 | the product cache becomes what `saveProducts` stores, and nothing else changes |
| `Api.Client.GetProductInfo` | src/api.ts:46-93 | `getProductInfo` returns the cached products and then the fetched ones, stores the remaining ids, and sends one request per non-empty batch of the remaining ids |
| `Api.Client.SavePrices` | src/api.ts:128-133 | the price cache becomes today's updated prices alone |
| `Api.Client.DropOtherDays` | src/api.ts:130-131 | every day other than today is deleted from the price cache |
| `Api.Client.GetPriceInfo` | src/api.ts:95-148 | `getPriceInfo` returns today's cached prices of the finish and then the fetched ones, keeps only today in the cache, and sends one request per non-empty batch of the ids not found today |
| `Migration.WithoutDate` | src/migration.ts:21 | `_.reject` keeps only entries of other dates, in order |
| `Migration.WithoutDateAppend` | src/migration.ts:21 | rejecting a date distributes over concatenation |
| `Migration.WithoutDateSingle` | src/migration.ts:21 | one entry is dropped exactly when it is of the date |
| `Migration.WithoutDateCommutes` | src/migration.ts:21 | rejecting two dates gives the same result in either order |
| `Migration.WithoutDateTwice` | src/migration.ts:21 | rejecting a date twice is rejecting it once |
| `Migration.Migrated` | src/migration.ts:8-24 | the merge keeps exactly the keys of the new ledger |
| `Migration.MigrateKeepsIdentity` | src/migration.ts:10-24 | a record is never renamed or re-keyed, and one without an old holofoil counterpart is unchanged |
| `Migration.FirstDayAppended` | src/migration.ts:13-18 | when the old record has no 2021-05-11 entry, the merged history is the record's history followed by the old 2021-05-10 entry, marked holofoil, whether or not the record has one already |
| `Migration.FirstDayKept` | src/migration.ts:13-23 | whenever the old record has a 2021-05-10 entry, with or without a 2021-05-11 one, the merged history without its 2021-05-11 entries is the record's history without them followed by that old entry, marked holofoil |
| `Migration.SecondDayUnique` | src/migration.ts:14-23 | with an old 2021-05-11 entry, the record ends with it, marked holofoil, as its only entry of that day |
| `Migration.OtherDaysAppend` | src/migration.ts:15-23 | appending an entry of a merged day leaves the other days alone |
| `Migration.OtherDaysWithoutSecond` | src/migration.ts:21 | rejecting 2021-05-11 leaves the other days alone |
| `Migration.OtherDaysKept` | src/migration.ts:13-23 | the entries of every other day keep their order and multiplicity |
| `Migration.MergeRecord` | src/migration.ts:13-23 | the loop body for a record with a counterpart is the specified merge |
| `Migration.MergedStep` | src/migration.ts:8-24 | each iteration merges one more record, or skips one without a counterpart |
| `Migration.MergedAll` | src/migration.ts:8-24 | once every key has been visited, the ledger is the merged ledger |
| `Migration.NewHistory.Migrate` | src/migration.ts:6-24 | the script's loop over the new ledger's keys leaves exactly the merged ledger |
| `Draft.Store` | util.js:23-25 | storing a fetched listing creates the missing levels, makes the key answer it, and changes no other key |
| `Draft.QuotesDefined` | util.js:33-37 | the listing succeeds exactly when every search position has a product and a price of the finish |
| `Draft.QuotesAt` | util.js:33-37 | a successful listing holds one listing per position, the listing of that position |
| `Draft.QuotesPaired` | util.js:33-37 | the listing succeeds exactly when every search position has a product and a price of the finish; then listing `i` carries the product at position `i` and its first price of the finish |
| `Draft.QuotesFail` | util.js:33-37 | one position that throws makes the whole listing throw |
| `Draft.ListQuotes` | util.js:32-37 | the loop returns the specified listing, or the throw |
| `Draft.AggregateMemoises` | util.js:18-31 | a cached key is answered without fetching and leaves the cache as it was; a miss stores the fetched entry, which the next call with that key then uses whatever the service would answer |
| `Draft.DraftUtil.AggregatePrices` | util.js:11-50 | `aggregatePrices` leaves the specified cache and returns the specified listing |
| `Draft.Annotate` | util.js:94-96 | an annotated listing keeps product and price, takes the set's age, and its price per month times the age gives the price |
| `Draft.AnnotateAll` | util.js:92-96 | every listing of the set is annotated, in order |
| `Draft.Priced` | util.js:97 | the pushed listings are exactly those with a non-zero price |
| `Draft.PricedAppend` | util.js:97 | the pushed listings keep their order and multiplicity: those of a concatenation are those of each part, in order |
| `Draft.Repeat` | util.js:92-98 | the nested pushes hold exactly the priced listings, `n` copies one after the other: length `n` times theirs, and position `i` holds listing `i mod` their count |
| `Draft.PushPriced` | util.js:97 | the `_.each` pushes the priced listings, in order |
| `Draft.PushListings` | util.js:92-98 | the loop for one set pushes the annotated priced listings once per listing of the set |
| `Draft.PushedFromSet` | util.js:92-98 | every pushed listing has a non-zero price, the set's name and age, and the price per month of that age |
| `Draft.DraftUtil.CollectOne` | util.js:86-98 | one iteration skips a set outside the window, throws when its listing throws, and otherwise appends its pushes |
| `Draft.DraftUtil.CollectSetData` | util.js:83-99 | the loop leaves the specified cache and collected listings |
| `Draft.CollectStops` | util.js:84-99 | once a listing has thrown, the later sets change nothing |
| `Draft.CollectFromWindow` | util.js:84-99 | every collected listing comes from a set inside the month window |
| `Draft.StrictWindow` | util.js:101 | the filter keeps exactly the listings strictly inside the window |
| `Draft.StrictWindowSorted` | util.js:101 | the filter keeps a descending order |
| `Draft.StrictWindowDistinct` | util.js:101 | the filter keeps the products distinct |
| `Draft.RankOrdered` | util.js:100-101 | the ranking has one listing per product, in descending price per month |
| `Draft.RankKeepsBest` | util.js:100-101 | each ranked listing was collected, lies strictly inside the window, and is the best listing of its product |
| `Draft.RankComplete` | util.js:100-101 | every collected product's best listing is ranked exactly when its set lies strictly inside the window |
| `Draft.RankBest` | util.js:100-101 | no collected listing of a ranked product has a higher price per month than the ranked one |
| `Draft.BestCardAppreciationRanked` | util.js:72-107 | the ranking has one listing per product, in descending order, each from a set strictly inside the window and the best of its product |
| `Draft.SpliceTop` | util.js:104 | `splice(0, 100)` leaves the listings from position 100 on, in order, and nothing when there are at most one hundred |
| `Draft.VerboseDropsTop` | util.js:102-106 | in verbose mode the caller gets the ranking without its first one hundred listings, losing the top product; otherwise both versions agree |
| `Draft.DraftUtil.GetBestCardAppreciationAsWritten` | util.js:72-107 | the method leaves the specified cache and returns the as-written result, which is cut in verbose mode |
| `Draft.DraftUtil.GetBestCardAppreciation` | util.js:72-107 | the method leaves the specified cache and returns the whole ranking in both modes |
| `Draft.ProductIds` | util.js:111 | one product id per card, at the same position |
| `Draft.SaveOne` | util.js:117-130 | one iteration skips an unpriced card, creates a missing record, and appends today's price |
| `Draft.DraftHistory.SaveHistoricalData` | util.js:109-133 | the ledger becomes the save of every card, in order, with the fetched prices of the finish |
| `Draft.SaveCardAt` | util.js:117-130 | saving a card changes only its product-and-finish key, and only when it has a price |
| `Draft.SaveAllOthers` | util.js:115-131 | records of another finish, or of products without a price, are neither changed nor created |
| `Draft.SaveAllAppends` | util.js:115-131 | a touched record gets one entry of today's price per card of its product, with no check for an entry of the same day, and exists exactly when it existed before or a card is of its product |
| `Draft.SaveAllCreatesOnce` | util.js:120-126 | a record is created once, by the first card of its product, and keeps its name, set and product id |
| `Draft.OccurrencesPositive` | util.js:115-131 | a card in the list counts towards its product |
| `Draft.SaveTwiceSameDay` | util.js:109-133 | saving twice on one day leaves two entries of that day at the end of every priced record |

## Left out

- Network, file and console I/O are left out. This covers the `fetch` calls, the `timer` delays, the `jsonfile` reads and writes, and every `console.log` and `verbose` printout. The services are function parameters, and each file is a field or a map held in memory.
- The clock and the time zone are left out. `today` and `now` are parameters, and `startOfDay` and `toISOString` are taken to name the same day.
- Floating-point arithmetic is left out. Prices are whole cents and ratios are exact reals, so `parseFloat`, `NaN` arising from malformed prices and binary rounding errors are not modelled.
- Appreciation.IncreasePerMonth: a set released less than half a month ago has `monthsFromToday == 0`. The program then divides by zero and gets `Infinity`, or `NaN` for a zero price. Both sort after every number in `_.orderBy`, so the program ranks such a listing first in the descending ranking of `getBestCardAppreciation`. The model gives 0 and ranks it among the zero rates instead.
- Totals.MakeTotal: for a set released less than half a month ago, `averageMonthlyIncrease` is `Infinity` or `NaN` in the program. Under the `monthly-average-change` sort such a total then ranks first. The model takes it as 0 and ranks it among the zero keys.
- Totals.AverageKey: a `NaN` average (a group with no cards, such as a set without secret rares under the `secret-rare-average` sort) is taken as 0 when used as a sort key. lodash's `_.orderBy` places a `NaN` key after every number, so after `_.reverse` the program ranks such a total first; only the order among several `NaN` totals is left to the engine. The model ranks it among the zero keys instead.
- The average that `aggregatePrices` of util.js computes (util.js:41, mean or median) is left out. It is used only in verbose output.
- `getAverageCardPriceForSets` (util.js:52-70) is left out. It only prints.
- `search.totalItems` is carried in `Draft.Search` but is printed only.
- `setLink` (`UrlSafeString`) of a set total is left out. It is a slug of the set name produced by an external library.
- `JSON.stringify` dropping `undefined` cache values is left out. A cached `undefined` is `None`, and only its truthiness is ever read.
- The mutation of the old ledger's entries (`firstDay.cardType = 'Holofoil'`) is left out. The old ledger is never written back. Only the copies pushed into the new ledger carry the holofoil mark.
- In util.js, the pushes of `getBestCardAppreciation` share references. Annotating a listing later changes what was pushed earlier, and the model represents this by annotating every listing before the pushes. Object identity itself is not modelled.
- The query strings built with `_.reduce` (the ids joined by commas) are not modelled. A request is modelled by the ids it carries.
- `src/enums.ts` is not part of this model beyond the record types it declares.
- The command-line entry points `src/main.ts`, `src/update.ts` and `main.js`, and the token request code in `test.js`, are not part of this model.

## Findings

| source | as written | input that shows it | evidently intended | confidence | as-written member | corrected member |
|---|---|---|---|---|---|---|
| src/util.ts:299-302 | `const allCards = ultraRareCards` aliases the array, so pushing the secret rares into `allCards` also adds them to the ultra rares | any set whose secret rare search returns at least one id: the ultra rare count and total include the secret rares, and all cards count them twice | `allCards` a new array holding the ultra rares and then the secret rares | not executed | `Totals.AliasingDoubleCounts`, `Totals.TotalForSetAsWritten` | `Totals.SetTotalGroups`, `Totals.TotalForSet` |
| src/util.ts:117-119,147-149 | without a `history` argument, `oldHistory` is the very object being updated, so `history !== oldHistory` never holds and the ingestion is never written; `getTotals` (line 303) then computes indexes from the unchanged file, and its single write at line 346 stores only the ledger of the last set, so every earlier set's ingestion is lost | an empty ledger file and one priced card (`Totals.UnsavedIngestionIsLost`): the returned ledger has a record and the file stays empty; an empty file and two watched sets A then B, with card 1 priced in A and card 2 in B (`Totals.AsWrittenLosesEarlierSets`): the file written at the end has no record of card 1, which the intended run keeps | the updated ledger written to the file whenever none was passed in, so that each set sees the ledger updated so far and the file ends with every set's ingestion | not executed | `Totals.UnsavedIngestionIsLost`, `Totals.LedgerFile.SaveHistoricalDataAsWritten`, `Totals.GetTotalsAsWritten`, `Totals.AsWrittenLosesEarlierSets` | `Totals.LedgerFile.SaveHistoricalData`, `Totals.GetTotals` |
| util.js:102-105 | in verbose mode `setData.splice(0, 100)` removes the printed listings from the array that is returned | any ranking with at least one listing and `verbose` true: the caller never gets the top-ranked product, and a ranking of at most 100 listings comes back empty | print the top one hundred and return the whole ranking | not executed | `Draft.VerboseDropsTop`, `Draft.DraftUtil.GetBestCardAppreciationAsWritten` | `Draft.DraftUtil.GetBestCardAppreciation`, `Draft.BestCardAppreciationRanked` |
