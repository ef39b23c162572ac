/** The older draft of the statistics code (util.js): a set listing memoised
    in a three-level cache, the appreciation ranking built on it, and a
    price ledger keyed by product and finish. The fetches are those of the
    older api.js. */
module Draft {
  import opened Types
  import opened Lodash
  import opened Appreciation
  import opened History
  import Api

  /** The response of api.js's `searchQuery`: the result ids and the number
      of matches the service reports. */
  datatype Search = Search(results: seq<int>, totalItems: int)

  /** The three fetches of api.js. Its `getPriceInfo` returns the prices of
      every finish. */
  datatype DraftSource = DraftSource(
    searchQuery: (Rarity, string) -> Search,
    getProductInfo: seq<int> -> seq<ProductInfo>,
    getPriceInfo: seq<int> -> seq<PriceInfo>)

  /** `{ search, productInfo, priceInfo }`, one cached listing. */
  datatype CacheEntry = CacheEntry(search: Search, productInfo: seq<ProductInfo>, priceInfo: seq<PriceInfo>)

  /** The `cache` object: set name, then rarity, then finish. */
  type PriceCache = map<string, map<Rarity, map<CardType, CacheEntry>>>

  /** A listing as `aggregatePrices` builds it. */
  datatype Quote = Quote(marketPrice: int, name: string, setName: string, productId: int)

  /** `cache[set][rarity][cardType]`, `None` when any level is missing. */
  function Cached(cache: PriceCache, setName: string, rarity: Rarity, cardType: CardType): Option<CacheEntry>
  {
    if setName in cache && rarity in cache[setName] && cardType in cache[setName][rarity]
    then Some(cache[setName][rarity][cardType])
    else None
  }

  /** The store of a miss: missing levels are created and nothing else in
      the cache changes. */
  function Store(cache: PriceCache, setName: string, rarity: Rarity, cardType: CardType, e: CacheEntry): (r: PriceCache)
    ensures r.Keys == cache.Keys + {setName}
    ensures Cached(r, setName, rarity, cardType) == Some(e)
    ensures forall s, ra, ct | !(s == setName && ra == rarity && ct == cardType) ::
      Cached(r, s, ra, ct) == Cached(cache, s, ra, ct)
  {
    var bySet := if setName in cache then cache[setName] else map[];
    var byRarity := if rarity in bySet then bySet[rarity] else map[];
    cache[setName := bySet[rarity := byRarity[cardType := e]]]
  }

  /** The three fetches of a miss. */
  function Fetch(src: DraftSource, setName: string, rarity: Rarity): CacheEntry
  {
    var search := src.searchQuery(rarity, setName);
    CacheEntry(search, src.getProductInfo(search.results), src.getPriceInfo(search.results))
  }

  /** The listing for `search.results[i]`, paired by position with
      `productInfo[i]`; `None` where the script throws a `TypeError`: no
      product at that position, or no price of the finish for its product. */
  function QuoteAt(e: CacheEntry, setName: string, cardType: CardType, i: int): Option<Quote>
    requires 0 <= i
  {
    if i >= |e.productInfo| then None
    else
      var product := e.productInfo[i];
      var price := TypedPriceFor(e.priceInfo, product.productId, cardType);
      if price.None? then None
      else Some(Quote(price.value.marketPrice, product.name, setName, product.productId))
  }

  /** The listings of the first `n` search results, or `None` once one of
      them throws. */
  function Quotes(e: CacheEntry, setName: string, cardType: CardType, n: int): Option<seq<Quote>>
    requires 0 <= n
  {
    if n == 0 then Some([])
    else
      var prior := Quotes(e, setName, cardType, n - 1);
      var q := QuoteAt(e, setName, cardType, n - 1);
      if prior.Some? && q.Some? then Some(prior.value + [q.value]) else None
  }

  /** The listings of a cached or fetched entry: one per search result, in
      search order (`_.orderBy(marketPrices, (p) => p)` compares listings as
      equal objects and keeps that order). */
  function Listings(e: CacheEntry, setName: string, cardType: CardType): Option<seq<Quote>>
  {
    Quotes(e, setName, cardType, |e.search.results|)
  }

  /** The listings succeed exactly when every search position has a product
      and a price of the finish for it. */
  lemma {:induction false} QuotesDefined(e: CacheEntry, setName: string, cardType: CardType, n: int)
    requires 0 <= n
    ensures Quotes(e, setName, cardType, n).Some? <==> forall i | 0 <= i < n :: QuoteAt(e, setName, cardType, i).Some?
  {
    if n > 0 {
      QuotesDefined(e, setName, cardType, n - 1);
      var prior := Quotes(e, setName, cardType, n - 1);
      var q := QuoteAt(e, setName, cardType, n - 1);
      assert Quotes(e, setName, cardType, n).Some? <==> prior.Some? && q.Some?;
      if prior.None? {
        var i :| 0 <= i < n - 1 && QuoteAt(e, setName, cardType, i).None?;
        assert 0 <= i < n;
      } else if q.Some? {
        forall i | 0 <= i < n ensures QuoteAt(e, setName, cardType, i).Some? {
          if i < n - 1 {
            assert QuoteAt(e, setName, cardType, i).Some?;
          }
        }
      }
    }
  }

  /** A successful listing holds, at each position, the listing of that
      position. */
  lemma {:induction false} QuotesAt(e: CacheEntry, setName: string, cardType: CardType, n: int)
    requires 0 <= n && Quotes(e, setName, cardType, n).Some?
    ensures var r := Quotes(e, setName, cardType, n).value;
      && |r| == n
      && forall i | 0 <= i < n :: QuoteAt(e, setName, cardType, i) == Some(r[i])
  {
    if n > 0 {
      var prior := Quotes(e, setName, cardType, n - 1);
      QuotesAt(e, setName, cardType, n - 1);
      var r := Quotes(e, setName, cardType, n).value;
      assert r == prior.value + [QuoteAt(e, setName, cardType, n - 1).value];
      forall i | 0 <= i < n - 1 ensures r[i] == prior.value[i] { }
    }
  }

  /** The listings succeed exactly when every search position has a product
      and a price of the finish for it; then there is one listing per
      search result, carrying the product at the same position and the
      first price of the finish for it. */
  lemma QuotesPaired(e: CacheEntry, setName: string, cardType: CardType, n: int)
    requires 0 <= n
    ensures Quotes(e, setName, cardType, n).Some? <==> forall i | 0 <= i < n :: QuoteAt(e, setName, cardType, i).Some?
    ensures Quotes(e, setName, cardType, n).Some? ==>
      var r := Quotes(e, setName, cardType, n).value;
      && n <= |e.productInfo|
      && |r| == n
      && forall i | 0 <= i < n ::
           && r[i].productId == e.productInfo[i].productId
           && r[i].name == e.productInfo[i].name
           && r[i].setName == setName
           && TypedPriceFor(e.priceInfo, r[i].productId, cardType).Some?
           && r[i].marketPrice == TypedPriceFor(e.priceInfo, r[i].productId, cardType).value.marketPrice
  {
    QuotesDefined(e, setName, cardType, n);
    if Quotes(e, setName, cardType, n).Some? {
      QuotesAt(e, setName, cardType, n);
      if n > 0 {
        assert QuoteAt(e, setName, cardType, n - 1).Some?;
      }
    }
  }

  /** What `aggregatePrices` leaves in the cache and returns. */
  datatype Aggregated = Aggregated(cache: PriceCache, marketPrices: Option<seq<Quote>>)

  /** `aggregatePrices(accessToken, cache, set, rarity, cardType)`. */
  function Aggregate(cache: PriceCache, src: DraftSource, setName: string, rarity: Rarity, cardType: CardType): (r: Aggregated)
  {
    var hit := Cached(cache, setName, rarity, cardType);
    if hit.Some? then Aggregated(cache, Listings(hit.value, setName, cardType))
    else
      var e := Fetch(src, setName, rarity);
      Aggregated(Store(cache, setName, rarity, cardType, e), Listings(e, setName, cardType))
  }

  /** A hit fetches nothing: neither the cache it leaves nor the listings it
      returns depend on the fetches. A miss stores the fetched entry, which
      the next call with the same key then finds. */
  lemma AggregateMemoises(cache: PriceCache, src: DraftSource, other: DraftSource, setName: string, rarity: Rarity,
                          cardType: CardType)
    ensures Cached(cache, setName, rarity, cardType).Some? ==>
      && Aggregate(cache, src, setName, rarity, cardType) == Aggregate(cache, other, setName, rarity, cardType)
      && Aggregate(cache, src, setName, rarity, cardType).cache == cache
    ensures Cached(cache, setName, rarity, cardType).None? ==>
      var r := Aggregate(cache, src, setName, rarity, cardType);
      && Cached(r.cache, setName, rarity, cardType) == Some(Fetch(src, setName, rarity))
      && Aggregate(r.cache, other, setName, rarity, cardType) == Aggregated(r.cache, r.marketPrices)
  {
  }

  /** A listing with the set's age and price per month set on it. */
  function Annotate(q: Quote, months: int, setName: string): (m: MarketInfo)
    ensures m.productId == q.productId && m.marketPrice == q.marketPrice && m.monthsFromToday == months
    ensures months != 0 ==> m.increasePerMonth * months as real == q.marketPrice as real
  {
    MarketInfo(q.marketPrice, q.productId, q.name, setName, months, IncreasePerMonth(q.marketPrice, months))
  }

  function AnnotateAll(qs: seq<Quote>, months: int, setName: string): (r: seq<MarketInfo>)
    ensures |r| == |qs|
    ensures forall j | 0 <= j < |qs| :: r[j] == Annotate(qs[j], months, setName)
  {
    if qs == [] then [] else AnnotateAll(qs[..|qs| - 1], months, setName) + [Annotate(qs[|qs| - 1], months, setName)]
  }

  /** `_.each(marketPrices, (p) => p.marketPrice ? setData.push(p) : false)`:
      the listings with a non-zero price, in order. */
  function Priced(s: seq<MarketInfo>): (r: seq<MarketInfo>)
    ensures forall x :: x in r <==> x in s && x.marketPrice != 0
  {
    if s == [] then []
    else Priced(s[..|s| - 1]) + (if s[|s| - 1].marketPrice != 0 then [s[|s| - 1]] else [])
  }

  /** The pushed listings keep their order and multiplicity: the priced
      listings of a concatenation are those of each part, in order. */
  lemma {:induction false} PricedAppend(a: seq<MarketInfo>, b: seq<MarketInfo>)
    ensures Priced(a + b) == Priced(a) + Priced(b)
    decreases |b|
  {
    if b == [] {
      assert a + b == a;
    } else {
      var init, last := b[..|b| - 1], b[|b| - 1];
      var tail := if last.marketPrice != 0 then [last] else [];
      assert (a + b)[..|a + b| - 1] == a + init;
      assert (a + b)[|a + b| - 1] == last;
      PricedAppend(a, init);
      assert Priced(a + b) == Priced(a + init) + tail;
      assert Priced(b) == Priced(init) + tail;
      assert (Priced(a) + Priced(init)) + tail == Priced(a) + (Priced(init) + tail);
    }
  }

  /** `n` copies of `s`, one after the other. */
  function Repeat(s: seq<MarketInfo>, n: nat): (r: seq<MarketInfo>)
    ensures forall x :: x in r <==> n > 0 && x in s
    ensures |r| == n * |s|
    ensures forall i | 0 <= i < |r| :: r[i] == s[i % |s|]
  {
    if n == 0 then []
    else
      var r := Repeat(s, n - 1) + s;
      assert forall i | (n - 1) * |s| <= i < |r| :: i % |s| == i - (n - 1) * |s| by {
        forall i | (n - 1) * |s| <= i < |r| ensures i % |s| == i - (n - 1) * |s| {
          ModInLastBlock(i, |s|, n - 1);
        }
      }
      r
  }

  /** An index in block `q` of blocks of width `m` is its offset in it. */
  lemma ModInLastBlock(i: int, m: int, q: nat)
    requires q * m <= i < q * m + m
    ensures i % m == i - q * m
  {
    var x := i / m - q;
    assert m * x == (i - q * m) - i % m;
    if x > 0 {
      MulPositive(m, x - 1);
    } else if x < 0 {
      MulPositive(m, -x - 1);
    }
  }

  lemma MulPositive(m: int, y: int)
    requires m > 0 && y >= 0
    ensures m * y >= 0
  {
  }

  /** What one set adds to `setData`: the priced listings, once for every
      listing of the set, since the push of all of them sits inside the
      loop over them. */
  function Pushed(qs: seq<Quote>, months: int, setName: string): seq<MarketInfo>
  {
    Repeat(Priced(AnnotateAll(qs, months, setName)), |qs|)
  }

  /** The cache and the collected listings after the first `n` sets;
      `setData` is `None` once a listing throws, which ends the run. */
  datatype Collected = Collected(cache: PriceCache, setData: Option<seq<MarketInfo>>)

  /** The step of one set: nothing after a throw or outside the window;
      otherwise the listing, with its pushes appended, or a throw. */
  function CollectSet(prior: Collected, src: DraftSource, s: SetInfo, now: real, minMonths: int, maxMonths: int,
                      rarity: Rarity, cardType: CardType): Collected
  {
    if prior.setData.None? || !InWindow(s, now, minMonths, maxMonths) then prior
    else
      var a := Aggregate(prior.cache, src, s.name, rarity, cardType);
      if a.marketPrices.None? then Collected(a.cache, None)
      else Collected(a.cache, Some(prior.setData.value + Pushed(a.marketPrices.value, MonthsFromToday(s.date, now), s.name)))
  }

  function Collect(cache: PriceCache, src: DraftSource, sets: seq<SetInfo>, now: real, minMonths: int, maxMonths: int,
                   rarity: Rarity, cardType: CardType, n: int): Collected
    requires 0 <= n <= |sets|
  {
    if n == 0 then Collected(cache, Some([]))
    else CollectSet(Collect(cache, src, sets, now, minMonths, maxMonths, rarity, cardType, n - 1), src, sets[n - 1],
                    now, minMonths, maxMonths, rarity, cardType)
  }

  /** A listing of the set `s`: a non-zero price, the set's name and age,
      and the price per month of that age. */
  ghost predicate FromSet(s: SetInfo, now: real, x: MarketInfo)
  {
    && x.marketPrice != 0
    && x.setName == s.name
    && x.monthsFromToday == MonthsFromToday(s.date, now)
    && x.increasePerMonth == IncreasePerMonth(x.marketPrice, x.monthsFromToday)
  }

  /** A collected listing comes from one of the first `n` sets of the
      catalogue, one inside the month window `[minMonths, maxMonths]`. */
  ghost predicate FromWindow(sets: seq<SetInfo>, now: real, minMonths: int, maxMonths: int, n: int, x: MarketInfo)
    requires 0 <= n <= |sets|
  {
    exists k | 0 <= k < n :: InWindow(sets[k], now, minMonths, maxMonths) && FromSet(sets[k], now, x)
  }

  lemma PushedFromSet(qs: seq<Quote>, s: SetInfo, now: real)
    ensures forall x | x in Pushed(qs, MonthsFromToday(s.date, now), s.name) :: FromSet(s, now, x)
  {
    var all := AnnotateAll(qs, MonthsFromToday(s.date, now), s.name);
    forall x | x in Pushed(qs, MonthsFromToday(s.date, now), s.name) ensures FromSet(s, now, x) {
      assert x in Priced(all);
      var j :| 0 <= j < |all| && all[j] == x;
    }
  }

  lemma {:induction false} CollectFromWindow(cache: PriceCache, src: DraftSource, sets: seq<SetInfo>, now: real,
                                             minMonths: int, maxMonths: int, rarity: Rarity, cardType: CardType, n: int)
    requires 0 <= n <= |sets|
    ensures var c := Collect(cache, src, sets, now, minMonths, maxMonths, rarity, cardType, n);
      c.setData.Some? ==> forall x | x in c.setData.value :: FromWindow(sets, now, minMonths, maxMonths, n, x)
  {
    if n > 0 {
      CollectFromWindow(cache, src, sets, now, minMonths, maxMonths, rarity, cardType, n - 1);
      var prior := Collect(cache, src, sets, now, minMonths, maxMonths, rarity, cardType, n - 1);
      var c := Collect(cache, src, sets, now, minMonths, maxMonths, rarity, cardType, n);
      if c.setData.Some? {
        assert prior.setData.Some?;
        if InWindow(sets[n - 1], now, minMonths, maxMonths) {
          var a := Aggregate(prior.cache, src, sets[n - 1].name, rarity, cardType);
          PushedFromSet(a.marketPrices.value, sets[n - 1], now);
          assert c.setData.value == prior.setData.value + Pushed(a.marketPrices.value, MonthsFromToday(sets[n - 1].date, now), sets[n - 1].name);
        }
        forall x | x in c.setData.value ensures FromWindow(sets, now, minMonths, maxMonths, n, x) {
          if x in prior.setData.value {
            assert FromWindow(sets, now, minMonths, maxMonths, n - 1, x);
            var k :| 0 <= k < n - 1 && InWindow(sets[k], now, minMonths, maxMonths) && FromSet(sets[k], now, x);
          } else {
            assert InWindow(sets[n - 1], now, minMonths, maxMonths) && FromSet(sets[n - 1], now, x);
          }
        }
      }
    }
  }

  /** `_.filter(setData, (d) => d.monthsFromToday > minMonths && d.monthsFromToday < maxMonths)`. */
  function StrictWindow(s: seq<MarketInfo>, minMonths: int, maxMonths: int): (r: seq<MarketInfo>)
    ensures forall x :: x in r <==> x in s && minMonths < x.monthsFromToday < maxMonths
  {
    if s == [] then []
    else
      var last := s[|s| - 1];
      StrictWindow(s[..|s| - 1], minMonths, maxMonths) + (if minMonths < last.monthsFromToday < maxMonths then [last] else [])
  }

  /** The filter keeps a descending order. */
  lemma {:induction false} StrictWindowSorted(s: seq<MarketInfo>, minMonths: int, maxMonths: int)
    requires SortedDesc(s, IncreaseKey)
    ensures SortedDesc(StrictWindow(s, minMonths, maxMonths), IncreaseKey)
  {
    if s != [] {
      var init, last := s[..|s| - 1], s[|s| - 1];
      assert SortedDesc(init, IncreaseKey);
      StrictWindowSorted(init, minMonths, maxMonths);
      var r' := StrictWindow(init, minMonths, maxMonths);
      if minMonths < last.monthsFromToday < maxMonths {
        forall x | x in r' ensures IncreaseKey(x) >= IncreaseKey(last) {
          var k :| 0 <= k < |init| && init[k] == x;
          assert s[k] == x;
        }
        SortedAppend(r', last);
      }
    }
  }

  lemma SortedAppend(r: seq<MarketInfo>, last: MarketInfo)
    requires SortedDesc(r, IncreaseKey)
    requires forall x | x in r :: IncreaseKey(x) >= IncreaseKey(last)
    ensures SortedDesc(r + [last], IncreaseKey)
  {
    var t := r + [last];
    forall i, j | 0 <= i < j < |t| ensures IncreaseKey(t[i]) >= IncreaseKey(t[j]) {
      assert t[i] == r[i];
      if j < |r| {
        assert t[j] == r[j];
      }
    }
  }

  /** The filter keeps one listing per product. */
  lemma {:induction false} StrictWindowDistinct(s: seq<MarketInfo>, minMonths: int, maxMonths: int)
    requires DistinctKeys(s, ProductKey)
    ensures DistinctKeys(StrictWindow(s, minMonths, maxMonths), ProductKey)
  {
    if s != [] {
      var init, last := s[..|s| - 1], s[|s| - 1];
      assert DistinctKeys(init, ProductKey);
      StrictWindowDistinct(init, minMonths, maxMonths);
      var r' := StrictWindow(init, minMonths, maxMonths);
      if minMonths < last.monthsFromToday < maxMonths {
        forall x | x in r' ensures ProductKey(x) != ProductKey(last) {
          var k :| 0 <= k < |init| && init[k] == x;
          assert s[k] == x;
        }
        DistinctAppend(r', last);
      }
    }
  }

  lemma DistinctAppend(r: seq<MarketInfo>, last: MarketInfo)
    requires DistinctKeys(r, ProductKey)
    requires forall x | x in r :: ProductKey(x) != ProductKey(last)
    ensures DistinctKeys(r + [last], ProductKey)
  {
    var t := r + [last];
    forall i, j | 0 <= i < j < |t| ensures ProductKey(t[i]) != ProductKey(t[j]) {
      assert t[i] == r[i];
      if j < |r| {
        assert t[j] == r[j];
      }
    }
  }

  /** Lines 100-101: by descending price per month, the first listing of
      every product, then only the sets strictly inside the window. */
  function Rank(setData: seq<MarketInfo>, minMonths: int, maxMonths: int): seq<MarketInfo>
  {
    StrictWindow(UniqBy(OrderByDesc(setData, IncreaseKey), ProductKey), minMonths, maxMonths)
  }

  /** One listing per product, by descending price per month. */
  lemma RankOrdered(setData: seq<MarketInfo>, minMonths: int, maxMonths: int)
    ensures DistinctKeys(Rank(setData, minMonths, maxMonths), ProductKey)
    ensures SortedDesc(Rank(setData, minMonths, maxMonths), IncreaseKey)
  {
    var sorted := OrderByDesc(setData, IncreaseKey);
    var u := UniqBy(sorted, ProductKey);
    UniqFromDistinct(sorted, ProductKey, {});
    UniqFromKeepsDesc(sorted, ProductKey, {}, IncreaseKey);
    StrictWindowSorted(u, minMonths, maxMonths);
    StrictWindowDistinct(u, minMonths, maxMonths);
  }

  /** Every ranked listing is the best collected listing of its product. */
  lemma RankKeepsBest(setData: seq<MarketInfo>, minMonths: int, maxMonths: int)
    ensures forall y | y in Rank(setData, minMonths, maxMonths) ::
      && y in setData
      && minMonths < y.monthsFromToday < maxMonths
      && FirstWithKey(OrderByDesc(setData, IncreaseKey), ProductKey, y.productId) == Some(y)
  {
    var sorted := OrderByDesc(setData, IncreaseKey);
    UniqFromMembers(sorted, ProductKey, {});
    UniqFromKeepsFirst(sorted, ProductKey, {});
    forall y | y in Rank(setData, minMonths, maxMonths) ensures y in setData {
      assert y in multiset(sorted);
    }
  }

  /** Every collected product is represented by its best listing, which is
      ranked exactly when its set lies strictly inside the window. */
  lemma RankComplete(setData: seq<MarketInfo>, minMonths: int, maxMonths: int)
    ensures forall x | x in setData ::
      && FirstWithKey(OrderByDesc(setData, IncreaseKey), ProductKey, x.productId).Some?
      && var best := FirstWithKey(OrderByDesc(setData, IncreaseKey), ProductKey, x.productId).value;
         (best in Rank(setData, minMonths, maxMonths) <==> minMonths < best.monthsFromToday < maxMonths)
  {
    var sorted := OrderByDesc(setData, IncreaseKey);
    var u := UniqBy(sorted, ProductKey);
    UniqFromKeepsFirst(sorted, ProductKey, {});
    UniqFromComplete(sorted, ProductKey, {});
    forall x | x in setData
      ensures FirstWithKey(sorted, ProductKey, x.productId).Some?
      ensures FirstWithKey(sorted, ProductKey, x.productId).value in u
    {
      assert x in multiset(sorted);
      var y :| y in u && ProductKey(y) == ProductKey(x);
    }
  }

  /** The ranking holds one listing per product, by descending price per
      month, each a collected listing strictly inside the window with the
      highest price per month of its product. */
  lemma RankBest(setData: seq<MarketInfo>, minMonths: int, maxMonths: int)
    ensures var r := Rank(setData, minMonths, maxMonths);
      && DistinctKeys(r, ProductKey)
      && SortedDesc(r, IncreaseKey)
      && (forall y | y in r :: y in setData && minMonths < y.monthsFromToday < maxMonths)
      && (forall y, x | y in r && x in setData && x.productId == y.productId :: x.increasePerMonth <= y.increasePerMonth)
  {
    var sorted := OrderByDesc(setData, IncreaseKey);
    RankOrdered(setData, minMonths, maxMonths);
    RankKeepsBest(setData, minMonths, maxMonths);
    forall y, x | y in Rank(setData, minMonths, maxMonths) && x in setData && x.productId == y.productId
      ensures x.increasePerMonth <= y.increasePerMonth
    {
      assert x in multiset(sorted);
      FirstWithKeyMax(sorted, ProductKey, y.productId, IncreaseKey);
    }
  }

  /** Once a listing has thrown, the later sets change nothing. */
  lemma {:induction false} CollectStops(cache: PriceCache, src: DraftSource, sets: seq<SetInfo>, now: real,
                                        minMonths: int, maxMonths: int, rarity: Rarity, cardType: CardType, n: int, m: int)
    requires 0 <= n <= m <= |sets|
    requires Collect(cache, src, sets, now, minMonths, maxMonths, rarity, cardType, n).setData.None?
    ensures Collect(cache, src, sets, now, minMonths, maxMonths, rarity, cardType, m)
      == Collect(cache, src, sets, now, minMonths, maxMonths, rarity, cardType, n)
  {
    if n < m {
      CollectStops(cache, src, sets, now, minMonths, maxMonths, rarity, cardType, n, m - 1);
    }
  }

  /** What `getBestCardAppreciation` leaves in the cache and returns:
      `None` when a listing throws. */
  function BestCardAppreciation(cache: PriceCache, src: DraftSource, sets: seq<SetInfo>, now: real, minMonths: int,
                                maxMonths: int, rarity: Rarity, cardType: CardType): Collected
  {
    var c := Collect(cache, src, sets, now, minMonths, maxMonths, rarity, cardType, |sets|);
    if c.setData.None? then c else Collected(c.cache, Some(Rank(c.setData.value, minMonths, maxMonths)))
  }

  /** `setData.splice(0, 100)` in verbose mode: the first 100 listings are
      cut out of the array that is then returned. */
  function SpliceTop(r: seq<MarketInfo>): (rest: seq<MarketInfo>)
    ensures |rest| == if |r| <= 100 then 0 else |r| - 100
    ensures forall i | 0 <= i < |rest| :: rest[i] == r[100 + i]
  {
    if |r| <= 100 then [] else r[100..]
  }

  /** `getBestCardAppreciation` as written, where verbose mode returns what
      is left after printing. */
  function BestCardAppreciationAsWritten(cache: PriceCache, src: DraftSource, sets: seq<SetInfo>, now: real,
                                         minMonths: int, maxMonths: int, rarity: Rarity, cardType: CardType,
                                         verbose: bool): Collected
  {
    var c := BestCardAppreciation(cache, src, sets, now, minMonths, maxMonths, rarity, cardType);
    if verbose && c.setData.Some? then Collected(c.cache, Some(SpliceTop(c.setData.value))) else c
  }

  /** Every returned listing has a non-zero price and comes from a
      catalogued set strictly inside the month window, with that set's age
      and price per month; there is one per product, by descending price per
      month, and it is the best collected listing of its product. */
  lemma BestCardAppreciationRanked(cache: PriceCache, src: DraftSource, sets: seq<SetInfo>, now: real, minMonths: int,
                                   maxMonths: int, rarity: Rarity, cardType: CardType)
    ensures var c := Collect(cache, src, sets, now, minMonths, maxMonths, rarity, cardType, |sets|);
      var b := BestCardAppreciation(cache, src, sets, now, minMonths, maxMonths, rarity, cardType);
      b.setData.Some? ==>
        var r := b.setData.value;
        && DistinctKeys(r, ProductKey)
        && SortedDesc(r, IncreaseKey)
        && (forall y | y in r ::
              && minMonths < y.monthsFromToday < maxMonths
              && FromWindow(sets, now, minMonths, maxMonths, |sets|, y))
        && (forall y, x | y in r && x in c.setData.value && x.productId == y.productId ::
              x.increasePerMonth <= y.increasePerMonth)
  {
    var c := Collect(cache, src, sets, now, minMonths, maxMonths, rarity, cardType, |sets|);
    CollectFromWindow(cache, src, sets, now, minMonths, maxMonths, rarity, cardType, |sets|);
    if c.setData.Some? {
      RankBest(c.setData.value, minMonths, maxMonths);
    }
  }

  /** In verbose mode the caller gets the ranking without its first 100
      listings: the top-ranked product is never returned, and a ranking of
      at most 100 listings comes back empty. Outside verbose mode both
      versions agree. */
  lemma VerboseDropsTop(cache: PriceCache, src: DraftSource, sets: seq<SetInfo>, now: real, minMonths: int,
                        maxMonths: int, rarity: Rarity, cardType: CardType)
    ensures BestCardAppreciationAsWritten(cache, src, sets, now, minMonths, maxMonths, rarity, cardType, false)
      == BestCardAppreciation(cache, src, sets, now, minMonths, maxMonths, rarity, cardType)
    ensures var b := BestCardAppreciation(cache, src, sets, now, minMonths, maxMonths, rarity, cardType);
      var w := BestCardAppreciationAsWritten(cache, src, sets, now, minMonths, maxMonths, rarity, cardType, true);
      b.setData.Some? && |b.setData.value| > 0 ==>
        && w.setData.Some?
        && |w.setData.value| == (if |b.setData.value| <= 100 then 0 else |b.setData.value| - 100)
        && forall y | y in w.setData.value :: y.productId != b.setData.value[0].productId
  {
    var b := BestCardAppreciation(cache, src, sets, now, minMonths, maxMonths, rarity, cardType);
    var c := Collect(cache, src, sets, now, minMonths, maxMonths, rarity, cardType, |sets|);
    if b.setData.Some? && |b.setData.value| > 100 {
      var r := b.setData.value;
      RankOrdered(c.setData.value, minMonths, maxMonths);
      forall y | y in SpliceTop(r) ensures y.productId != r[0].productId {
        var k :| 0 <= k < |r| - 100 && r[100..][k] == y;
        assert r[k + 100] == y;
      }
    }
  }

  /** One search position that throws makes the whole listing throw. */
  lemma QuotesFail(e: CacheEntry, setName: string, cardType: CardType, i: int, n: int)
    requires 0 <= i < n
    requires QuoteAt(e, setName, cardType, i).None?
    ensures Quotes(e, setName, cardType, n).None?
  {
    QuotesPaired(e, setName, cardType, n);
  }

  /** `marketPrices.push(...)` for every search result (lines 32-37). */
  method ListQuotes(e: CacheEntry, setName: string, cardType: CardType) returns (marketPrices: Option<seq<Quote>>)
    ensures marketPrices == Listings(e, setName, cardType)
  {
    var quotes: seq<Quote> := [];
    for i := 0 to |e.search.results|
      invariant Quotes(e, setName, cardType, i) == Some(quotes)
    {
      if i >= |e.productInfo| {
        QuotesFail(e, setName, cardType, i, |e.search.results|);
        return None;
      }
      var product := e.productInfo[i];
      var normalPrice := TypedPriceFor(e.priceInfo, product.productId, cardType);
      if normalPrice.None? {
        QuotesFail(e, setName, cardType, i, |e.search.results|);
        return None;
      }
      var q := Quote(normalPrice.value.marketPrice, product.name, setName, product.productId);
      assert QuoteAt(e, setName, cardType, i) == Some(q);
      quotes := quotes + [q];
    }
    marketPrices := Some(quotes);
  }

  /** The `_.each` of line 97. */
  method PushPriced(s: seq<MarketInfo>) returns (pushed: seq<MarketInfo>)
    ensures pushed == Priced(s)
  {
    pushed := [];
    for k := 0 to |s|
      invariant pushed == Priced(s[..k])
    {
      assert s[..k + 1][..k] == s[..k];
      if s[k].marketPrice != 0 {
        pushed := pushed + [s[k]];
      }
    }
    assert s[..|s|] == s;
  }

  /** The loop of lines 92-98 for one set. The pushes store references that
      later iterations still annotate, so the pushed listings are the
      annotated ones: every annotation is done first here. */
  method PushListings(qs: seq<Quote>, months: int, setName: string) returns (pushed: seq<MarketInfo>)
    ensures pushed == Pushed(qs, months, setName)
  {
    var marketPrices: seq<MarketInfo> := [];
    for j := 0 to |qs|
      invariant marketPrices == AnnotateAll(qs[..j], months, setName)
    {
      assert qs[..j + 1][..j] == qs[..j];
      marketPrices := marketPrices + [Annotate(qs[j], months, setName)];
    }
    assert qs[..|qs|] == qs;
    pushed := [];
    for j := 0 to |qs|
      invariant pushed == Repeat(Priced(marketPrices), j)
    {
      var priced := PushPriced(marketPrices);
      pushed := pushed + priced;
    }
  }

  /** The state shared by the functions `util(accessToken, cache, sets)`
      returns: the listing cache, updated in place. */
  class DraftUtil {
    var cache: PriceCache

    constructor (cache: PriceCache)
      ensures this.cache == cache
    {
      this.cache := cache;
    }

    /** `aggregatePrices(accessToken, cache, set, rarity, cardType)`. */
    method AggregatePrices(src: DraftSource, setName: string, rarity: Rarity, cardType: CardType)
      returns (marketPrices: Option<seq<Quote>>)
      modifies this
      ensures Aggregated(cache, marketPrices) == Aggregate(old(cache), src, setName, rarity, cardType)
    {
      var entry: CacheEntry;
      if Cached(cache, setName, rarity, cardType).None? {
        var search := src.searchQuery(rarity, setName);
        var productInfo := src.getProductInfo(search.results);
        var priceInfo := src.getPriceInfo(search.results);
        entry := CacheEntry(search, productInfo, priceInfo);
        var bySet := if setName in cache then cache[setName] else map[];
        var byRarity := if rarity in bySet then bySet[rarity] else map[];
        cache := cache[setName := bySet[rarity := byRarity[cardType := entry]]];
      } else {
        entry := cache[setName][rarity][cardType];
      }
      marketPrices := ListQuotes(entry, setName, cardType);
    }

    /** One iteration of lines 84-99. */
    method CollectOne(src: DraftSource, s: SetInfo, now: real, minMonths: int, maxMonths: int, rarity: Rarity,
                      cardType: CardType, collected: seq<MarketInfo>) returns (next: Option<seq<MarketInfo>>)
      modifies this
      ensures Collected(cache, next)
        == CollectSet(Collected(old(cache), Some(collected)), src, s, now, minMonths, maxMonths, rarity, cardType)
    {
      var monthsFromToday := MonthsFromToday(s.date, now);
      if monthsFromToday > maxMonths || monthsFromToday < minMonths {
        return Some(collected);
      }
      var marketPrices := AggregatePrices(src, s.name, rarity, cardType);
      if marketPrices.None? {
        return None;
      }
      var pushed := PushListings(marketPrices.value, monthsFromToday, s.name);
      next := Some(collected + pushed);
    }

    /** Lines 83-99: the listings of every set in the month window. */
    method CollectSetData(src: DraftSource, sets: seq<SetInfo>, now: real, minMonths: int, maxMonths: int,
                          rarity: Rarity, cardType: CardType) returns (setData: Option<seq<MarketInfo>>)
      modifies this
      ensures Collected(cache, setData) == Collect(old(cache), src, sets, now, minMonths, maxMonths, rarity, cardType, |sets|)
    {
      var collected: seq<MarketInfo> := [];
      ghost var start := cache;
      for i := 0 to |sets|
        invariant Collect(start, src, sets, now, minMonths, maxMonths, rarity, cardType, i) == Collected(cache, Some(collected))
      {
        var next := CollectOne(src, sets[i], now, minMonths, maxMonths, rarity, cardType, collected);
        if next.None? {
          CollectStops(start, src, sets, now, minMonths, maxMonths, rarity, cardType, i + 1, |sets|);
          return None;
        }
        collected := next.value;
      }
      setData := Some(collected);
    }

    /** `getBestCardAppreciation` with the verbose listing printed from a
        copy, so that both modes return the whole ranking. */
    method GetBestCardAppreciation(src: DraftSource, sets: seq<SetInfo>, now: real, minMonths: int, maxMonths: int,
                                   rarity: Rarity, cardType: CardType, verbose: bool)
      returns (setData: Option<seq<MarketInfo>>)
      modifies this
      ensures Collected(cache, setData) == BestCardAppreciation(old(cache), src, sets, now, minMonths, maxMonths, rarity, cardType)
    {
      setData := CollectSetData(src, sets, now, minMonths, maxMonths, rarity, cardType);
      if setData.Some? {
        setData := Some(StrictWindow(UniqBy(OrderByDesc(setData.value, IncreaseKey), ProductKey), minMonths, maxMonths));
      }
    }

    /** `getBestCardAppreciation` as written (lines 72-107). */
    method GetBestCardAppreciationAsWritten(src: DraftSource, sets: seq<SetInfo>, now: real, minMonths: int,
                                            maxMonths: int, rarity: Rarity, cardType: CardType, verbose: bool)
      returns (setData: Option<seq<MarketInfo>>)
      modifies this
      ensures Collected(cache, setData)
        == BestCardAppreciationAsWritten(old(cache), src, sets, now, minMonths, maxMonths, rarity, cardType, verbose)
    {
      setData := GetBestCardAppreciation(src, sets, now, minMonths, maxMonths, rarity, cardType, verbose);
      if verbose && setData.Some? {
        setData := Some(SpliceTop(setData.value));
      }
    }
  }

  /** A record key of the draft ledger, `productId + '-' + cardType`. */
  datatype DraftKey = DraftKey(productId: int, cardType: CardType)

  /** A day's price; the draft ledger does not record the finish per entry. */
  datatype DraftEntry = DraftEntry(date: int, marketPrice: int)

  datatype DraftRecord = DraftRecord(name: string, setName: string, productId: int, history: seq<DraftEntry>)

  /** `history.json`'s `cards` as util.js writes it. */
  type DraftLedger = map<DraftKey, DraftRecord>

  /** `_.map(cards, (c) => c.productId)`. */
  function ProductIds(cards: seq<MarketInfo>): (ids: seq<int>)
    ensures |ids| == |cards|
    ensures forall i | 0 <= i < |cards| :: ids[i] == cards[i].productId
  {
    if cards == [] then [] else ProductIds(cards[..|cards| - 1]) + [cards[|cards| - 1].productId]
  }

  /** One iteration of lines 115-131: a card without a price of the finish
      is skipped; otherwise its record is created if missing and the price
      is appended. */
  function SaveCard(h: DraftLedger, card: MarketInfo, prices: seq<PriceInfo>, cardType: CardType, today: int): DraftLedger
  {
    var price := PriceFor(prices, card.productId);
    if price.None? then h
    else
      var key := DraftKey(card.productId, cardType);
      var record := if key in h then h[key] else DraftRecord(card.name, card.setName, card.productId, []);
      h[key := record.(history := record.history + [DraftEntry(today, price.value.marketPrice)])]
  }

  /** The loop over `cards`, in order. */
  function SaveAll(h: DraftLedger, cards: seq<MarketInfo>, prices: seq<PriceInfo>, cardType: CardType, today: int): DraftLedger
  {
    if cards == [] then h
    else SaveCard(SaveAll(h, cards[..|cards| - 1], prices, cardType, today), cards[|cards| - 1], prices, cardType, today)
  }

  lemma SaveAllStep(h: DraftLedger, cards: seq<MarketInfo>, i: int, prices: seq<PriceInfo>, cardType: CardType, today: int)
    requires 0 <= i < |cards|
    ensures SaveAll(h, cards[..i + 1], prices, cardType, today)
      == SaveCard(SaveAll(h, cards[..i], prices, cardType, today), cards[i], prices, cardType, today)
  {
    assert cards[..i + 1][..i] == cards[..i];
  }

  /** How many of `cards` are of product `id`. */
  function Occurrences(cards: seq<MarketInfo>, id: int): (n: nat)
    ensures n <= |cards|
  {
    if cards == [] then 0
    else Occurrences(cards[..|cards| - 1], id) + if cards[|cards| - 1].productId == id then 1 else 0
  }

  /** `n` copies of an entry. */
  function Entries(e: DraftEntry, n: nat): (r: seq<DraftEntry>)
    ensures |r| == n
    ensures forall k | 0 <= k < n :: r[k] == e
  {
    if n == 0 then [] else Entries(e, n - 1) + [e]
  }

  /** The entry a save on `today` appends for product `id`. */
  function TodayPrice(prices: seq<PriceInfo>, id: int, today: int): DraftEntry
    requires PriceFor(prices, id).Some?
  {
    DraftEntry(today, PriceFor(prices, id).value.marketPrice)
  }

  /** A key the save touches: of the saved finish, for a product with a price. */
  predicate Touched(prices: seq<PriceInfo>, cardType: CardType, key: DraftKey)
  {
    key.cardType == cardType && PriceFor(prices, key.productId).Some?
  }

  /** Records of another finish, or of products without a price of the
      finish, are left as they were, and no such record is created. */
  lemma {:induction false} SaveAllOthers(h: DraftLedger, cards: seq<MarketInfo>, prices: seq<PriceInfo>, cardType: CardType, today: int)
    ensures var r := SaveAll(h, cards, prices, cardType, today);
      && h.Keys <= r.Keys
      && forall key | !Touched(prices, cardType, key) :: (key in r <==> key in h) && (key in h ==> r[key] == h[key])
  {
    if cards != [] {
      SaveAllOthers(h, cards[..|cards| - 1], prices, cardType, today);
    }
  }

  /** What one card does to one key. */
  lemma SaveCardAt(h: DraftLedger, card: MarketInfo, prices: seq<PriceInfo>, cardType: CardType, today: int, key: DraftKey)
    ensures var r := SaveCard(h, card, prices, cardType, today);
      if key == DraftKey(card.productId, cardType) && PriceFor(prices, card.productId).Some? then
        var record := if key in h then h[key] else DraftRecord(card.name, card.setName, card.productId, []);
        key in r && r[key] == record.(history := record.history + [TodayPrice(prices, card.productId, today)])
      else
        (key in r <==> key in h) && (key in h ==> r[key] == h[key])
  {
  }

  /** `SaveAllAppends` for one key. */
  lemma {:induction false} SaveAllAppendsAt(h: DraftLedger, cards: seq<MarketInfo>, prices: seq<PriceInfo>, cardType: CardType,
                                            today: int, key: DraftKey)
    requires Touched(prices, cardType, key)
    ensures var r := SaveAll(h, cards, prices, cardType, today);
      && (key in r <==> key in h || Occurrences(cards, key.productId) > 0)
      && (key in r ==> r[key].history == (if key in h then h[key].history else [])
                                         + Entries(TodayPrice(prices, key.productId, today), Occurrences(cards, key.productId)))
  {
    if cards != [] {
      var init, last := cards[..|cards| - 1], cards[|cards| - 1];
      SaveAllAppendsAt(h, init, prices, cardType, today, key);
      var mid := SaveAll(h, init, prices, cardType, today);
      SaveCardAt(mid, last, prices, cardType, today, key);
      var e := TodayPrice(prices, key.productId, today);
      var before := if key in h then h[key].history else [];
      var n := Occurrences(init, key.productId);
      if key == DraftKey(last.productId, cardType) {
        assert Entries(e, n + 1) == Entries(e, n) + [e];
        if key in mid {
          assert (before + Entries(e, n)) + [e] == before + (Entries(e, n) + [e]);
        }
      }
    }
  }

  /** A touched record holds what it held before, followed by one entry of
      today's price for every card of its product, with no check for an
      entry of the same day; it exists exactly when it existed before or
      some card is of its product. */
  lemma SaveAllAppends(h: DraftLedger, cards: seq<MarketInfo>, prices: seq<PriceInfo>, cardType: CardType, today: int)
    ensures var r := SaveAll(h, cards, prices, cardType, today);
      forall key | Touched(prices, cardType, key) ::
        && (key in r <==> key in h || Occurrences(cards, key.productId) > 0)
        && (key in r ==> r[key].history == (if key in h then h[key].history else [])
                                          + Entries(TodayPrice(prices, key.productId, today), Occurrences(cards, key.productId)))
  {
    forall key | Touched(prices, cardType, key)
      ensures var r := SaveAll(h, cards, prices, cardType, today);
        && (key in r <==> key in h || Occurrences(cards, key.productId) > 0)
        && (key in r ==> r[key].history == (if key in h then h[key].history else [])
                                          + Entries(TodayPrice(prices, key.productId, today), Occurrences(cards, key.productId)))
    {
      SaveAllAppendsAt(h, cards, prices, cardType, today, key);
    }
  }

  /** `SaveAllCreatesOnce` for one key. */
  lemma {:induction false} SaveAllCreatesOnceAt(h: DraftLedger, cards: seq<MarketInfo>, prices: seq<PriceInfo>, cardType: CardType,
                                                today: int, key: DraftKey)
    requires key in SaveAll(h, cards, prices, cardType, today)
    ensures var r := SaveAll(h, cards, prices, cardType, today);
      if key in h then r[key].name == h[key].name && r[key].setName == h[key].setName && r[key].productId == h[key].productId
      else
        && FirstWithKey(cards, ProductKey, key.productId).Some?
        && var first := FirstWithKey(cards, ProductKey, key.productId).value;
           r[key].name == first.name && r[key].setName == first.setName && r[key].productId == key.productId
  {
    if cards != [] {
      var init, last := cards[..|cards| - 1], cards[|cards| - 1];
      assert cards == init + [last];
      var mid := SaveAll(h, init, prices, cardType, today);
      SaveCardAt(mid, last, prices, cardType, today, key);
      FirstWithKeyAppend(init, last, ProductKey, key.productId);
      if key in mid {
        SaveAllCreatesOnceAt(h, init, prices, cardType, today, key);
      } else {
        SaveAllOthers(h, init, prices, cardType, today);
        SaveAllAppendsAt(h, init, prices, cardType, today, key);
        OccurrencesNone(init, key.productId);
      }
    }
  }

  /** A record is created once, by the first card of its product, and keeps
      the name, set and product id it was created with. */
  lemma SaveAllCreatesOnce(h: DraftLedger, cards: seq<MarketInfo>, prices: seq<PriceInfo>, cardType: CardType, today: int)
    ensures var r := SaveAll(h, cards, prices, cardType, today);
      forall key | key in r ::
        if key in h then r[key].name == h[key].name && r[key].setName == h[key].setName && r[key].productId == h[key].productId
        else
          && FirstWithKey(cards, ProductKey, key.productId).Some?
          && var first := FirstWithKey(cards, ProductKey, key.productId).value;
             r[key].name == first.name && r[key].setName == first.setName && r[key].productId == key.productId
  {
    forall key | key in SaveAll(h, cards, prices, cardType, today)
      ensures var r := SaveAll(h, cards, prices, cardType, today);
        if key in h then r[key].name == h[key].name && r[key].setName == h[key].setName && r[key].productId == h[key].productId
        else
          && FirstWithKey(cards, ProductKey, key.productId).Some?
          && var first := FirstWithKey(cards, ProductKey, key.productId).value;
             r[key].name == first.name && r[key].setName == first.setName && r[key].productId == key.productId
    {
      SaveAllCreatesOnceAt(h, cards, prices, cardType, today, key);
    }
  }

  /** No card of a product that has no occurrences. */
  lemma {:induction false} OccurrencesNone(cards: seq<MarketInfo>, id: int)
    requires Occurrences(cards, id) == 0
    ensures FirstWithKey(cards, ProductKey, id).None?
  {
    if cards != [] {
      var init, last := cards[..|cards| - 1], cards[|cards| - 1];
      assert cards == init + [last];
      OccurrencesNone(init, id);
      FirstWithKeyAppend(init, last, ProductKey, id);
    }
  }

  lemma {:induction false} OccurrencesPositive(cards: seq<MarketInfo>, c: MarketInfo)
    requires c in cards
    ensures Occurrences(cards, c.productId) > 0
  {
    var init, last := cards[..|cards| - 1], cards[|cards| - 1];
    if last != c {
      assert cards == init + [last];
      OccurrencesPositive(init, c);
    }
  }

  /** Saving the same cards twice on one day leaves two entries of that day
      at the end of the record of every priced card: nothing stops a second
      save of the day. */
  lemma SaveTwiceSameDay(h: DraftLedger, cards: seq<MarketInfo>, prices: seq<PriceInfo>, cardType: CardType, today: int,
                         c: MarketInfo)
    requires c in cards
    requires PriceFor(prices, c.productId).Some?
    ensures var key := DraftKey(c.productId, cardType);
      var r := SaveAll(SaveAll(h, cards, prices, cardType, today), cards, prices, cardType, today);
      && key in r
      && |r[key].history| >= 2
      && r[key].history[|r[key].history| - 1] == TodayPrice(prices, c.productId, today)
      && r[key].history[|r[key].history| - 2] == TodayPrice(prices, c.productId, today)
  {
    var key := DraftKey(c.productId, cardType);
    var once := SaveAll(h, cards, prices, cardType, today);
    var e := TodayPrice(prices, c.productId, today);
    OccurrencesPositive(cards, c);
    SaveAllAppendsAt(h, cards, prices, cardType, today, key);
    SaveAllAppendsAt(once, cards, prices, cardType, today, key);
    var n := Occurrences(cards, c.productId);
    var h1 := once[key].history;
    assert h1[|h1| - 1] == Entries(e, n)[n - 1];
  }

  /** One turn of the `saveHistoricalData` loop: an unpriced card is
      skipped, a new key gets a record first, then today's price is appended. */
  method SaveOne(history: DraftLedger, card: MarketInfo, priceInfo: seq<PriceInfo>, cardType: CardType, today: int)
    returns (next: DraftLedger)
    ensures next == SaveCard(history, card, priceInfo, cardType, today)
  {
    next := history;
    var cardPriceInfo := PriceFor(priceInfo, card.productId);
    if cardPriceInfo.None? {
      return;
    }
    var productKey := DraftKey(card.productId, cardType);
    if productKey !in next {
      next := next[productKey := DraftRecord(card.name, card.setName, card.productId, [])];
    }
    next := next[productKey := next[productKey].(history := next[productKey].history
                                                      + [DraftEntry(today, cardPriceInfo.value.marketPrice)])];
  }

  /** The ledger `saveHistoricalData` reads and writes, held in memory. */
  class DraftHistory {
    var cards: DraftLedger

    constructor (cards: DraftLedger)
      ensures this.cards == cards
    {
      this.cards := cards;
    }

    /** `saveHistoricalData(accessToken, cards, paramCardType)` on `today`. */
    method SaveHistoricalData(src: DraftSource, input: seq<MarketInfo>, cardType: CardType, today: int)
      modifies this
      ensures cards == SaveAll(old(cards), input, Api.OfType(src.getPriceInfo(ProductIds(input)), cardType), cardType, today)
    {
      var cardIds := ProductIds(input);
      var priceInfo := Api.OfType(src.getPriceInfo(cardIds), cardType);
      ghost var start := cards;
      var history := cards;
      for i := 0 to |input|
        invariant history == SaveAll(start, input[..i], priceInfo, cardType, today)
      {
        SaveAllStep(start, input, i, priceInfo, cardType, today);
        history := SaveOne(history, input[i], priceInfo, cardType, today);
      }
      assert input[..|input|] == input;
      cards := history;
    }
  }
}
