/** The market listing of a set and the appreciation ranking across sets
    (`getMonthsFromToday`, `aggregatePrices` and `getBestCardAppreciation` in
    src/util.ts). The current instant `now` is a day number with a fraction
    for the time of day. */
module Appreciation {
  import opened Types
  import opened Lodash
  import opened History

  function Distance(a: real, b: real): real
  {
    if a < b then b - a else a - b
  }

  /** `getMonthsFromToday(d)`: the distance between a day and now in 30-day
      months, rounded to the nearest whole month. */
  function MonthsFromToday(date: int, now: real): (m: int)
    ensures 0 <= m
    ensures (m as real - 0.5) * 30.0 <= Distance(now, date as real) < (m as real + 0.5) * 30.0
  {
    RoundHalfUp(Distance(now, date as real) / 30.0)
  }

  /** A set lies in the month window `[lo, hi]` exactly when its distance from
      now lies in `[(lo - 1/2) * 30, (hi + 1/2) * 30)` days. */
  lemma MonthsWindow(date: int, now: real, lo: int, hi: int)
    ensures var m := MonthsFromToday(date, now);
      var d := Distance(now, date as real);
      (lo <= m <= hi) <==> lo <= hi && (lo as real - 0.5) * 30.0 <= d < (hi as real + 0.5) * 30.0
  {
    var m := MonthsFromToday(date, now);
    var d := Distance(now, date as real);
    if m <= hi {
      assert (m as real + 0.5) * 30.0 <= (hi as real + 0.5) * 30.0;
    }
    if lo <= m {
      assert (lo as real - 0.5) * 30.0 <= (m as real - 0.5) * 30.0;
    }
    if hi < m {
      assert (hi as real + 0.5) * 30.0 <= (m as real - 0.5) * 30.0;
    }
    if m < lo {
      assert (m as real + 0.5) * 30.0 <= (lo as real - 0.5) * 30.0;
    }
  }

  /** `price / monthsFromToday`; a set released under half a month ago gives
      0 here (see README). */
  function IncreasePerMonth(price: int, months: int): (r: real)
    ensures months != 0 ==> r * months as real == price as real
  {
    if months == 0 then 0.0 else price as real / months as real
  }

  function MarketKey(m: MarketInfo): real
  {
    m.marketPrice as real
  }

  function IncreaseKey(m: MarketInfo): real
  {
    m.increasePerMonth
  }

  function ProductKey(m: MarketInfo): int
  {
    m.productId
  }

  /** `_.find(priceInfo, (pi) => pi.productId === id && pi.subTypeName === cardType)`:
      the first price of `id` in the finish. */
  function TypedPriceFor(prices: seq<PriceInfo>, id: int, cardType: CardType): (r: Option<PriceInfo>)
    ensures r.Some? ==> r.value in prices && r.value.productId == id && r.value.subTypeName == cardType
    ensures r.None? <==> forall k | 0 <= k < |prices| :: !(prices[k].productId == id && prices[k].subTypeName == cardType)
    ensures r.Some? ==> FirstMatch(prices, (pi: PriceInfo) => pi.productId == id && pi.subTypeName == cardType, r.value)
  {
    Find(prices, (pi: PriceInfo) => pi.productId == id && pi.subTypeName == cardType)
  }

  /** The price floor of `aggregatePrices`: a positive `minPrice` is exceeded,
      or `minPrice` is 0; a negative `minPrice` admits nothing. */
  predicate Admitted(price: int, minPrice: int)
  {
    (minPrice > 0 && price > minPrice) || minPrice == 0
  }

  /** What `aggregatePrices` lists for `search[i]`: nothing unless its price of
      the finish, its product and its set are all found and the price floor
      admits it. */
  function MarketAt(setData: Option<SetInfo>, setName: string, search: seq<int>, products: seq<ProductInfo>,
                    prices: seq<PriceInfo>, now: real, cardType: CardType, minPrice: int, i: int): Option<MarketInfo>
    requires 0 <= i < |search|
  {
    var price := TypedPriceFor(prices, search[i], cardType);
    var product := ProductFor(products, search[i]);
    if price.Some? && product.Some? && setData.Some? && Admitted(price.value.marketPrice, minPrice) then
      var months := MonthsFromToday(setData.value.date, now);
      Some(MarketInfo(price.value.marketPrice, price.value.productId, product.value.name, setName,
                      months, IncreasePerMonth(price.value.marketPrice, months)))
    else None
  }

  /** The listings of the first `n` search results, in search order. */
  function Gather(setData: Option<SetInfo>, setName: string, search: seq<int>, products: seq<ProductInfo>,
                  prices: seq<PriceInfo>, now: real, cardType: CardType, minPrice: int, n: int): seq<MarketInfo>
    requires 0 <= n <= |search|
  {
    if n == 0 then []
    else
      var m := MarketAt(setData, setName, search, products, prices, now, cardType, minPrice, n - 1);
      Gather(setData, setName, search, products, prices, now, cardType, minPrice, n - 1) + (if m.Some? then [m.value] else [])
  }

  lemma GatherNext(setData: Option<SetInfo>, setName: string, search: seq<int>, products: seq<ProductInfo>,
                   prices: seq<PriceInfo>, now: real, cardType: CardType, minPrice: int, n: int)
    requires 0 <= n < |search|
    ensures var m := MarketAt(setData, setName, search, products, prices, now, cardType, minPrice, n);
      Gather(setData, setName, search, products, prices, now, cardType, minPrice, n + 1)
        == Gather(setData, setName, search, products, prices, now, cardType, minPrice, n) + (if m.Some? then [m.value] else [])
  {
  }

  /** What `aggregatePrices(set, rarity, cardType, minPrice)` returns. */
  function AggregateSpec(sets: seq<SetInfo>, src: DataSource, now: real, setName: string, rarity: Rarity,
                         cardType: CardType, minPrice: int): seq<MarketInfo>
  {
    var search := src.searchQuery(rarity, setName);
    var gathered := Gather(SetNamed(sets, setName), setName, search, src.getProductInfo(search),
                           src.getPriceInfo(search, cardType), now, cardType, minPrice, |search|);
    OrderBy(gathered, MarketKey)
  }

  /** A listing of a search result of the set: the set is catalogued, the
      result has a price of the finish admitted by the floor and a product,
      and the listing carries them, the set's age in months and the price per
      month. */
  ghost predicate Listed(sets: seq<SetInfo>, search: seq<int>, products: seq<ProductInfo>, prices: seq<PriceInfo>,
                         now: real, setName: string, cardType: CardType, minPrice: int, x: MarketInfo)
  {
    && x.productId in search
    && x.setName == setName
    && SetNamed(sets, setName).Some?
    && TypedPriceFor(prices, x.productId, cardType) == Some(PriceInfo(x.productId, x.marketPrice, cardType))
    && Admitted(x.marketPrice, minPrice)
    && ProductFor(products, x.productId).Some?
    && x.name == ProductFor(products, x.productId).value.name
    && x.monthsFromToday == MonthsFromToday(SetNamed(sets, setName).value.date, now)
    && x.increasePerMonth == IncreasePerMonth(x.marketPrice, x.monthsFromToday)
  }

  /** A search result with a catalogued set, a product and a price of the
      finish admitted by the floor. */
  ghost predicate Qualifies(sets: seq<SetInfo>, products: seq<ProductInfo>, prices: seq<PriceInfo>,
                            setName: string, cardType: CardType, minPrice: int, id: int)
  {
    && SetNamed(sets, setName).Some?
    && ProductFor(products, id).Some?
    && TypedPriceFor(prices, id, cardType).Some?
    && Admitted(TypedPriceFor(prices, id, cardType).value.marketPrice, minPrice)
  }

  /** The listing of one search result is a listing of the set, and a
      qualifying result always has one. */
  lemma MarketAtListed(sets: seq<SetInfo>, search: seq<int>, products: seq<ProductInfo>, prices: seq<PriceInfo>,
                       now: real, setName: string, cardType: CardType, minPrice: int, i: int)
    requires 0 <= i < |search|
    ensures var m := MarketAt(SetNamed(sets, setName), setName, search, products, prices, now, cardType, minPrice, i);
      && (m.Some? ==> m.value.productId == search[i] && Listed(sets, search, products, prices, now, setName, cardType, minPrice, m.value))
      && (Qualifies(sets, products, prices, setName, cardType, minPrice, search[i]) ==> m.Some?)
  {
  }

  /** Every gathered listing is what `MarketAt` gives for one of the first
      `n` search positions, at most one per position. */
  lemma {:induction false} GatherFrom(setData: Option<SetInfo>, setName: string, search: seq<int>,
                                      products: seq<ProductInfo>, prices: seq<PriceInfo>, now: real,
                                      cardType: CardType, minPrice: int, n: int)
    requires 0 <= n <= |search|
    ensures var g := Gather(setData, setName, search, products, prices, now, cardType, minPrice, n);
      && |g| <= n
      && (forall x | x in g :: exists i | 0 <= i < n ::
            MarketAt(setData, setName, search, products, prices, now, cardType, minPrice, i) == Some(x))
  {
    if n > 0 {
      GatherFrom(setData, setName, search, products, prices, now, cardType, minPrice, n - 1);
      GatherNext(setData, setName, search, products, prices, now, cardType, minPrice, n - 1);
      var g := Gather(setData, setName, search, products, prices, now, cardType, minPrice, n - 1);
      var g' := Gather(setData, setName, search, products, prices, now, cardType, minPrice, n);
      forall x | x in g'
        ensures exists i | 0 <= i < n :: MarketAt(setData, setName, search, products, prices, now, cardType, minPrice, i) == Some(x)
      {
        if x in g {
          var i :| 0 <= i < n - 1 && MarketAt(setData, setName, search, products, prices, now, cardType, minPrice, i) == Some(x);
        } else {
          assert MarketAt(setData, setName, search, products, prices, now, cardType, minPrice, n - 1) == Some(x);
        }
      }
    }
  }

  /** What `MarketAt` gives for any of the first `n` search positions is gathered. */
  lemma {:induction false} GatherHas(setData: Option<SetInfo>, setName: string, search: seq<int>,
                                     products: seq<ProductInfo>, prices: seq<PriceInfo>, now: real,
                                     cardType: CardType, minPrice: int, n: int)
    requires 0 <= n <= |search|
    ensures var g := Gather(setData, setName, search, products, prices, now, cardType, minPrice, n);
      forall i | 0 <= i < n && MarketAt(setData, setName, search, products, prices, now, cardType, minPrice, i).Some? ::
        MarketAt(setData, setName, search, products, prices, now, cardType, minPrice, i).value in g
  {
    if n > 0 {
      GatherHas(setData, setName, search, products, prices, now, cardType, minPrice, n - 1);
      GatherNext(setData, setName, search, products, prices, now, cardType, minPrice, n - 1);
      var g := Gather(setData, setName, search, products, prices, now, cardType, minPrice, n - 1);
      var g' := Gather(setData, setName, search, products, prices, now, cardType, minPrice, n);
      forall i | 0 <= i < n && MarketAt(setData, setName, search, products, prices, now, cardType, minPrice, i).Some?
        ensures MarketAt(setData, setName, search, products, prices, now, cardType, minPrice, i).value in g'
      {
        var m := MarketAt(setData, setName, search, products, prices, now, cardType, minPrice, i);
        if i < n - 1 {
          assert m.value in g;
        }
      }
    }
  }

  /** Every gathered listing is a listing of the set, at most one per search position. */
  lemma GatherListed(sets: seq<SetInfo>, search: seq<int>, products: seq<ProductInfo>,
                     prices: seq<PriceInfo>, now: real, setName: string, cardType: CardType,
                     minPrice: int, n: int)
    requires 0 <= n <= |search|
    ensures var g := Gather(SetNamed(sets, setName), setName, search, products, prices, now, cardType, minPrice, n);
      && |g| <= n
      && (forall x | x in g :: Listed(sets, search, products, prices, now, setName, cardType, minPrice, x))
  {
    var setData := SetNamed(sets, setName);
    var g := Gather(setData, setName, search, products, prices, now, cardType, minPrice, n);
    GatherFrom(setData, setName, search, products, prices, now, cardType, minPrice, n);
    forall x | x in g ensures Listed(sets, search, products, prices, now, setName, cardType, minPrice, x) {
      var i :| 0 <= i < n && MarketAt(setData, setName, search, products, prices, now, cardType, minPrice, i) == Some(x);
      MarketAtListed(sets, search, products, prices, now, setName, cardType, minPrice, i);
    }
  }

  /** Every qualifying search result among the first `n` has a gathered listing. */
  lemma GatherCovers(sets: seq<SetInfo>, search: seq<int>, products: seq<ProductInfo>,
                     prices: seq<PriceInfo>, now: real, setName: string, cardType: CardType,
                     minPrice: int, n: int)
    requires 0 <= n <= |search|
    ensures var g := Gather(SetNamed(sets, setName), setName, search, products, prices, now, cardType, minPrice, n);
      forall i | 0 <= i < n && Qualifies(sets, products, prices, setName, cardType, minPrice, search[i]) ::
        exists x | x in g :: x.productId == search[i]
  {
    var setData := SetNamed(sets, setName);
    var g := Gather(setData, setName, search, products, prices, now, cardType, minPrice, n);
    GatherHas(setData, setName, search, products, prices, now, cardType, minPrice, n);
    forall i | 0 <= i < n && Qualifies(sets, products, prices, setName, cardType, minPrice, search[i])
      ensures exists x | x in g :: x.productId == search[i]
    {
      MarketAtListed(sets, search, products, prices, now, setName, cardType, minPrice, i);
      var m := MarketAt(setData, setName, search, products, prices, now, cardType, minPrice, i);
      assert m.value in g;
    }
  }

  /** `aggregatePrices` lists every qualifying search result and nothing
      else, at most one listing per search position, by ascending price. */
  lemma AggregateListsQualifying(sets: seq<SetInfo>, src: DataSource, now: real, setName: string, rarity: Rarity,
                                 cardType: CardType, minPrice: int)
    ensures var search := src.searchQuery(rarity, setName);
      var products := src.getProductInfo(search);
      var prices := src.getPriceInfo(search, cardType);
      var r := AggregateSpec(sets, src, now, setName, rarity, cardType, minPrice);
      && |r| <= |search|
      && SortedAsc(r, MarketKey)
      && (forall x | x in r :: Listed(sets, search, products, prices, now, setName, cardType, minPrice, x))
      && (forall id | id in search && Qualifies(sets, products, prices, setName, cardType, minPrice, id) ::
            exists x | x in r :: x.productId == id)
  {
    var search := src.searchQuery(rarity, setName);
    var products := src.getProductInfo(search);
    var prices := src.getPriceInfo(search, cardType);
    var g := Gather(SetNamed(sets, setName), setName, search, products, prices, now, cardType, minPrice, |search|);
    GatherListed(sets, search, products, prices, now, setName, cardType, minPrice, |search|);
    GatherCovers(sets, search, products, prices, now, setName, cardType, minPrice, |search|);
    OrderByMembers(g, MarketKey);
  }

  /** `aggregatePrices(set, rarity, cardType, minPrice)` over the set
      catalogue `sets`. */
  method AggregatePrices(sets: seq<SetInfo>, src: DataSource, now: real, setName: string, rarity: Rarity,
                         cardType: CardType, minPrice: int) returns (marketInfo: seq<MarketInfo>)
    ensures marketInfo == AggregateSpec(sets, src, now, setName, rarity, cardType, minPrice)
    ensures SortedAsc(marketInfo, MarketKey)
  {
    var setData := SetNamed(sets, setName);
    var search := src.searchQuery(rarity, setName);
    var productInfo := src.getProductInfo(search);
    var priceInfo := src.getPriceInfo(search, cardType);
    marketInfo := [];
    for i := 0 to |search|
      invariant marketInfo == Gather(setData, setName, search, productInfo, priceInfo, now, cardType, minPrice, i)
    {
      var result := search[i];
      var product := ProductFor(productInfo, result);
      var price := TypedPriceFor(priceInfo, result, cardType);
      GatherNext(setData, setName, search, productInfo, priceInfo, now, cardType, minPrice, i);
      if price.Some? && product.Some? && setData.Some? {
        var monthsFromToday := MonthsFromToday(setData.value.date, now);
        if (minPrice > 0 && price.value.marketPrice > minPrice) || minPrice == 0 {
          marketInfo := marketInfo + [MarketInfo(
            price.value.marketPrice, price.value.productId, product.value.name, setName,
            monthsFromToday, IncreasePerMonth(price.value.marketPrice, monthsFromToday))];
        }
      }
    }
    marketInfo := OrderBy(marketInfo, MarketKey);
  }

  /** The month filter of `getBestCardAppreciation`. */
  predicate InWindow(s: SetInfo, now: real, minMonths: int, maxMonths: int)
  {
    var m := MonthsFromToday(s.date, now);
    !(m > maxMonths || m < minMonths)
  }

  /** The listings collected from the first `n` sets of the catalogue. */
  function Candidates(sets: seq<SetInfo>, src: DataSource, now: real, minMonths: int, maxMonths: int, rarity: Rarity,
                      cardType: CardType, minPrice: int, n: int): seq<MarketInfo>
    requires 0 <= n <= |sets|
  {
    if n == 0 then []
    else
      Candidates(sets, src, now, minMonths, maxMonths, rarity, cardType, minPrice, n - 1)
      + (if InWindow(sets[n - 1], now, minMonths, maxMonths)
         then AggregateSpec(sets, src, now, sets[n - 1].name, rarity, cardType, minPrice) else [])
  }

  /** What `getBestCardAppreciation(minMonths, maxMonths, rarity, cardType,
      limit, minPrice)` returns: the first listing of every product, by
      descending price per month, cut to `limit` when it is non-zero. */
  function BestAppreciation(sets: seq<SetInfo>, src: DataSource, now: real, minMonths: int, maxMonths: int,
                            rarity: Rarity, cardType: CardType, limit: int, minPrice: int): seq<MarketInfo>
  {
    var candidates := Candidates(sets, src, now, minMonths, maxMonths, rarity, cardType, minPrice, |sets|);
    var ranked := OrderByDesc(UniqBy(candidates, ProductKey), IncreaseKey);
    if limit != 0 then SliceTo(ranked, limit) else ranked
  }

  /** Every candidate comes from a catalogued set inside the month window and
      is one of that set's listings. */
  lemma {:induction false} CandidatesInWindow(sets: seq<SetInfo>, src: DataSource, now: real, minMonths: int,
                                              maxMonths: int, rarity: Rarity, cardType: CardType, minPrice: int, n: int)
    requires 0 <= n <= |sets|
    ensures forall x | x in Candidates(sets, src, now, minMonths, maxMonths, rarity, cardType, minPrice, n) ::
      exists k | 0 <= k < n ::
        && InWindow(sets[k], now, minMonths, maxMonths)
        && x in AggregateSpec(sets, src, now, sets[k].name, rarity, cardType, minPrice)
  {
    if n > 0 {
      CandidatesInWindow(sets, src, now, minMonths, maxMonths, rarity, cardType, minPrice, n - 1);
      var c := Candidates(sets, src, now, minMonths, maxMonths, rarity, cardType, minPrice, n - 1);
      var last := if InWindow(sets[n - 1], now, minMonths, maxMonths)
        then AggregateSpec(sets, src, now, sets[n - 1].name, rarity, cardType, minPrice) else [];
      forall x | x in c + last
        ensures exists k | 0 <= k < n ::
          && InWindow(sets[k], now, minMonths, maxMonths)
          && x in AggregateSpec(sets, src, now, sets[k].name, rarity, cardType, minPrice)
      {
        if x in c {
          var k :| 0 <= k < n - 1 && InWindow(sets[k], now, minMonths, maxMonths)
            && x in AggregateSpec(sets, src, now, sets[k].name, rarity, cardType, minPrice);
        } else {
          assert InWindow(sets[n - 1], now, minMonths, maxMonths);
        }
      }
    }
  }

  /** One listing per product, by descending price per month, at most
      `limit` of them when `limit` is positive. */
  ghost predicate Ranking(r: seq<MarketInfo>, limit: int)
  {
    && DistinctKeys(r, ProductKey)
    && SortedDesc(r, IncreaseKey)
    && (limit > 0 ==> |r| <= limit)
  }

  lemma CandidatesNext(sets: seq<SetInfo>, src: DataSource, now: real, minMonths: int, maxMonths: int, rarity: Rarity,
                       cardType: CardType, minPrice: int, n: int)
    requires 0 <= n < |sets|
    ensures Candidates(sets, src, now, minMonths, maxMonths, rarity, cardType, minPrice, n + 1)
      == Candidates(sets, src, now, minMonths, maxMonths, rarity, cardType, minPrice, n)
         + (if InWindow(sets[n], now, minMonths, maxMonths)
            then AggregateSpec(sets, src, now, sets[n].name, rarity, cardType, minPrice) else [])
  {
  }

  /** The ranking has one listing per product, by descending price per
      month, each the first candidate listing of its product; a non-zero
      `limit` keeps the first `limit` listings of the unlimited ranking (all
      but the last `-limit` when negative), which rank at least as high as
      every listing it drops. */
  lemma BestRanked(sets: seq<SetInfo>, src: DataSource, now: real, minMonths: int, maxMonths: int,
                   rarity: Rarity, cardType: CardType, limit: int, minPrice: int)
    ensures var candidates := Candidates(sets, src, now, minMonths, maxMonths, rarity, cardType, minPrice, |sets|);
      var r := BestAppreciation(sets, src, now, minMonths, maxMonths, rarity, cardType, limit, minPrice);
      var full := BestAppreciation(sets, src, now, minMonths, maxMonths, rarity, cardType, 0, minPrice);
      && Ranking(r, limit)
      && (forall k | 0 <= k < |r| :: FirstWithKey(candidates, ProductKey, r[k].productId) == Some(r[k]))
      && LimitedTo(r, full, limit)
      && (forall i, j | 0 <= i < |r| <= j < |full| :: full[i].increasePerMonth >= full[j].increasePerMonth)
  {
    var candidates := Candidates(sets, src, now, minMonths, maxMonths, rarity, cardType, minPrice, |sets|);
    var u := UniqBy(candidates, ProductKey);
    var ranked := OrderByDesc(u, IncreaseKey);
    var r := BestAppreciation(sets, src, now, minMonths, maxMonths, rarity, cardType, limit, minPrice);
    assert r <= ranked;
    UniqFromDistinct(candidates, ProductKey, {});
    UniqFromKeepsFirst(candidates, ProductKey, {});
    forall k | 0 <= k < |r| ensures r[k] in u {
      assert r[k] == ranked[k];
      assert ranked[k] in multiset(ranked);
    }
    PermutationKeepsDistinctKeys(u, ranked, ProductKey);
    forall i, j | 0 <= i < j < |r| ensures r[i].productId != r[j].productId {
      assert r[i] == ranked[i] && r[j] == ranked[j];
    }
  }

  /** Every candidate and every listing of a set in the window is ranked,
      through the first listing of its product, when no limit applies. */
  lemma BestComplete(sets: seq<SetInfo>, src: DataSource, now: real, minMonths: int, maxMonths: int,
                     rarity: Rarity, cardType: CardType, minPrice: int)
    ensures var candidates := Candidates(sets, src, now, minMonths, maxMonths, rarity, cardType, minPrice, |sets|);
      var r := BestAppreciation(sets, src, now, minMonths, maxMonths, rarity, cardType, 0, minPrice);
      forall x | x in candidates :: exists y | y in r :: y.productId == x.productId
  {
    var candidates := Candidates(sets, src, now, minMonths, maxMonths, rarity, cardType, minPrice, |sets|);
    var u := UniqBy(candidates, ProductKey);
    var r := BestAppreciation(sets, src, now, minMonths, maxMonths, rarity, cardType, 0, minPrice);
    UniqFromComplete(candidates, ProductKey, {});
    forall x | x in candidates ensures exists y | y in r :: y.productId == x.productId {
      var y :| y in u && ProductKey(y) == ProductKey(x);
      assert y in multiset(u);
      assert y in multiset(r);
    }
  }

  /** Every ranked listing is a listing of a catalogued set inside the month
      window. */
  lemma BestFromWindow(sets: seq<SetInfo>, src: DataSource, now: real, minMonths: int, maxMonths: int,
                       rarity: Rarity, cardType: CardType, limit: int, minPrice: int)
    ensures var r := BestAppreciation(sets, src, now, minMonths, maxMonths, rarity, cardType, limit, minPrice);
      forall x | x in r :: exists k | 0 <= k < |sets| ::
        && minMonths <= MonthsFromToday(sets[k].date, now) <= maxMonths
        && x in AggregateSpec(sets, src, now, sets[k].name, rarity, cardType, minPrice)
  {
    var candidates := Candidates(sets, src, now, minMonths, maxMonths, rarity, cardType, minPrice, |sets|);
    var u := UniqBy(candidates, ProductKey);
    var ranked := OrderByDesc(u, IncreaseKey);
    var r := BestAppreciation(sets, src, now, minMonths, maxMonths, rarity, cardType, limit, minPrice);
    CandidatesInWindow(sets, src, now, minMonths, maxMonths, rarity, cardType, minPrice, |sets|);
    UniqFromMembers(candidates, ProductKey, {});
    assert r <= ranked;
    forall x | x in r ensures x in candidates {
      var k :| 0 <= k < |r| && r[k] == x;
      assert x == ranked[k];
      assert x in multiset(ranked);
      assert x in u;
    }
  }

  /** `getBestCardAppreciation(minMonths, maxMonths, rarity, cardType, limit,
      minPrice)` over the set catalogue `sets`. */
  method GetBestCardAppreciation(sets: seq<SetInfo>, src: DataSource, now: real, minMonths: int, maxMonths: int,
                                 rarity: Rarity, cardType: CardType, limit: int, minPrice: int)
    returns (setData: seq<MarketInfo>)
    ensures setData == BestAppreciation(sets, src, now, minMonths, maxMonths, rarity, cardType, limit, minPrice)
    ensures Ranking(setData, limit)
    ensures LimitedTo(setData, BestAppreciation(sets, src, now, minMonths, maxMonths, rarity, cardType, 0, minPrice), limit)
  {
    setData := [];
    for i := 0 to |sets|
      invariant setData == Candidates(sets, src, now, minMonths, maxMonths, rarity, cardType, minPrice, i)
    {
      CandidatesNext(sets, src, now, minMonths, maxMonths, rarity, cardType, minPrice, i);
      var setInfo := sets[i];
      var monthsFromToday := MonthsFromToday(setInfo.date, now);
      if monthsFromToday > maxMonths || monthsFromToday < minMonths {
        continue;
      }
      var marketInfo := AggregatePrices(sets, src, now, setInfo.name, rarity, cardType, minPrice);
      ghost var before := setData;
      for j := 0 to |marketInfo|
        invariant setData == before + marketInfo[..j]
      {
        setData := setData + [marketInfo[j]];
      }
      assert marketInfo[..|marketInfo|] == marketInfo;
    }
    setData := OrderByDesc(UniqBy(setData, ProductKey), IncreaseKey);
    if limit != 0 {
      setData := SliceTo(setData, limit);
    }
    BestRanked(sets, src, now, minMonths, maxMonths, rarity, cardType, limit, minPrice);
  }
}
