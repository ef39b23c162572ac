/** The catalogue client of src/api.ts: three lookups in front of the
    catalogue service, each with a cache that is consulted before any request
    is sent. Product and price lookups send the ids the cache cannot answer
    in batches of at most one hundred; the price cache only ever keeps the
    current day. The service itself is an `Endpoint` of functions, and every
    request the client sends is appended to `requests`. */
module Api {
  import opened Types
  import opened Lodash
  import opened History

  /** The service's answers: search results, product records, and price
      records of every finish. */
  datatype Endpoint = Endpoint(
    search: (Rarity, string) -> seq<int>,
    products: seq<int> -> seq<ProductInfo>,
    prices: seq<int> -> seq<PriceInfo>)

  datatype Lookup = ProductLookup | PriceLookup

  /** A request sent to the service. */
  datatype Request = SearchRequest(rarity: Rarity, setName: string) | LookupRequest(lookup: Lookup, ids: seq<int>)

  /** The most ids sent in one product or price request. */
  const BatchSize: int := 100

  /** The search cache key `${set}-${rarity}`. */
  function SearchKey(setName: string, rarity: Rarity): (k: string)
    ensures |k| > |setName| && k[..|setName|] == setName && k[|setName|] == '-'
    ensures k[|setName| + 1..] == RarityName(rarity)
  {
    var k := setName + "-" + RarityName(rarity);
    assert k[..|setName|] == setName;
    assert k[|setName| + 1..] == RarityName(rarity);
    k
  }

  /** The searches of one set under two rarities are cached apart. */
  lemma SearchKeyDistinguishesRarity(setName: string, r1: Rarity, r2: Rarity)
    ensures SearchKey(setName, r1) == SearchKey(setName, r2) <==> r1 == r2
  {
    if SearchKey(setName, r1) == SearchKey(setName, r2) {
      assert RarityName(r1) == SearchKey(setName, r1)[|setName| + 1..];
      assert RarityName(r1) == RarityName(r2);
      match r1
      case Common => assert RarityName(r2)[0] == 'C';
      case Rare => assert RarityName(r2)[0] == 'R';
      case HoloRare => assert RarityName(r2)[0] == 'H';
      case SecretRare => assert RarityName(r2)[0] == 'S';
      case UltraRare => assert RarityName(r2)[0] == 'U';
    }
  }

  function Min(a: int, b: int): int
  {
    if a <= b then a else b
  }

  function Truthy<T>(cache: map<int, Option<T>>, keys: seq<int>): (r: seq<int>)
    ensures forall x :: x in r <==> x in keys && x in cache && cache[x].Some?
    ensures |r| <= |keys|
  {
    if keys == [] then []
    else
      var rest := Truthy(cache, keys[1..]);
      assert forall x :: x in keys[1..] ==> x in keys;
      assert forall x :: x in keys ==> x == keys[0] || x in keys[1..];
      if keys[0] in cache && cache[keys[0]].Some? then [keys[0]] + rest else rest
  }

  /** `foundIds`: the cached ids whose value is truthy, in key order. */
  function Found<T>(cache: map<int, Option<T>>): (found: seq<int>)
    ensures forall x :: x in found <==> x in cache && cache[x].Some?
  {
    Truthy(cache, SortedIds(cache.Keys))
  }

  /** `_.map(foundIds, (id) => cache[id])`. */
  function CachedValues<T>(cache: map<int, Option<T>>, found: seq<int>): (r: seq<T>)
    requires forall i | 0 <= i < |found| :: found[i] in cache && cache[found[i]].Some?
    ensures |r| == |found|
    ensures forall i | 0 <= i < |found| :: Some(r[i]) == cache[found[i]]
  {
    seq(|found|, i requires 0 <= i < |found| => cache[found[i]].value)
  }

  /** `_.reject(cardIds, (id) => _.some(foundIds, (fid) => fid === id.toString()))`:
      the requested ids the cache cannot answer, in request order. */
  function Reject(ids: seq<int>, found: seq<int>): (r: seq<int>)
    ensures forall x :: x in r <==> x in ids && x !in found
    ensures |r| <= |ids|
  {
    if ids == [] then []
    else
      var rest := Reject(ids[1..], found);
      assert forall x :: x in ids[1..] ==> x in ids;
      assert forall x :: x in ids ==> x == ids[0] || x in ids[1..];
      if ids[0] in found then rest else [ids[0]] + rest
  }

  /** The remaining ids keep request order and multiplicity: rejecting from
      a concatenation concatenates what is rejected from each part. */
  lemma {:induction false} RejectAppend(a: seq<int>, b: seq<int>, found: seq<int>)
    ensures Reject(a + b, found) == Reject(a, found) + Reject(b, found)
  {
    if a == [] {
      assert a + b == b;
    } else {
      var x, tail := a[0], a[1..];
      assert a == [x] + tail;
      assert a + b == [x] + (tail + b);
      RejectCons(x, tail + b, found);
      RejectCons(x, tail, found);
      RejectAppend(tail, b, found);
      var head := if x in found then [] else [x];
      AppendAssoc(head, Reject(tail, found), Reject(b, found));
    }
  }

  lemma RejectCons(x: int, s: seq<int>, found: seq<int>)
    ensures Reject([x] + s, found) == (if x in found then [] else [x]) + Reject(s, found)
  {
    assert ([x] + s)[0] == x && ([x] + s)[1..] == s;
  }

  /** Nothing found, nothing rejected. */
  lemma {:induction false} RejectNothing(ids: seq<int>)
    ensures Reject(ids, []) == ids
  {
    if ids != [] {
      RejectNothing(ids[1..]);
      assert ids == [ids[0]] + ids[1..];
    }
  }

  /** `_.filter(prices, (pi) => pi.subTypeName === cardType)`. */
  function OfType(prices: seq<PriceInfo>, cardType: CardType): (r: seq<PriceInfo>)
    ensures forall p | p in r :: p in prices && p.subTypeName == cardType
    ensures forall p | p in prices && p.subTypeName == cardType :: p in r
    ensures |r| <= |prices|
  {
    if prices == [] then []
    else
      var rest := OfType(prices[..|prices| - 1], cardType);
      var p := prices[|prices| - 1];
      assert forall q | q in prices :: q == p || q in prices[..|prices| - 1];
      rest + if p.subTypeName == cardType then [p] else []
  }

  /** `cardIds.slice((i - 1) * 100, i * 100)`, the `i`-th batch. */
  function Batch(ids: seq<int>, i: int): (b: seq<int>)
    requires 1 <= i <= |ids| / BatchSize + 1
    ensures |b| <= BatchSize
  {
    ids[(i - 1) * BatchSize .. Min(i * BatchSize, |ids|)]
  }

  /** The batches a lookup sends: all ids at once when there are fewer than
      one hundred, otherwise `⌊n/100⌋ + 1` slices of one hundred, the last one
      possibly short or empty. */
  function Batches(ids: seq<int>): (bs: seq<seq<int>>)
    ensures |ids| < BatchSize ==> bs == [ids]
    ensures |ids| >= BatchSize ==> |bs| == |ids| / BatchSize + 1
    ensures forall b | b in bs :: |b| <= BatchSize
  {
    if |ids| < BatchSize then [ids]
    else seq(|ids| / BatchSize + 1, k requires 0 <= k < |ids| / BatchSize + 1 => Batch(ids, k + 1))
  }

  /** The batches laid end to end. */
  function Concat(bs: seq<seq<int>>): seq<int>
  {
    if bs == [] then [] else Concat(bs[..|bs| - 1]) + bs[|bs| - 1]
  }

  lemma ConcatPrefix(bs: seq<seq<int>>, k: int)
    requires 0 < k <= |bs|
    ensures Concat(bs[..k]) == Concat(bs[..k - 1]) + bs[k - 1]
  {
    assert bs[..k][..k - 1] == bs[..k - 1];
  }

  lemma BatchBounds(ids: seq<int>, k: int)
    requires |ids| >= BatchSize
    requires 0 < k <= |ids| / BatchSize + 1
    ensures 0 <= (k - 1) * BatchSize <= Min(k * BatchSize, |ids|) <= |ids|
    ensures Min((k - 1) * BatchSize, |ids|) == (k - 1) * BatchSize
    ensures Batches(ids)[k - 1] == ids[(k - 1) * BatchSize .. Min(k * BatchSize, |ids|)]
  {
  }

  lemma {:induction false} BatchesPrefix(ids: seq<int>, k: int)
    requires |ids| >= BatchSize
    requires 0 <= k <= |ids| / BatchSize + 1
    ensures Concat(Batches(ids)[..k]) == ids[..Min(k * BatchSize, |ids|)]
  {
    if k > 0 {
      var bs := Batches(ids);
      var lo, hi := (k - 1) * BatchSize, Min(k * BatchSize, |ids|);
      BatchesPrefix(ids, k - 1);
      BatchBounds(ids, k);
      assert Concat(bs[..k - 1]) == ids[..lo];
      ConcatPrefix(bs, k);
      assert bs[k - 1] == ids[lo..hi];
      assert ids[..hi] == ids[..lo] + ids[lo..hi];
    }
  }

  /** The batches cover the ids exactly: laid end to end they are the ids,
      in order. */
  lemma BatchesConcat(ids: seq<int>)
    ensures Concat(Batches(ids)) == ids
  {
    var bs := Batches(ids);
    if |ids| < BatchSize {
      assert bs[..0] == [];
      assert Concat(bs) == Concat(bs[..0]) + ids;
    } else {
      var n := |ids| / BatchSize + 1;
      BatchesPrefix(ids, n);
      assert bs[..n] == bs;
      assert Min(n * BatchSize, |ids|) == |ids|;
      assert ids[..|ids|] == ids;
    }
  }

  /** Every id sent in a batch is one of the ids. */
  lemma BatchMembers(ids: seq<int>, b: seq<int>, x: int)
    requires b in Batches(ids) && x in b
    ensures x in ids
  {
    if |ids| >= BatchSize {
      var k :| 0 <= k < |Batches(ids)| && Batches(ids)[k] == b;
      assert b == Batch(ids, k + 1);
    }
  }

  /** What the batches bring back: an empty batch is never sent and adds
      nothing. */
  function FetchAll<T>(fetch: seq<int> -> seq<T>, bs: seq<seq<int>>): seq<T>
  {
    if bs == [] then []
    else
      var b := bs[|bs| - 1];
      FetchAll(fetch, bs[..|bs| - 1]) + if b == [] then [] else fetch(b)
  }

  /** The requests the batches cause: one per non-empty batch. */
  function RequestsFor(lookup: Lookup, bs: seq<seq<int>>): (rs: seq<Request>)
    ensures |rs| <= |bs|
    ensures forall r | r in rs :: r.LookupRequest? && r.lookup == lookup && r.ids in bs && r.ids != []
  {
    if bs == [] then []
    else
      var b := bs[|bs| - 1];
      var prior := RequestsFor(lookup, bs[..|bs| - 1]);
      assert forall c | c in bs[..|bs| - 1] :: c in bs;
      prior + if b == [] then [] else [LookupRequest(lookup, b)]
  }

  /** Fewer than one hundred ids cost at most one request, carrying all of
      them; no ids cost none. */
  lemma SmallLookup(lookup: Lookup, ids: seq<int>)
    requires |ids| < BatchSize
    ensures RequestsFor(lookup, Batches(ids)) == if ids == [] then [] else [LookupRequest(lookup, ids)]
  {
    assert [ids][..0] == [];
  }

  /** A price lookup keeps the finish asked for. */
  function PriceFetch(ep: Endpoint, cardType: CardType): seq<int> -> seq<PriceInfo>
  {
    (ids: seq<int>) => OfType(ep.prices(ids), cardType)
  }

  lemma {:induction false} FetchedPricesOfType(ep: Endpoint, cardType: CardType, bs: seq<seq<int>>)
    ensures forall p | p in FetchAll(PriceFetch(ep, cardType), bs) :: p.subTypeName == cardType
  {
    if bs != [] {
      FetchedPricesOfType(ep, cardType, bs[..|bs| - 1]);
      var b := bs[|bs| - 1];
      if b != [] {
        assert PriceFetch(ep, cardType)(b) == OfType(ep.prices(b), cardType);
      }
    }
  }

  /** `getProductInfo(cardIds)`'s result: every truthy cached product, asked
      for or not, then what the batches of the remaining ids bring back. */
  function ProductResult(cache: map<int, Option<ProductInfo>>, cardIds: seq<int>, ep: Endpoint): seq<ProductInfo>
  {
    var found := Found(cache);
    CachedValues(cache, found) + FetchAll(ep.products, Batches(Reject(cardIds, found)))
  }

  /** `getPriceInfo(cardIds, cardType)`'s result over today's price cache:
      the cached prices of that finish, then the fetched ones of that finish. */
  function PriceResult(day: map<int, Option<PriceInfo>>, cardIds: seq<int>, cardType: CardType, ep: Endpoint): seq<PriceInfo>
  {
    var found := Found(day);
    OfType(CachedValues(day, found), cardType) + FetchAll(PriceFetch(ep, cardType), Batches(Reject(cardIds, found)))
  }

  /** The product lookup answers from the cache before anything else, and no
      id the cache answers is sent to the service. */
  lemma ProductsCachedFirst(cache: map<int, Option<ProductInfo>>, cardIds: seq<int>, ep: Endpoint)
    ensures var r := ProductResult(cache, cardIds, ep);
      forall id | id in cache && cache[id].Some? :: cache[id].value in r[..|Found(cache)|]
    ensures forall b, x | b in Batches(Reject(cardIds, Found(cache))) && x in b ::
      x in cardIds && !(x in cache && cache[x].Some?)
  {
    var found := Found(cache);
    var r := ProductResult(cache, cardIds, ep);
    var cached := CachedValues(cache, found);
    assert r[..|found|] == cached;
    forall id | id in cache && cache[id].Some? ensures cache[id].value in r[..|found|] {
      var i :| 0 <= i < |found| && found[i] == id;
      assert Some(cached[i]) == cache[id];
    }
    forall b, x | b in Batches(Reject(cardIds, found)) && x in b
      ensures x in cardIds && !(x in cache && cache[x].Some?)
    {
      BatchMembers(Reject(cardIds, found), b, x);
    }
  }

  /** Every price the lookup returns, cached or fetched, is of the finish
      asked for. */
  lemma PricesOfType(day: map<int, Option<PriceInfo>>, cardIds: seq<int>, cardType: CardType, ep: Endpoint)
    ensures forall p | p in PriceResult(day, cardIds, cardType, ep) :: p.subTypeName == cardType
  {
    var found := Found(day);
    FetchedPricesOfType(ep, cardType, Batches(Reject(cardIds, found)));
  }

  /** `saveProducts`: each remaining id is stored with its product in the
      result, or with `undefined` when there is none. */
  function StoredProducts(cache: map<int, Option<ProductInfo>>, ids: seq<int>, info: seq<ProductInfo>)
    : (r: map<int, Option<ProductInfo>>)
    ensures forall id :: id in r <==> id in cache || id in ids
    ensures forall id | id in ids :: r[id] == ProductFor(info, id)
    ensures forall id | id in cache && id !in ids :: r[id] == cache[id]
  {
    if ids == [] then cache
    else
      var id := ids[|ids| - 1];
      assert forall x | x in ids :: x == id || x in ids[..|ids| - 1];
      StoredProducts(cache, ids[..|ids| - 1], info)[id := ProductFor(info, id)]
  }

  /** The loop of `savePrices` over today's cache. */
  function StoredPrices(day: map<int, Option<PriceInfo>>, ids: seq<int>, info: seq<PriceInfo>)
    : (r: map<int, Option<PriceInfo>>)
    ensures forall id :: id in r <==> id in day || id in ids
    ensures forall id | id in ids :: r[id] == PriceFor(info, id)
    ensures forall id | id in day && id !in ids :: r[id] == day[id]
  {
    if ids == [] then day
    else
      var id := ids[|ids| - 1];
      assert forall x | x in ids :: x == id || x in ids[..|ids| - 1];
      StoredPrices(day, ids[..|ids| - 1], info)[id := PriceFor(info, id)]
  }

  /** Today's price cache, created empty when missing. */
  function Today(cache: map<int, map<int, Option<PriceInfo>>>, today: int): map<int, Option<PriceInfo>>
  {
    if today in cache then cache[today] else map[]
  }

  /** The price cache after `savePrices`: today's entries updated and every
      other day deleted. */
  function PricesSaved(cache: map<int, map<int, Option<PriceInfo>>>, today: int, ids: seq<int>, info: seq<PriceInfo>)
    : (r: map<int, map<int, Option<PriceInfo>>>)
    ensures r.Keys == {today}
    ensures forall id | id in ids :: id in r[today] && r[today][id] == PriceFor(info, id)
    ensures forall id | id in Today(cache, today) && id !in ids :: id in r[today] && r[today][id] == Today(cache, today)[id]
  {
    map[today := StoredPrices(Today(cache, today), ids, info)]
  }

  lemma FetchAllNext<T>(fetch: seq<int> -> seq<T>, lookup: Lookup, bs: seq<seq<int>>, i: int)
    requires 0 <= i < |bs|
    ensures FetchAll(fetch, bs[..i + 1]) == FetchAll(fetch, bs[..i]) + if bs[i] == [] then [] else fetch(bs[i])
    ensures RequestsFor(lookup, bs[..i + 1]) == RequestsFor(lookup, bs[..i]) + if bs[i] == [] then [] else [LookupRequest(lookup, bs[i])]
  {
    assert bs[..i + 1][..i] == bs[..i];
  }

  lemma AppendAssoc<T>(a: seq<T>, b: seq<T>, c: seq<T>)
    ensures (a + b) + c == a + (b + c)
  {
  }

  class Client {
    /** `data/search-cache.json`: search key to product ids. */
    var searchCache: map<string, seq<int>>
    /** `data/product-cache.json`: product id to product, or `undefined`. */
    var productCache: map<int, Option<ProductInfo>>
    /** `data/price-cache.json`: day to product id to price, or `undefined`. */
    var priceCache: map<int, map<int, Option<PriceInfo>>>
    /** The requests sent to the service so far. */
    var requests: seq<Request>

    constructor (searchCache: map<string, seq<int>>, productCache: map<int, Option<ProductInfo>>,
                 priceCache: map<int, map<int, Option<PriceInfo>>>)
      ensures this.searchCache == searchCache && this.productCache == productCache
      ensures this.priceCache == priceCache && requests == []
    {
      this.searchCache := searchCache;
      this.productCache := productCache;
      this.priceCache := priceCache;
      requests := [];
    }

    /** `searchQuery(rarity, set)`: a cached answer is returned without a
        request; otherwise the service is asked and its answer cached. */
    method SearchQuery(rarity: Rarity, setName: string, ep: Endpoint) returns (ids: seq<int>)
      modifies this
      ensures var key := SearchKey(setName, rarity);
        if key in old(searchCache) then
          ids == old(searchCache)[key] && searchCache == old(searchCache) && requests == old(requests)
        else
          ids == ep.search(rarity, setName) && searchCache == old(searchCache)[key := ids]
          && requests == old(requests) + [SearchRequest(rarity, setName)]
      ensures productCache == old(productCache) && priceCache == old(priceCache)
    {
      var searchKey := SearchKey(setName, rarity);
      if searchKey in searchCache {
        return searchCache[searchKey];
      }
      requests := requests + [SearchRequest(rarity, setName)];
      ids := ep.search(rarity, setName);
      searchCache := searchCache[searchKey := ids];
    }

    /** `getProducts(ids)` / `getPrices(ids)`: one request, unless there is
        nothing to ask for. */
    method Send<T>(lookup: Lookup, fetch: seq<int> -> seq<T>, ids: seq<int>) returns (r: seq<T>)
      modifies this
      ensures r == if ids == [] then [] else fetch(ids)
      ensures requests == old(requests) + if ids == [] then [] else [LookupRequest(lookup, ids)]
      ensures searchCache == old(searchCache) && productCache == old(productCache) && priceCache == old(priceCache)
    {
      if |ids| == 0 {
        return [];
      }
      requests := requests + [LookupRequest(lookup, ids)];
      r := fetch(ids);
    }

    /** One turn of the batch loop: sends batch `i` and appends its result. */
    method SendBatch<T>(lookup: Lookup, fetch: seq<int> -> seq<T>, bs: seq<seq<int>>, i: nat, batch: seq<int>,
                        fetched: seq<T>, ghost sent: seq<Request>) returns (next: seq<T>)
      requires i < |bs| && batch == bs[i]
      requires fetched == FetchAll(fetch, bs[..i])
      requires requests == sent + RequestsFor(lookup, bs[..i])
      modifies this
      ensures next == FetchAll(fetch, bs[..i + 1])
      ensures requests == sent + RequestsFor(lookup, bs[..i + 1])
      ensures searchCache == old(searchCache) && productCache == old(productCache) && priceCache == old(priceCache)
    {
      FetchAllNext(fetch, lookup, bs, i);
      ghost var before := requests;
      var slice := Send(lookup, fetch, batch);
      AppendAssoc(sent, RequestsFor(lookup, bs[..i]), requests[|before|..]);
      next := fetched + slice;
    }

    /** Sends the batches of `ids` in order and appends what each brings back
        to `acc`: one request when fewer than one hundred ids remain, the
        batch loop otherwise. */
    method SendAll<T>(lookup: Lookup, fetch: seq<int> -> seq<T>, ids: seq<int>, acc: seq<T>) returns (r: seq<T>)
      modifies this
      ensures r == acc + FetchAll(fetch, Batches(ids))
      ensures requests == old(requests) + RequestsFor(lookup, Batches(ids))
      ensures searchCache == old(searchCache) && productCache == old(productCache) && priceCache == old(priceCache)
    {
      if |ids| < BatchSize {
        var bs := Batches(ids);
        FetchAllNext(fetch, lookup, bs, 0);
        assert bs[..1] == bs && bs[..0] == [];
        var res := Send(lookup, fetch, ids);
        return acc + res;
      }
      var fetched := SendBatches(lookup, fetch, ids);
      r := acc + fetched;
    }

    /** The batch loop for one hundred ids or more. */
    method SendBatches<T>(lookup: Lookup, fetch: seq<int> -> seq<T>, ids: seq<int>) returns (fetched: seq<T>)
      requires |ids| >= BatchSize
      modifies this
      ensures fetched == FetchAll(fetch, Batches(ids))
      ensures requests == old(requests) + RequestsFor(lookup, Batches(ids))
      ensures searchCache == old(searchCache) && productCache == old(productCache) && priceCache == old(priceCache)
    {
      var bs := Batches(ids);
      ghost var sent := requests;
      fetched := [];
      for i := 1 to |ids| / BatchSize + 2
        invariant fetched == FetchAll(fetch, bs[..i - 1])
        invariant requests == sent + RequestsFor(lookup, bs[..i - 1])
        invariant searchCache == old(searchCache) && productCache == old(productCache) && priceCache == old(priceCache)
      {
        fetched := SendBatch(lookup, fetch, bs, i - 1, Batch(ids, i), fetched, sent);
      }
      assert bs[..|bs|] == bs;
    }

    /** `saveProducts()`: stores what the result says about each remaining id. */
    method SaveProducts(ids: seq<int>, productInfo: seq<ProductInfo>)
      modifies this
      ensures productCache == StoredProducts(old(productCache), ids, productInfo)
      ensures searchCache == old(searchCache) && priceCache == old(priceCache) && requests == old(requests)
    {
      var cache := productCache;
      for k := 0 to |ids|
        invariant cache == StoredProducts(old(productCache), ids[..k], productInfo)
      {
        assert ids[..k + 1][..k] == ids[..k];
        cache := cache[ids[k] := ProductFor(productInfo, ids[k])];
      }
      assert ids[..|ids|] == ids;
      productCache := cache;
    }

    /** `getProductInfo(cardIds)`. */
    method GetProductInfo(cardIds: seq<int>, ep: Endpoint) returns (productInfo: seq<ProductInfo>)
      modifies this
      ensures productInfo == ProductResult(old(productCache), cardIds, ep)
      ensures var rest := Reject(cardIds, Found(old(productCache)));
        && productCache == StoredProducts(old(productCache), rest, productInfo)
        && requests == old(requests) + RequestsFor(ProductLookup, Batches(rest))
      ensures searchCache == old(searchCache) && priceCache == old(priceCache)
    {
      var foundIds := Found(productCache);
      var ids := Reject(cardIds, foundIds);
      productInfo := SendAll(ProductLookup, ep.products, ids, CachedValues(productCache, foundIds));
      SaveProducts(ids, productInfo);
    }

    /** `savePrices()`: stores what the result says about each remaining id
        under today, then deletes every other day. */
    method SavePrices(today: int, ids: seq<int>, priceInfo: seq<PriceInfo>)
      requires today in priceCache
      modifies this
      ensures priceCache == PricesSaved(old(priceCache), today, ids, priceInfo)
      ensures searchCache == old(searchCache) && productCache == old(productCache) && requests == old(requests)
    {
      var day := priceCache[today];
      ghost var start := day;
      for k := 0 to |ids|
        invariant day == StoredPrices(start, ids[..k], priceInfo)
      {
        assert ids[..k + 1][..k] == ids[..k];
        day := day[ids[k] := PriceFor(priceInfo, ids[k])];
      }
      assert ids[..|ids|] == ids;
      priceCache := priceCache[today := day];
      DropOtherDays(today);
    }

    /** `_.each(oldDays, (day) => delete priceCache[day])`. */
    method DropOtherDays(today: int)
      requires today in priceCache
      modifies this
      ensures priceCache == map[today := old(priceCache)[today]]
      ensures searchCache == old(searchCache) && productCache == old(productCache) && requests == old(requests)
    {
      var cache := priceCache;
      var oldDays := cache.Keys - {today};
      while oldDays != {}
        invariant cache.Keys <= oldDays + {today} && today in cache
        invariant cache[today] == old(priceCache)[today]
        decreases oldDays
      {
        var d := Least(oldDays);
        cache := cache - {d};
        oldDays := oldDays - {d};
      }
      priceCache := cache;
    }

    /** `getPriceInfo(cardIds, cardType)` on day `today`. */
    method GetPriceInfo(cardIds: seq<int>, cardType: CardType, ep: Endpoint, today: int) returns (priceInfo: seq<PriceInfo>)
      modifies this
      ensures priceInfo == PriceResult(Today(old(priceCache), today), cardIds, cardType, ep)
      ensures var rest := Reject(cardIds, Found(Today(old(priceCache), today)));
        && priceCache == PricesSaved(old(priceCache), today, rest, priceInfo)
        && requests == old(requests) + RequestsFor(PriceLookup, Batches(rest))
      ensures searchCache == old(searchCache) && productCache == old(productCache)
    {
      if today !in priceCache {
        priceCache := priceCache[today := map[]];
      }
      var day := priceCache[today];
      assert day == Today(old(priceCache), today);
      var foundIds := Found(day);
      var ids := Reject(cardIds, foundIds);
      priceInfo := SendAll(PriceLookup, PriceFetch(ep, cardType), ids, OfType(CachedValues(day, foundIds), cardType));
      SavePrices(today, ids, priceInfo);
    }
  }
}
