/** The price ledger and its daily ingestion (`saveHistoricalData` in
    src/util.ts): every fetched card gets a product record, created once, and
    at most one price entry per day. */
module History {
  import opened Types
  import opened Lodash

  /** `_.find(priceInfo, (p) => p.productId === id)`: the first price of `id`. */
  function PriceFor(prices: seq<PriceInfo>, id: int): (r: Option<PriceInfo>)
    ensures r.Some? ==> r.value in prices && r.value.productId == id
    ensures r.None? <==> forall k | 0 <= k < |prices| :: prices[k].productId != id
    ensures r.Some? ==> FirstMatch(prices, (p: PriceInfo) => p.productId == id, r.value)
  {
    Find(prices, (p: PriceInfo) => p.productId == id)
  }

  /** `_.find(productInfo, (p) => p.productId === id)`: the first product of `id`. */
  function ProductFor(products: seq<ProductInfo>, id: int): (r: Option<ProductInfo>)
    ensures r.Some? ==> r.value in products && r.value.productId == id
    ensures r.None? <==> forall k | 0 <= k < |products| :: products[k].productId != id
    ensures r.Some? ==> FirstMatch(products, (p: ProductInfo) => p.productId == id, r.value)
  {
    Find(products, (p: ProductInfo) => p.productId == id)
  }

  /** `_.find(sets, (s) => s.name === name)`: the first catalogue entry of a set. */
  function SetNamed(sets: seq<SetInfo>, name: string): (r: Option<SetInfo>)
    ensures r.Some? ==> r.value in sets && r.value.name == name
    ensures r.None? <==> forall k | 0 <= k < |sets| :: sets[k].name != name
    ensures r.Some? ==> FirstMatch(sets, (s: SetInfo) => s.name == name, r.value)
  {
    Find(sets, (s: SetInfo) => s.name == name)
  }

  /** `_.find(history, (h) => h.date === date)`: the first entry of a day. */
  function EntryOn(history: seq<HistoryItem>, date: int): (r: Option<HistoryItem>)
    ensures r.Some? ==> r.value in history && r.value.date == date
    ensures r.None? <==> forall k | 0 <= k < |history| :: history[k].date != date
    ensures r.Some? ==> FirstMatch(history, (h: HistoryItem) => h.date == date, r.value)
  {
    Find(history, (h: HistoryItem) => h.date == date)
  }

  lemma EntryOnAppend(history: seq<HistoryItem>, e: HistoryItem, date: int)
    ensures EntryOn(history + [e], date) ==
      if EntryOn(history, date).Some? then EntryOn(history, date)
      else if e.date == date then Some(e) else None
  {
    FindAppend(history, e, (h: HistoryItem) => h.date == date);
  }

  /** What one run of the ingestion works from: the finish it records, the
      prices and product names fetched for the cards, and the day. */
  datatype Fetched = Fetched(cardType: CardType, prices: seq<PriceInfo>, products: seq<ProductInfo>, today: int)

  /** Both a price and a product name were fetched for `id`. */
  predicate HasData(f: Fetched, id: int)
  {
    PriceFor(f.prices, id).Some? && ProductFor(f.products, id).Some?
  }

  /** The entry the ingestion appends for `id`. */
  function TodayEntry(f: Fetched, id: int): (e: HistoryItem)
    requires PriceFor(f.prices, id).Some?
    ensures e.date == f.today && e.cardType == f.cardType
  {
    HistoryItem(f.today, PriceFor(f.prices, id).value.marketPrice, f.cardType)
  }

  /** What `saveHistoricalData(refs, cardType)` fetches on `today`. */
  function FetchedFor(src: DataSource, refs: seq<CardRef>, cardType: CardType, today: int): Fetched
  {
    Fetched(cardType, src.getPriceInfo(Ids(refs), cardType), src.getProductInfo(Ids(refs)), today)
  }

  /** One iteration of the ingestion loop: skip a card without data, create
      its record if missing, fill an empty set name, and append today's price
      unless the record already has an entry for today. */
  function IngestCard(h: Ledger, card: CardRef, f: Fetched): Ledger
  {
    if !HasData(f, card.id) then h
    else
      var created := if card.id in h then h[card.id]
        else HistoryCard(ProductFor(f.products, card.id).value.name, card.setName, card.id, []);
      var named := if created.setName == "" then created.(setName := card.setName) else created;
      if EntryOn(named.history, f.today).Some? then h[card.id := named]
      else h[card.id := named.(history := named.history + [TodayEntry(f, card.id)])]
  }

  /** The whole ingestion loop over `cards`, in order. */
  function IngestAll(h: Ledger, cards: seq<CardRef>, f: Fetched): Ledger
  {
    if cards == [] then h
    else IngestCard(IngestAll(h, cards[..|cards| - 1], f), cards[|cards| - 1], f)
  }

  lemma IngestAllStep(h: Ledger, cards: seq<CardRef>, i: int, f: Fetched)
    requires 0 <= i < |cards|
    ensures IngestAll(h, cards[..i + 1], f) == IngestCard(IngestAll(h, cards[..i], f), cards[i], f)
  {
    assert cards[..i + 1][..i] == cards[..i];
  }

  /** The ledger the program keeps in memory between loading and saving it. */
  class HistoryStore {
    var cards: Ledger

    constructor (cards: Ledger)
      ensures this.cards == cards
    {
      this.cards := cards;
    }

    /** `saveHistoricalData(cards, cardType, history)`: fetch prices and
        names for the ids of `refs`, then ingest them card by card. */
    method SaveHistoricalData(refs: seq<CardRef>, cardType: CardType, src: DataSource, today: int)
      modifies this
      ensures cards == IngestAll(old(cards), refs, FetchedFor(src, refs, cardType, today))
    {
      var cardIds := Ids(refs);
      var priceInfo := src.getPriceInfo(cardIds, cardType);
      var productInfo := src.getProductInfo(cardIds);
      ghost var f := FetchedFor(src, refs, cardType, today);
      assert f == Fetched(cardType, priceInfo, productInfo, today);
      ghost var start := cards;
      var history := cards;
      for i := 0 to |cardIds|
        invariant history == IngestAll(start, refs[..i], f)
      {
        IngestAllStep(start, refs, i, f);
        history := IngestOne(history, refs[i], priceInfo, productInfo, cardType, today);
      }
      cards := history;
      assert refs[..|cardIds|] == refs;
    }
  }

  /** The body of the ingestion loop for one card. */
  method IngestOne(history: Ledger, card: CardRef, priceInfo: seq<PriceInfo>, productInfo: seq<ProductInfo>,
                   cardType: CardType, today: int)
    returns (h: Ledger)
    ensures h == IngestCard(history, card, Fetched(cardType, priceInfo, productInfo, today))
  {
    ghost var f := Fetched(cardType, priceInfo, productInfo, today);
    h := history;
    var cardPriceInfo := PriceFor(priceInfo, card.id);
    var cardProductInfo := ProductFor(productInfo, card.id);
    if cardPriceInfo.None? || cardProductInfo.None? {
      assert !HasData(f, card.id);
      return;
    }
    assert HasData(f, card.id);
    ghost var created := if card.id in history then history[card.id]
      else HistoryCard(cardProductInfo.value.name, card.setName, card.id, []);
    ghost var named := if created.setName == "" then created.(setName := card.setName) else created;
    var productKey := card.id;
    if productKey !in h {
      h := h[productKey := HistoryCard(cardProductInfo.value.name, card.setName, card.id, [])];
    }
    if h[productKey].setName == "" {
      h := h[productKey := h[productKey].(setName := card.setName)];
    }
    assert h == history[card.id := named];
    if EntryOn(h[productKey].history, today).Some? {
      return;
    }
    var entry := HistoryItem(today, cardPriceInfo.value.marketPrice, cardType);
    assert entry == TodayEntry(f, card.id);
    h := h[productKey := h[productKey].(history := h[productKey].history + [entry])];
  }

  // ---------------------------------------------------------------------
  // Idempotence within a day

  /** Ingesting `card` again changes nothing. */
  ghost predicate Settled(h: Ledger, card: CardRef, f: Fetched)
  {
    !HasData(f, card.id) ||
    (card.id in h
     && (h[card.id].setName != "" || card.setName == "")
     && EntryOn(h[card.id].history, f.today).Some?)
  }

  lemma SettledIsFixed(h: Ledger, card: CardRef, f: Fetched)
    requires Settled(h, card, f)
    ensures IngestCard(h, card, f) == h
  {
  }

  lemma IngestCardSettles(h: Ledger, card: CardRef, c: CardRef, f: Fetched)
    requires c == card || Settled(h, c, f)
    ensures Settled(IngestCard(h, card, f), c, f)
  {
    var h' := IngestCard(h, card, f);
    if HasData(f, card.id) && HasData(f, c.id) && c.id == card.id {
      var created := if card.id in h then h[card.id]
        else HistoryCard(ProductFor(f.products, card.id).value.name, card.setName, card.id, []);
      var named := if created.setName == "" then created.(setName := card.setName) else created;
      if EntryOn(named.history, f.today).None? {
        EntryOnAppend(named.history, TodayEntry(f, card.id), f.today);
      }
    }
  }

  lemma {:induction false} IngestAllSettles(h: Ledger, cards: seq<CardRef>, f: Fetched)
    ensures forall c | c in cards :: Settled(IngestAll(h, cards, f), c, f)
  {
    if cards != [] {
      var init, last := cards[..|cards| - 1], cards[|cards| - 1];
      IngestAllSettles(h, init, f);
      forall c | c in cards ensures Settled(IngestAll(h, cards, f), c, f) {
        if c != last {
          var k :| 0 <= k < |cards| && cards[k] == c;
          assert init[k] == c;
        }
        IngestCardSettles(IngestAll(h, init, f), last, c, f);
      }
    }
  }

  lemma {:induction false} IngestAllFixed(h: Ledger, cards: seq<CardRef>, f: Fetched)
    requires forall c | c in cards :: Settled(h, c, f)
    ensures IngestAll(h, cards, f) == h
  {
    if cards != [] {
      var init := cards[..|cards| - 1];
      assert forall c | c in init :: c in cards;
      IngestAllFixed(h, init, f);
      SettledIsFixed(h, cards[|cards| - 1], f);
    }
  }

  /** Running the ingestion twice on the same day with the same data leaves
      the ledger as one run left it. */
  lemma IngestIdempotent(h: Ledger, cards: seq<CardRef>, f: Fetched)
    ensures IngestAll(IngestAll(h, cards, f), cards, f) == IngestAll(h, cards, f)
  {
    IngestAllSettles(h, cards, f);
    IngestAllFixed(IngestAll(h, cards, f), cards, f);
  }

  // ---------------------------------------------------------------------
  // What one run may change

  /** How a record that existed before the run may look after it. */
  ghost predicate RecordEvolved(before: HistoryCard, after: HistoryCard, id: int, f: Fetched)
  {
    && after.name == before.name
    && after.productId == before.productId
    && (before.setName != "" ==> after.setName == before.setName)
    && (after.history == before.history
        || (HasData(f, id)
            && EntryOn(before.history, f.today).None?
            && after.history == before.history + [TodayEntry(f, id)]))
  }

  /** How a record created by the run looks after it. */
  ghost predicate RecordCreated(after: HistoryCard, id: int, f: Fetched)
  {
    && HasData(f, id)
    && after.name == ProductFor(f.products, id).value.name
    && after.productId == id
    && after.history == [TodayEntry(f, id)]
  }

  ghost predicate LedgerEvolved(h: Ledger, h': Ledger, cards: seq<CardRef>, f: Fetched)
  {
    && h.Keys <= h'.Keys
    && (forall id | id in h :: RecordEvolved(h[id], h'[id], id, f))
    && (forall id | id in h' && id !in h :: id in Ids(cards) && RecordCreated(h'[id], id, f))
    && (forall id | id in h && id !in Ids(cards) :: h'[id] == h[id])
  }

  /** The record of the ingested card itself evolves as the run allows. */
  lemma IngestedRecordEvolves(h: Ledger, mid: Ledger, cards: seq<CardRef>, card: CardRef, f: Fetched)
    requires LedgerEvolved(h, mid, cards, f)
    requires HasData(f, card.id)
    ensures var h' := IngestCard(mid, card, f);
      && card.id in h'
      && (card.id in h ==> RecordEvolved(h[card.id], h'[card.id], card.id, f))
      && (card.id !in h ==> RecordCreated(h'[card.id], card.id, f))
  {
    var id := card.id;
    var created := if id in mid then mid[id]
      else HistoryCard(ProductFor(f.products, id).value.name, card.setName, id, []);
    var named := if created.setName == "" then created.(setName := card.setName) else created;
    if EntryOn(named.history, f.today).None? && id in h {
      EntryOnAppend(h[id].history, TodayEntry(f, id), f.today);
      assert mid[id].history == h[id].history;
    }
    if id in mid && id !in h {
      assert EntryOn(mid[id].history, f.today).Some? by {
        EntryOnAppend([], TodayEntry(f, id), f.today);
      }
    }
  }

  /** Ingesting a card touches its own record and no other. */
  lemma IngestCardOthers(mid: Ledger, card: CardRef, f: Fetched)
    ensures var h' := IngestCard(mid, card, f);
      && h'.Keys == (if HasData(f, card.id) then mid.Keys + {card.id} else mid.Keys)
      && forall id | id in mid && id != card.id :: h'[id] == mid[id]
  {
  }

  lemma IngestCardEvolves(h: Ledger, mid: Ledger, cards: seq<CardRef>, card: CardRef, f: Fetched)
    requires LedgerEvolved(h, mid, cards, f)
    ensures LedgerEvolved(h, IngestCard(mid, card, f), cards + [card], f)
  {
    var h' := IngestCard(mid, card, f);
    IdsAppend(cards, [card]);
    assert Ids(cards + [card]) == Ids(cards) + [card.id];
    IngestCardOthers(mid, card, f);
    if HasData(f, card.id) {
      IngestedRecordEvolves(h, mid, cards, card, f);
      forall id | id in h ensures RecordEvolved(h[id], h'[id], id, f) {
      }
      forall id | id in h' && id !in h ensures id in Ids(cards + [card]) && RecordCreated(h'[id], id, f) {
      }
    }
  }

  lemma {:induction false} IngestAllEvolves(h: Ledger, cards: seq<CardRef>, f: Fetched)
    ensures LedgerEvolved(h, IngestAll(h, cards, f), cards, f)
  {
    if cards == [] {
    } else {
      var init, last := cards[..|cards| - 1], cards[|cards| - 1];
      IngestAllEvolves(h, init, f);
      IngestCardEvolves(h, IngestAll(h, init, f), init, last, f);
      assert init + [last] == cards;
    }
  }

  /** The frame of one run: records are never removed, a card without
      fetched data is skipped, a record not named by the run is untouched,
      name and product id never change, a non-empty set name is never
      overwritten, and each history keeps its old entries as a prefix and
      gains at most one entry, dated today and only if it had none for today. */
  lemma IngestFrame(h: Ledger, cards: seq<CardRef>, f: Fetched)
    ensures var h' := IngestAll(h, cards, f);
      && h.Keys <= h'.Keys
      && (forall id | id in h' && id !in h :: id in Ids(cards) && HasData(f, id))
      && (forall id | id in h && id !in Ids(cards) :: h'[id] == h[id])
      && (forall id | id in h ::
            && h'[id].name == h[id].name
            && h'[id].productId == h[id].productId
            && (h[id].setName != "" ==> h'[id].setName == h[id].setName)
            && h[id].history <= h'[id].history
            && |h'[id].history| <= |h[id].history| + 1)
      && (forall id | id in h' && id !in h ::
            h'[id].productId == id && h'[id].name == ProductFor(f.products, id).value.name)
      && (forall id | id in h' ::
            var n := if id in h then |h[id].history| else 0;
            n < |h'[id].history| ==>
              HasData(f, id) && forall k | n <= k < |h'[id].history| :: h'[id].history[k] == TodayEntry(f, id))
  {
    IngestAllEvolves(h, cards, f);
  }

  /** After a run, every card with fetched data has a record with an entry
      for today. */
  lemma IngestRecordsToday(h: Ledger, cards: seq<CardRef>, f: Fetched)
    ensures var h' := IngestAll(h, cards, f);
      forall c | c in cards && HasData(f, c.id) :: c.id in h' && EntryOn(h'[c.id].history, f.today).Some?
  {
    IngestAllSettles(h, cards, f);
  }

  // ---------------------------------------------------------------------
  // At most one entry per day

  ghost predicate DistinctDates(history: seq<HistoryItem>)
  {
    forall i, j | 0 <= i < j < |history| :: history[i].date != history[j].date
  }

  ghost predicate OneEntryPerDay(h: Ledger)
  {
    forall id | id in h :: DistinctDates(h[id].history)
  }

  /** Ingestion never gives a record two entries for the same day. */
  lemma IngestKeepsOneEntryPerDay(h: Ledger, cards: seq<CardRef>, f: Fetched)
    requires OneEntryPerDay(h)
    ensures OneEntryPerDay(IngestAll(h, cards, f))
  {
    var h' := IngestAll(h, cards, f);
    IngestAllEvolves(h, cards, f);
    forall id | id in h' ensures DistinctDates(h'[id].history) {
      if id in h && h'[id].history != h[id].history {
        var old_ := h[id].history;
        forall i, j | 0 <= i < j < |h'[id].history| ensures h'[id].history[i].date != h'[id].history[j].date {
          if j == |old_| {
            assert h'[id].history[i] == old_[i];
          } else {
            assert h'[id].history[i] == old_[i] && h'[id].history[j] == old_[j];
          }
        }
      }
    }
  }
}
