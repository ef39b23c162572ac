/** The record types of the price tracker (src/enums.ts) and the ledger
    layout shared by every module.

    Conventions used throughout the model:
    - a calendar day (an ISO `YYYY-MM-DD` string in the program) is a day
      number counted from 1970-01-01;
    - a price (a dollar amount in the program) is a whole number of cents,
      so rounding a sum or a difference to two decimals changes nothing;
    - a product id used as an object key (`id.toString()`) is the id itself. */
module Types {

  datatype Option<+T> = None | Some(value: T)

  /** The card finish (`Type`). */
  datatype CardType = Holofoil | ReverseHolofoil | Normal

  datatype Rarity = Common | Rare | HoloRare | SecretRare | UltraRare

  function RarityName(r: Rarity): string
  {
    match r
    case Common => "Common"
    case Rare => "Rare"
    case HoloRare => "Holo Rare"
    case SecretRare => "Secret Rare"
    case UltraRare => "Ultra Rare"
  }

  /** An entry of the set catalogue: a set name and its release day. */
  datatype SetInfo = SetInfo(name: string, date: int)

  datatype ProductInfo = ProductInfo(productId: int, name: string)

  datatype PriceInfo = PriceInfo(productId: int, marketPrice: int, subTypeName: CardType)

  /** A ranked card: its price, where it comes from, and its price per month
      since the release of its set. */
  datatype MarketInfo = MarketInfo(
    marketPrice: int,
    productId: int,
    name: string,
    setName: string,
    monthsFromToday: int,
    increasePerMonth: real)

  /** One day of a product's price history. */
  datatype HistoryItem = HistoryItem(date: int, marketPrice: int, cardType: CardType)

  /** A product record of the ledger. */
  datatype HistoryCard = HistoryCard(name: string, setName: string, productId: int, history: seq<HistoryItem>)

  /** The ledger (`history.json`'s `cards`): product id to product record. */
  type Ledger = map<int, HistoryCard>

  /** A card to ingest: a product id and the name of the set it belongs to. */
  datatype CardRef = CardRef(id: int, setName: string)

  /** The three lookups of src/api.ts as the rest of the program sees them:
      ids of a rarity in a set, product names of ids, and market prices of ids
      already restricted to one finish. Their caching and batching is modelled
      in module Api. */
  datatype DataSource = DataSource(
    searchQuery: (Rarity, string) -> seq<int>,
    getProductInfo: seq<int> -> seq<ProductInfo>,
    getPriceInfo: (seq<int>, CardType) -> seq<PriceInfo>)

  function Ids(cards: seq<CardRef>): (ids: seq<int>)
    ensures |ids| == |cards|
    ensures forall i | 0 <= i < |cards| :: ids[i] == cards[i].id
  {
    if cards == [] then [] else [cards[0].id] + Ids(cards[1..])
  }

  lemma IdsAppend(a: seq<CardRef>, b: seq<CardRef>)
    ensures Ids(a + b) == Ids(a) + Ids(b)
  {
    var l, r := Ids(a + b), Ids(a) + Ids(b);
    assert |l| == |r|;
    forall i | 0 <= i < |l| ensures l[i] == r[i] {
      if i < |a| {
        assert (a + b)[i] == a[i];
      } else {
        assert (a + b)[i] == b[i - |a|];
      }
    }
  }
}
