/** Set indexes and set totals (`getIndex` and `getTotals` in src/util.ts),
    over the ledger file `data/history.json`. */
module Totals {
  import opened Types
  import opened Lodash
  import opened History
  import opened Changes
  import opened Appreciation

  /** `getIndex`'s result: today's total over the ids, and its mean over all
      of them (`None` for NaN, when there are no ids). */
  datatype Index = Index(total: int, average: Option<int>)

  /** `avg` is the mean of `total` over `count` rounded to the nearest
      cent, halves up, and NaN (`None`) when `count` is 0. */
  predicate AverageOf(avg: Option<int>, total: int, count: int)
  {
    && (avg.Some? <==> count != 0)
    && (avg.Some? ==> avg.value as real - 0.5 <= total as real / count as real < avg.value as real + 0.5)
  }

  /** `_.round(total / count, 2)` in cents; NaN when `count` is 0. */
  function Average(total: int, count: int): (r: Option<int>)
    ensures count != 0 <==> r.Some?
    ensures AverageOf(r, total, count)
  {
    if count == 0 then None else Some(RoundHalfUp(total as real / count as real))
  }

  /** Today's price of `id`, or 0 when it has no record or no entry today. */
  function PriceToday(h: Ledger, id: int, today: int): int
  {
    if id in h && EntryOn(h[id].history, today).Some? then EntryOn(h[id].history, today).value.marketPrice else 0
  }

  /** The sum of today's prices over `ids`. */
  function SumOn(h: Ledger, ids: seq<int>, today: int): int
  {
    if ids == [] then 0 else SumOn(h, ids[..|ids| - 1], today) + PriceToday(h, ids[|ids| - 1], today)
  }

  lemma {:induction false} SumOnAppend(h: Ledger, a: seq<int>, b: seq<int>, today: int)
    ensures SumOn(h, a + b, today) == SumOn(h, a, today) + SumOn(h, b, today)
    decreases |b|
  {
    if b == [] {
      assert a + b == a;
    } else {
      var b' := b[..|b| - 1];
      assert (a + b)[..|a + b| - 1] == a + b';
      assert (a + b)[|a + b| - 1] == b[|b| - 1];
      SumOnAppend(h, a, b', today);
    }
  }

  /** Ids without a record add nothing to a sum. */
  lemma {:induction false} SumOnMissing(h: Ledger, ids: seq<int>, today: int)
    requires forall k | 0 <= k < |ids| :: ids[k] !in h
    ensures SumOn(h, ids, today) == 0
  {
    if ids != [] {
      SumOnMissing(h, ids[..|ids| - 1], today);
    }
  }

  /** Today's total over `ids` and its mean over all of them. */
  function IndexOver(h: Ledger, ids: seq<int>, today: int): (r: Index)
    ensures r.total == SumOn(h, ids, today)
    ensures r.average.Some? <==> |ids| != 0
  {
    Index(SumOn(h, ids, today), Average(SumOn(h, ids, today), |ids|))
  }

  /** What `getIndex(rarity, set, cardIds)` returns: the index over the given
      ids, or over the search result of the set when none are given. */
  function IndexOf(h: Ledger, src: DataSource, rarity: Rarity, setName: string, cardIds: seq<int>, today: int): Index
  {
    IndexOver(h, if |cardIds| != 0 then cardIds else src.searchQuery(rarity, setName), today)
  }

  /** Ids without a record are skipped by the total but still counted by the
      average. */
  lemma IndexCountsMissing(h: Ledger, src: DataSource, rarity: Rarity, setName: string, a: seq<int>, b: seq<int>, today: int)
    requires |a| != 0
    requires forall k | 0 <= k < |b| :: b[k] !in h
    ensures var i := IndexOf(h, src, rarity, setName, a + b, today);
      && i.total == IndexOf(h, src, rarity, setName, a, today).total
      && i.average == Some(RoundHalfUp(i.total as real / (|a| + |b|) as real))
  {
    SumOnAppend(h, a, b, today);
    SumOnMissing(h, b, today);
  }

  /** The sets whose release day is after `watchFrom`, by name in catalogue
      order: every such set is named, and nothing else (the order is kept,
      see `WatchedAppend`). */
  function Watched(setData: seq<SetInfo>, watchFrom: real): (names: seq<string>)
    ensures |names| <= |setData|
    ensures forall name | name in names :: exists s | s in setData :: s.name == name && s.date as real > watchFrom
    ensures forall k | 0 <= k < |setData| && setData[k].date as real > watchFrom :: setData[k].name in names
  {
    if setData == [] then []
    else
      var init := setData[..|setData| - 1];
      var s := setData[|setData| - 1];
      var rest := Watched(init, watchFrom);
      assert forall x | x in init :: x in setData;
      rest + (if s.date as real > watchFrom then [s.name] else [])
  }

  /** The filter keeps catalogue order: the watched sets of a concatenation
      are those of its first part followed by those of its second. */
  lemma {:induction false} WatchedAppend(a: seq<SetInfo>, b: seq<SetInfo>, watchFrom: real)
    ensures Watched(a + b, watchFrom) == Watched(a, watchFrom) + Watched(b, watchFrom)
    decreases |b|
  {
    if b == [] {
      assert a + b == a;
    } else {
      var init := b[..|b| - 1];
      assert (a + b)[..|a + b| - 1] == a + init;
      assert (a + b)[|a + b| - 1] == b[|b| - 1];
      WatchedAppend(a, init, watchFrom);
    }
  }

  /** `_.map(ids, (id) => ({ id, set }))`. */
  function RefsOf(ids: seq<int>, setName: string): (refs: seq<CardRef>)
    ensures |refs| == |ids|
    ensures Ids(refs) == ids
    ensures forall k | 0 <= k < |refs| :: refs[k].setName == setName
  {
    var refs := seq(|ids|, k requires 0 <= k < |ids| => CardRef(ids[k], setName));
    assert |Ids(refs)| == |ids|;
    refs
  }

  /** A `{ count, totalPrice, averagePrice }` group of a set total. */
  datatype Tally = Tally(count: int, totalPrice: int, averagePrice: Option<int>)

  /** An element of `getTotals`'s result (the URL slug is not modelled). */
  datatype SetTotal = SetTotal(
    setName: string,
    date: Option<int>,
    ultraRares: Tally,
    secretRares: Tally,
    allCards: Tally,
    averageMonthlyIncrease: int,
    monthChange: int,
    weekChange: int,
    dayChange: int)

  /** The three periods whose price changes a set total sums. */
  datatype Period = OverMonth | OverWeek | OverDay

  /** A change's move over `p`, or 0 where it has none (a missing daily
      change counts as 0). */
  function PeriodChange(c: Change, p: Period): int
  {
    match p
    case OverMonth => c.monthlyChange
    case OverWeek => c.weeklyChange
    case OverDay => if c.dailyChange.Some? then c.dailyChange.value else 0
  }

  /** `_.sumBy(changes, …)` of the moves over `p`. */
  function ChangeSum(changes: seq<Change>, p: Period): int
  {
    if changes == [] then 0 else ChangeSum(changes[..|changes| - 1], p) + PeriodChange(changes[|changes| - 1], p)
  }

  lemma {:induction false} ChangeSumAppend(a: seq<Change>, b: seq<Change>, p: Period)
    ensures ChangeSum(a + b, p) == ChangeSum(a, p) + ChangeSum(b, p)
    decreases |b|
  {
    if b == [] {
      assert a + b == a;
    } else {
      var b' := b[..|b| - 1];
      assert (a + b)[..|a + b| - 1] == a + b';
      assert (a + b)[|a + b| - 1] == b[|b| - 1];
      ChangeSumAppend(a, b', p);
    }
  }

  /** Taking one change out of a sum takes out its move. */
  lemma ChangeSumRemove(b: seq<Change>, i: int, p: Period)
    requires 0 <= i < |b|
    ensures ChangeSum(b, p) == ChangeSum(b[..i] + b[i + 1..], p) + PeriodChange(b[i], p)
  {
    assert b == b[..i] + [b[i]] + b[i + 1..];
    ChangeSumAppend(b[..i] + [b[i]], b[i + 1..], p);
    ChangeSumAppend(b[..i], [b[i]], p);
    ChangeSumAppend(b[..i], b[i + 1..], p);
    assert [b[i]][..0] == [];
  }

  /** A sum of moves does not depend on the order of the changes. */
  lemma {:induction false} ChangeSumPermutation(a: seq<Change>, b: seq<Change>, p: Period)
    requires multiset(a) == multiset(b)
    ensures ChangeSum(a, p) == ChangeSum(b, p)
    decreases |a|
  {
    if a == [] {
      assert |multiset(b)| == 0;
    } else {
      var x := a[|a| - 1];
      assert x in multiset(b) by {
        assert x in multiset(a);
      }
      var i :| 0 <= i < |b| && b[i] == x;
      PermutationRemove(a, b, i);
      ChangeSumPermutation(a[..|a| - 1], b[..i] + b[i + 1..], p);
      ChangeSumRemove(b, i, p);
    }
  }

  /** Taking the last element of one side and an equal element of the other
      leaves a permutation. */
  lemma PermutationRemove<T>(a: seq<T>, b: seq<T>, i: int)
    requires multiset(a) == multiset(b)
    requires |a| > 0 && 0 <= i < |b| && b[i] == a[|a| - 1]
    ensures multiset(a[..|a| - 1]) == multiset(b[..i] + b[i + 1..])
  {
    var x := b[i];
    assert a == a[..|a| - 1] + [x];
    assert b == b[..i] + [x] + b[i + 1..];
    assert multiset(b[..i] + b[i + 1..]) == multiset(b) - multiset{x};
  }

  /** The changes `displayChanges` reported on. */
  function ChangesOf(reports: seq<Report>): (cs: seq<Change>)
    ensures |cs| == |reports|
    ensures forall k | 0 <= k < |cs| :: cs[k] == reports[k].change
  {
    seq(|reports|, k requires 0 <= k < |reports| => reports[k].change)
  }

  /** The change sums of `getTotals` over a report of `cardIds` in its
      default arrangement equal those over the changes collected for them,
      whatever order the report puts them in. */
  lemma ReportSumsOrderFree(history: Ledger, catalogue: seq<SetInfo>, today: int, cardIds: seq<int>, p: Period)
    ensures ChangeSum(ChangesOf(DisplayReport(history, catalogue, today, cardIds, [], 0, 0, Monthly)), p)
      == ChangeSum(Collect(history, catalogue, today, cardIds, [], |cardIds|), p)
  {
    var cs := Collect(history, catalogue, today, cardIds, [], |cardIds|);
    var arranged := Arrange(cs, 0, 0, Monthly);
    ArrangeKeepsAll(cs, Monthly);
    assert ChangesOf(Reports(arranged)) == arranged;
    ChangeSumPermutation(arranged, cs, p);
  }

  /** The month, week and day change sums of a set total. */
  datatype Sums = Sums(month: int, week: int, day: int)

  /** The change sums over the changes collected for `cardIds`. */
  function ReportSums(history: Ledger, catalogue: seq<SetInfo>, today: int, cardIds: seq<int>): Sums
  {
    var cs := Collect(history, catalogue, today, cardIds, [], |cardIds|);
    Sums(ChangeSum(cs, OverMonth), ChangeSum(cs, OverWeek), ChangeSum(cs, OverDay))
  }

  /** The three `_.sumBy` over `displayChanges(ids)` of a set total. */
  method ChangeTotals(history: Ledger, catalogue: seq<SetInfo>, today: int, cardIds: seq<int>)
    returns (sums: Sums)
    ensures sums == ReportSums(history, catalogue, today, cardIds)
  {
    var cardPriceHistory := DisplayChanges(history, catalogue, today, cardIds, [], 0, 0, Monthly);
    ReportSumsOrderFree(history, catalogue, today, cardIds, OverMonth);
    ReportSumsOrderFree(history, catalogue, today, cardIds, OverWeek);
    ReportSumsOrderFree(history, catalogue, today, cardIds, OverDay);
    var cs := ChangesOf(cardPriceHistory);
    sums := Sums(ChangeSum(cs, OverMonth), ChangeSum(cs, OverWeek), ChangeSum(cs, OverDay));
  }

  /** `averageMonthlyIncrease`: a total over the months since the set's
      release, rounded to the nearest cent, and 0 for a set without a date
      (and, see README, for one released under half a month ago). */
  predicate MonthlyIncreaseOf(x: int, total: int, date: Option<int>, now: real)
  {
    if date.Some? && MonthsFromToday(date.value, now) != 0 then
      x as real - 0.5 <= total as real / MonthsFromToday(date.value, now) as real < x as real + 0.5
    else x == 0
  }

  /** The object `getTotals` pushes for a set, from its two indexes, its card
      counts and the sums of the changes reported for its cards: each group
      carries its count, total and average; all cards total both indexes and
      average them over `allCount`; the monthly increase spreads that total
      over the set's age. */
  function MakeTotal(setName: string, date: Option<int>, now: real, ultraCount: int, ultra: Index,
                     secretCount: int, secret: Index, allCount: int, sums: Sums): (t: SetTotal)
    ensures t.setName == setName && t.date == date
    ensures t.ultraRares == Tally(ultraCount, ultra.total, ultra.average)
    ensures t.secretRares == Tally(secretCount, secret.total, secret.average)
    ensures t.allCards.count == allCount && t.allCards.totalPrice == ultra.total + secret.total
    ensures AverageOf(t.allCards.averagePrice, t.allCards.totalPrice, allCount)
    ensures MonthlyIncreaseOf(t.averageMonthlyIncrease, t.allCards.totalPrice, date, now)
    ensures t.monthChange == sums.month && t.weekChange == sums.week && t.dayChange == sums.day
  {
    var totalIndex := ultra.total + secret.total;
    SetTotal(
      setName, date,
      Tally(ultraCount, ultra.total, ultra.average),
      Tally(secretCount, secret.total, secret.average),
      Tally(allCount, totalIndex, Average(totalIndex, allCount)),
      if date.Some? then RoundHalfUp(IncreasePerMonth(totalIndex, MonthsFromToday(date.value, now))) else 0,
      sums.month, sums.week, sums.day)
  }

  /** The date of a set in `setData`, if it is there. */
  function DateOf(setData: seq<SetInfo>, setName: string): Option<int>
  {
    var s := SetNamed(setData, setName);
    if s.Some? then Some(s.value.date) else None
  }

  /** The set total `getTotals` assembles from the ids it takes as ultra
      rares, as secret rares and as all cards: each group counts its ids,
      totals today's prices over them and averages that over all of them;
      the change sums are over the changes collected for `allIds`. */
  function TotalOf(h: Ledger, catalogue: seq<SetInfo>, setData: seq<SetInfo>, setName: string, now: real, today: int,
                   ultraIds: seq<int>, secretIds: seq<int>, allIds: seq<int>): (t: SetTotal)
    ensures t.setName == setName && t.date == DateOf(setData, setName)
    ensures t.ultraRares.count == |ultraIds| && t.ultraRares.totalPrice == SumOn(h, ultraIds, today)
    ensures AverageOf(t.ultraRares.averagePrice, t.ultraRares.totalPrice, |ultraIds|)
    ensures t.secretRares.count == |secretIds| && t.secretRares.totalPrice == SumOn(h, secretIds, today)
    ensures AverageOf(t.secretRares.averagePrice, t.secretRares.totalPrice, |secretIds|)
    ensures t.allCards.count == |ultraIds| + |secretIds|
    ensures t.allCards.totalPrice == SumOn(h, ultraIds, today) + SumOn(h, secretIds, today)
    ensures AverageOf(t.allCards.averagePrice, t.allCards.totalPrice, |ultraIds| + |secretIds|)
    ensures MonthlyIncreaseOf(t.averageMonthlyIncrease, t.allCards.totalPrice, DateOf(setData, setName), now)
    ensures var cs := Collect(h, catalogue, today, allIds, [], |allIds|);
      t.monthChange == ChangeSum(cs, OverMonth) && t.weekChange == ChangeSum(cs, OverWeek) && t.dayChange == ChangeSum(cs, OverDay)
  {
    MakeTotal(setName, DateOf(setData, setName), now,
              |ultraIds|, IndexOver(h, ultraIds, today),
              |secretIds|, IndexOver(h, secretIds, today),
              |ultraIds| + |secretIds|,
              ReportSums(h, catalogue, today, allIds))
  }

  /** A total assembled from values already known to be the indexes, the
      date and the sums of `TotalOf` is `TotalOf`. */
  lemma TotalOfParts(h: Ledger, catalogue: seq<SetInfo>, setData: seq<SetInfo>, setName: string, now: real, today: int,
                     ultraIds: seq<int>, secretIds: seq<int>, allIds: seq<int>,
                     date: Option<int>, ultraCount: int, ultra: Index, secretCount: int, secret: Index, allCount: int,
                     sums: Sums, t: SetTotal)
    requires date == DateOf(setData, setName)
    requires ultraCount == |ultraIds| && secretCount == |secretIds| && allCount == |ultraIds| + |secretIds|
    requires ultra == IndexOver(h, ultraIds, today)
    requires secret == IndexOver(h, secretIds, today)
    requires sums == ReportSums(h, catalogue, today, allIds)
    requires t == MakeTotal(setName, date, now, ultraCount, ultra, secretCount, secret, allCount, sums)
    ensures t == TotalOf(h, catalogue, setData, setName, now, today, ultraIds, secretIds, allIds)
  {
  }

  /** A set total as the program computes it: `allCards` is the very array
      `ultraRareCards`, so the secret rares pushed onto it are counted as
      ultra rares too; the indexes and the report read the ledger file. */
  function SetTotalAliased(disk: Ledger, catalogue: seq<SetInfo>, setData: seq<SetInfo>, src: DataSource,
                           setName: string, now: real, today: int): (t: SetTotal)
    ensures t.setName == setName
  {
    var ultra := src.searchQuery(UltraRare, setName);
    var secret := src.searchQuery(SecretRare, setName);
    SumOnAppend(disk, ultra, secret, today);
    TotalOf(disk, catalogue, setData, setName, now, today, ultra + secret, secret, ultra + secret)
  }

  /** A set total as intended: ultra rares, secret rares and all cards are
      three different groups, and the ledger read is the one just updated. */
  function SetTotalOf(h: Ledger, catalogue: seq<SetInfo>, setData: seq<SetInfo>, src: DataSource,
                      setName: string, now: real, today: int): (t: SetTotal)
    ensures t.setName == setName
  {
    var ultra := src.searchQuery(UltraRare, setName);
    var secret := src.searchQuery(SecretRare, setName);
    SumOnAppend(h, ultra, secret, today);
    TotalOf(h, catalogue, setData, setName, now, today, ultra, secret, ultra + secret)
  }

  /** With at least one secret rare, the aliasing counts every secret rare
      as an ultra rare as well, so `allCards` counts the secret rares twice
      and its total adds their prices twice. */
  lemma AliasingDoubleCounts(disk: Ledger, catalogue: seq<SetInfo>, setData: seq<SetInfo>, src: DataSource,
                             setName: string, now: real, today: int)
    requires |src.searchQuery(SecretRare, setName)| > 0
    ensures var ultra := src.searchQuery(UltraRare, setName);
      var secret := src.searchQuery(SecretRare, setName);
      var t := SetTotalAliased(disk, catalogue, setData, src, setName, now, today);
      && t.ultraRares.count == |ultra| + |secret|
      && t.allCards.count == |ultra| + 2 * |secret|
      && t.ultraRares.totalPrice == SumOn(disk, ultra, today) + SumOn(disk, secret, today)
      && t.allCards.totalPrice == SumOn(disk, ultra, today) + 2 * SumOn(disk, secret, today)
  {
    var ultra := src.searchQuery(UltraRare, setName);
    var secret := src.searchQuery(SecretRare, setName);
    SumOnAppend(disk, ultra, secret, today);
  }

  /** Every field of a set total as the program computes it: the ultra
      rares are the ultra and the secret rares, all cards count the secret
      rares twice, each group's average is its total over its count, the
      monthly increase spreads the all-cards total over the set's age, and
      the change sums are over the changes collected for all the cards. */
  lemma AliasedTotalFields(disk: Ledger, catalogue: seq<SetInfo>, setData: seq<SetInfo>, src: DataSource,
                           setName: string, now: real, today: int)
    ensures var ultra := src.searchQuery(UltraRare, setName);
      var secret := src.searchQuery(SecretRare, setName);
      var t := SetTotalAliased(disk, catalogue, setData, src, setName, now, today);
      && t.setName == setName && t.date == DateOf(setData, setName)
      && t.ultraRares.count == |ultra| + |secret|
      && t.ultraRares.totalPrice == SumOn(disk, ultra, today) + SumOn(disk, secret, today)
      && AverageOf(t.ultraRares.averagePrice, t.ultraRares.totalPrice, |ultra| + |secret|)
      && t.secretRares.count == |secret| && t.secretRares.totalPrice == SumOn(disk, secret, today)
      && AverageOf(t.secretRares.averagePrice, t.secretRares.totalPrice, |secret|)
      && t.allCards.count == |ultra| + 2 * |secret|
      && t.allCards.totalPrice == SumOn(disk, ultra, today) + 2 * SumOn(disk, secret, today)
      && AverageOf(t.allCards.averagePrice, t.allCards.totalPrice, |ultra| + 2 * |secret|)
      && MonthlyIncreaseOf(t.averageMonthlyIncrease, t.allCards.totalPrice, DateOf(setData, setName), now)
      && var cs := Collect(disk, catalogue, today, ultra + secret, [], |ultra + secret|);
        t.monthChange == ChangeSum(cs, OverMonth) && t.weekChange == ChangeSum(cs, OverWeek) && t.dayChange == ChangeSum(cs, OverDay)
  {
    var ultra := src.searchQuery(UltraRare, setName);
    var secret := src.searchQuery(SecretRare, setName);
    SumOnAppend(disk, ultra, secret, today);
  }

  /** The intended set total: each group counts its own cards, `allCards` is
      their union, each total is the sum of today's prices over its group and
      each average that total over its count, the monthly increase spreads
      the all-cards total over the set's age, and the change sums are over
      the changes collected for all the cards. */
  lemma SetTotalGroups(h: Ledger, catalogue: seq<SetInfo>, setData: seq<SetInfo>, src: DataSource,
                       setName: string, now: real, today: int)
    ensures var ultra := src.searchQuery(UltraRare, setName);
      var secret := src.searchQuery(SecretRare, setName);
      var t := SetTotalOf(h, catalogue, setData, src, setName, now, today);
      && t.setName == setName && t.date == DateOf(setData, setName)
      && t.ultraRares.count == |ultra| && t.ultraRares.totalPrice == SumOn(h, ultra, today)
      && AverageOf(t.ultraRares.averagePrice, t.ultraRares.totalPrice, |ultra|)
      && t.secretRares.count == |secret| && t.secretRares.totalPrice == SumOn(h, secret, today)
      && AverageOf(t.secretRares.averagePrice, t.secretRares.totalPrice, |secret|)
      && t.allCards.count == |ultra| + |secret|
      && t.allCards.totalPrice == SumOn(h, ultra + secret, today)
      && AverageOf(t.allCards.averagePrice, t.allCards.totalPrice, |ultra| + |secret|)
      && MonthlyIncreaseOf(t.averageMonthlyIncrease, t.allCards.totalPrice, DateOf(setData, setName), now)
      && var cs := Collect(h, catalogue, today, ultra + secret, [], |ultra + secret|);
        t.monthChange == ChangeSum(cs, OverMonth) && t.weekChange == ChangeSum(cs, OverWeek) && t.dayChange == ChangeSum(cs, OverDay)
  {
    var ultra := src.searchQuery(UltraRare, setName);
    var secret := src.searchQuery(SecretRare, setName);
    SumOnAppend(h, ultra, secret, today);
  }

  /** The `_.map(allCards, 'id')` of a set: its ultra rares, then its secret
      rares. */
  function SetCards(src: DataSource, setName: string): seq<CardRef>
  {
    RefsOf(src.searchQuery(UltraRare, setName) + src.searchQuery(SecretRare, setName), setName)
  }

  /** The ledger after ingesting the cards of a set. */
  function IngestSet(h: Ledger, src: DataSource, setName: string, cardType: CardType, today: int): Ledger
  {
    IngestAll(h, SetCards(src, setName), FetchedFor(src, SetCards(src, setName), cardType, today))
  }

  /** The set totals of the first sets of `names`, and the ledger after their
      ingestion. */
  function TotalsRun(h: Ledger, catalogue: seq<SetInfo>, setData: seq<SetInfo>, src: DataSource,
                     names: seq<string>, cardType: CardType, now: real, today: int): (r: (seq<SetTotal>, Ledger))
    ensures |r.0| == |names|
  {
    if names == [] then ([], h)
    else
      var prior := TotalsRun(h, catalogue, setData, src, names[..|names| - 1], cardType, now, today);
      var name := names[|names| - 1];
      var h' := IngestSet(prior.1, src, name, cardType, today);
      var t := SetTotalOf(h', catalogue, setData, src, name, now, today);
      (prior.0 + [t], h')
  }

  /** Appending a total of the next set keeps totals and sets aligned. */
  lemma NamesAligned(prior: seq<SetTotal>, init: seq<string>, t: SetTotal, name: string)
    requires |prior| == |init| && forall k | 0 <= k < |init| :: prior[k].setName == init[k]
    requires t.setName == name
    ensures forall k | 0 <= k < |init| + 1 :: (prior + [t])[k].setName == (init + [name])[k]
  {
  }

  /** The totals of a run are those of its sets, in order. */
  lemma {:induction false} TotalsRunNames(h: Ledger, catalogue: seq<SetInfo>, setData: seq<SetInfo>, src: DataSource,
                                          names: seq<string>, cardType: CardType, now: real, today: int)
    ensures var totals := TotalsRun(h, catalogue, setData, src, names, cardType, now, today).0;
      forall k | 0 <= k < |names| :: totals[k].setName == names[k]
  {
    if names != [] {
      var init, name := names[..|names| - 1], names[|names| - 1];
      TotalsRunNames(h, catalogue, setData, src, init, cardType, now, today);
      var prior := TotalsRun(h, catalogue, setData, src, init, cardType, now, today);
      var t := SetTotalOf(IngestSet(prior.1, src, name, cardType, today), catalogue, setData, src, name, now, today);
      assert TotalsRun(h, catalogue, setData, src, names, cardType, now, today).0 == prior.0 + [t];
      assert t.setName == name;
      NamesAligned(prior.0, init, t, name);
      assert init + [name] == names;
    }
  }

  lemma TotalsRunNext(h: Ledger, catalogue: seq<SetInfo>, setData: seq<SetInfo>, src: DataSource,
                      names: seq<string>, i: int, cardType: CardType, now: real, today: int)
    requires 0 <= i < |names|
    ensures var prior := TotalsRun(h, catalogue, setData, src, names[..i], cardType, now, today);
      var h' := IngestSet(prior.1, src, names[i], cardType, today);
      TotalsRun(h, catalogue, setData, src, names[..i + 1], cardType, now, today)
        == (prior.0 + [SetTotalOf(h', catalogue, setData, src, names[i], now, today)], h')
  {
    assert names[..i + 1][..i] == names[..i];
  }

  /** The `sort` argument of `getTotals`; anything else gives every total the
      same (undefined) key. */
  datatype TotalsSort =
    | TotalCost | MonthlyChangeSort | WeeklyChangeSort | DailyChangeSort | MonthlyAverageChange
    | AllAverage | UltraRareTotal | UltraRareAverage | SecretRareTotal | SecretRareAverage | Unranked

  /** An average as a sort key; NaN is taken as 0 (see README). */
  function AverageKey(a: Option<int>): real
  {
    if a.Some? then a.value as real else 0.0
  }

  function TotalKeyOf(sort: TotalsSort, t: SetTotal): real
  {
    match sort
    case TotalCost => t.allCards.totalPrice as real
    case MonthlyChangeSort => t.monthChange as real
    case WeeklyChangeSort => t.weekChange as real
    case DailyChangeSort => t.dayChange as real
    case MonthlyAverageChange => t.averageMonthlyIncrease as real
    case AllAverage => AverageKey(t.allCards.averagePrice)
    case UltraRareTotal => t.ultraRares.totalPrice as real
    case UltraRareAverage => AverageKey(t.ultraRares.averagePrice)
    case SecretRareTotal => t.secretRares.totalPrice as real
    case SecretRareAverage => AverageKey(t.secretRares.averagePrice)
    case Unranked => 0.0
  }

  /** The key `getTotals` sorts by. */
  function TotalKey(sort: TotalsSort): SetTotal -> real
  {
    t => TotalKeyOf(sort, t)
  }

  /** The ledger file `data/history.json`. */
  class LedgerFile {
    var cards: Ledger

    constructor (cards: Ledger)
      ensures this.cards == cards
    {
      this.cards := cards;
    }

    /** `getIndex(rarity, set, cardIds)` over the ledger file. */
    method GetIndex(src: DataSource, rarity: Rarity, setName: string, cardIds: seq<int>, today: int) returns (index: Index)
      ensures index == IndexOf(cards, src, rarity, setName, cardIds, today)
      ensures var search := if |cardIds| != 0 then cardIds else src.searchQuery(rarity, setName);
        && index.total == SumOn(cards, search, today)
        && (index.average.Some? <==> |search| != 0)
    {
      var search := if |cardIds| != 0 then cardIds else src.searchQuery(rarity, setName);
      var history := cards;
      var todayTotal := 0;
      for i := 0 to |search|
        invariant todayTotal == SumOn(history, search[..i], today)
      {
        assert search[..i + 1][..i] == search[..i];
        var historyItem := search[i];
        if historyItem !in history {
          continue;
        }
        var todaysPrice := EntryOn(history[historyItem].history, today);
        if todaysPrice.Some? {
          todayTotal := todayTotal + todaysPrice.value.marketPrice;
        }
      }
      assert search[..|search|] == search;
      index := Index(todayTotal, Average(todayTotal, |search|));
    }

    /** The object `getTotals` builds for a set from the file's ledger: the
        two indexes of its card lists and the sums of the changes reported
        for `allCards`. */
    method AssembleTotal(catalogue: seq<SetInfo>, setData: seq<SetInfo>, src: DataSource, currentSet: string,
                         ultraRareCards: seq<CardRef>, secretRareCards: seq<CardRef>, allCards: seq<CardRef>,
                         allCount: int, now: real, today: int)
      returns (total: SetTotal)
      ensures total == MakeTotal(currentSet, DateOf(setData, currentSet), now,
                                 |ultraRareCards|, IndexOf(cards, src, UltraRare, currentSet, Ids(ultraRareCards), today),
                                 |secretRareCards|, IndexOf(cards, src, SecretRare, currentSet, Ids(secretRareCards), today),
                                 allCount, ReportSums(cards, catalogue, today, Ids(allCards)))
    {
      var date := DateOf(setData, currentSet);
      var ultraRareIndex := GetIndex(src, UltraRare, currentSet, Ids(ultraRareCards), today);
      var secretRareIndex := GetIndex(src, SecretRare, currentSet, Ids(secretRareCards), today);
      var sums := ChangeTotals(cards, catalogue, today, Ids(allCards));
      total := MakeTotal(currentSet, date, now, |ultraRareCards|, ultraRareIndex, |secretRareCards|, secretRareIndex,
                         allCount, sums);
    }

    /** `saveHistoricalData(cards, cardType)` without a ledger argument, as
        the program has it: the ledger is read from the file and updated in
        memory, but the write back is guarded by `history !== oldHistory`,
        which never holds, so the file keeps its contents. */
    method SaveHistoricalDataAsWritten(refs: seq<CardRef>, cardType: CardType, src: DataSource, today: int)
      returns (history: Ledger)
      ensures history == IngestAll(cards, refs, FetchedFor(src, refs, cardType, today))
    {
      var store := new HistoryStore(cards);
      store.SaveHistoricalData(refs, cardType, src, today);
      history := store.cards;
    }

    /** `saveHistoricalData(cards, cardType)` without a ledger argument, as
        intended: the updated ledger is written back to the file. */
    method SaveHistoricalData(refs: seq<CardRef>, cardType: CardType, src: DataSource, today: int)
      returns (history: Ledger)
      modifies this
      ensures history == cards == IngestAll(old(cards), refs, FetchedFor(src, refs, cardType, today))
    {
      var store := new HistoryStore(cards);
      store.SaveHistoricalData(refs, cardType, src, today);
      history := store.cards;
      cards := history;
    }
  }

  /** A growable array: `allCards` and `ultraRareCards` of `getTotals`. */
  class CardList {
    var items: seq<CardRef>

    constructor (items: seq<CardRef>)
      ensures this.items == items
    {
      this.items := items;
    }

    /** `push`. */
    method Push(c: CardRef)
      modifies this
      ensures items == old(items) + [c]
    {
      items := items + [c];
    }
  }

  /** The ingestion on the as-written path loses its update: whenever a
      card with fetched data has no record in the file, the ledger returned
      has a record for it that the file, left as it was, lacks. */
  lemma UnsavedIngestionIsLost(disk: Ledger, refs: seq<CardRef>, f: Fetched, c: CardRef)
    requires c in refs && HasData(f, c.id) && c.id !in disk
    ensures c.id in IngestAll(disk, refs, f) && IngestAll(disk, refs, f) != disk
  {
    IngestRecordsToday(disk, refs, f);
  }

  lemma RefsAppend(a: seq<int>, b: seq<int>, setName: string)
    ensures RefsOf(a + b, setName) == RefsOf(a, setName) + RefsOf(b, setName)
  {
    assert |RefsOf(a + b, setName)| == |RefsOf(a, setName) + RefsOf(b, setName)|;
  }

  /** The card lists of a set as the program builds them: `allCards` is the
      array `ultraRareCards` itself, so pushing the secret rares onto it
      grows the ultra rares too. */
  method AliasedCardLists(ultra: seq<int>, secret: seq<int>, currentSet: string)
    returns (ultraRares: seq<CardRef>, secretRares: seq<CardRef>, all: seq<CardRef>)
    ensures ultraRares == all == RefsOf(ultra + secret, currentSet)
    ensures secretRares == RefsOf(secret, currentSet)
  {
    var ultraRareCards := new CardList(RefsOf(ultra, currentSet));
    var secretRareCards := new CardList(RefsOf(secret, currentSet));
    var allCards := ultraRareCards;
    for k := 0 to |secretRareCards.items|
      invariant secretRareCards.items == RefsOf(secret, currentSet)
      invariant ultraRareCards.items == RefsOf(ultra, currentSet) + secretRareCards.items[..k]
    {
      allCards.Push(secretRareCards.items[k]);
    }
    assert secretRareCards.items[..|secretRareCards.items|] == secretRareCards.items;
    RefsAppend(ultra, secret, currentSet);
    ultraRares, secretRares, all := ultraRareCards.items, secretRareCards.items, allCards.items;
  }

  /** The card lists of a set as intended: `allCards` a new array holding
      the ultra rares followed by the secret rares. */
  method SeparateCardLists(ultra: seq<int>, secret: seq<int>, currentSet: string)
    returns (ultraRares: seq<CardRef>, secretRares: seq<CardRef>, all: seq<CardRef>)
    ensures ultraRares == RefsOf(ultra, currentSet)
    ensures secretRares == RefsOf(secret, currentSet)
    ensures all == RefsOf(ultra + secret, currentSet)
  {
    var ultraRareCards := new CardList(RefsOf(ultra, currentSet));
    var secretRareCards := new CardList(RefsOf(secret, currentSet));
    var allCards := new CardList(ultraRareCards.items);
    for k := 0 to |secretRareCards.items|
      invariant secretRareCards.items == RefsOf(secret, currentSet)
      invariant ultraRareCards.items == RefsOf(ultra, currentSet)
      invariant allCards.items == RefsOf(ultra, currentSet) + secretRareCards.items[..k]
    {
      allCards.Push(secretRareCards.items[k]);
    }
    assert secretRareCards.items[..|secretRareCards.items|] == secretRareCards.items;
    RefsAppend(ultra, secret, currentSet);
    ultraRares, secretRares, all := ultraRareCards.items, secretRareCards.items, allCards.items;
  }

  /** One iteration of `getTotals`' loop as the program has it: the aliased
      card lists, and a ledger file that saving never updates. */
  method TotalForSetAsWritten(file: LedgerFile, catalogue: seq<SetInfo>, setData: seq<SetInfo>, src: DataSource,
                              currentSet: string, cardType: CardType, now: real, today: int)
    returns (total: SetTotal, history: Ledger)
    ensures total == SetTotalAliased(file.cards, catalogue, setData, src, currentSet, now, today)
    ensures history == IngestSet(file.cards, src, currentSet, cardType, today)
  {
    var ultra := src.searchQuery(UltraRare, currentSet);
    var secret := src.searchQuery(SecretRare, currentSet);
    var ultraRareCards, secretRareCards, allCards := AliasedCardLists(ultra, secret, currentSet);
    ghost var disk := file.cards;
    history := file.SaveHistoricalDataAsWritten(allCards, cardType, src, today);
    total := file.AssembleTotal(catalogue, setData, src, currentSet, ultraRareCards, secretRareCards, allCards,
                                |ultraRareCards| + |secretRareCards|, now, today);
    assert Ids(ultraRareCards) == ultra + secret == Ids(allCards);
    assert Ids(secretRareCards) == secret;
    assert file.cards == disk;
    assert IndexOf(disk, src, UltraRare, currentSet, ultra + secret, today) == IndexOver(disk, ultra + secret, today);
    assert IndexOf(disk, src, SecretRare, currentSet, secret, today) == IndexOver(disk, secret, today);
    TotalOfParts(disk, catalogue, setData, currentSet, now, today, ultra + secret, secret, ultra + secret,
                 DateOf(setData, currentSet), |ultraRareCards|, IndexOver(disk, ultra + secret, today),
                 |secretRareCards|, IndexOver(disk, secret, today), |ultraRareCards| + |secretRareCards|,
                 ReportSums(disk, catalogue, today, ultra + secret), total);
  }

  /** One iteration of `getTotals`' loop as intended: three separate card
      lists, and a save that updates the file before the indexes read it. */
  method TotalForSet(file: LedgerFile, catalogue: seq<SetInfo>, setData: seq<SetInfo>, src: DataSource,
                     currentSet: string, cardType: CardType, now: real, today: int)
    returns (total: SetTotal, history: Ledger)
    modifies file
    ensures history == file.cards == IngestSet(old(file.cards), src, currentSet, cardType, today)
    ensures total == SetTotalOf(file.cards, catalogue, setData, src, currentSet, now, today)
  {
    var ultra := src.searchQuery(UltraRare, currentSet);
    var secret := src.searchQuery(SecretRare, currentSet);
    var ultraRareCards, secretRareCards, allCards := SeparateCardLists(ultra, secret, currentSet);
    history := file.SaveHistoricalData(allCards, cardType, src, today);
    total := file.AssembleTotal(catalogue, setData, src, currentSet, ultraRareCards, secretRareCards, allCards,
                                |allCards|, now, today);
    TotalOfParts(history, catalogue, setData, currentSet, now, today, ultra, secret, ultra + secret,
                 DateOf(setData, currentSet), |ultraRareCards|, IndexOver(history, ultra, today),
                 |secretRareCards|, IndexOver(history, secret, today), |allCards|,
                 ReportSums(history, catalogue, today, ultra + secret), total);
  }

  /** `getTotals(setData, maxMonths, cardType, verbose, sort)` as intended,
      with the two corrections above (separate card lists, and a save that
      writes the file, so each set's totals and the next set's ingestion see
      the ledger updated so far); `watchFrom` is the instant `maxMonths` calendar
      months before now. */
  method GetTotals(file: LedgerFile, catalogue: seq<SetInfo>, setData: seq<SetInfo>, src: DataSource,
                   watchFrom: real, cardType: CardType, sort: TotalsSort, now: real, today: int)
    returns (totals: seq<SetTotal>)
    modifies file
    ensures var run := TotalsRun(old(file.cards), catalogue, setData, src, Watched(setData, watchFrom), cardType, now, today);
      && totals == OrderByDesc(run.0, TotalKey(sort))
      && file.cards == run.1
  {
    var watchSets := Watched(setData, watchFrom);
    var collected: seq<SetTotal> := [];
    ghost var start := file.cards;
    var history := file.cards;
    for i := 0 to |watchSets|
      invariant (collected, file.cards) == TotalsRun(start, catalogue, setData, src, watchSets[..i], cardType, now, today)
      invariant history == file.cards
    {
      TotalsRunNext(start, catalogue, setData, src, watchSets, i, cardType, now, today);
      var total;
      total, history := TotalForSet(file, catalogue, setData, src, watchSets[i], cardType, now, today);
      collected := collected + [total];
    }
    assert watchSets[..|watchSets|] == watchSets;
    file.cards := history;
    totals := OrderByDesc(collected, TotalKey(sort));
  }

  /** Ingesting a set's cards keeps every record and adds records only for
      its cards. */
  lemma IngestSetKeys(h: Ledger, src: DataSource, setName: string, cardType: CardType, today: int)
    ensures var h' := IngestSet(h, src, setName, cardType, today);
      && h.Keys <= h'.Keys
      && forall id | id in h' && id !in h :: id in Ids(SetCards(src, setName))
  {
    IngestAllEvolves(h, SetCards(src, setName), FetchedFor(src, SetCards(src, setName), cardType, today));
  }

  /** The totals `getTotals` computes as the program has it: the aliased
      total of every set, over the file as it was when the run began. */
  function AsWrittenTotals(disk: Ledger, catalogue: seq<SetInfo>, setData: seq<SetInfo>, src: DataSource,
                           names: seq<string>, now: real, today: int): seq<SetTotal>
  {
    seq(|names|, k requires 0 <= k < |names| => SetTotalAliased(disk, catalogue, setData, src, names[k], now, today))
  }

  /** The ledger `getTotals` writes as the program has it: each saving
      re-reads the unchanged file, so what is written at the end is the file
      with only the last set's ingestion (the file itself when no set is
      watched). */
  function AsWrittenFile(disk: Ledger, src: DataSource, names: seq<string>, cardType: CardType, today: int): Ledger
  {
    if names == [] then disk else IngestSet(disk, src, names[|names| - 1], cardType, today)
  }

  lemma AsWrittenTotalsNext(disk: Ledger, catalogue: seq<SetInfo>, setData: seq<SetInfo>, src: DataSource,
                            names: seq<string>, i: int, now: real, today: int)
    requires 0 <= i < |names|
    ensures AsWrittenTotals(disk, catalogue, setData, src, names[..i + 1], now, today)
      == AsWrittenTotals(disk, catalogue, setData, src, names[..i], now, today)
         + [SetTotalAliased(disk, catalogue, setData, src, names[i], now, today)]
  {
  }

  /** `getTotals(setData, maxMonths, cardType, verbose, sort)` as the program
      has it: aliased card lists, a save that never writes, and one write of
      the last ledger after the loop. */
  method GetTotalsAsWritten(file: LedgerFile, catalogue: seq<SetInfo>, setData: seq<SetInfo>, src: DataSource,
                            watchFrom: real, cardType: CardType, sort: TotalsSort, now: real, today: int)
    returns (totals: seq<SetTotal>)
    modifies file
    ensures var names := Watched(setData, watchFrom);
      && totals == OrderByDesc(AsWrittenTotals(old(file.cards), catalogue, setData, src, names, now, today), TotalKey(sort))
      && file.cards == AsWrittenFile(old(file.cards), src, names, cardType, today)
  {
    var watchSets := Watched(setData, watchFrom);
    var collected: seq<SetTotal> := [];
    ghost var disk := file.cards;
    var history := file.cards;
    for i := 0 to |watchSets|
      invariant file.cards == disk
      invariant collected == AsWrittenTotals(disk, catalogue, setData, src, watchSets[..i], now, today)
      invariant history == AsWrittenFile(disk, src, watchSets[..i], cardType, today)
    {
      var total;
      total, history := TotalForSetAsWritten(file, catalogue, setData, src, watchSets[i], cardType, now, today);
      AsWrittenTotalsNext(disk, catalogue, setData, src, watchSets, i, now, today);
      collected := collected + [total];
      assert watchSets[..i + 1][i] == watchSets[i];
    }
    assert watchSets[..|watchSets|] == watchSets;
    file.cards := history;
    totals := OrderByDesc(collected, TotalKey(sort));
  }

  /** The records of a run's first `n` sets survive the rest of the run. */
  lemma {:induction false} TotalsRunKeysGrow(h: Ledger, catalogue: seq<SetInfo>, setData: seq<SetInfo>, src: DataSource,
                                             names: seq<string>, n: int, m: int, cardType: CardType, now: real, today: int)
    requires 0 <= n <= m <= |names|
    ensures TotalsRun(h, catalogue, setData, src, names[..n], cardType, now, today).1.Keys
      <= TotalsRun(h, catalogue, setData, src, names[..m], cardType, now, today).1.Keys
    decreases m - n
  {
    if n < m {
      TotalsRunNext(h, catalogue, setData, src, names, n, cardType, now, today);
      var prior := TotalsRun(h, catalogue, setData, src, names[..n], cardType, now, today);
      IngestSetKeys(prior.1, src, names[n], cardType, today);
      TotalsRunKeysGrow(h, catalogue, setData, src, names, n + 1, m, cardType, now, today);
    }
  }

  /** After the intended run's first `i + 1` sets, every card of set `i`
      with fetched data has a record. */
  lemma RunRecordsSet(h: Ledger, catalogue: seq<SetInfo>, setData: seq<SetInfo>, src: DataSource,
                      names: seq<string>, i: int, c: CardRef, cardType: CardType, now: real, today: int)
    requires 0 <= i < |names|
    requires c in SetCards(src, names[i])
    requires HasData(FetchedFor(src, SetCards(src, names[i]), cardType, today), c.id)
    ensures c.id in TotalsRun(h, catalogue, setData, src, names[..i + 1], cardType, now, today).1
  {
    TotalsRunNext(h, catalogue, setData, src, names, i, cardType, now, today);
    var prior := TotalsRun(h, catalogue, setData, src, names[..i], cardType, now, today);
    IngestRecordsToday(prior.1, SetCards(src, names[i]), FetchedFor(src, SetCards(src, names[i]), cardType, today));
  }

  /** As the program has it, the file `getTotals` writes holds only records
      of the file and of the last watched set's cards. */
  lemma AsWrittenFileKeys(disk: Ledger, src: DataSource, names: seq<string>, cardType: CardType, today: int)
    requires names != []
    ensures forall id | id in AsWrittenFile(disk, src, names, cardType, today) ::
      id in disk || id in Ids(SetCards(src, names[|names| - 1]))
  {
    IngestSetKeys(disk, src, names[|names| - 1], cardType, today);
  }

  /** As the program has it, `getTotals` loses what it ingested for every
      set but the last: a card of an earlier set with fetched data, with no
      record in the file and not among the last set's cards, has no record in
      the file written at the end, while the intended run keeps one. */
  lemma AsWrittenLosesEarlierSets(disk: Ledger, catalogue: seq<SetInfo>, setData: seq<SetInfo>, src: DataSource,
                                  names: seq<string>, i: int, c: CardRef, cardType: CardType, now: real, today: int)
    requires 0 <= i < |names| - 1
    requires c in SetCards(src, names[i])
    requires HasData(FetchedFor(src, SetCards(src, names[i]), cardType, today), c.id)
    requires c.id !in disk && c.id !in Ids(SetCards(src, names[|names| - 1]))
    ensures c.id !in AsWrittenFile(disk, src, names, cardType, today)
    ensures c.id in TotalsRun(disk, catalogue, setData, src, names, cardType, now, today).1
  {
    AsWrittenFileKeys(disk, src, names, cardType, today);
    RunRecordsSet(disk, catalogue, setData, src, names, i, c, cardType, now, today);
    TotalsRunKeysGrow(disk, catalogue, setData, src, names, i + 1, |names|, cardType, now, today);
    assert names[..|names|] == names;
  }

  /** Reordering a list of totals keeps the set names it holds. */
  lemma NamesKept(a: seq<SetTotal>, b: seq<SetTotal>, names: seq<string>)
    requires multiset(a) == multiset(b)
    requires |b| == |names|
    requires forall k | 0 <= k < |b| :: b[k].setName == names[k]
    ensures forall t | t in a :: t.setName in names
  {
    forall t | t in a ensures t.setName in names {
      assert t in multiset(b);
      var k :| 0 <= k < |b| && b[k] == t;
    }
  }

  /** `getTotals` returns one total per watched set, by descending key, and
      each total belongs to a set of `setData` released after `watchFrom`. */
  lemma TotalsRanked(h: Ledger, catalogue: seq<SetInfo>, setData: seq<SetInfo>, src: DataSource,
                     watchFrom: real, cardType: CardType, sort: TotalsSort, now: real, today: int)
    ensures var names := Watched(setData, watchFrom);
      var run := TotalsRun(h, catalogue, setData, src, names, cardType, now, today);
      var totals := OrderByDesc(run.0, TotalKey(sort));
      && |totals| == |names|
      && multiset(totals) == multiset(run.0)
      && SortedDesc(totals, TotalKey(sort))
      && forall t | t in totals :: t.setName in names && exists s | s in setData :: s.name == t.setName && s.date as real > watchFrom
  {
    var names := Watched(setData, watchFrom);
    var run := TotalsRun(h, catalogue, setData, src, names, cardType, now, today);
    var totals := OrderByDesc(run.0, TotalKey(sort));
    TotalsRunNames(h, catalogue, setData, src, names, cardType, now, today);
    assert |multiset(totals)| == |multiset(run.0)|;
    NamesKept(totals, run.0, names);
  }
}
