/** The change calculator (`getChange` and `displayChanges` in src/util.ts):
    today's price of each requested product against yesterday's and against
    the most distant recorded day of the last week and of the last month. */
module Changes {
  import opened Types
  import opened Lodash
  import opened History

  /** The day of a reference price, or the program's 'Not Found'. */
  datatype RefDate = Day(day: int) | NotFound

  /** `getChange`'s result: a reference price, its day, and today's price
      minus it. */
  datatype Reference = Reference(price: int, date: RefDate, change: int)

  /** How far back the weekly and monthly references look. */
  const WeekDays: int := 7
  const MonthDays: int := 31

  /** The entry of the day `j` days before `today`. */
  function EntryAgo(history: seq<HistoryItem>, today: int, j: int): Option<HistoryItem>
  {
    EntryOn(history, today - j)
  }

  /** The entry found by trying the days `j, j - 1, ..., 1` before today in
      that order: the most distant recorded day of the window. */
  function LookBack(history: seq<HistoryItem>, today: int, j: int): Option<HistoryItem>
    decreases j
  {
    if j <= 0 then None
    else match EntryAgo(history, today, j)
      case Some(e) => Some(e)
      case None => LookBack(history, today, j - 1)
  }

  function ReferenceOf(currentPrice: int, found: Option<HistoryItem>): Reference
  {
    match found
    case Some(e) => Reference(e.marketPrice, Day(e.date), currentPrice - e.marketPrice)
    case None => Reference(0, NotFound, 0)
  }

  /** The scan finds nothing exactly when no day of the window is recorded;
      otherwise it finds the first entry of a recorded day of the window, and
      no more distant day of the window is recorded. */
  lemma {:induction false} LookBackFindsMostDistant(history: seq<HistoryItem>, today: int, numDays: int)
    ensures var r := LookBack(history, today, numDays);
      && (r.None? <==> forall j | 1 <= j <= numDays :: EntryAgo(history, today, j).None?)
      && (r.Some? ==>
            && 1 <= today - r.value.date <= numDays
            && EntryOn(history, r.value.date) == r
            && forall j | today - r.value.date < j <= numDays :: EntryAgo(history, today, j).None?)
    decreases numDays
  {
    if numDays > 0 && EntryAgo(history, today, numDays).None? {
      LookBackFindsMostDistant(history, today, numDays - 1);
    }
  }

  /** `getChange(currentPrice, numDays, history)`: counts the day offset
      down from `numDays` and stops at the first recorded day. */
  method GetChange(currentPrice: int, numDays: int, history: seq<HistoryItem>, today: int) returns (r: Reference)
    ensures r == ReferenceOf(currentPrice, LookBack(history, today, numDays))
    ensures r.date.NotFound? <==> forall j | 1 <= j <= numDays :: EntryAgo(history, today, j).None?
    ensures r.date.NotFound? ==> r.price == 0 && r.change == 0
    ensures r.date.Day? ==>
      && 1 <= today - r.date.day <= numDays
      && EntryOn(history, r.date.day).Some?
      && EntryOn(history, r.date.day).value.marketPrice == r.price
      && r.change == currentPrice - r.price
      && forall j | today - r.date.day < j <= numDays :: EntryAgo(history, today, j).None?
  {
    var obj := Reference(0, NotFound, 0);
    var historyData: Option<HistoryItem> := None;
    var j := numDays;
    while j > 0
      invariant historyData.None?
      invariant LookBack(history, today, numDays) == LookBack(history, today, j)
    {
      historyData := EntryAgo(history, today, j);
      if historyData.Some? {
        obj := Reference(historyData.value.marketPrice, Day(historyData.value.date), currentPrice - historyData.value.marketPrice);
        break;
      }
      j := j - 1;
    }
    if historyData.None? {
      obj := Reference(0, NotFound, 0);
    }
    r := obj;
    LookBackFindsMostDistant(history, today, numDays);
  }

  /** The `sort` argument: 'daily', 'weekly', 'monthly', or anything else,
      which gives every change the same (undefined) key. */
  datatype SortBy = Daily | Weekly | Monthly | Unsorted

  /** The object `displayChanges` builds for one product. */
  datatype Change = Change(
    id: int,
    name: string,
    setName: string,
    setDate: Option<int>,
    buyPrice: Option<int>,
    todaysPrice: int,
    yesterdaysPrice: Option<int>,
    dailyChange: Option<int>,
    lastWeekPrice: int,
    lastWeekDate: RefDate,
    weeklyChange: int,
    lastMonthPrice: int,
    lastMonthDate: RefDate,
    monthlyChange: int)

  /** A change with the fields the final `_.map` adds. */
  datatype Report = Report(
    change: Change,
    profit: int,
    profitPercentage: int,
    dailyPercentage: int,
    weeklyPercentage: int,
    monthlyPercentage: int)

  /** `_.find(sets, (s) => s.name === name)?.date`. */
  function SetDateOf(sets: seq<SetInfo>, name: string): Option<int>
  {
    match SetNamed(sets, name)
    case Some(s) => Some(s.date)
    case None => None
  }

  /** The object `displayChanges` builds from a product record, its buy
      price, today's and yesterday's entries and its weekly and monthly
      references. */
  function ChangeOf(id: int, rec: HistoryCard, sets: seq<SetInfo>, buyPrice: Option<int>, t: HistoryItem,
                    y: Option<HistoryItem>, week: Reference, month: Reference): Change
  {
    Change(
      id, rec.name, rec.setName, SetDateOf(sets, rec.setName), buyPrice,
      t.marketPrice,
      if y.Some? then Some(y.value.marketPrice) else None,
      if y.Some? then Some(t.marketPrice - y.value.marketPrice) else None,
      week.price, week.date, week.change,
      month.price, month.date, month.change)
  }

  /** The change of `cardIds[i]`, or nothing when it has no record or no
      entry for today. */
  function ChangeAt(history: Ledger, sets: seq<SetInfo>, today: int, cardIds: seq<int>, prices: seq<int>, i: int): Option<Change>
    requires 0 <= i < |cardIds|
  {
    var id := cardIds[i];
    if id !in history then None
    else
      var rec := history[id];
      match EntryOn(rec.history, today)
      case None => None
      case Some(t) =>
        Some(ChangeOf(id, rec, sets, if i < |prices| then Some(prices[i]) else None, t,
                      EntryOn(rec.history, today - 1),
                      ReferenceOf(t.marketPrice, LookBack(rec.history, today, WeekDays)),
                      ReferenceOf(t.marketPrice, LookBack(rec.history, today, MonthDays))))
  }

  /** The changes the loop of `displayChanges` collects from the first `n` ids. */
  function Collect(history: Ledger, sets: seq<SetInfo>, today: int, cardIds: seq<int>, prices: seq<int>, n: int): seq<Change>
    requires 0 <= n <= |cardIds|
  {
    if n == 0 then []
    else
      var c := ChangeAt(history, sets, today, cardIds, prices, n - 1);
      Collect(history, sets, today, cardIds, prices, n - 1) + (if c.Some? then [c.value] else [])
  }

  lemma CollectNext(history: Ledger, sets: seq<SetInfo>, today: int, cardIds: seq<int>, prices: seq<int>, i: int)
    requires 0 <= i < |cardIds|
    ensures var c := ChangeAt(history, sets, today, cardIds, prices, i);
      Collect(history, sets, today, cardIds, prices, i + 1)
        == Collect(history, sets, today, cardIds, prices, i) + (if c.Some? then [c.value] else [])
  {
  }

  /** The price floor of `displayChanges`: today's price is set and above
      `minPrice`. */
  predicate AboveFloor(c: Change, minPrice: int)
  {
    c.todaysPrice != 0 && c.todaysPrice > minPrice
  }

  /** `_.filter(changes, (c) => c.todaysPrice && c.todaysPrice > minPrice)`:
      every change above the floor, as often as it is given, and no other
      (the order is kept, see `AboveMinPriceAppend`). */
  function AboveMinPrice(changes: seq<Change>, minPrice: int): (r: seq<Change>)
    ensures |r| <= |changes|
    ensures forall k | 0 <= k < |r| :: r[k].todaysPrice != 0 && r[k].todaysPrice > minPrice
    ensures forall c :: multiset(r)[c] == if AboveFloor(c, minPrice) then multiset(changes)[c] else 0
  {
    if changes == [] then []
    else
      var c := changes[|changes| - 1];
      var init := changes[..|changes| - 1];
      assert changes == init + [c];
      AboveMinPrice(init, minPrice) + (if c.todaysPrice != 0 && c.todaysPrice > minPrice then [c] else [])
  }

  /** The filter keeps the input order: filtering a concatenation
      concatenates the filtered parts. */
  lemma {:induction false} AboveMinPriceAppend(a: seq<Change>, b: seq<Change>, minPrice: int)
    ensures AboveMinPrice(a + b, minPrice) == AboveMinPrice(a, minPrice) + AboveMinPrice(b, minPrice)
    decreases |b|
  {
    if b == [] {
      assert a + b == a;
    } else {
      var init, c := b[..|b| - 1], b[|b| - 1];
      assert (a + b)[..|a + b| - 1] == a + init;
      assert (a + b)[|a + b| - 1] == c;
      AboveMinPriceAppend(a, init, minPrice);
    }
  }

  /** `change / reference` when both are non-zero, else 0. */
  function Ratio(change: int, reference: int): real
  {
    if change != 0 && reference != 0 then change as real / reference as real else 0.0
  }

  function DailyRatio(c: Change): real
  {
    if c.dailyChange.Some? && c.yesterdaysPrice.Some? then Ratio(c.dailyChange.value, c.yesterdaysPrice.value) else 0.0
  }

  function WeeklyRatio(c: Change): real
  {
    Ratio(c.weeklyChange, c.lastWeekPrice)
  }

  function MonthlyRatio(c: Change): real
  {
    Ratio(c.monthlyChange, c.lastMonthPrice)
  }

  function NoRatio(c: Change): real
  {
    0.0
  }

  /** The key `displayChanges` sorts by. */
  function SortKey(sort: SortBy): Change -> real
  {
    match sort
    case Daily => DailyRatio
    case Weekly => WeeklyRatio
    case Monthly => MonthlyRatio
    case Unsorted => NoRatio
  }

  /** `_.round((change / reference) * 100)` when both are non-zero, else 0. */
  function Percentage(change: int, reference: int): int
  {
    if change != 0 && reference != 0 then RoundHalfUp(change as real / reference as real * 100.0) else 0
  }

  /** The final `_.map` of `displayChanges`: profit against the buy price and
      the three percentages, each 0 unless both of its operands are non-zero. */
  function ReportOf(c: Change): Report
  {
    var bought := c.buyPrice.Some? && c.buyPrice.value != 0 && c.todaysPrice != 0;
    Report(
      c,
      if bought then c.todaysPrice - c.buyPrice.value else 0,
      if bought then RoundHalfUp((c.todaysPrice - c.buyPrice.value) as real / c.buyPrice.value as real * 100.0) else 0,
      if c.dailyChange.Some? && c.yesterdaysPrice.Some? then Percentage(c.dailyChange.value, c.yesterdaysPrice.value) else 0,
      Percentage(c.weeklyChange, c.lastWeekPrice),
      Percentage(c.monthlyChange, c.lastMonthPrice))
  }

  function Reports(changes: seq<Change>): (r: seq<Report>)
    ensures |r| == |changes|
    ensures forall k | 0 <= k < |r| :: r[k] == ReportOf(changes[k])
  {
    if changes == [] then [] else [ReportOf(changes[0])] + Reports(changes[1..])
  }

  /** The steps of `displayChanges` after its loop: the changes filtered by
      `minPrice` when it is positive, by descending key, cut to `limit` when
      it is non-zero. */
  function Arrange(changes: seq<Change>, limit: int, minPrice: int, sort: SortBy): seq<Change>
  {
    var filtered := if minPrice > 0 then AboveMinPrice(changes, minPrice) else changes;
    var sorted := OrderByDesc(filtered, SortKey(sort));
    if limit != 0 then SliceTo(sorted, limit) else sorted
  }

  /** What `displayChanges` returns: the arranged changes with the derived
      fields added. */
  function DisplayReport(history: Ledger, sets: seq<SetInfo>, today: int, cardIds: seq<int>, prices: seq<int>,
                         limit: int, minPrice: int, sort: SortBy): seq<Report>
  {
    Reports(Arrange(Collect(history, sets, today, cardIds, prices, |cardIds|), limit, minPrice, sort))
  }

  /** Without a limit, arranging keeps every change above a positive
      `minPrice` (every change when there is no floor), as often as it is
      given, and no other. */
  lemma ArrangeFloor(changes: seq<Change>, minPrice: int, sort: SortBy)
    ensures var full := Arrange(changes, 0, minPrice, sort);
      forall c :: multiset(full)[c] == if minPrice <= 0 || AboveFloor(c, minPrice) then multiset(changes)[c] else 0
  {
  }

  /** Arranging: without a limit, the changes above a positive `minPrice`
      (all of them when there is no floor), each as often as given, by
      descending key; a non-zero `limit` keeps the first `limit` of those
      (all but the last `-limit` when negative), which rank at least as high
      as every change it drops. */
  lemma ArrangeFilterOrderLimit(changes: seq<Change>, limit: int, minPrice: int, sort: SortBy)
    ensures var r := Arrange(changes, limit, minPrice, sort);
      var full := Arrange(changes, 0, minPrice, sort);
      && (forall c :: multiset(full)[c] == if minPrice <= 0 || AboveFloor(c, minPrice) then multiset(changes)[c] else 0)
      && SortedDesc(full, SortKey(sort))
      && LimitedTo(r, full, limit)
      && (forall i, j | 0 <= i < |r| <= j < |full| :: SortKey(sort)(full[i]) >= SortKey(sort)(full[j]))
      && SortedDesc(r, SortKey(sort))
  {
    ArrangeFloor(changes, minPrice, sort);
    var filtered := if minPrice > 0 then AboveMinPrice(changes, minPrice) else changes;
    var full := OrderByDesc(filtered, SortKey(sort));
    assert Arrange(changes, 0, minPrice, sort) == full;
    var r := Arrange(changes, limit, minPrice, sort);
    assert r == if limit != 0 then SliceTo(full, limit) else full;
    assert r <= full;
    forall i, j | 0 <= i < j < |r| ensures SortKey(sort)(r[i]) >= SortKey(sort)(r[j]) {
      assert r[i] == full[i] && r[j] == full[j];
    }
  }

  /** Arranged changes are given changes, each above a positive `minPrice`,
      and there are no more of them than were given. */
  lemma ArrangeMembers(changes: seq<Change>, limit: int, minPrice: int, sort: SortBy)
    ensures var r := Arrange(changes, limit, minPrice, sort);
      && |r| <= |changes|
      && (forall k | 0 <= k < |r| :: r[k] in changes)
      && (minPrice > 0 ==> forall k | 0 <= k < |r| :: r[k].todaysPrice > minPrice)
  {
    var filtered := if minPrice > 0 then AboveMinPrice(changes, minPrice) else changes;
    var sorted := OrderByDesc(filtered, SortKey(sort));
    var r := Arrange(changes, limit, minPrice, sort);
    OrderByDescMembers(filtered, SortKey(sort));
    assert r <= sorted;
    forall k | 0 <= k < |r| ensures r[k] in filtered {
      assert r[k] == sorted[k];
    }
    if minPrice > 0 {
      forall k | 0 <= k < |r| ensures r[k] in changes && r[k].todaysPrice > minPrice {
        AboveMinPriceMember(changes, minPrice, r[k]);
      }
    }
  }

  /** A change that passes the price floor was among those given, above it. */
  lemma AboveMinPriceMember(changes: seq<Change>, minPrice: int, c: Change)
    requires c in AboveMinPrice(changes, minPrice)
    ensures c in changes && c.todaysPrice > minPrice
  {
    var r := AboveMinPrice(changes, minPrice);
    assert c in multiset(r);
  }

  /** With no price floor and no limit, arranging drops nothing. */
  lemma ArrangeKeepsAll(changes: seq<Change>, sort: SortBy)
    ensures multiset(Arrange(changes, 0, 0, sort)) == multiset(changes)
  {
  }

  /** What every reported change satisfies: it belongs to a requested id
      that has a record and an entry for today, it carries the buy price of
      its position when there is one, its daily fields are present exactly
      when yesterday is recorded, and its weekly and monthly fields are the
      7- and 31-day scans. */
  ghost predicate Reported(history: Ledger, today: int, cardIds: seq<int>, prices: seq<int>, c: Change)
  {
    && (exists i | 0 <= i < |cardIds| :: cardIds[i] == c.id && c.buyPrice == (if i < |prices| then Some(prices[i]) else None))
    && c.id in history
    && EntryOn(history[c.id].history, today).Some?
    && c.todaysPrice == EntryOn(history[c.id].history, today).value.marketPrice
    && c.name == history[c.id].name
    && (c.yesterdaysPrice.Some? <==> EntryOn(history[c.id].history, today - 1).Some?)
    && (c.yesterdaysPrice.Some? ==> c.yesterdaysPrice.value == EntryOn(history[c.id].history, today - 1).value.marketPrice)
    && (c.dailyChange.Some? <==> c.yesterdaysPrice.Some?)
    && (c.dailyChange.Some? ==> c.dailyChange.value == c.todaysPrice - c.yesterdaysPrice.value)
    && Reference(c.lastWeekPrice, c.lastWeekDate, c.weeklyChange) == ReferenceOf(c.todaysPrice, LookBack(history[c.id].history, today, WeekDays))
    && Reference(c.lastMonthPrice, c.lastMonthDate, c.monthlyChange) == ReferenceOf(c.todaysPrice, LookBack(history[c.id].history, today, MonthDays))
  }

  lemma {:induction false} CollectReported(history: Ledger, sets: seq<SetInfo>, today: int, cardIds: seq<int>, prices: seq<int>, n: int)
    requires 0 <= n <= |cardIds|
    ensures var cs := Collect(history, sets, today, cardIds, prices, n);
      && |cs| <= n
      && forall c | c in cs :: Reported(history, today, cardIds, prices, c)
  {
    if n > 0 {
      CollectReported(history, sets, today, cardIds, prices, n - 1);
      if ChangeAt(history, sets, today, cardIds, prices, n - 1).Some? {
        ChangeAtReported(history, sets, today, cardIds, prices, n - 1);
      }
    }
  }

  /** The change of one id is built from its record as `Reported` says. */
  lemma ChangeAtReported(history: Ledger, sets: seq<SetInfo>, today: int, cardIds: seq<int>, prices: seq<int>, i: int)
    requires 0 <= i < |cardIds| && ChangeAt(history, sets, today, cardIds, prices, i).Some?
    ensures Reported(history, today, cardIds, prices, ChangeAt(history, sets, today, cardIds, prices, i).value)
  {
    assert cardIds[i] == ChangeAt(history, sets, today, cardIds, prices, i).value.id;
  }

  /** Every id with a record and an entry for today is collected. */
  lemma {:induction false} CollectComplete(history: Ledger, sets: seq<SetInfo>, today: int, cardIds: seq<int>, prices: seq<int>, n: int)
    requires 0 <= n <= |cardIds|
    ensures var cs := Collect(history, sets, today, cardIds, prices, n);
      forall i | 0 <= i < n && cardIds[i] in history && EntryOn(history[cardIds[i]].history, today).Some? ::
        exists c | c in cs :: c.id == cardIds[i]
  {
    if n > 0 {
      CollectComplete(history, sets, today, cardIds, prices, n - 1);
      var cs := Collect(history, sets, today, cardIds, prices, n - 1);
      var c := ChangeAt(history, sets, today, cardIds, prices, n - 1);
      var cs' := Collect(history, sets, today, cardIds, prices, n);
      forall i | 0 <= i < n && cardIds[i] in history && EntryOn(history[cardIds[i]].history, today).Some?
        ensures exists c' | c' in cs' :: c'.id == cardIds[i]
      {
        if i < n - 1 {
          var c' :| c' in cs && c'.id == cardIds[i];
          assert c' in cs';
        } else {
          assert c.value in cs';
        }
      }
    }
  }

  /** The reported products are requested ids with a record and an entry for
      today (so there are at most as many as ids), each with its fields as
      `Reported` says. */
  lemma DisplayReportsTodayOnly(history: Ledger, sets: seq<SetInfo>, today: int, cardIds: seq<int>, prices: seq<int>,
                                limit: int, minPrice: int, sort: SortBy)
    ensures var out := DisplayReport(history, sets, today, cardIds, prices, limit, minPrice, sort);
      && |out| <= |cardIds|
      && forall k | 0 <= k < |out| :: Reported(history, today, cardIds, prices, out[k].change)
  {
    var changes := Collect(history, sets, today, cardIds, prices, |cardIds|);
    var r := Arrange(changes, limit, minPrice, sort);
    CollectReported(history, sets, today, cardIds, prices, |cardIds|);
    ArrangeMembers(changes, limit, minPrice, sort);
    forall k | 0 <= k < |r| ensures Reported(history, today, cardIds, prices, r[k]) {
      assert r[k] in changes;
    }
  }

  /** Reporting keeps a limit: the reports of the first changes are the
      first reports. */
  lemma ReportsLimited(r: seq<Change>, full: seq<Change>, limit: int)
    requires LimitedTo(r, full, limit)
    ensures LimitedTo(Reports(r), Reports(full), limit)
  {
    forall k | 0 <= k < |r| ensures Reports(r)[k] == Reports(full)[k] {
      assert r[k] == full[k];
    }
  }

  /** Filtering, ordering and truncation: with a positive `minPrice` every
      result is priced above it, results come by descending key, and a
      non-zero `limit` keeps the first `limit` reports of the unlimited
      output (all but the last `-limit` when negative). */
  lemma DisplayFilterOrderLimit(history: Ledger, sets: seq<SetInfo>, today: int, cardIds: seq<int>, prices: seq<int>,
                                limit: int, minPrice: int, sort: SortBy)
    ensures var out := DisplayReport(history, sets, today, cardIds, prices, limit, minPrice, sort);
      var full := DisplayReport(history, sets, today, cardIds, prices, 0, minPrice, sort);
      && (minPrice > 0 ==> forall k | 0 <= k < |out| :: out[k].change.todaysPrice > minPrice)
      && (forall i, j | 0 <= i < j < |out| :: SortKey(sort)(out[i].change) >= SortKey(sort)(out[j].change))
      && LimitedTo(out, full, limit)
  {
    var changes := Collect(history, sets, today, cardIds, prices, |cardIds|);
    var r := Arrange(changes, limit, minPrice, sort);
    var out := Reports(r);
    ArrangeMembers(changes, limit, minPrice, sort);
    ArrangeFilterOrderLimit(changes, limit, minPrice, sort);
    ReportsLimited(r, Arrange(changes, 0, minPrice, sort), limit);
    forall i, j | 0 <= i < j < |out| ensures SortKey(sort)(out[i].change) >= SortKey(sort)(out[j].change) {
      assert out[i].change == r[i] && out[j].change == r[j];
    }
  }

  lemma ReportsCover(r: seq<Change>, c: Change)
    requires c in r
    ensures exists k | 0 <= k < |Reports(r)| :: Reports(r)[k].change == c
  {
    var k :| 0 <= k < |r| && r[k] == c;
    assert Reports(r)[k].change == c;
  }

  /** A requested id that `displayChanges` may report: it has a record, an
      entry for today, and today's price is above a positive `minPrice`. */
  ghost predicate Eligible(history: Ledger, today: int, minPrice: int, id: int)
  {
    && id in history
    && EntryOn(history[id].history, today).Some?
    && (minPrice <= 0 || EntryOn(history[id].history, today).value.marketPrice > minPrice)
  }

  /** A change that passes the floor is reported when no limit applies. */
  lemma KeptChangeReported(changes: seq<Change>, minPrice: int, sort: SortBy, c: Change)
    requires c in changes && (minPrice <= 0 || AboveFloor(c, minPrice))
    ensures var out := Reports(Arrange(changes, 0, minPrice, sort));
      exists k | 0 <= k < |out| :: out[k].change.id == c.id
  {
    var r := Arrange(changes, 0, minPrice, sort);
    ArrangeFloor(changes, minPrice, sort);
    assert c in multiset(changes);
    assert c in multiset(r);
    ReportsCover(r, c);
  }

  /** Without a limit, every requested id that has a record and an entry for
      today priced above a positive `minPrice` is reported. */
  lemma DisplayComplete(history: Ledger, sets: seq<SetInfo>, today: int, cardIds: seq<int>, prices: seq<int>,
                        minPrice: int, sort: SortBy)
    ensures var out := DisplayReport(history, sets, today, cardIds, prices, 0, minPrice, sort);
      forall id | id in cardIds && Eligible(history, today, minPrice, id) :: exists k | 0 <= k < |out| :: out[k].change.id == id
  {
    var changes := Collect(history, sets, today, cardIds, prices, |cardIds|);
    var out := DisplayReport(history, sets, today, cardIds, prices, 0, minPrice, sort);
    assert out == Reports(Arrange(changes, 0, minPrice, sort));
    CollectComplete(history, sets, today, cardIds, prices, |cardIds|);
    CollectReported(history, sets, today, cardIds, prices, |cardIds|);
    forall id | id in cardIds && Eligible(history, today, minPrice, id)
      ensures exists k | 0 <= k < |out| :: out[k].change.id == id
    {
      var i :| 0 <= i < |cardIds| && cardIds[i] == id;
      var c :| c in changes && c.id == id;
      assert Reported(history, today, cardIds, prices, c);
      KeptChangeReported(changes, minPrice, sort, c);
    }
  }

  /** What the output of `displayChanges` guarantees: no more reports than
      requested ids, each `Reported`, above a positive `minPrice`, by
      descending key; without a limit every eligible id is reported, and a
      non-zero `limit` keeps the first reports of the unlimited output. */
  ghost predicate Displayable(history: Ledger, sets: seq<SetInfo>, today: int, cardIds: seq<int>, prices: seq<int>,
                              limit: int, minPrice: int, sort: SortBy, out: seq<Report>)
  {
    && |out| <= |cardIds|
    && (forall k | 0 <= k < |out| :: Reported(history, today, cardIds, prices, out[k].change))
    && (minPrice > 0 ==> forall k | 0 <= k < |out| :: out[k].change.todaysPrice > minPrice)
    && (forall i, j | 0 <= i < j < |out| :: SortKey(sort)(out[i].change) >= SortKey(sort)(out[j].change))
    && (limit == 0 ==> forall id | id in cardIds && Eligible(history, today, minPrice, id) ::
          exists k | 0 <= k < |out| :: out[k].change.id == id)
    && LimitedTo(out, DisplayReport(history, sets, today, cardIds, prices, 0, minPrice, sort), limit)
  }

  lemma DisplayReportIsDisplayable(history: Ledger, sets: seq<SetInfo>, today: int, cardIds: seq<int>, prices: seq<int>,
                                   limit: int, minPrice: int, sort: SortBy)
    ensures Displayable(history, sets, today, cardIds, prices, limit, minPrice, sort,
                        DisplayReport(history, sets, today, cardIds, prices, limit, minPrice, sort))
  {
    DisplayReportsTodayOnly(history, sets, today, cardIds, prices, limit, minPrice, sort);
    DisplayFilterOrderLimit(history, sets, today, cardIds, prices, limit, minPrice, sort);
    DisplayComplete(history, sets, today, cardIds, prices, minPrice, sort);
  }

  /** The derived fields: profit is today's price minus the buy price, and
      each percentage is the nearest whole percent of its change over its
      reference, when both operands are non-zero; otherwise they are 0. */
  lemma ReportFields(c: Change)
    ensures var r := ReportOf(c);
      && r.change == c
      && (if c.buyPrice.Some? && c.buyPrice.value != 0 && c.todaysPrice != 0 then
            && r.profit == c.todaysPrice - c.buyPrice.value
            && r.profitPercentage as real - 0.5 <= r.profit as real / c.buyPrice.value as real * 100.0 < r.profitPercentage as real + 0.5
          else r.profit == 0 && r.profitPercentage == 0)
      && (if c.weeklyChange != 0 && c.lastWeekPrice != 0 then
            r.weeklyPercentage as real - 0.5 <= c.weeklyChange as real / c.lastWeekPrice as real * 100.0 < r.weeklyPercentage as real + 0.5
          else r.weeklyPercentage == 0)
      && (if c.monthlyChange != 0 && c.lastMonthPrice != 0 then
            r.monthlyPercentage as real - 0.5 <= c.monthlyChange as real / c.lastMonthPrice as real * 100.0 < r.monthlyPercentage as real + 0.5
          else r.monthlyPercentage == 0)
      && (if c.dailyChange.Some? && c.yesterdaysPrice.Some? && c.dailyChange.value != 0 && c.yesterdaysPrice.value != 0 then
            r.dailyPercentage as real - 0.5 <= c.dailyChange.value as real / c.yesterdaysPrice.value as real * 100.0 < r.dailyPercentage as real + 0.5
          else r.dailyPercentage == 0)
  {
  }

  /** One iteration of the loop of `displayChanges`: the change of
      `cardIds[i]`, or nothing where the loop continues without one. */
  method ChangeFor(history: Ledger, sets: seq<SetInfo>, today: int, cardIds: seq<int>, prices: seq<int>, i: int)
    returns (change: Option<Change>)
    requires 0 <= i < |cardIds|
    ensures change == ChangeAt(history, sets, today, cardIds, prices, i)
  {
    var id := cardIds[i];
    if id !in history {
      return None;
    }
    var historicalData := history[id];
    var buyPrice := if i < |prices| then Some(prices[i]) else None;
    var todaysPrice := EntryOn(historicalData.history, today);
    if todaysPrice.None? {
      return None;
    }
    var yesterdaysPrice := EntryOn(historicalData.history, today - 1);
    var lastWeek := GetChange(todaysPrice.value.marketPrice, WeekDays, historicalData.history, today);
    var lastMonth := GetChange(todaysPrice.value.marketPrice, MonthDays, historicalData.history, today);
    change := Some(ChangeOf(id, historicalData, sets, buyPrice, todaysPrice.value, yesterdaysPrice, lastWeek, lastMonth));
  }

  /** `displayChanges(cardIds, prices, limit, minPrice, sort)` over the
      ledger `history` and the set catalogue `sets`. */
  method DisplayChanges(history: Ledger, sets: seq<SetInfo>, today: int, cardIds: seq<int>, prices: seq<int>,
                        limit: int, minPrice: int, sort: SortBy) returns (out: seq<Report>)
    ensures out == DisplayReport(history, sets, today, cardIds, prices, limit, minPrice, sort)
    ensures Displayable(history, sets, today, cardIds, prices, limit, minPrice, sort, out)
  {
    var changes: seq<Change> := [];
    for i := 0 to |cardIds|
      invariant changes == Collect(history, sets, today, cardIds, prices, i)
    {
      var change := ChangeFor(history, sets, today, cardIds, prices, i);
      CollectNext(history, sets, today, cardIds, prices, i);
      if change.Some? {
        changes := changes + [change.value];
      }
    }
    if minPrice > 0 {
      changes := AboveMinPrice(changes, minPrice);
    }
    changes := OrderByDesc(changes, SortKey(sort));
    if limit != 0 {
      changes := SliceTo(changes, limit);
    }
    out := Reports(changes);
    DisplayReportIsDisplayable(history, sets, today, cardIds, prices, limit, minPrice, sort);
  }
}
