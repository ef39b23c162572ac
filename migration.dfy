/** The one-off merge of src/migration.ts: the holofoil prices of two days,
    kept by an older ledger under composite `${id}-Holofoil` keys, are copied
    into the records of the current ledger. */
module Migration {
  import opened Types
  import opened Lodash
  import opened History

  /** 2021-05-10 and 2021-05-11 as day numbers. */
  const FirstDay: int := 18757
  const SecondDay: int := 18758

  /** A key of the older ledger: a product id and a finish suffix. */
  datatype OldKey = OldKey(id: int, suffix: string)

  type OldLedger = map<OldKey, HistoryCard>

  /** `oldHistory.cards[id + '-Holofoil']`. */
  function Counterpart(previous: OldLedger, id: int): Option<HistoryCard>
  {
    if OldKey(id, "Holofoil") in previous then Some(previous[OldKey(id, "Holofoil")]) else None
  }

  /** `_.reject(history, (h) => h.date === date)`. */
  function WithoutDate(history: seq<HistoryItem>, date: int): (r: seq<HistoryItem>)
    ensures forall e | e in r :: e in history && e.date != date
    ensures |r| <= |history|
  {
    if history == [] then []
    else
      var e := history[|history| - 1];
      WithoutDate(history[..|history| - 1], date) + if e.date == date then [] else [e]
  }

  lemma {:induction false} WithoutDateAppend(a: seq<HistoryItem>, b: seq<HistoryItem>, date: int)
    ensures WithoutDate(a + b, date) == WithoutDate(a, date) + WithoutDate(b, date)
  {
    if b == [] {
      assert a + b == a;
    } else {
      var init, e := b[..|b| - 1], b[|b| - 1];
      var tail := if e.date == date then [] else [e];
      WithoutDateAppend(a, init, date);
      assert (a + b)[..|a + b| - 1] == a + init;
      assert (a + b)[|a + b| - 1] == e;
      assert WithoutDate(a + b, date) == WithoutDate(a + init, date) + tail;
      assert WithoutDate(b, date) == WithoutDate(init, date) + tail;
      AppendAssociates(WithoutDate(a, date), WithoutDate(init, date), tail);
    }
  }

  lemma AppendAssociates(x: seq<HistoryItem>, y: seq<HistoryItem>, z: seq<HistoryItem>)
    ensures (x + y) + z == x + (y + z)
  {
  }

  /** Filtering one entry: nothing when it is on the date, itself otherwise. */
  lemma WithoutDateSingle(e: HistoryItem, date: int)
    ensures WithoutDate([e], date) == if e.date == date then [] else [e]
  {
    assert [e][..0] == [];
  }

  lemma {:induction false} WithoutDateCommutes(s: seq<HistoryItem>, d1: int, d2: int)
    ensures WithoutDate(WithoutDate(s, d1), d2) == WithoutDate(WithoutDate(s, d2), d1)
  {
    if s != [] {
      var init, e := s[..|s| - 1], s[|s| - 1];
      assert s == init + [e];
      WithoutDateCommutes(init, d1, d2);
      WithoutDateAppend(init, [e], d1);
      WithoutDateAppend(init, [e], d2);
      WithoutDateSingle(e, d1);
      WithoutDateSingle(e, d2);
      WithoutDateAppend(WithoutDate(init, d1), WithoutDate([e], d1), d2);
      WithoutDateAppend(WithoutDate(init, d2), WithoutDate([e], d2), d1);
      if e.date != d1 { WithoutDateSingle(e, d2); }
      if e.date != d2 { WithoutDateSingle(e, d1); }
      assert WithoutDate(WithoutDate([e], d1), d2) == WithoutDate(WithoutDate([e], d2), d1) by {
        var none: seq<HistoryItem> := [];
        assert WithoutDate(none, d1) == [] && WithoutDate(none, d2) == [];
      }
    }
  }

  lemma {:induction false} WithoutDateTwice(s: seq<HistoryItem>, date: int)
    ensures WithoutDate(WithoutDate(s, date), date) == WithoutDate(s, date)
  {
    if s != [] {
      var init, e := s[..|s| - 1], s[|s| - 1];
      assert s == init + [e];
      WithoutDateTwice(init, date);
      WithoutDateAppend(init, [e], date);
      WithoutDateSingle(e, date);
      WithoutDateAppend(WithoutDate(init, date), WithoutDate([e], date), date);
      assert WithoutDate(WithoutDate([e], date), date) == WithoutDate([e], date) by {
        var none: seq<HistoryItem> := [];
        assert WithoutDate(none, date) == [];
      }
    }
  }

  /** The entries of the days the merge does not touch, in order. */
  function OtherDays(history: seq<HistoryItem>): seq<HistoryItem>
  {
    WithoutDate(WithoutDate(history, FirstDay), SecondDay)
  }

  /** One iteration of the merge: with an old counterpart, its 05-10 entry is
      appended as a holofoil price, and its 05-11 entry replaces every 05-11
      entry of the record. */
  function MigrateRecord(card: HistoryCard, counterpart: Option<HistoryCard>): HistoryCard
  {
    if counterpart.None? then card
    else
      var firstDay := EntryOn(counterpart.value.history, FirstDay);
      var secondDay := EntryOn(counterpart.value.history, SecondDay);
      var withFirst := if firstDay.Some? then card.history + [firstDay.value.(cardType := Holofoil)] else card.history;
      var withSecond := if secondDay.Some?
        then WithoutDate(withFirst, SecondDay) + [secondDay.value.(cardType := Holofoil)]
        else withFirst;
      card.(history := withSecond)
  }

  /** The ledger after the merge. */
  function Migrated(cards: Ledger, previous: OldLedger): (r: Ledger)
    ensures r.Keys == cards.Keys
  {
    map id | id in cards :: MigrateRecord(cards[id], Counterpart(previous, id))
  }

  /** A record is never renamed or re-keyed, and one without an old
      counterpart is left as it was. */
  lemma MigrateKeepsIdentity(cards: Ledger, previous: OldLedger, id: int)
    requires id in cards
    ensures var r := Migrated(cards, previous)[id];
      && r.name == cards[id].name && r.setName == cards[id].setName && r.productId == cards[id].productId
      && (Counterpart(previous, id).None? ==> r == cards[id])
  {
  }

  /** The old 05-10 entry is appended whether or not the record already has
      one, so a record can end up with two entries for that day. */
  lemma FirstDayAppended(card: HistoryCard, counterpart: HistoryCard)
    requires EntryOn(counterpart.history, FirstDay).Some?
    requires EntryOn(counterpart.history, SecondDay).None?
    ensures MigrateRecord(card, Some(counterpart)).history
      == card.history + [EntryOn(counterpart.history, FirstDay).value.(cardType := Holofoil)]
    ensures |MigrateRecord(card, Some(counterpart)).history| == |card.history| + 1
  {
  }

  /** Whatever the old record holds for 05-11, its 05-10 entry is appended
      as a holofoil price: leaving 05-11 aside, the merged history is the
      record's own history followed by that entry. */
  lemma FirstDayKept(card: HistoryCard, counterpart: HistoryCard)
    requires EntryOn(counterpart.history, FirstDay).Some?
    ensures WithoutDate(MigrateRecord(card, Some(counterpart)).history, SecondDay)
      == WithoutDate(card.history, SecondDay) + [EntryOn(counterpart.history, FirstDay).value.(cardType := Holofoil)]
  {
    var first := EntryOn(counterpart.history, FirstDay).value.(cardType := Holofoil);
    var secondDay := EntryOn(counterpart.history, SecondDay);
    var withFirst := card.history + [first];
    WithoutDateAppend(card.history, [first], SecondDay);
    WithoutDateSingle(first, SecondDay);
    if secondDay.Some? {
      var second := secondDay.value.(cardType := Holofoil);
      WithoutDateAppend(WithoutDate(withFirst, SecondDay), [second], SecondDay);
      WithoutDateSingle(second, SecondDay);
      WithoutDateTwice(withFirst, SecondDay);
      assert WithoutDate(withFirst, SecondDay) + [] == WithoutDate(withFirst, SecondDay);
    }
  }

  /** With an old 05-11 entry, the record ends with exactly one entry for
      that day: the old one, marked holofoil. */
  lemma SecondDayUnique(card: HistoryCard, counterpart: HistoryCard)
    requires EntryOn(counterpart.history, SecondDay).Some?
    ensures var h := MigrateRecord(card, Some(counterpart)).history;
      && |h| > 0
      && h[|h| - 1] == EntryOn(counterpart.history, SecondDay).value.(cardType := Holofoil)
      && h[|h| - 1].date == SecondDay
      && forall k | 0 <= k < |h| - 1 :: h[k].date != SecondDay
  {
    var h := MigrateRecord(card, Some(counterpart)).history;
    var firstDay := EntryOn(counterpart.history, FirstDay);
    var withFirst := if firstDay.Some? then card.history + [firstDay.value.(cardType := Holofoil)] else card.history;
    var kept := WithoutDate(withFirst, SecondDay);
    assert h[..|h| - 1] == kept;
    forall k | 0 <= k < |h| - 1 ensures h[k].date != SecondDay {
      assert h[k] in kept;
    }
  }

  /** Appending an entry of one of the two merged days leaves the other days alone. */
  lemma OtherDaysAppend(s: seq<HistoryItem>, e: HistoryItem)
    requires e.date == FirstDay || e.date == SecondDay
    ensures OtherDays(s + [e]) == OtherDays(s)
  {
    WithoutDateAppend(s, [e], FirstDay);
    WithoutDateSingle(e, FirstDay);
    WithoutDateAppend(WithoutDate(s, FirstDay), WithoutDate([e], FirstDay), SecondDay);
    if e.date != FirstDay {
      WithoutDateSingle(e, SecondDay);
    } else {
      var none: seq<HistoryItem> := [];
      assert WithoutDate(none, SecondDay) == [];
      assert WithoutDate(s, FirstDay) + none == WithoutDate(s, FirstDay);
    }
  }

  /** Dropping the second day first does not change the other days. */
  lemma OtherDaysWithoutSecond(s: seq<HistoryItem>)
    ensures OtherDays(WithoutDate(s, SecondDay)) == OtherDays(s)
  {
    WithoutDateCommutes(s, SecondDay, FirstDay);
    WithoutDateTwice(WithoutDate(s, FirstDay), SecondDay);
  }

  /** Entries of every other day keep their order and multiplicity. */
  lemma OtherDaysKept(card: HistoryCard, counterpart: Option<HistoryCard>)
    ensures OtherDays(MigrateRecord(card, counterpart).history) == OtherDays(card.history)
  {
    if counterpart.Some? {
      var firstDay := EntryOn(counterpart.value.history, FirstDay);
      var secondDay := EntryOn(counterpart.value.history, SecondDay);
      var withFirst := if firstDay.Some? then card.history + [firstDay.value.(cardType := Holofoil)] else card.history;
      if firstDay.Some? {
        OtherDaysAppend(card.history, firstDay.value.(cardType := Holofoil));
      }
      if secondDay.Some? {
        var kept := WithoutDate(withFirst, SecondDay);
        OtherDaysAppend(kept, secondDay.value.(cardType := Holofoil));
        OtherDaysWithoutSecond(withFirst);
      }
    }
  }

  /** The body of the script's loop for a record with an old counterpart. */
  method MergeRecord(card: HistoryCard, counterpart: HistoryCard) returns (newCard: HistoryCard)
    ensures newCard == MigrateRecord(card, Some(counterpart))
  {
    newCard := card;
    var firstDay := EntryOn(counterpart.history, FirstDay);
    var secondDay := EntryOn(counterpart.history, SecondDay);
    if firstDay.Some? {
      newCard := newCard.(history := newCard.history + [firstDay.value.(cardType := Holofoil)]);
    }
    if secondDay.Some? {
      newCard := newCard.(history := WithoutDate(newCard.history, SecondDay) + [secondDay.value.(cardType := Holofoil)]);
    }
  }

  /** `ledger` is `cards` with exactly the records whose ids `done` lists merged. */
  ghost predicate MergedOn(cards: Ledger, previous: OldLedger, done: seq<int>, ledger: Ledger)
  {
    && ledger.Keys == cards.Keys
    && forall id | id in cards ::
         ledger[id] == if id in done then MigrateRecord(cards[id], Counterpart(previous, id)) else cards[id]
  }

  /** Merging one more record, or skipping one without a counterpart, keeps `MergedOn`. */
  lemma MergedStep(cards: Ledger, previous: OldLedger, done: seq<int>, ledger: Ledger, id: int, record: HistoryCard)
    requires MergedOn(cards, previous, done, ledger)
    requires id in cards && id !in done
    requires record == MigrateRecord(cards[id], Counterpart(previous, id))
    ensures MergedOn(cards, previous, done + [id], ledger[id := record])
  {
    forall x ensures x in done + [id] <==> x in done || x == id {
    }
  }

  lemma PrefixGrows(ids: seq<int>, i: int)
    requires 0 <= i < |ids|
    ensures ids[..i + 1] == ids[..i] + [ids[i]]
  {
  }

  /** Once `done` lists every key, the ledger is the merged ledger. */
  lemma MergedAll(cards: Ledger, previous: OldLedger, done: seq<int>, ledger: Ledger)
    requires MergedOn(cards, previous, done, ledger)
    requires forall x :: x in done <==> x in cards
    ensures ledger == Migrated(cards, previous)
  {
  }

  /** The current ledger (`data/history.json`) as the script holds it. */
  class NewHistory {
    var cards: Ledger

    constructor (cards: Ledger)
      ensures this.cards == cards
    {
      this.cards := cards;
    }

    /** The script's loop over `_.keys(newHistory.cards)`. */
    method Migrate(previous: OldLedger)
      modifies this
      ensures cards == Migrated(old(cards), previous)
    {
      var ledger := cards;
      var cardIds := SortedIds(ledger.Keys);
      ghost var start := ledger;
      for i := 0 to |cardIds|
        invariant MergedOn(start, previous, cardIds[..i], ledger)
      {
        var id := cardIds[i];
        assert id !in cardIds[..i];
        var oldCard := Counterpart(previous, id);
        var newCard := ledger[id];
        if oldCard.Some? {
          newCard := MergeRecord(ledger[id], oldCard.value);
        }
        MergedStep(start, previous, cardIds[..i], ledger, id, newCard);
        PrefixGrows(cardIds, i);
        ledger := ledger[id := newCard];
      }
      assert cardIds[..|cardIds|] == cardIds;
      MergedAll(start, previous, cardIds, ledger);
      cards := ledger;
    }
  }
}
