/** What every write keeps: a sound log, a sound snapshot table, and projections the log explains. */
module RecordInvariants {
  import opened Basics
  import opened LotKeys
  import opened Lots
  import opened LotTables
  import opened Selections
  import opened Sorting
  import opened Snapshots
  import opened Records
  import opened Stock

  // ------------------------------------------------------------ the log

  /** A row of the log satisfies the constraints and carries an already normalised unit. */
  predicate EventSound(e: InventoryEvent) {
    EventRules(e) && NormalizeUnit(e.unit) == e.unit
  }

  /** Rows are sound, and neither ids nor idempotency keys repeat. */
  ghost predicate LogSound(log: seq<InventoryEvent>) {
    && (forall e :: e in log ==> EventSound(e))
    && (forall i, j :: 0 <= i < j < |log| ==> log[i].id != log[j].id && log[i].idempotencyKey != log[j].idempotencyKey)
  }

  predicate Insertable(log: seq<InventoryEvent>, e: InventoryEvent) {
    EventSound(e) && !KeyTaken(log, e.idempotencyKey) && !IdTaken(log, e.id)
  }

  lemma InsertKeepsLogSound(log: seq<InventoryEvent>, e: InventoryEvent)
    requires LogSound(log) && Insertable(log, e)
    ensures LogSound(log + [e])
  {
  }

  /** A fold over rule-abiding events yields lots that abide by the snapshot table's rules. */
  lemma FoldMeetsLotRules(es: seq<InventoryEvent>)
    requires forall e :: e in es ==> EventSound(e)
    ensures LotsMeetRules(FoldTable(es))
  {
    forall k | k in FoldTable(es)
      ensures LotRules(LotState(k, FoldTable(es)[k]))
    {
      EveryLotIsItsEvents(es, k);
      assert EventsOfLot(es, k)[0] in EventsOfLot(es, k);
    }
  }

  ghost predicate LotsMeetRules(m: LotTable) {
    forall k :: k in m ==> LotRules(LotState(k, m[k]))
  }

  lemma MergeMeetsLotRules(a: LotTable, b: LotTable)
    requires LotsMeetRules(a) && LotsMeetRules(b)
    ensures LotsMeetRules(Merge(a, b))
  {
    forall k | k in Merge(a, b)
      ensures LotRules(LotState(k, Merge(a, b)[k]))
    {
      assert At(Merge(a, b), k) == Add(At(a, k), At(b, k));
    }
  }

  lemma FreezeMeetsTableRules(household: Uuid, asOf: Instant, m: LotTable)
    requires LotsMeetRules(m)
    ensures TableRules(Freeze(household, asOf, m).lots)
  {
    var s := Freeze(household, asOf, m);
    FreezeCanonical(household, asOf, m);
    CanonicalIsDistinct(s.lots);
    TableMembers(s.lots);
    forall lot | lot in s.lots
      ensures LotRules(lot)
    {
      assert At(m, lot.key) == Some(lot.totals);
    }
  }

  /** The frozen fold of rule-abiding events abides by every rule of the snapshot table. */
  lemma FrozenMeetsTableRules(household: Uuid, asOf: Instant, es: seq<InventoryEvent>)
    requires forall e :: e in es ==> EventSound(e)
    ensures TableRules(Freeze(household, asOf, FoldTable(es)).lots)
  {
    FoldMeetsLotRules(es);
    FreezeMeetsTableRules(household, asOf, FoldTable(es));
  }

  // ------------------------------------------------------------ the table

  /** At most one row per household and lot key, one watermark per household, and every row within the rules. */
  ghost predicate TableSound(rows: seq<SnapshotRow>) {
    && (forall r :: r in rows ==> LotRules(r.lot))
    && (forall r :: r in rows ==> multiset(rows)[r] == 1)
    && (forall r, q :: r in rows && q in rows && r.household == q.household ==> r.asOf == q.asOf)
    && (forall r, q :: r in rows && q in rows && r.household == q.household && r.lot.key == q.lot.key ==> r == q)
  }

  lemma OnceOnly<T>(s: seq<T>, i: nat, j: nat)
    requires i < j < |s| && multiset(s)[s[i]] == 1
    ensures s[i] != s[j]
  {
    assert s == s[..j] + [s[j]] + s[j + 1..];
    assert s[i] in s[..j];
    assert s[i] in multiset(s[..j]);
  }

  lemma OwnLotsDistinct(rows: seq<SnapshotRow>, household: Uuid)
    requires TableSound(rows)
    ensures DistinctKeys(LotsIn(RowsFor(rows, household)))
  {
    var own := RowsFor(rows, household);
    forall i, j | 0 <= i < j < |own|
      ensures own[i].lot.key != own[j].lot.key
    {
      assert own[i] in own && own[j] in own;
      WhereCounts(rows, (r: SnapshotRow) => r.household == household, own[i]);
      OnceOnly(own, i, j);
    }
  }

  lemma {:induction false} CommonWatermark(rows: seq<SnapshotRow>, asOf: Instant)
    requires rows != [] && forall r :: r in rows ==> r.asOf == asOf
    ensures LatestAsOf(rows) == asOf
  {
    assert rows[|rows| - 1] in rows;
    if |rows| == 1 {
    } else {
      CommonWatermark(rows[..|rows| - 1], asOf);
    }
  }

  lemma {:induction false} LatestBounds(rows: seq<SnapshotRow>)
    requires rows != []
    ensures forall r :: r in rows ==> r.asOf <= LatestAsOf(rows)
    ensures exists r :: r in rows && r.asOf == LatestAsOf(rows)
  {
    var init, last := rows[..|rows| - 1], rows[|rows| - 1];
    assert last in rows && rows == init + [last];
    if |rows| == 1 {
    } else {
      LatestBounds(init);
      var r :| r in init && r.asOf == LatestAsOf(init);
      assert r in rows;
    }
  }

  /** What reading a household gives, whatever the table holds: its rows' lots in order, at their latest instant. */
  lemma GetReadsOwnRows(rows: seq<SnapshotRow>, household: Uuid)
    ensures Get(rows, household).None? <==> forall r :: r in rows ==> r.household != household
    ensures match Get(rows, household)
            case None => true
            case Some(s) =>
              && s.household == household
              && (forall r :: r in rows && r.household == household ==> r.asOf <= s.asOf)
              && (exists r :: r in rows && r.household == household && r.asOf == s.asOf)
              && multiset(s.lots) == multiset(LotsIn(RowsFor(rows, household)))
              && InOrder(s.lots, LotLess)
  {
    var own := RowsFor(rows, household);
    if own == [] {
      assert forall r :: r in rows && r.household == household ==> r in own;
    } else {
      assert own[0] in own;
      LatestBounds(own);
      LotsCompareByKey();
      SortMembers(LotsIn(own), LotLess);
      SortInOrder(LotsIn(own), LotLess);
    }
  }

  /** A sound table reads back the canonical snapshot of its rows. */
  lemma GetCanonical(rows: seq<SnapshotRow>, household: Uuid)
    requires TableSound(rows) && Get(rows, household).Some?
    ensures var s := Get(rows, household).value;
            s.household == household && Canonical(s.lots) &&
            forall r :: r in rows && r.household == household ==> r.asOf == s.asOf
    ensures forall lot :: lot in Get(rows, household).value.lots <==>
                          SnapshotRow(household, lot, Get(rows, household).value.asOf) in rows
  {
    var own := RowsFor(rows, household);
    assert own[0] in own;
    CommonWatermark(own, own[0].asOf);
    OwnLotsDistinct(rows, household);
    SortCanonical(LotsIn(own));
    var w := own[0].asOf;
    forall lot
      ensures lot in LotsIn(own) <==> SnapshotRow(household, lot, w) in rows
    {
      if lot in LotsIn(own) {
        var i :| 0 <= i < |own| && LotsIn(own)[i] == lot;
        assert own[i] in own;
      }
      if SnapshotRow(household, lot, w) in rows {
        assert SnapshotRow(household, lot, w) in own;
        var i :| 0 <= i < |own| && own[i] == SnapshotRow(household, lot, w);
        assert LotsIn(own)[i] == lot;
      }
    }
  }

  /** The physical order of the rows never shows. */
  lemma GetForgetsOrder(rows: seq<SnapshotRow>, shuffled: seq<SnapshotRow>, household: Uuid)
    requires TableSound(rows) && multiset(rows) == multiset(shuffled)
    ensures TableSound(shuffled)
    ensures Get(shuffled, household) == Get(rows, household)
  {
    SameElements(rows, shuffled);
    var own, other := RowsFor(rows, household), RowsFor(shuffled, household);
    assert forall r :: r in own <==> r in other;
    assert own != [] ==> own[0] in other;
    assert other != [] ==> other[0] in own;
    if own != [] {
      GetCanonical(rows, household);
      GetCanonical(shuffled, household);
      var s, t := Get(rows, household).value, Get(shuffled, household).value;
      assert s.asOf == t.asOf;
      LotOrder();
      AscendingUnique(s.lots, t.lots, LotLess);
    }
  }

  /** Deleting and re-inserting one household's rows leaves every other household's rows as they were. */
  lemma SaveFrame(st: Store, household: Uuid, s: InventorySnapshot, other: Uuid)
    requires s.household == household && other != household
    ensures RowsFor(RowsOfOthers(st.rows, household) + RowsOf(s), other) == RowsFor(st.rows, other)
    ensures Get(RowsOfOthers(st.rows, household) + RowsOf(s), other) == Get(st.rows, other)
  {
    var p := (r: SnapshotRow) => r.household == other;
    WhereConcat(RowsOfOthers(st.rows, household), RowsOf(s), p);
    WhereNone(RowsOf(s), p);
    WhereWhere(st.rows, (r: SnapshotRow) => r.household != household, p);
    assert RowsFor(RowsOfOthers(st.rows, household) + RowsOf(s), other) == RowsFor(st.rows, other);
  }

  lemma OwnRowsAfterSave(rows: seq<SnapshotRow>, household: Uuid, s: InventorySnapshot)
    requires s.household == household
    ensures RowsFor(RowsOfOthers(rows, household) + RowsOf(s), household) == RowsOf(s)
  {
    var p := (r: SnapshotRow) => r.household == household;
    WhereConcat(RowsOfOthers(rows, household), RowsOf(s), p);
    WhereNone(RowsOfOthers(rows, household), p);
    WhereAll(RowsOf(s), p);
    assert RowsFor(RowsOfOthers(rows, household) + RowsOf(s), household) == RowsOf(s);
  }

  lemma RowsOfOnce(s: InventorySnapshot, i: nat)
    requires DistinctKeys(s.lots) && i < |s.lots|
    ensures multiset(RowsOf(s))[RowsOf(s)[i]] == 1
  {
    var own, r := RowsOf(s), RowsOf(s)[i];
    assert own == own[..i] + [r] + own[i + 1..];
    assert r !in own[..i] && r !in own[i + 1..];
    assert r !in multiset(own[..i]) && r !in multiset(own[i + 1..]);
  }

  lemma SavedRowsOnce(rows: seq<SnapshotRow>, household: Uuid, s: InventorySnapshot, r: SnapshotRow)
    requires TableSound(rows) && s.household == household && DistinctKeys(s.lots)
    requires r in RowsOfOthers(rows, household) + RowsOf(s)
    ensures multiset(RowsOfOthers(rows, household) + RowsOf(s))[r] == 1
  {
    var others, own := RowsOfOthers(rows, household), RowsOf(s);
    assert multiset(others + own) == multiset(others) + multiset(own);
    if r.household == household {
      assert r !in others && r !in multiset(others);
      var i :| 0 <= i < |own| && own[i] == r;
      RowsOfOnce(s, i);
    } else {
      assert r !in own && r !in multiset(own);
      WhereCounts(rows, (q: SnapshotRow) => q.household != household, r);
    }
  }

  lemma SavedTableSound(rows: seq<SnapshotRow>, household: Uuid, s: InventorySnapshot)
    requires TableSound(rows) && s.household == household && TableRules(s.lots)
    ensures TableSound(RowsOfOthers(rows, household) + RowsOf(s))
  {
    var others, own := RowsOfOthers(rows, household), RowsOf(s);
    var all := others + own;
    forall r | r in all
      ensures multiset(all)[r] == 1
    {
      SavedRowsOnce(rows, household, s, r);
    }
    forall r: SnapshotRow, q: SnapshotRow | r in all && q in all && r.household == q.household
      ensures r.asOf == q.asOf
      ensures r.lot.key == q.lot.key ==> r == q
    {
      if r.household == household {
        assert r !in others && q !in others;
        var i :| 0 <= i < |own| && own[i] == r;
        var j :| 0 <= j < |own| && own[j] == q;
        assert i != j ==> s.lots[i].key != s.lots[j].key;
      } else {
        assert r !in own && q !in own;
      }
    }
  }

  lemma SortedAlready(lots: seq<LotState>)
    requires Canonical(lots)
    ensures SortLots(lots) == lots
  {
    CanonicalIsDistinct(lots);
    SortCanonical(lots);
    LotOrder();
    AscendingUnique(SortLots(lots), lots, LotLess);
  }

  lemma ReadBack(rows: seq<SnapshotRow>, household: Uuid, s: InventorySnapshot)
    requires s.household == household && Canonical(s.lots)
    ensures Get(RowsOfOthers(rows, household) + RowsOf(s), household) == if s.lots == [] then None else Some(s)
  {
    OwnRowsAfterSave(rows, household, s);
    if s.lots != [] {
      assert RowsOf(s) != [];
      CommonWatermark(RowsOf(s), s.asOf);
      assert LotsIn(RowsOf(s)) == s.lots;
      SortedAlready(s.lots);
    }
  }

  /** Saving a canonical snapshot keeps the table sound and is undone by reading it back, in any row order. */
  lemma GetAfterSave(st: Store, household: Uuid, s: InventorySnapshot, shuffled: seq<SnapshotRow>)
    requires TableSound(st.rows) && Canonical(s.lots) && Saved(st, household, s).Ok?
    requires multiset(shuffled) == multiset(Saved(st, household, s).value.rows)
    ensures TableSound(shuffled)
    ensures Get(shuffled, household) == if s.lots == [] then None else Some(s)
  {
    SavedTableSound(st.rows, household, s);
    ReadBack(st.rows, household, s);
    GetForgetsOrder(RowsOfOthers(st.rows, household) + RowsOf(s), shuffled, household);
  }
}
