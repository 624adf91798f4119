/** The two repositories over one session, step by step as the program performs them. */
module Repositories {
  import opened Basics
  import opened LotKeys
  import opened Lots
  import opened Sorting
  import opened Snapshots
  import opened Records
  import opened RecordInvariants
  import opened RecordRuns
  import opened RecordLaws
  import opened Stock
  import opened Outcomes

  class Session {
    var log: seq<InventoryEvent>
    var rows: seq<SnapshotRow>

    constructor ()
      ensures View() == Store([], [])
    {
      log, rows := [], [];
    }

    function View(): Store
      reads this
    {
      Store(log, rows)
    }
  }

  class InventoryEventRepository {
    const session: Session

    constructor (session: Session)
      ensures this.session == session
    {
      this.session := session;
    }

    method AppendMany(household: Uuid, drafts: seq<Draft>, now: Instant)
      returns (r: Result<seq<InventoryEvent>, StoreError>)
      modifies session
      ensures session.rows == old(session.rows)
      ensures match InsertAll(old(session.log), ToEvents(household, drafts, now))
              case Ok(log) => session.log == log && r == Ok(ToEvents(household, drafts, now))
              case Err(error) => session.log == old(session.log) && r == Err(error)
      ensures r.Ok? <==> BatchFits(old(session.log), ToEvents(household, drafts, now))
      ensures r.Ok? ==> session.log == old(session.log) + r.value
    {
      hide BatchFits, AllNew, AllMeetConstraints, EventRules, KeyTaken, IdTaken, ToEvent;
      InsertAllIff(session.log, ToEvents(household, drafts, now));
      var es := ToEvents(household, drafts, now);
      var staged := session.log;
      var i := 0;
      while i < |es|
        invariant 0 <= i <= |es|
        invariant session.View() == old(session.View())
        invariant InsertAll(old(session.log), es) == InsertAll(staged, es[i..])
      {
        assert es[i..][0] == es[i] && es[i..][1..] == es[i + 1..];
        if !EventRules(es[i]) {
          return Err(ConstraintViolated);
        }
        if KeyTaken(staged, es[i].idempotencyKey) || IdTaken(staged, es[i].id) {
          return Err(DuplicateRow);
        }
        staged := staged + [es[i]];
        i := i + 1;
      }
      session.log := staged;
      r := Ok(es);
    }

    method Append(household: Uuid, draft: Draft, now: Instant)
      returns (r: Result<InventoryEvent, StoreError>)
      modifies session
      ensures session.rows == old(session.rows)
      ensures match InsertAll(old(session.log), [ToEvent(household, draft, now)])
              case Ok(log) => session.log == log && r == Ok(ToEvent(household, draft, now))
              case Err(error) => session.log == old(session.log) && r == Err(error)
    {
      assert ToEvents(household, [draft], now) == [ToEvent(household, draft, now)];
      var many := AppendMany(household, [draft], now);
      r := match many case Ok(es) => Ok(es[0]) case Err(error) => Err(error);
    }

    method AppendIfNew(household: Uuid, draft: Draft, now: Instant)
      returns (r: Result<(InventoryEvent, bool), StoreError>)
      modifies session
      ensures session.rows == old(session.rows)
      ensures r == InsertIfNew(old(session.log), ToEvent(household, draft, now))
      ensures session.log == if r.Ok? && r.value.1 then old(session.log) + [r.value.0] else old(session.log)
    {
      var e := ToEvent(household, draft, now);
      if !EventRules(e) {
        return Err(ConstraintViolated);
      }
      if !KeyTaken(session.log, e.idempotencyKey) {
        if IdTaken(session.log, e.id) {
          return Err(DuplicateRow);
        }
        session.log := session.log + [e];
        return Ok((e, true));
      }
      var existing := GetByIdempotencyKey(household, draft.event.idempotencyKey);
      if existing.None? {
        return Err(KeyUsedElsewhere);
      }
      r := Ok((existing.value, false));
    }

    method GetByIdempotencyKey(household: Uuid, key: string) returns (r: Option<InventoryEvent>)
      ensures r == FindByKey(session.log, household, key)
      ensures r.Some? ==> r.value in session.log && r.value.household == household && r.value.idempotencyKey == key
      ensures r.None? ==> forall e :: e in session.log && e.idempotencyKey == key ==> e.household != household
    {
      var found := EventsWithKey(session.log, household, key);
      assert found != [] ==> found[0] in found;
      r := FindByKey(session.log, household, key);
    }

    method EventsKnownAsOf(household: Uuid, asOf: Instant, product: Option<Uuid>) returns (es: seq<InventoryEvent>)
      ensures es == Ordered(KnownOf(session.log, household, asOf, product))
      ensures forall e :: e in es <==>
                && e in session.log && e.household == household
                && e.occurredAt <= asOf && e.recordedAt <= asOf
                && (product.Some? ==> e.product == product.value)
      ensures OldestKnowledgeFirst(es)
    {
      OrderedIsSorted(KnownOf(session.log, household, asOf, product));
      es := Ordered(KnownOf(session.log, household, asOf, product));
    }

    method CountKnownAsOf(household: Uuid, asOf: Instant) returns (n: nat)
      ensures n == |Known(session.log, household, asOf)|
      ensures n == SumBy(Replay(session.log, household, asOf).lots, (lot: LotState) => lot.totals.eventCount)
    {
      CountAgrees(session.log, household, asOf);
      n := |Known(session.log, household, asOf)|;
    }

    method LatestRecordedAt(household: Uuid, asOf: Instant) returns (t: Option<Instant>)
      ensures t == MaxOf(Known(session.log, household, asOf), (e: InventoryEvent) => e.recordedAt)
      ensures t == MaxOf(Replay(session.log, household, asOf).lots, (lot: LotState) => lot.totals.lastRecordedAt)
    {
      LatestAgrees(session.log, household, asOf);
      t := MaxOf(Known(session.log, household, asOf), (e: InventoryEvent) => e.recordedAt);
    }

    method ProductsKnownAsOf(household: Uuid, asOf: Instant) returns (products: set<Uuid>)
      ensures products == set e | e in Known(session.log, household, asOf) :: e.product
      ensures products == set lot | lot in Replay(session.log, household, asOf).lots :: lot.key.product
    {
      ProductsAgree(session.log, household, asOf);
      products := set e | e in Known(session.log, household, asOf) :: e.product;
    }

    method EventsKnownBetween(household: Uuid, after: Instant, asOf: Instant) returns (es: seq<InventoryEvent>)
      ensures es == Ordered(Window(session.log, household, after, asOf))
      ensures asOf < after ==> es == []
      ensures forall e :: e in es <==>
                && e in session.log && e.household == household
                && e.occurredAt <= asOf && e.recordedAt <= asOf
                && (e.occurredAt > after || e.recordedAt > after)
      ensures after <= asOf ==>
                multiset(Known(session.log, household, asOf)) == multiset(Known(session.log, household, after)) + multiset(es)
      ensures OldestKnowledgeFirst(es)
    {
      OrderedIsSorted(Window(session.log, household, after, asOf));
      if after <= asOf {
        WindowPartition(session.log, household, after, asOf);
      } else {
        BackwardWindowEmpty(session.log, household, after, asOf);
      }
      es := Ordered(Window(session.log, household, after, asOf));
    }
  }

  class InventorySnapshotRepository {
    const session: Session
    const events: InventoryEventRepository

    ghost predicate Valid() {
      events.session == session
    }

    constructor (session: Session)
      ensures Valid() && this.session == session
    {
      this.session := session;
      this.events := new InventoryEventRepository(session);
    }

    method GetStored(household: Uuid) returns (r: Option<InventorySnapshot>)
      ensures r == Get(session.rows, household)
      ensures r.None? <==> forall row :: row in session.rows ==> row.household != household
      ensures r.Some? ==>
                && (forall row :: row in session.rows && row.household == household ==> row.asOf <= r.value.asOf)
                && (exists row :: row in session.rows && row.household == household && row.asOf == r.value.asOf)
      ensures r.Some? ==>
                && multiset(r.value.lots) == multiset(LotsIn(RowsFor(session.rows, household)))
                && InOrder(r.value.lots, LotLess)
    {
      GetReadsOwnRows(session.rows, household);
      r := Get(session.rows, household);
    }

    method ProjectKnownAsOf(household: Uuid, asOf: Instant) returns (s: InventorySnapshot)
      requires Valid()
      ensures s == Replay(session.log, household, asOf)
    {
      var es := events.EventsKnownAsOf(household, asOf, None);
      var folded := FoldEvents(es, household, asOf);
      OrderedFold(Known(session.log, household, asOf));
      FoldedExactly(es, household, asOf);
      s := folded.value;
    }

    method Save(household: Uuid, s: InventorySnapshot) returns (r: Result<(), StoreError>)
      modifies session
      ensures match Saved(old(session.View()), household, s)
              case Ok(st) => session.View() == st && r == Ok(())
              case Err(error) => session.View() == old(session.View()) && r == Err(error)
    {
      if s.household != household {
        return Err(Refused(HouseholdMismatch));
      }
      var before := session.rows;
      session.rows := RowsOfOthers(session.rows, household);
      if s.lots == [] {
        assert RowsOfOthers(before, household) + RowsOf(s) == RowsOfOthers(before, household);
        return Ok(());
      }
      if !TableRules(s.lots) {
        session.rows := before;
        return Err(ConstraintViolated);
      }
      if !FitsColumns(s.lots) {
        session.rows := before;
        return Err(NumericOverflow);
      }
      session.rows := session.rows + RowsOf(s);
      r := Ok(());
    }

    /** The last two lines of `rebuild` and `advance`: store the snapshot and hand it back. */
    method SaveAndShow(s: InventorySnapshot) returns (r: Result<InventorySnapshot, StoreError>)
      modifies session
      ensures (session.View(), r) == SaveAndReturn(old(session.View()), s)
    {
      hide Saved;
      var saved := Save(s.household, s);
      r := match saved case Ok(_) => Ok(s) case Err(error) => Err(error);
    }

    method Rebuild(household: Uuid, asOf: Instant) returns (r: Result<InventorySnapshot, StoreError>)
      requires Valid()
      modifies session
      ensures (session.View(), r) == Rebuilt(old(session.View()), household, asOf)
    {
      hide SaveAndReturn, Replay;
      var s := ProjectKnownAsOf(household, asOf);
      r := SaveAndShow(s);
    }

    method Advance(household: Uuid, asOf: Instant) returns (r: Result<InventorySnapshot, StoreError>)
      requires Valid()
      modifies session
      ensures (session.View(), r) == Advanced(old(session.View()), household, asOf)
    {
      hide Get, Replay, Applied, Rebuilt, SaveAndReturn, Ordered, Window, Known, OldestKnowledgeFirst, InOrder, LotsIn, RowsFor;
      var current := GetStored(household);
      if current.None? {
        r := Rebuild(household, asOf);
        return;
      }
      if asOf < current.value.asOf {
        var s := ProjectKnownAsOf(household, asOf);
        return Ok(s);
      }
      var window := events.EventsKnownBetween(household, current.value.asOf, asOf);
      var next := ApplyEvents(current.value, window, asOf);
      if next.Err? {
        return Err(Refused(next.error));
      }
      r := SaveAndShow(next.value);
    }

    method Clear(household: Uuid)
      modifies session
      ensures session.View() == Cleared(old(session.View()), household)
    {
      session.rows := RowsOfOthers(session.rows, household);
    }
  }

  // ------------------------------------------------------------ calls and runs

  /** One repository call is one step of the record. */
  method Perform(repo: InventorySnapshotRepository, op: Op) returns (reply: Reply)
    requires repo.Valid()
    modifies repo.session
    ensures (repo.session.View(), reply) == Step(old(repo.session.View()), op)
  {
    match op {
      case Append(household, drafts, now) =>
        var r := repo.events.AppendMany(household, drafts, now);
        reply := match r case Ok(es) => Logged(es) case Err(error) => Failed(error);
      case AppendIfNew(household, draft, now) =>
        var r := repo.events.AppendIfNew(household, draft, now);
        reply := match r case Ok(delivered) => Stored(delivered.0, delivered.1) case Err(error) => Failed(error);
      case Rebuild(household, asOf) =>
        var r := repo.Rebuild(household, asOf);
        reply := match r case Ok(s) => Shown(s) case Err(error) => Failed(error);
      case Advance(household, asOf) =>
        var r := repo.Advance(household, asOf);
        reply := match r case Ok(s) => Shown(s) case Err(error) => Failed(error);
      case Save(household, s) =>
        var r := repo.Save(household, s);
        reply := match r case Ok(_) => Done case Err(error) => Failed(error);
      case Clear(household) =>
        repo.Clear(household);
        reply := Done;
      case Reorder(rows) =>
        if multiset(rows) == multiset(repo.session.rows) {
          repo.session.rows := rows;
        }
        reply := Done;
    }
  }

  /** A run of calls on new repositories ends in the state the runs speak of. */
  method PerformAll(ops: seq<Op>) returns (repo: InventorySnapshotRepository)
    ensures repo.Valid() && fresh(repo.session)
    ensures repo.session.View() == After(ops).store
  {
    hide Next, Step;
    var session := new Session();
    repo := new InventorySnapshotRepository(session);
    var i := 0;
    while i < |ops|
      invariant 0 <= i <= |ops|
      invariant repo.Valid() && fresh(repo.session)
      invariant repo.session.View() == After(ops[..i]).store
    {
      var reply := Perform(repo, ops[i]);
      StoreAfterOneMore(ops[..i], ops[i]);
      assert ops[..i + 1] == ops[..i] + [ops[i]];
      i := i + 1;
    }
    assert ops[..i] == ops;
  }
}
