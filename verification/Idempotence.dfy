/** Replayed deliveries: what any sequence of insert-or-ignore calls leaves in the log. */
module Idempotence {
  import opened Basics
  import opened LotKeys
  import opened Lots
  import opened Records
  import opened RecordInvariants
  import opened RecordRuns

  /** The log after a sequence of `append_if_new` deliveries. */
  function LogAfter(log: seq<InventoryEvent>, calls: seq<InventoryEvent>): seq<InventoryEvent> {
    if calls == [] then log
    else
      var before := LogAfter(log, calls[..|calls| - 1]);
      match InsertIfNew(before, calls[|calls| - 1])
      case Ok((e, isNew)) => if isNew then before + [e] else before
      case Err(_) => before
  }

  /** The first delivery under each key that the log did not hold already. */
  function Firsts(log: seq<InventoryEvent>, calls: seq<InventoryEvent>): seq<InventoryEvent> {
    if calls == [] then []
    else
      var init, call := calls[..|calls| - 1], calls[|calls| - 1];
      if KeyTaken(log + init, call.idempotencyKey) then Firsts(log, init) else Firsts(log, init) + [call]
  }

  /** Deliveries the table would accept on their own, each with an id of its own. */
  ghost predicate Acceptable(log: seq<InventoryEvent>, calls: seq<InventoryEvent>) {
    && (forall c :: c in calls ==> EventSound(c) && !IdTaken(log, c.id))
    && (forall i, j :: 0 <= i < j < |calls| ==> calls[i].id != calls[j].id)
  }

  lemma {:induction false} FirstsMembers(log: seq<InventoryEvent>, calls: seq<InventoryEvent>)
    ensures forall c :: c in Firsts(log, calls) ==> c in calls
    ensures forall key :: KeyTaken(log + Firsts(log, calls), key) <==> KeyTaken(log + calls, key)
  {
    if calls == [] {
    } else {
      var init, call := calls[..|calls| - 1], calls[|calls| - 1];
      FirstsMembers(log, init);
      assert calls == init + [call];
      forall key
        ensures KeyTaken(log + Firsts(log, calls), key) <==> KeyTaken(log + calls, key)
      {
        KeyTakenConcat(log + init, [call], key);
        KeyTakenConcat(log + Firsts(log, init), [call], key);
        assert log + calls == (log + init) + [call];
        assert log + (Firsts(log, init) + [call]) == (log + Firsts(log, init)) + [call];
        KeyTakenSingle(call, key);
      }
    }
  }

  lemma KeyTakenConcat(a: seq<InventoryEvent>, b: seq<InventoryEvent>, key: string)
    ensures KeyTaken(a + b, key) <==> KeyTaken(a, key) || KeyTaken(b, key)
  {
    if KeyTaken(a, key) {
      var e :| e in a && e.idempotencyKey == key;
      assert e in a + b;
    }
    if KeyTaken(b, key) {
      var e :| e in b && e.idempotencyKey == key;
      assert e in a + b;
    }
  }

  lemma KeyTakenSingle(e: InventoryEvent, key: string)
    ensures KeyTaken([e], key) <==> e.idempotencyKey == key
  {
    assert [e][0] == e;
  }

  lemma AcceptableInit(log: seq<InventoryEvent>, calls: seq<InventoryEvent>, call: InventoryEvent)
    requires Acceptable(log, calls + [call])
    ensures Acceptable(log, calls) && EventSound(call) && !IdTaken(log + calls, call.id)
  {
    var all := calls + [call];
    assert all[|calls|] == call && call in all;
    assert forall i :: 0 <= i < |calls| ==> all[i] == calls[i] && calls[i] in all;
    forall e | e in log + calls
      ensures e.id != call.id
    {
      if e in calls {
        var i :| 0 <= i < |calls| && calls[i] == e;
        assert all[i].id != all[|calls|].id;
      }
    }
  }

  /** Any sequence of deliveries leaves the log holding just the first delivery under each key. */
  lemma {:induction false} ReplaysLeaveNoTrace(log: seq<InventoryEvent>, calls: seq<InventoryEvent>)
    requires LogSound(log) && Acceptable(log, calls)
    ensures LogAfter(log, calls) == log + Firsts(log, calls)
    ensures LogSound(LogAfter(log, calls))
  {
    hide LogSound, Acceptable, EventRules, FindByKey;
    if calls == [] {
      assert log + Firsts(log, calls) == log;
    } else {
      var init, call := calls[..|calls| - 1], calls[|calls| - 1];
      assert calls == init + [call];
      AcceptableInit(log, init, call);
      ReplaysLeaveNoTrace(log, init);
      FirstsMembers(log, init);
      var before := LogAfter(log, init);
      assert forall e :: e in before ==> e in log + init;
      if !KeyTaken(before, call.idempotencyKey) {
        InsertKeepsLogSound(before, call);
      }
    }
  }

  /** In a log whose keys do not repeat, a key finds its one event, and only for the household that owns it. */
  lemma KeyFindsItsEvent(log: seq<InventoryEvent>, e: InventoryEvent, household: Uuid)
    requires LogSound(log) && e in log
    ensures FindByKey(log, household, e.idempotencyKey) == if e.household == household then Some(e) else None
  {
    var found := EventsWithKey(log, household, e.idempotencyKey);
    if found != [] {
      assert found[0] in found;
      assert found[0] == e;
    }
  }

  /** A delivery under a key not seen before is appended and returned as new. */
  lemma FirstDelivery(log: seq<InventoryEvent>, calls: seq<InventoryEvent>, call: InventoryEvent)
    requires LogSound(log) && Acceptable(log, calls + [call])
    requires !KeyTaken(log + calls, call.idempotencyKey)
    ensures InsertIfNew(LogAfter(log, calls), call) == Ok((call, true))
    ensures LogAfter(log, calls + [call]) == LogAfter(log, calls) + [call]
  {
    AcceptableInit(log, calls, call);
    ReplaysLeaveNoTrace(log, calls);
    FirstsMembers(log, calls);
    hide LogSound, Acceptable, EventRules;
    assert !IdTaken(LogAfter(log, calls), call.id);
    assert (calls + [call])[..|calls|] == calls;
  }

  /** A replay changes nothing: its own household gets the original event back, any other is refused. */
  lemma ReplayedDelivery(log: seq<InventoryEvent>, calls: seq<InventoryEvent>, call: InventoryEvent, original: InventoryEvent)
    requires LogSound(log) && Acceptable(log, calls + [call])
    requires original in log + Firsts(log, calls) && original.idempotencyKey == call.idempotencyKey
    ensures InsertIfNew(LogAfter(log, calls), call) ==
            if original.household == call.household then Ok((original, false)) else Err(KeyUsedElsewhere)
    ensures LogAfter(log, calls + [call]) == LogAfter(log, calls)
  {
    AcceptableInit(log, calls, call);
    ReplaysLeaveNoTrace(log, calls);
    KeyFindsItsEvent(LogAfter(log, calls), original, call.household);
    hide LogSound, Acceptable, EventRules, FindByKey;
    assert KeyTaken(LogAfter(log, calls), call.idempotencyKey);
    assert (calls + [call])[..|calls|] == calls;
  }

  /** Two histories that differ only by replays project alike for every household at every instant. */
  lemma ReplaysChangeNoProjection(
    log: seq<InventoryEvent>, calls: seq<InventoryEvent>, replayed: seq<InventoryEvent>, household: Uuid, asOf: Instant)
    requires LogSound(log) && Acceptable(log, calls) && Acceptable(log, replayed)
    requires Firsts(log, calls) == Firsts(log, replayed)
    ensures Replay(LogAfter(log, calls), household, asOf) == Replay(LogAfter(log, replayed), household, asOf)
  {
    ReplaysLeaveNoTrace(log, calls);
    ReplaysLeaveNoTrace(log, replayed);
  }

  /** Slipping one replay in anywhere leaves the first deliveries, and so the log, as they were. */
  lemma {:induction false} SlippedInReplay(
    log: seq<InventoryEvent>, before: seq<InventoryEvent>, replay: InventoryEvent, after: seq<InventoryEvent>)
    requires KeyTaken(log + before, replay.idempotencyKey)
    ensures Firsts(log, before + [replay] + after) == Firsts(log, before + after)
    decreases |after|
  {
    hide KeyTaken;
    if after == [] {
      assert before + [replay] + after == before + [replay] && before + after == before;
      assert (before + [replay])[..|before|] == before;
    } else {
      var init, call := after[..|after| - 1], after[|after| - 1];
      SlippedInReplay(log, before, replay, init);
      var long, short := before + [replay] + after, before + after;
      assert long[..|long| - 1] == before + [replay] + init && short[..|short| - 1] == before + init;
      var key := call.idempotencyKey;
      assert log + (before + [replay] + init) == (log + before) + [replay] + init;
      assert log + (before + init) == (log + before) + init;
      KeyTakenConcat((log + before) + [replay], init, key);
      KeyTakenConcat(log + before, [replay], key);
      KeyTakenSingle(replay, key);
      KeyTakenConcat(log + before, init, key);
    }
  }

  /** A replay is a step that changes nothing. */
  lemma ReplayIsNoStep(w: World, op: Op)
    requires op.AppendIfNew? && KeyTaken(w.store.log, op.draft.event.idempotencyKey)
    ensures Next(w, op) == w
  {
    OnlyNewIsAppended(w.store, op);
    assert InsertIfNew(w.store.log, ToEvent(op.household, op.draft, op.now)) !=
           Ok((ToEvent(op.household, op.draft, op.now), true));
    hide Step, Appended, Covered;
    assert forall h: Uuid :: !Restarts(w.store, op, h);
    assert Next(w, op).missed == w.missed;
  }

  /** In any run of any calls, a replayed delivery slipped in anywhere leaves no trace: log, rows and all. */
  lemma {:induction false} ReplayInAnyRun(before: seq<Op>, replay: Op, after: seq<Op>)
    requires replay.AppendIfNew?
    requires KeyTaken(After(before).store.log, replay.draft.event.idempotencyKey)
    ensures After(before + [replay] + after) == After(before + after)
    decreases |after|
  {
    hide Next, KeyTaken, After;
    if after == [] {
      assert before + [replay] + after == before + [replay] && before + after == before;
      AfterOneMore(before, replay);
      ReplayIsNoStep(After(before), replay);
    } else {
      var init, op := after[..|after| - 1], after[|after| - 1];
      ReplayInAnyRun(before, replay, init);
      AfterOneMore(before + [replay] + init, op);
      AfterOneMore(before + init, op);
      assert before + [replay] + after == before + [replay] + init + [op];
      assert before + after == before + init + [op];
    }
  }

  /** The events a run of deliveries carries. */
  function Delivered(ops: seq<Op>): (calls: seq<InventoryEvent>)
    requires forall op :: op in ops ==> op.AppendIfNew?
    ensures |calls| == |ops|
  {
    if ops == [] then []
    else
      var op := ops[|ops| - 1];
      Delivered(ops[..|ops| - 1]) + [ToEvent(op.household, op.draft, op.now)]
  }

  /** A run of `append_if_new` calls on the repository is such a sequence of deliveries. */
  lemma {:induction false} RunsOfDeliveries(ops: seq<Op>)
    requires forall op :: op in ops ==> op.AppendIfNew?
    ensures After(ops).store.log == LogAfter([], Delivered(ops))
  {
    if ops == [] {
    } else {
      var init := ops[..|ops| - 1];
      RunsOfDeliveries(init);
      var calls := Delivered(ops);
      assert calls[..|calls| - 1] == Delivered(init);
      assert ops[|ops| - 1] in ops;
    }
  }
}
