/** Concurrent upload requests with request times in any order, over one cached delegation key. */
module DelegationKeyRuns {
  import opened Basics
  import opened Spacing
  import opened DelegationKeys

  type TaskId = nat

  /** `Issued` carries history variables: the request whose fetch brought the key, and whether it was this one's. */
  datatype Phase = Waiting | Fetching | Issued(ticket: Ticket, fetchedFor: real, ownFetch: bool) | Unavailable

  datatype Task = Task(requestedAt: real, phase: Phase)

  /** `fetches` lists the request times of the successful fetches, in the order the keys arrived. */
  datatype World = World(cache: Cache, lock: Option<TaskId>, tasks: map<TaskId, Task>, fetches: seq<real>)

  datatype Action =
    | Request(id: TaskId, requestedAt: real)
    | Acquire(id: TaskId)
    | KeyArrives(id: TaskId)
    | FetchFails(id: TaskId)

  function With(w: World, id: TaskId, phase: Phase): World
    requires id in w.tasks
  {
    w.(tasks := w.tasks[id := w.tasks[id].(phase := phase)])
  }

  function IssueCached(w: World, s: Settings, id: TaskId): World
    requires id in w.tasks && w.cache.key.Some?
  {
    var last := if w.fetches == [] then 0.0 else w.fetches[|w.fetches| - 1];
    With(w, id, Issued(Sign(s, w.tasks[id].requestedAt, w.cache.key.value), last, false))
  }

  /** One step of the system; an action that is not enabled changes nothing. */
  function Next(w: World, s: Settings, a: Action): World {
    match a
    case Request(id, requestedAt) =>
      if id in w.tasks then w
      else
        var w' := w.(tasks := w.tasks[id := Task(requestedAt, if s.configured then Waiting else Unavailable)]);
        if s.configured && Usable(w.cache, requestedAt) then IssueCached(w', s, id) else w'
    case Acquire(id) =>
      if w.lock.None? && id in w.tasks && w.tasks[id].phase.Waiting? then
        if Usable(w.cache, w.tasks[id].requestedAt) then IssueCached(w, s, id)
        else With(w.(lock := Some(id)), id, Fetching)
      else w
    case KeyArrives(id) =>
      if id in w.tasks && w.tasks[id].phase.Fetching? then
        var now := w.tasks[id].requestedAt;
        var w' := w.(cache := Renewed(s, now), lock := None, fetches := w.fetches + [now]);
        With(w', id, Issued(Sign(s, now, KeyAskedAt(s, now)), now, true))
      else w
    case FetchFails(id) =>
      if id in w.tasks && w.tasks[id].phase.Fetching? then With(w.(lock := None), id, Unavailable) else w
  }

  function Run(s: Settings, dawn: real, actions: seq<Action>): World {
    if actions == [] then World(Cache(None, dawn), None, map[], [])
    else Next(Run(s, dawn, actions[..|actions| - 1]), s, actions[|actions| - 1])
  }

  // ------------------------------------------------------------ the invariant

  ghost predicate CacheSound(w: World, s: Settings) {
    && (w.fetches == [] <==> w.cache.key.None?)
    && (w.fetches != [] ==> w.cache == Renewed(s, w.fetches[|w.fetches| - 1]))
    && Spaced(w.fetches, s.keyTtl - s.sasTtl)
  }

  ghost predicate TaskSound(w: World, s: Settings, id: TaskId, t: Task) {
    match t.phase
    case Waiting => s.configured
    case Fetching => s.configured && w.lock == Some(id) && !Usable(w.cache, t.requestedAt)
    case Issued(ticket, fetchedFor, ownFetch) =>
      && s.configured
      && ticket == Sign(s, t.requestedAt, KeyAskedAt(s, fetchedFor))
      && fetchedFor in w.fetches
      && if ownFetch then fetchedFor == t.requestedAt else t.requestedAt < fetchedFor + s.keyTtl - s.sasTtl
    case _ => true
  }

  ghost predicate Inv(w: World, s: Settings) {
    && CacheSound(w, s)
    && (w.lock.Some? ==> w.lock.value in w.tasks && w.tasks[w.lock.value].phase.Fetching?)
    && forall id :: id in w.tasks ==> TaskSound(w, s, id, w.tasks[id])
  }

  lemma StepKeepsInv(w: World, s: Settings, a: Action)
    requires Inv(w, s)
    ensures Inv(Next(w, s, a), s)
  {
    var w' := Next(w, s, a);
    if a.id in w.tasks {
      assert TaskSound(w, s, a.id, w.tasks[a.id]);
    }
    if a.KeyArrives? && w'.fetches != w.fetches {
      SpacedAppend(w.fetches, s.keyTtl - s.sasTtl, w.tasks[a.id].requestedAt);
    }
    hide Spaced;
    forall id | id in w'.tasks
      ensures TaskSound(w', s, id, w'.tasks[id])
    {
      if id != a.id {
        assert TaskSound(w, s, id, w.tasks[id]);
      }
    }
  }

  lemma {:induction false} RunsKeepInv(s: Settings, dawn: real, actions: seq<Action>)
    ensures Inv(Run(s, dawn, actions), s)
  {
    if actions == [] {
    } else {
      RunsKeepInv(s, dawn, actions[..|actions| - 1]);
      StepKeepsInv(Run(s, dawn, actions[..|actions| - 1]), s, actions[|actions| - 1]);
    }
  }

  // ------------------------------------------------------------ what every run promises

  predicate WithinKey(ticket: Ticket) {
    ticket.expiresAt <= ticket.key.expiry
  }

  /** A ticket from the cached key expires before the key; one from its own fetch does so iff the lifetimes allow. */
  lemma TicketWithinKeyIff(s: Settings, dawn: real, actions: seq<Action>, id: TaskId)
    requires id in Run(s, dawn, actions).tasks && Run(s, dawn, actions).tasks[id].phase.Issued?
    ensures var t := Run(s, dawn, actions).tasks[id];
            WithinKey(t.phase.ticket) <==> (t.phase.ownFetch ==> s.sasTtl <= s.keyTtl)
  {
    RunsKeepInv(s, dawn, actions);
    assert TaskSound(Run(s, dawn, actions), s, id, Run(s, dawn, actions).tasks[id]);
  }

  ghost predicate AllWithinKey(w: World) {
    forall id :: id in w.tasks && w.tasks[id].phase.Issued? ==> WithinKey(w.tasks[id].phase.ticket)
  }

  /** No run ever issues a ticket that outlives its key, exactly when a ticket is not longer-lived than a key. */
  lemma TicketsNeverOutliveKeysIff(s: Settings, dawn: real)
    requires s.configured
    ensures s.sasTtl <= s.keyTtl <==> forall actions :: AllWithinKey(Run(s, dawn, actions))
  {
    if s.sasTtl <= s.keyTtl {
      forall actions
        ensures AllWithinKey(Run(s, dawn, actions))
      {
        forall id | id in Run(s, dawn, actions).tasks && Run(s, dawn, actions).tasks[id].phase.Issued?
          ensures WithinKey(Run(s, dawn, actions).tasks[id].phase.ticket)
        {
          TicketWithinKeyIff(s, dawn, actions, id);
        }
      }
    } else {
      var bad := FirstRequest(s, dawn);
      assert !AllWithinKey(Run(s, dawn, bad));
    }
  }

  /** One request on a cold cache, served by its own fetch. */
  lemma FirstRequest(s: Settings, dawn: real) returns (actions: seq<Action>)
    requires s.configured
    ensures var w := Run(s, dawn, actions);
            0 in w.tasks && w.tasks[0].phase == Issued(Sign(s, 0.0, KeyAskedAt(s, 0.0)), 0.0, true)
  {
    var a, b, c := Request(0, 0.0), Acquire(0), KeyArrives(0);
    actions := [a, b, c];
    assert actions[..2] == [a, b] && [a, b][..1] == [a] && [a][..0] == [];
    var w1 := Next(Run(s, dawn, []), s, a);
    assert Run(s, dawn, [a]) == w1;
    var w2 := Next(w1, s, b);
    assert Run(s, dawn, [a, b]) == w2;
    assert Run(s, dawn, actions) == Next(w2, s, c);
  }

  /** The signing key was fetched for some request; it has begun by a later or earlier one iff the skew covers the lag. */
  lemma KeyHasStartedIff(s: Settings, dawn: real, actions: seq<Action>, id: TaskId)
    requires id in Run(s, dawn, actions).tasks && Run(s, dawn, actions).tasks[id].phase.Issued?
    ensures var w := Run(s, dawn, actions);
            var t := w.tasks[id];
            && t.phase.fetchedFor in w.fetches
            && t.phase.ticket.key.expiry == t.phase.fetchedFor + s.keyTtl
            && (t.phase.ticket.key.start <= t.requestedAt <==> t.phase.fetchedFor - t.requestedAt <= s.skew)
  {
    RunsKeepInv(s, dawn, actions);
    assert TaskSound(Run(s, dawn, actions), s, id, Run(s, dawn, actions).tasks[id]);
  }

  /**
   * Every ticket runs from the skew before its request to a ticket lifetime after it, and is signed with a key that
   * runs from the skew before the request it was fetched for to a key lifetime after that one; so the ticket starts
   * no earlier than its key iff the request is no earlier than the fetch.
   */
  lemma TicketTimes(s: Settings, dawn: real, actions: seq<Action>, id: TaskId)
    requires id in Run(s, dawn, actions).tasks && Run(s, dawn, actions).tasks[id].phase.Issued?
    ensures var w := Run(s, dawn, actions);
            var t := w.tasks[id];
            var ticket, fetchedFor := t.phase.ticket, t.phase.fetchedFor;
            && s.configured
            && ticket.startsAt == t.requestedAt - s.skew
            && ticket.expiresAt == t.requestedAt + s.sasTtl
            && fetchedFor in w.fetches
            && ticket.key.start == fetchedFor - s.skew
            && ticket.key.expiry == fetchedFor + s.keyTtl
            && (ticket.startsAt >= ticket.key.start <==> t.requestedAt >= fetchedFor)
            && (t.phase.ownFetch ==> fetchedFor == t.requestedAt)
  {
    RunsKeepInv(s, dawn, actions);
    assert TaskSound(Run(s, dawn, actions), s, id, Run(s, dawn, actions).tasks[id]);
  }

  /** What a new request gets at once: a refusal, a ticket from the last fetched key while that lasts, or a wait. */
  lemma RequestOutcome(s: Settings, dawn: real, actions: seq<Action>, id: TaskId, requestedAt: real)
    requires id !in Run(s, dawn, actions).tasks
    ensures var w, w' := Run(s, dawn, actions), Run(s, dawn, actions + [Request(id, requestedAt)]);
            && id in w'.tasks && w'.tasks[id].requestedAt == requestedAt
            && w'.fetches == w.fetches && w'.lock == w.lock
            && (!s.configured ==> w'.tasks[id].phase == Unavailable)
            && (s.configured ==>
                if w.fetches != [] && requestedAt + s.sasTtl < w.fetches[|w.fetches| - 1] + s.keyTtl
                then w'.tasks[id].phase.Issued? && w'.tasks[id].phase.fetchedFor == w.fetches[|w.fetches| - 1]
                else w'.tasks[id].phase == Waiting)
  {
    RunsKeepInv(s, dawn, actions);
    OneMore(s, dawn, actions, Request(id, requestedAt));
  }

  /** What a fetch brings the request that made it: a ticket of its own, or a refusal. */
  lemma ArrivalOutcome(s: Settings, dawn: real, actions: seq<Action>, id: TaskId)
    requires id in Run(s, dawn, actions).tasks && Run(s, dawn, actions).tasks[id].phase.Fetching?
    ensures var w, w' := Run(s, dawn, actions), Run(s, dawn, actions + [KeyArrives(id)]);
            && w'.fetches == w.fetches + [w.tasks[id].requestedAt] && w'.lock == None
            && w'.tasks[id].phase.Issued? && w'.tasks[id].phase.ownFetch
    ensures var w, w' := Run(s, dawn, actions), Run(s, dawn, actions + [FetchFails(id)]);
            && w'.fetches == w.fetches && w'.cache == w.cache && w'.lock == None
            && w'.tasks[id].phase == Unavailable
  {
    OneMore(s, dawn, actions, KeyArrives(id));
    OneMore(s, dawn, actions, FetchFails(id));
  }

  /** Whatever order request times come in, successful fetches are for requests at least keyTtl - sasTtl apart. */
  lemma FetchesKeepApart(s: Settings, dawn: real, actions: seq<Action>, i: nat, j: nat, length: real)
    requires i <= j < |Run(s, dawn, actions).fetches|
    ensures var fetches, gap := Run(s, dawn, actions).fetches, s.keyTtl - s.sasTtl;
            && fetches[j] - fetches[i] >= (j - i) as real * gap
            && (gap > 0.0 && fetches[j] - fetches[i] <= length ==> (j - i + 1) as real <= length / gap + 1.0)
  {
    RunsKeepInv(s, dawn, actions);
    hide Run, Spaced, TaskSound;
    SpacedWindow(Run(s, dawn, actions).fetches, s.keyTtl - s.sasTtl, i, j, length);
  }

  // ------------------------------------------------------------ a failed request leaves no trace

  /** The same world, but for one request that is not fetching. */
  ghost predicate SameBut(w: World, v: World, id: TaskId) {
    && id !in w.tasks && id in v.tasks && !v.tasks[id].phase.Fetching?
    && v.cache == w.cache && v.lock == w.lock && v.fetches == w.fetches
    && v.tasks == w.tasks[id := v.tasks[id]]
  }

  lemma OneMore(s: Settings, dawn: real, actions: seq<Action>, a: Action)
    ensures Run(s, dawn, actions + [a]) == Next(Run(s, dawn, actions), s, a)
  {
    hide Next;
    assert (actions + [a])[..|actions|] == actions;
  }

  predicate ForOthers(actions: seq<Action>, id: TaskId) {
    forall i :: 0 <= i < |actions| ==> actions[i].id != id
  }

  lemma {:induction false} Unheard(s: Settings, dawn: real, actions: seq<Action>, id: TaskId)
    requires ForOthers(actions, id)
    ensures id !in Run(s, dawn, actions).tasks
  {
    if actions == [] {
    } else {
      Unheard(s, dawn, actions[..|actions| - 1], id);
    }
  }

  lemma OtherStep(w: World, v: World, s: Settings, a: Action, id: TaskId)
    requires SameBut(w, v, id) && a.id != id
    ensures SameBut(Next(w, s, a), Next(v, s, a), id) && Next(v, s, a).tasks[id] == v.tasks[id]
  {
    var w', v' := Next(w, s, a), Next(v, s, a);
    assert a.id in v.tasks <==> a.id in w.tasks;
    assert v'.tasks == w'.tasks[id := v.tasks[id]];
  }

  /** What the others do goes the same way with the request there and without it. */
  lemma {:induction false} OthersGoOn(
    s: Settings, dawn: real, without: seq<Action>, including: seq<Action>, more: seq<Action>, id: TaskId)
    requires SameBut(Run(s, dawn, without), Run(s, dawn, including), id) && ForOthers(more, id)
    ensures SameBut(Run(s, dawn, without + more), Run(s, dawn, including + more), id)
    ensures Run(s, dawn, including + more).tasks[id] == Run(s, dawn, including).tasks[id]
    decreases |more|
  {
    hide Next, Run;
    if more == [] {
      assert without + more == without && including + more == including;
    } else {
      var init, a := more[..|more| - 1], more[|more| - 1];
      OthersGoOn(s, dawn, without, including, init, id);
      OneMore(s, dawn, without + init, a);
      OneMore(s, dawn, including + init, a);
      OtherStep(Run(s, dawn, without + init), Run(s, dawn, including + init), s, a, id);
      assert without + more == without + init + [a] && including + more == including + init + [a];
    }
  }

  /** A request that only waits, or is turned away, is invisible to the others. */
  lemma RequestStep(w: World, s: Settings, id: TaskId, requestedAt: real)
    requires id !in w.tasks
    ensures SameBut(w, Next(w, s, Request(id, requestedAt)), id)
  {
    var v := Next(w, s, Request(id, requestedAt));
    assert v.tasks == w.tasks[id := v.tasks[id]];
  }

  lemma FailureStep(w: World, v: World, s: Settings, id: TaskId)
    requires SameBut(w, v, id)
    ensures var v' := Next(Next(v, s, Acquire(id)), s, FetchFails(id));
            SameBut(w, v', id)
  {
    var v' := Next(Next(v, s, Acquire(id)), s, FetchFails(id));
    assert v'.tasks == w.tasks[id := v'.tasks[id]];
  }

  /**
   * A request whose fetch fails leaves no trace: however long it waited for the lock, cache, lock, fetches and every
   * other request are, after whatever follows, as if it had never been made.
   */
  lemma FailureLeavesNoTrace(
    s: Settings, dawn: real, before: seq<Action>, waiting: seq<Action>, after: seq<Action>, id: TaskId, requestedAt: real)
    requires ForOthers(before, id) && ForOthers(waiting, id) && ForOthers(after, id)
    ensures var w := Run(s, dawn, before + waiting + after);
            var v := Run(s, dawn, before + [Request(id, requestedAt)] + waiting + [Acquire(id)] + [FetchFails(id)] + after);
            SameBut(w, v, id)
  {
    hide SameBut, Run, Next;
    var asked := before + [Request(id, requestedAt)];
    Unheard(s, dawn, before, id);
    OneMore(s, dawn, before, Request(id, requestedAt));
    RequestStep(Run(s, dawn, before), s, id, requestedAt);
    OthersGoOn(s, dawn, before, asked, waiting, id);
    OneMore(s, dawn, asked + waiting, Acquire(id));
    OneMore(s, dawn, asked + waiting + [Acquire(id)], FetchFails(id));
    FailureStep(Run(s, dawn, before + waiting), Run(s, dawn, asked + waiting), s, id);
    OthersGoOn(s, dawn, before + waiting, asked + waiting + [Acquire(id)] + [FetchFails(id)], after, id);
  }

  /** One request at most is fetching, and it is the one that holds the lock. */
  lemma {:induction false} LockHasOneHolder(s: Settings, dawn: real, actions: seq<Action>)
    ensures var w := Run(s, dawn, actions);
            forall id :: id in w.tasks && w.tasks[id].phase.Fetching? <==> w.lock == Some(id)
  {
    RunsKeepInv(s, dawn, actions);
    var w := Run(s, dawn, actions);
    forall id | id in w.tasks
      ensures TaskSound(w, s, id, w.tasks[id])
    {
    }
  }

  /** Under the lock, a request fetches exactly when no key was ever fetched or the last one is being retired. */
  lemma FetchStartsIff(s: Settings, dawn: real, actions: seq<Action>, id: TaskId)
    requires var w := Run(s, dawn, actions); w.lock.None? && id in w.tasks && w.tasks[id].phase.Waiting?
    ensures var w, w' := Run(s, dawn, actions), Run(s, dawn, actions + [Acquire(id)]);
            && (w'.tasks[id].phase.Fetching? <==>
                w.fetches == [] || w.tasks[id].requestedAt >= w.fetches[|w.fetches| - 1] + s.keyTtl - s.sasTtl)
            && (!w'.tasks[id].phase.Fetching? ==> w'.tasks[id].phase.Issued? && !w'.tasks[id].phase.ownFetch)
  {
    RunsKeepInv(s, dawn, actions);
    assert (actions + [Acquire(id)])[..|actions|] == actions;
  }

  // ------------------------------------------------------------ the class behind the runs

  /** One stretch between two awaits, performed on the store itself, is one step of the system. */
  method Perform(store: ReceiptBlobStore, w: World, a: Action) returns (w': World)
    requires store.Valid() && store.View() == w.cache
    modifies store
    ensures store.Valid() && store.View() == w'.cache
    ensures w' == Next(w, store.settings, a)
  {
    w' := w;
    match a {
      case Request(id, requestedAt) =>
        if id !in w.tasks {
          w' := w.(tasks := w.tasks[id := Task(requestedAt, if store.settings.configured then Waiting else Unavailable)]);
          if store.settings.configured {
            var key := store.CheckKey(requestedAt);
            if key.Some? {
              w' := IssueCached(w', store.settings, id);
            }
          }
        }
      case Acquire(id) =>
        if w.lock.None? && id in w.tasks && w.tasks[id].phase.Waiting? {
          var key := store.CheckKey(w.tasks[id].requestedAt);
          if key.Some? {
            w' := IssueCached(w, store.settings, id);
          } else {
            w' := With(w.(lock := Some(id)), id, Fetching);
          }
        }
      case KeyArrives(id) =>
        if id in w.tasks && w.tasks[id].phase.Fetching? {
          var now := w.tasks[id].requestedAt;
          var key := store.FetchReturned(now, true);
          w' := With(w.(cache := store.View(), lock := None, fetches := w.fetches + [now]), id,
                     Issued(Sign(store.settings, now, key.value), now, true));
        }
      case FetchFails(id) =>
        if id in w.tasks && w.tasks[id].phase.Fetching? {
          var key := store.FetchReturned(w.tasks[id].requestedAt, false);
          w' := With(w.(lock := None), id, Unavailable);
        }
    }
  }

  /** Any interleaving of requests over a new store ends in the world the runs speak of. */
  method Serve(settings: Settings, dawn: real, actions: seq<Action>) returns (store: ReceiptBlobStore, w: World)
    ensures store.settings == settings && store.Valid() && store.View() == w.cache
    ensures w == Run(settings, dawn, actions)
  {
    store := new ReceiptBlobStore(settings, dawn);
    w := World(Cache(None, dawn), None, map[], []);
    var i := 0;
    while i < |actions|
      invariant 0 <= i <= |actions|
      invariant fresh(store) && store.settings == settings && store.Valid() && store.View() == w.cache
      invariant w == Run(settings, dawn, actions[..i])
    {
      OneMore(settings, dawn, actions[..i], actions[i]);
      assert actions[..i + 1] == actions[..i] + [actions[i]];
      w := Perform(store, w, actions[i]);
      i := i + 1;
    }
    assert actions[..i] == actions;
  }
}
