/** Concurrent callers of the key cache: one step per stretch between awaits, in any interleaving. */
module KeyCacheRuns {
  import opened Basics
  import opened Spacing
  import opened KeyCache

  type TaskId = nat

  /** Why a task is refreshing. `seen` is a history variable: the installed set that lacked the key id. */
  datatype Purpose = ForCached | ForUnknown(seen: nat) | ForConfiguration

  /**
   * Why a call was refused. History variables say when: the fetch that failed and what it brought, if anything, or
   * the installed set that lacked the key id.
   */
  datatype Why = NoKeyId | FetchFailed(at: real, brought: Option<seq<Entry>>) | NotPublished(source: nat, at: real)

  /** A fetch that failed or brought a document without a usable key: whose it was, and when it ended. */
  datatype FailedFetch = FailedFetch(caller: TaskId, at: real, brought: Option<seq<Entry>>)

  /**
   * Where a task stands. `Returned` carries history variables: which installed set the key came from, an
   * instant at which that set was fresh, and when the call returned.
   */
  datatype Phase =
    | WaitCached
    | WaitUnknown(seen: nat)
    | WaitConfiguration
    | FetchingConfiguration(purpose: Purpose)
    | FetchingKeys(purpose: Purpose)
    | Returned(key: SigningKey, source: nat, freshAt: real, at: real)
    | ReturnedConfiguration(configuration: Configuration)
    | Rejected(why: Why)

  /** The key id asked for (blank for a configuration call), when the call began, and where it stands. */
  datatype Task = Task(asked: string, startedAt: real, phase: Phase)

  datatype Installed = Installed(at: real, keys: KeySet)

  datatype World = World(
    now: real, cache: Cache, lock: Option<TaskId>, tasks: map<TaskId, Task>,
    installs: seq<Installed>, failures: set<FailedFetch>)

  datatype Action =
    | Tick(to: real)
    | Call(id: TaskId, kid: string)
    | CallConfiguration(id: TaskId)
    | Acquire(id: TaskId)
    | ConfigurationArrives(id: TaskId, document: Option<Configuration>)
    | KeysArrive(id: TaskId, entries: Option<seq<Entry>>)

  function Init(start: real): World {
    World(start, Cache(None, map[], 0.0), None, map[], [], {})
  }

  predicate Waiting(phase: Phase) {
    phase.WaitCached? || phase.WaitUnknown? || phase.WaitConfiguration?
  }

  predicate Fetching(phase: Phase) {
    phase.FetchingConfiguration? || phase.FetchingKeys?
  }

  function Latest(w: World): nat {
    if w.installs == [] then 0 else |w.installs| - 1
  }

  function Enter(w: World, id: TaskId, asked: string, phase: Phase): World {
    w.(tasks := w.tasks[id := Task(asked, w.now, phase)])
  }

  function With(w: World, id: TaskId, phase: Phase): World
    requires id in w.tasks
  {
    w.(tasks := w.tasks[id := w.tasks[id].(phase := phase)])
  }

  /** The key is returned now, from the latest set, which is fresh now. */
  function ReturnFresh(w: World, id: TaskId, key: SigningKey): World
    requires id in w.tasks
  {
    With(w, id, Returned(key, Latest(w), w.now, w.now))
  }

  /** After `_cached_key` has answered: a key, or on to the unknown-key path. */
  function AfterCached(w: World, id: TaskId, found: Lookup): World
    requires id in w.tasks && !found.Contend?
  {
    if found.Hit? then ReturnFresh(w, id, found.key) else With(w, id, WaitUnknown(Latest(w)))
  }

  /** Take the lock and start a refresh, discovering the configuration first when it is not known. */
  function Begin(w: World, id: TaskId, purpose: Purpose): World
    requires id in w.tasks
  {
    With(w.(lock := Some(id)), id,
         if w.cache.configuration.None? then FetchingConfiguration(purpose) else FetchingKeys(purpose))
  }

  function AcquireStep(w: World, p: Policy, id: TaskId): World
    requires id in w.tasks && Waiting(w.tasks[id].phase)
  {
    var kid := w.tasks[id].asked;
    match w.tasks[id].phase
    case WaitCached =>
      var found := CachedKey(w.cache, p, kid, w.now);
      if found.Contend? then Begin(w, id, ForCached) else AfterCached(w, id, found)
    case WaitUnknown(seen) =>
      (match UnknownKey(w.cache, p, kid, w.now)
       case Hit(key) =>
         // The map is read again without looking at its age; it was fresh when it was installed.
         With(w, id, Returned(key, Latest(w), w.cache.fetchedAt, w.now))
       case Miss => With(w, id, Rejected(NotPublished(Latest(w), w.now)))
       case Contend => Begin(w, id, ForUnknown(seen)))
    case WaitConfiguration =>
      if w.cache.configuration.None? then
        With(w.(lock := Some(id)), id, FetchingConfiguration(ForConfiguration))
      else With(w, id, ReturnedConfiguration(w.cache.configuration.value))
  }

  /** The fetch brought nothing usable: the lock is released and the call refused. */
  function FetchFails(w: World, id: TaskId, brought: Option<seq<Entry>>): World
    requires id in w.tasks
  {
    With(w.(lock := None, failures := w.failures + {FailedFetch(id, w.now, brought)}), id, Rejected(FetchFailed(w.now, brought)))
  }

  function ConfigurationStep(w: World, id: TaskId, document: Option<Configuration>): World
    requires id in w.tasks && w.tasks[id].phase.FetchingConfiguration?
  {
    if document.None? then FetchFails(w, id, None)
    else
      var w' := w.(cache := w.cache.(configuration := document));
      var purpose := w.tasks[id].phase.purpose;
      if purpose.ForConfiguration? then With(w'.(lock := None), id, ReturnedConfiguration(document.value))
      else With(w', id, FetchingKeys(purpose))
  }

  /** The lock is released; the key id is looked up in the set just installed. */
  function Resume(w: World, id: TaskId, purpose: Purpose): World
    requires id in w.tasks && (purpose.ForConfiguration? ==> w.cache.configuration.Some?)
  {
    var kid := w.tasks[id].asked;
    match purpose
    case ForCached => AfterCached(w, id, if kid in w.cache.keys then Hit(w.cache.keys[kid]) else Miss)
    case ForUnknown(_) =>
      if kid in w.cache.keys then ReturnFresh(w, id, w.cache.keys[kid])
      else With(w, id, Rejected(NotPublished(Latest(w), w.now)))
    case ForConfiguration => With(w, id, ReturnedConfiguration(w.cache.configuration.value))
  }

  function KeysStep(w: World, id: TaskId, entries: Option<seq<Entry>>): World
    requires id in w.tasks && w.tasks[id].phase.FetchingKeys? && w.cache.configuration.Some?
  {
    var refreshed := if entries.None? then None else Refreshed(w.cache, entries.value, w.now);
    if refreshed.None? then FetchFails(w, id, entries)
    else
      var w' := w.(cache := refreshed.value, lock := None,
                   installs := w.installs + [Installed(w.now, refreshed.value.keys)]);
      Resume(w', id, w.tasks[id].phase.purpose)
  }

  /** One step of the system; an action that is not enabled changes nothing. */
  function Next(w: World, p: Policy, a: Action): World {
    match a
    case Tick(to) => if to >= w.now then w.(now := to) else w
    case Call(id, kid) =>
      if id in w.tasks then w
      else if kid == "" then Enter(w, id, kid, Rejected(NoKeyId))
      else
        var found := CachedKey(w.cache, p, kid, w.now);
        var w' := Enter(w, id, kid, WaitCached);
        if found.Contend? then w' else AfterCached(w', id, found)
    case CallConfiguration(id) =>
      if id in w.tasks then w
      else if w.cache.configuration.Some? then Enter(w, id, "", ReturnedConfiguration(w.cache.configuration.value))
      else Enter(w, id, "", WaitConfiguration)
    case Acquire(id) =>
      if w.lock.None? && id in w.tasks && Waiting(w.tasks[id].phase) then AcquireStep(w, p, id) else w
    case ConfigurationArrives(id, document) =>
      if id in w.tasks && w.tasks[id].phase.FetchingConfiguration? then ConfigurationStep(w, id, document) else w
    case KeysArrive(id, entries) =>
      if id in w.tasks && w.tasks[id].phase.FetchingKeys? && w.cache.configuration.Some? then KeysStep(w, id, entries) else w
  }

  function Run(p: Policy, start: real, actions: seq<Action>): World {
    if actions == [] then Init(start)
    else Next(Run(p, start, actions[..|actions| - 1]), p, actions[|actions| - 1])
  }

  // ------------------------------------------------------------ the invariant

  function Gap(p: Policy): real {
    if p.cacheSeconds <= p.minRefreshSeconds then p.cacheSeconds else p.minRefreshSeconds
  }

  function Times(installs: seq<Installed>): (ts: seq<real>)
    ensures |ts| == |installs| && forall i :: 0 <= i < |ts| ==> ts[i] == installs[i].at
  {
    seq(|installs|, i requires 0 <= i < |installs| => installs[i].at)
  }

  /** The cache is the latest install, installs keep their distance, and none was empty or in the future. */
  ghost predicate CacheSound(w: World, p: Policy) {
    && (w.installs == [] <==> w.cache.keys == map[])
    && (w.installs != [] ==> w.installs[|w.installs| - 1] == Installed(w.cache.fetchedAt, w.cache.keys))
    && (forall i :: 0 <= i < |w.installs| ==> w.installs[i].keys != map[] && w.installs[i].at <= w.now)
    && Spaced(Times(w.installs), Gap(p))
  }

  /** The set the call looked in lacked its key id, and every later set was installed during the call. */
  ghost predicate SeenWithout(w: World, t: Task, seen: nat) {
    && seen < |w.installs|
    && t.asked !in w.installs[seen].keys
    && forall j :: seen < j < |w.installs| ==> w.installs[j].at >= t.startedAt
  }

  ghost predicate MayRefresh(w: World, p: Policy, t: Task, purpose: Purpose) {
    match purpose
    case ForCached => w.installs == [] || w.now - w.cache.fetchedAt >= p.cacheSeconds
    case ForUnknown(seen) => SeenWithout(w, t, seen) && w.now - w.cache.fetchedAt >= p.minRefreshSeconds
    case ForConfiguration => true
  }

  /** Installed, current, and younger than the limit at one instant between the call and its return. */
  ghost predicate FreshDuring(w: World, p: Policy, t: Task, key: SigningKey, source: nat, freshAt: real, at: real) {
    && source < |w.installs|
    && t.asked in w.installs[source].keys && w.installs[source].keys[t.asked] == key
    && t.startedAt <= freshAt <= at <= w.now
    && w.installs[source].at <= freshAt
    && (source + 1 < |w.installs| ==> freshAt <= w.installs[source + 1].at)
    && freshAt - w.installs[source].at < p.cacheSeconds
  }

  ghost predicate TaskSound(w: World, p: Policy, id: TaskId, t: Task) {
    && t.startedAt <= w.now
    && (Fetching(t.phase) ==> w.lock == Some(id))
    && match t.phase
       case WaitUnknown(seen) => SeenWithout(w, t, seen)
       case FetchingConfiguration(purpose) => w.cache.configuration.None? && MayRefresh(w, p, t, purpose)
       case FetchingKeys(purpose) =>
         w.cache.configuration.Some? && !purpose.ForConfiguration? && MayRefresh(w, p, t, purpose)
       case Returned(key, source, freshAt, at) =>
         && source < |w.installs| && t.asked in w.installs[source].keys && w.installs[source].keys[t.asked] == key
         && (p.cacheSeconds > 0.0 ==> FreshDuring(w, p, t, key, source, freshAt, at))
       case Rejected(NotPublished(source, at)) => AbsentWhenRefused(w, p, t, source, at)
       case Rejected(NoKeyId) => t.asked == ""
       case Rejected(FetchFailed(at, brought)) => FailedDuring(w, id, t, at, brought)
       case _ => true
  }

  /** This very call made a fetch that ended in failure, or with no usable key, before it was refused. */
  ghost predicate FailedDuring(w: World, id: TaskId, t: Task, at: real, brought: Option<seq<Entry>>) {
    && FailedFetch(id, at, brought) in w.failures
    && t.startedAt <= at <= w.now
    && (brought.Some? ==> !AnyUsable(brought.value))
  }

  /** The installed set lacked the key id, and was either fetched during the call or too recent to fetch again. */
  ghost predicate AbsentWhenRefused(w: World, p: Policy, t: Task, source: nat, at: real) {
    && source < |w.installs|
    && t.asked !in w.installs[source].keys
    && w.installs[source].at <= at <= w.now
    && (source + 1 < |w.installs| ==> at <= w.installs[source + 1].at)
    && (t.startedAt <= w.installs[source].at || at - w.installs[source].at < p.minRefreshSeconds)
  }

  ghost predicate Inv(w: World, p: Policy) {
    && CacheSound(w, p)
    && (w.lock.Some? ==> w.lock.value in w.tasks && Fetching(w.tasks[w.lock.value].phase))
    && forall id :: id in w.tasks ==> TaskSound(w, p, id, w.tasks[id])
  }

  /** Time may pass and others may install: a call not holding the lock stays sound. */
  lemma OthersStaySound(w: World, w': World, p: Policy, id: TaskId, t: Task)
    requires TaskSound(w, p, id, t) && !Fetching(t.phase)
    requires w.now <= w'.now && w.installs <= w'.installs && w.failures <= w'.failures
    requires forall j :: |w.installs| <= j < |w'.installs| ==> w'.installs[j].at >= w.now
    ensures TaskSound(w', p, id, t)
  {
    assert forall j :: 0 <= j < |w.installs| ==> w'.installs[j] == w.installs[j];
  }

  /** Changing one task's phase, with the clock and the installs as they were. */
  lemma PhaseChange(w: World, w': World, p: Policy, id: TaskId)
    requires Inv(w, p) && CacheSound(w', p)
    requires w'.now == w.now && w'.installs == w.installs && w.failures <= w'.failures && id in w'.tasks
    requires w'.tasks.Keys == w.tasks.Keys + {id}
    requires forall other :: other in w.tasks && other != id ==> w'.tasks[other] == w.tasks[other]
    requires w.lock.None? || w.lock == Some(id)
    requires TaskSound(w', p, id, w'.tasks[id])
    requires w'.lock.Some? ==> w'.lock == Some(id) && Fetching(w'.tasks[id].phase)
    ensures Inv(w', p)
  {
    forall other | other in w'.tasks
      ensures TaskSound(w', p, other, w'.tasks[other])
    {
      if other != id {
        OthersStaySound(w, w', p, other, w.tasks[other]);
      }
    }
  }

  lemma TickKeeps(w: World, p: Policy, to: real)
    requires Inv(w, p)
    ensures Inv(Next(w, p, Tick(to)), p)
  {
    var w' := Next(w, p, Tick(to));
    forall id | id in w'.tasks
      ensures TaskSound(w', p, id, w'.tasks[id])
    {
      if !Fetching(w.tasks[id].phase) {
        OthersStaySound(w, w', p, id, w.tasks[id]);
      }
    }
  }

  /** An answer from an unexpired set is fresh at this very instant; a miss records the set that lacked the id. */
  lemma CachedAnswerSound(w: World, p: Policy, id: TaskId, found: Lookup)
    requires CacheSound(w, p) && id in w.tasks && w.tasks[id].startedAt <= w.now
    requires found == CachedKey(w.cache, p, w.tasks[id].asked, w.now) && !found.Contend?
    ensures var w' := AfterCached(w, id, found); TaskSound(w', p, id, w'.tasks[id])
  {
    hide Spaced;
  }

  lemma NewcomerSound(w: World, p: Policy, a: Action)
    requires Inv(w, p) && (a.Call? || a.CallConfiguration?) && a.id !in w.tasks
    ensures var w' := Next(w, p, a); a.id in w'.tasks && TaskSound(w', p, a.id, w'.tasks[a.id])
  {
    hide Spaced, FreshDuring, SeenWithout, MayRefresh, AbsentWhenRefused;
    if a.Call? && a.kid != "" && !CachedKey(w.cache, p, a.kid, w.now).Contend? {
      CachedAnswerSound(Enter(w, a.id, a.kid, WaitCached), p, a.id, CachedKey(w.cache, p, a.kid, w.now));
    }
  }

  /** A new caller touches nothing but its own entry. */
  lemma CallKeeps(w: World, p: Policy, a: Action)
    requires Inv(w, p) && (a.Call? || a.CallConfiguration?)
    ensures Inv(Next(w, p, a), p)
  {
    hide Spaced, FreshDuring, SeenWithout, MayRefresh, AbsentWhenRefused;
    if a.id !in w.tasks {
      NewcomerSound(w, p, a);
      var w' := Next(w, p, a);
      assert w' == w.(tasks := w.tasks[a.id := w'.tasks[a.id]]);
      forall other | other in w'.tasks
        ensures TaskSound(w', p, other, w'.tasks[other])
      {
        if other != a.id {
          assert TaskSound(w, p, other, w.tasks[other]);
          SameSoundness(w, w', p, other, w.tasks[other]);
        }
      }
    }
  }

  /** What a task's soundness depends on. */
  lemma SameSoundness(w: World, w': World, p: Policy, id: TaskId, t: Task)
    requires w'.now == w.now && w'.cache == w.cache && w'.lock == w.lock && w'.installs == w.installs && w'.failures == w.failures
    ensures TaskSound(w', p, id, t) <==> TaskSound(w, p, id, t)
  {
  }

  /** A key id that was absent and is now present came with a set installed during the call. */
  lemma AppearedDuringCall(w: World, p: Policy, t: Task, seen: nat)
    requires CacheSound(w, p) && SeenWithout(w, t, seen) && t.asked in w.cache.keys
    ensures t.startedAt <= w.cache.fetchedAt <= w.now && Latest(w) > seen
  {
  }

  /** The re-read after the wait does not look at the age of the map; the key is still one installed in time. */
  lemma ReReadSound(w: World, p: Policy, id: TaskId, seen: nat)
    requires CacheSound(w, p) && id in w.tasks && SeenWithout(w, w.tasks[id], seen)
    requires w.tasks[id].startedAt <= w.now && w.tasks[id].asked in w.cache.keys
    ensures var w' := With(w, id, Returned(w.cache.keys[w.tasks[id].asked], Latest(w), w.cache.fetchedAt, w.now));
            TaskSound(w', p, id, w'.tasks[id])
  {
    AppearedDuringCall(w, p, w.tasks[id], seen);
    hide Spaced;
  }

  /** A refusal without a fetch: the set is too recent to fetch again. */
  lemma TooRecentSound(w: World, p: Policy, id: TaskId, seen: nat)
    requires CacheSound(w, p) && id in w.tasks && w.tasks[id].startedAt <= w.now
    requires SeenWithout(w, w.tasks[id], seen) && UnknownKey(w.cache, p, w.tasks[id].asked, w.now).Miss?
    ensures var w' := With(w, id, Rejected(NotPublished(Latest(w), w.now))); TaskSound(w', p, id, w'.tasks[id])
  {
    hide Spaced;
  }

  lemma BeginSound(w: World, p: Policy, id: TaskId, purpose: Purpose)
    requires id in w.tasks && w.tasks[id].startedAt <= w.now
    requires MayRefresh(w, p, w.tasks[id], purpose) && !purpose.ForConfiguration?
    ensures var w' := Begin(w, id, purpose); TaskSound(w', p, id, w'.tasks[id])
  {
  }

  lemma AcquirerSound(w: World, p: Policy, id: TaskId)
    requires Inv(w, p) && w.lock.None? && id in w.tasks && Waiting(w.tasks[id].phase)
    ensures var w' := AcquireStep(w, p, id); id in w'.tasks && TaskSound(w', p, id, w'.tasks[id])
  {
    hide Spaced, FreshDuring, SeenWithout, AbsentWhenRefused;
    var t := w.tasks[id];
    assert TaskSound(w, p, id, t);
    match t.phase
    case WaitCached =>
      var found := CachedKey(w.cache, p, t.asked, w.now);
      if found.Contend? {
        BeginSound(w, p, id, ForCached);
      } else {
        CachedAnswerSound(w, p, id, found);
      }
    case WaitUnknown(seen) =>
      if t.asked in w.cache.keys {
        ReReadSound(w, p, id, seen);
      } else if UnknownKey(w.cache, p, t.asked, w.now).Contend? {
        BeginSound(w, p, id, ForUnknown(seen));
      } else {
        TooRecentSound(w, p, id, seen);
      }
    case WaitConfiguration =>
  }

  lemma AcquireKeeps(w: World, p: Policy, id: TaskId)
    requires Inv(w, p)
    ensures Inv(Next(w, p, Acquire(id)), p)
  {
    hide Spaced, FreshDuring, SeenWithout, MayRefresh, AbsentWhenRefused;
    if w.lock.None? && id in w.tasks && Waiting(w.tasks[id].phase) {
      AcquirerSound(w, p, id);
      PhaseChange(w, AcquireStep(w, p, id), p, id);
    }
  }

  lemma ConfigurationKeeps(w: World, p: Policy, id: TaskId, document: Option<Configuration>)
    requires Inv(w, p)
    ensures Inv(Next(w, p, ConfigurationArrives(id, document)), p)
  {
    if id in w.tasks && w.tasks[id].phase.FetchingConfiguration? {
      assert TaskSound(w, p, id, w.tasks[id]);
      PhaseChange(w, Next(w, p, ConfigurationArrives(id, document)), p, id);
    }
  }

  /** The world right after an install, before the installing call looks its key id up. */
  function AfterInstall(w: World, cache: Cache): World {
    w.(cache := cache, lock := None, installs := w.installs + [Installed(w.now, cache.keys)])
  }

  lemma InstallSound(w: World, p: Policy, id: TaskId, entries: seq<Entry>)
    requires Inv(w, p) && id in w.tasks && w.tasks[id].phase.FetchingKeys?
    requires Refreshed(w.cache, entries, w.now).Some?
    ensures CacheSound(AfterInstall(w, Refreshed(w.cache, entries, w.now).value), p)
  {
    assert TaskSound(w, p, id, w.tasks[id]);
    var w' := AfterInstall(w, Refreshed(w.cache, entries, w.now).value);
    assert Times(w'.installs) == Times(w.installs) + [w.now];
    SpacedAppend(Times(w.installs), Gap(p), w.now);
  }

  /** Looking the key id up right after the install: what is found is fresh now. */
  lemma ResumeSound(w: World, p: Policy, id: TaskId, purpose: Purpose)
    requires CacheSound(w, p) && id in w.tasks && w.tasks[id].startedAt <= w.now
    requires w.installs != [] && w.cache.fetchedAt == w.now && !purpose.ForConfiguration?
    ensures var w' := Resume(w, id, purpose); id in w'.tasks && TaskSound(w', p, id, w'.tasks[id])
  {
    hide Spaced;
  }

  lemma FailureKeeps(w: World, p: Policy, id: TaskId, brought: Option<seq<Entry>>)
    requires Inv(w, p) && id in w.tasks && Fetching(w.tasks[id].phase)
    requires brought.Some? ==> KeySetOf(brought.value) == map[]
    ensures Inv(FetchFails(w, id, brought), p)
  {
    hide Spaced, FreshDuring, SeenWithout, MayRefresh, AbsentWhenRefused, AnyUsable;
    assert TaskSound(w, p, id, w.tasks[id]);
    if brought.Some? {
      KeySetEmptyIff(brought.value);
    }
    PhaseChange(w, FetchFails(w, id, brought), p, id);
  }

  lemma KeysKeep(w: World, p: Policy, id: TaskId, entries: Option<seq<Entry>>)
    requires Inv(w, p)
    ensures Inv(Next(w, p, KeysArrive(id, entries)), p)
  {
    hide Spaced, FreshDuring, SeenWithout, MayRefresh, AbsentWhenRefused, FailedDuring;
    if id in w.tasks && w.tasks[id].phase.FetchingKeys? {
      var w' := Next(w, p, KeysArrive(id, entries));
      assert TaskSound(w, p, id, w.tasks[id]);
      if entries.None? || Refreshed(w.cache, entries.value, w.now).None? {
        FailureKeeps(w, p, id, entries);
      } else {
        InstallSound(w, p, id, entries.value);
        var mid := AfterInstall(w, Refreshed(w.cache, entries.value, w.now).value);
        ResumeSound(mid, p, id, w.tasks[id].phase.purpose);
        assert w' == mid.(tasks := mid.tasks[id := w'.tasks[id]]);
        forall other | other in w'.tasks
          ensures TaskSound(w', p, other, w'.tasks[other])
        {
          if other != id {
            assert TaskSound(w, p, other, w.tasks[other]);
            OthersStaySound(w, w', p, other, w.tasks[other]);
          }
        }
      }
    }
  }

  /** Every interleaving of callers, fetches and failures keeps the invariant. */
  lemma {:induction false} RunsKeepInv(p: Policy, start: real, actions: seq<Action>)
    ensures Inv(Run(p, start, actions), p)
  {
    if actions == [] {
    } else {
      var w, a := Run(p, start, actions[..|actions| - 1]), actions[|actions| - 1];
      RunsKeepInv(p, start, actions[..|actions| - 1]);
      hide Inv, Next;
      match a
      case Tick(to) => TickKeeps(w, p, to);
      case Call(_, _) => CallKeeps(w, p, a);
      case CallConfiguration(_) => CallKeeps(w, p, a);
      case Acquire(id) => AcquireKeeps(w, p, id);
      case ConfigurationArrives(id, document) => ConfigurationKeeps(w, p, id, document);
      case KeysArrive(id, entries) => KeysKeep(w, p, id, entries);
    }
  }

  // ------------------------------------------------------------ what every run promises

  /** At this instant the set was the installed one, younger than the limit, and held this key under this id. */
  ghost predicate HeldFresh(w: World, p: Policy, i: nat, instant: real, kid: string, key: SigningKey) {
    && i < |w.installs|
    && w.installs[i].at <= instant
    && (i + 1 < |w.installs| ==> instant <= w.installs[i + 1].at)
    && instant - w.installs[i].at < p.cacheSeconds
    && kid in w.installs[i].keys && w.installs[i].keys[kid] == key
  }

  /** A returned key was in a set that was installed and fresh at some instant of the call, iff freshness is possible. */
  lemma ReturnedKeysWereFresh(p: Policy, start: real, actions: seq<Action>, id: TaskId)
    requires id in Run(p, start, actions).tasks && Run(p, start, actions).tasks[id].phase.Returned?
    ensures var w := Run(p, start, actions);
            var t := w.tasks[id];
            p.cacheSeconds > 0.0 <==>
            exists i: nat, instant: real ::
              t.startedAt <= instant <= t.phase.at && HeldFresh(w, p, i, instant, t.asked, t.phase.key)
  {
    RunsKeepInv(p, start, actions);
    var w := Run(p, start, actions);
    var t := w.tasks[id];
    assert TaskSound(w, p, id, t);
    if p.cacheSeconds > 0.0 {
      assert HeldFresh(w, p, t.phase.source, t.phase.freshAt, t.asked, t.phase.key);
    }
  }

  ghost predicate AllFresh(w: World, p: Policy) {
    forall id :: id in w.tasks && w.tasks[id].phase.Returned? ==>
      var t := w.tasks[id];
      exists i: nat, instant: real ::
        t.startedAt <= instant <= t.phase.at && HeldFresh(w, p, i, instant, t.asked, t.phase.key)
  }

  /** One cold call that is served: discovery, fetch, and the key it asked for, whatever the policy. */
  lemma ColdCallIsServed(p: Policy, start: real) returns (actions: seq<Action>)
    ensures var w := Run(p, start, actions); 0 in w.tasks && w.tasks[0].phase.Returned?
  {
    var entries := [Entry(Some("k"), Some(SigningKey("m")))];
    assert entries[..0] == [] && "k" in KeySetOf(entries);
    var a, b := Call(0, "k"), Acquire(0);
    var c, d := ConfigurationArrives(0, Some(Configuration("i", "u"))), KeysArrive(0, Some(entries));
    var first, second, third := [a], [a] + [b], [a] + [b] + [c];
    actions := third + [d];
    assert [] + [a] == first;
    OneMore(p, start, [], a);
    assert Run(p, start, first).tasks[0] == Task("k", start, WaitCached);
    OneMore(p, start, first, b);
    assert Run(p, start, second).tasks[0].phase == FetchingConfiguration(ForCached);
    OneMore(p, start, second, c);
    assert Run(p, start, third).tasks[0] == Task("k", start, FetchingKeys(ForCached));
    OneMore(p, start, third, d);
  }

  lemma OneMore(p: Policy, start: real, actions: seq<Action>, a: Action)
    ensures Run(p, start, actions + [a]) == Next(Run(p, start, actions), p, a)
  {
    hide Next;
    assert (actions + [a])[..|actions|] == actions;
  }

  /** Every run returns only keys that were fresh during the call, exactly when the configured lifetime is positive. */
  lemma KeysAreFreshIff(p: Policy, start: real)
    ensures p.cacheSeconds > 0.0 <==> forall actions :: AllFresh(Run(p, start, actions), p)
  {
    hide HeldFresh, Run, Next;
    if p.cacheSeconds > 0.0 {
      forall actions
        ensures AllFresh(Run(p, start, actions), p)
      {
        forall id | id in Run(p, start, actions).tasks && Run(p, start, actions).tasks[id].phase.Returned? {
          ReturnedKeysWereFresh(p, start, actions, id);
        }
      }
    } else {
      var actions := ColdCallIsServed(p, start);
      ReturnedKeysWereFresh(p, start, actions, 0);
      assert !AllFresh(Run(p, start, actions), p);
    }
  }

  // ------------------------------------------------------------ where everything came from

  ghost predicate ConfigurationArrived(actions: seq<Action>, c: Configuration) {
    exists i :: 0 <= i < |actions| && actions[i].ConfigurationArrives? && actions[i].document == Some(c)
  }

  ghost predicate KeySetArrived(actions: seq<Action>, keys: KeySet) {
    exists i :: 0 <= i < |actions| && actions[i].KeysArrive? && actions[i].entries.Some? && KeySetOf(actions[i].entries.value) == keys
  }

  /** The configuration and every installed set are documents that arrived; a returned configuration is the stored one. */
  ghost predicate Traced(w: World, actions: seq<Action>) {
    && (w.cache.configuration.Some? ==> ConfigurationArrived(actions, w.cache.configuration.value))
    && (forall i :: 0 <= i < |w.installs| ==> KeySetArrived(actions, w.installs[i].keys))
    && (forall id :: id in w.tasks && w.tasks[id].phase.ReturnedConfiguration? ==>
          w.cache.configuration == Some(w.tasks[id].phase.configuration))
  }

  lemma MoreHasArrived(actions: seq<Action>, a: Action)
    ensures forall c :: ConfigurationArrived(actions, c) ==> ConfigurationArrived(actions + [a], c)
    ensures forall keys :: KeySetArrived(actions, keys) ==> KeySetArrived(actions + [a], keys)
    ensures a.ConfigurationArrives? && a.document.Some? ==> ConfigurationArrived(actions + [a], a.document.value)
    ensures a.KeysArrive? && a.entries.Some? ==> KeySetArrived(actions + [a], KeySetOf(a.entries.value))
  {
    var all := actions + [a];
    assert all[|actions|] == a;
    forall c | ConfigurationArrived(actions, c)
      ensures ConfigurationArrived(all, c)
    {
      var i :| 0 <= i < |actions| && actions[i].ConfigurationArrives? && actions[i].document == Some(c);
      assert all[i] == actions[i];
    }
    forall keys | KeySetArrived(actions, keys)
      ensures KeySetArrived(all, keys)
    {
      var i :| 0 <= i < |actions| && actions[i].KeysArrive? && actions[i].entries.Some? && KeySetOf(actions[i].entries.value) == keys;
      assert all[i] == actions[i];
    }
  }

  /** A step that stores no document keeps what was traced, if it hands out only the stored configuration. */
  lemma QuietKeepsTraced(w: World, w': World, actions: seq<Action>, a: Action)
    requires Traced(w, actions) && w'.installs == w.installs && w'.cache.configuration == w.cache.configuration
    requires forall id :: id in w'.tasks && w'.tasks[id].phase.ReturnedConfiguration? ==>
               || (id in w.tasks && w.tasks[id] == w'.tasks[id])
               || w.cache.configuration == Some(w'.tasks[id].phase.configuration)
    ensures Traced(w', actions + [a])
  {
    MoreHasArrived(actions, a);
    hide ConfigurationArrived, KeySetArrived;
  }

  lemma ConfigurationKeepsTraced(w: World, p: Policy, actions: seq<Action>, a: Action)
    requires Inv(w, p) && Traced(w, actions) && a.ConfigurationArrives?
    ensures Traced(Next(w, p, a), actions + [a])
  {
    if a.id in w.tasks && w.tasks[a.id].phase.FetchingConfiguration? && a.document.Some? {
      assert TaskSound(w, p, a.id, w.tasks[a.id]);
      MoreHasArrived(actions, a);
      hide ConfigurationArrived, KeySetArrived, Inv;
    } else {
      QuietKeepsTraced(w, Next(w, p, a), actions, a);
    }
  }

  lemma KeysKeepTraced(w: World, p: Policy, actions: seq<Action>, a: Action)
    requires Inv(w, p) && Traced(w, actions) && a.KeysArrive?
    ensures Traced(Next(w, p, a), actions + [a])
  {
    hide ConfigurationArrived, KeySetArrived;
    MoreHasArrived(actions, a);
    if a.id in w.tasks {
      assert TaskSound(w, p, a.id, w.tasks[a.id]);
    }
    hide Inv;
  }

  lemma StepKeepsTraced(w: World, p: Policy, actions: seq<Action>, a: Action)
    requires Inv(w, p) && Traced(w, actions)
    ensures Traced(Next(w, p, a), actions + [a])
  {
    hide Inv, Traced;
    match a
    case ConfigurationArrives(_, _) => ConfigurationKeepsTraced(w, p, actions, a);
    case KeysArrive(_, _) => KeysKeepTraced(w, p, actions, a);
    case _ => QuietKeepsTraced(w, Next(w, p, a), actions, a);
  }

  lemma {:induction false} DocumentsAreTraced(p: Policy, start: real, actions: seq<Action>)
    ensures Traced(Run(p, start, actions), actions)
  {
    if actions == [] {
    } else {
      var init, a := actions[..|actions| - 1], actions[|actions| - 1];
      DocumentsAreTraced(p, start, init);
      RunsKeepInv(p, start, init);
      hide Inv, Traced, Next;
      StepKeepsTraced(Run(p, start, init), p, init, a);
      assert actions == init + [a];
    }
  }

  /** From end to end: a returned key is one that a document fetched in the run publishes under the id asked for. */
  lemma ReturnedKeysWerePublished(p: Policy, start: real, actions: seq<Action>, id: TaskId)
    requires id in Run(p, start, actions).tasks && Run(p, start, actions).tasks[id].phase.Returned?
    ensures var t := Run(p, start, actions).tasks[id];
            exists i :: 0 <= i < |actions| && actions[i].KeysArrive? && actions[i].entries.Some? &&
                        Publishes(actions[i].entries.value, t.asked, t.phase.key)
  {
    DocumentsAreTraced(p, start, actions);
    RunsKeepInv(p, start, actions);
    var w := Run(p, start, actions);
    var t := w.tasks[id];
    assert TaskSound(w, p, id, t);
    var keys := w.installs[t.phase.source].keys;
    assert KeySetArrived(actions, keys);
    var i :| 0 <= i < |actions| && actions[i].KeysArrive? && actions[i].entries.Some? && KeySetOf(actions[i].entries.value) == keys;
    KeySetPublishes(actions[i].entries.value, t.asked);
  }

  // ------------------------------------------------------------ what each step answers

  /** The latest installed set is younger than the cache lifetime. */
  predicate Warm(w: World, p: Policy) {
    w.installs != [] && w.now - w.installs[|w.installs| - 1].at < p.cacheSeconds
  }

  /** The latest installed set holds this key under this id. */
  predicate Holds(w: World, kid: string, key: SigningKey) {
    w.installs != [] && kid in w.installs[|w.installs| - 1].keys && w.installs[|w.installs| - 1].keys[kid] == key
  }

  predicate Lacks(w: World, kid: string) {
    w.installs != [] ==> kid !in w.installs[|w.installs| - 1].keys
  }

  /** A new call: refused without an id, answered from a warm set, on to the unknown-key path, or on to the lock. */
  lemma CallOutcome(p: Policy, start: real, actions: seq<Action>, id: TaskId, kid: string)
    requires id !in Run(p, start, actions).tasks
    ensures var w, w' := Run(p, start, actions), Run(p, start, actions + [Call(id, kid)]);
            && id in w'.tasks && w'.tasks[id].asked == kid && w'.tasks[id].startedAt == w.now
            && w'.cache == w.cache && w'.installs == w.installs && w'.lock == w.lock
            && var phase := w'.tasks[id].phase;
               && (kid == "" ==> phase == Rejected(NoKeyId))
               && (kid != "" && Warm(w, p) && !Lacks(w, kid) ==> phase.Returned? && Holds(w, kid, phase.key) && phase.at == w.now)
               && (kid != "" && Warm(w, p) && Lacks(w, kid) ==> phase.WaitUnknown?)
               && (kid != "" && !Warm(w, p) ==> phase == WaitCached)
  {
    RunsKeepInv(p, start, actions);
    OneMore(p, start, actions, Call(id, kid));
    hide Spaced, TaskSound;
  }

  /** A task that takes the lock: what it may do with it. */
  lemma AcquireOutcome(p: Policy, start: real, actions: seq<Action>, id: TaskId)
    requires var w := Run(p, start, actions); w.lock.None? && id in w.tasks && Waiting(w.tasks[id].phase)
    ensures var w, w' := Run(p, start, actions), Run(p, start, actions + [Acquire(id)]);
            && id in w'.tasks && w'.cache == w.cache && w'.installs == w.installs
            && var kid, before, phase := w.tasks[id].asked, w.tasks[id].phase, w'.tasks[id].phase;
               && (Fetching(phase) ==> (phase.FetchingConfiguration? <==> w.cache.configuration == None))
               && (before.WaitCached? && Warm(w, p) && !Lacks(w, kid) ==> phase.Returned? && Holds(w, kid, phase.key) && phase.at == w.now)
               && (before.WaitCached? && Warm(w, p) && Lacks(w, kid) ==> phase.WaitUnknown?)
               && (before.WaitCached? && !Warm(w, p) ==> Fetching(phase) && phase.purpose == ForCached)
               && (before.WaitUnknown? && !Lacks(w, kid) ==> phase.Returned? && Holds(w, kid, phase.key) && phase.at == w.now)
               && (before.WaitUnknown? && Lacks(w, kid) ==>
                   if w.now - w.cache.fetchedAt < p.minRefreshSeconds
                   then phase.Rejected? && phase.why.NotPublished?
                   else Fetching(phase) && phase.purpose.ForUnknown?)
               && (before.WaitConfiguration? ==>
                   if w.cache.configuration.Some?
                   then phase == ReturnedConfiguration(w.cache.configuration.value)
                   else phase == FetchingConfiguration(ForConfiguration))
  {
    RunsKeepInv(p, start, actions);
    OneMore(p, start, actions, Acquire(id));
    hide Spaced, TaskSound;
  }

  /** A key set that arrives, or fails to: what is installed, and what the call that fetched it is told. */
  lemma KeysOutcome(p: Policy, start: real, actions: seq<Action>, id: TaskId, entries: Option<seq<Entry>>)
    requires id in Run(p, start, actions).tasks && Run(p, start, actions).tasks[id].phase.FetchingKeys?
    ensures var w, w' := Run(p, start, actions), Run(p, start, actions + [KeysArrive(id, entries)]);
            && id in w'.tasks && w'.lock == None && w'.cache.configuration == w.cache.configuration
            && var kid, purpose, phase := w.tasks[id].asked, w.tasks[id].phase.purpose, w'.tasks[id].phase;
               if entries == None || !AnyUsable(entries.value) then
                 w'.cache == w.cache && w'.installs == w.installs && phase == Rejected(FetchFailed(w.now, entries))
               else
                 && |w'.installs| == |w.installs| + 1 && w'.installs[|w.installs|].at == w.now
                 && (forall key :: Publishes(entries.value, kid, key) ==> phase.Returned? && phase.key == key && phase.at == w.now)
                 && ((forall key :: !Publishes(entries.value, kid, key)) ==>
                     if purpose == ForCached then phase.WaitUnknown? else phase.Rejected? && phase.why.NotPublished?)
  {
    RunsKeepInv(p, start, actions);
    OneMore(p, start, actions, KeysArrive(id, entries));
    assert TaskSound(Run(p, start, actions), p, id, Run(p, start, actions).tasks[id]);
    hide Inv, Publishes;
    if entries.Some? {
      KeySetEmptyIff(entries.value);
      var kid := Run(p, start, actions).tasks[id].asked;
      PublishesExactly(entries.value, kid);
      if kid in KeySetOf(entries.value) {
        assert Publishes(entries.value, kid, KeySetOf(entries.value)[kid]);
      }
    }
  }

  lemma PublishesExactly(entries: seq<Entry>, kid: string)
    ensures forall key :: Publishes(entries, kid, key) <==> kid in KeySetOf(entries) && KeySetOf(entries)[kid] == key
  {
    KeySetExact(entries, kid);
  }

  /** A configuration that arrives, or fails to: stored once, handed to whoever asked for it, or used to fetch keys. */
  lemma ConfigurationOutcome(p: Policy, start: real, actions: seq<Action>, id: TaskId, document: Option<Configuration>)
    requires id in Run(p, start, actions).tasks && Run(p, start, actions).tasks[id].phase.FetchingConfiguration?
    ensures var w, w' := Run(p, start, actions), Run(p, start, actions + [ConfigurationArrives(id, document)]);
            && id in w'.tasks && w'.installs == w.installs && w'.cache.configuration == document
            && var purpose, phase := w.tasks[id].phase.purpose, w'.tasks[id].phase;
               if document == None then phase == Rejected(FetchFailed(w.now, None)) && w'.lock == None
               else if purpose == ForConfiguration then phase == ReturnedConfiguration(document.value) && w'.lock == None
               else phase == FetchingKeys(purpose) && w'.lock == Some(id)
  {
    RunsKeepInv(p, start, actions);
    OneMore(p, start, actions, ConfigurationArrives(id, document));
    assert TaskSound(Run(p, start, actions), p, id, Run(p, start, actions).tasks[id]);
  }

  /**
   * A key id is refused only when it is blank, when a fetch by this call failed or brought no usable key during the
   * call, or when the set installed at that moment lacks it and was fetched during the call or less than the refresh
   * limit ago.
   */
  lemma RefusalsAreEarned(p: Policy, start: real, actions: seq<Action>, id: TaskId)
    requires id in Run(p, start, actions).tasks && Run(p, start, actions).tasks[id].phase.Rejected?
    ensures var w := Run(p, start, actions);
            var t := w.tasks[id];
            match t.phase.why
            case NoKeyId => t.asked == ""
            case FetchFailed(at, brought) => FailedDuring(w, id, t, at, brought)
            case NotPublished(source, at) => AbsentWhenRefused(w, p, t, source, at)
  {
    RunsKeepInv(p, start, actions);
    assert TaskSound(Run(p, start, actions), p, id, Run(p, start, actions).tasks[id]);
  }

  /**
   * Each install comes at least the cache lifetime or at least the refresh limit after the one before it, so a window
   * holds no more than the shorter of the two allows.
   */
  lemma InstallsKeepApart(p: Policy, start: real, actions: seq<Action>, i: nat, j: nat, gap: real, length: real)
    requires i <= j < |Run(p, start, actions).installs| && gap <= p.cacheSeconds && gap <= p.minRefreshSeconds
    ensures var installs := Run(p, start, actions).installs;
            && (j == i + 1 ==>
                || installs[j].at - installs[i].at >= p.cacheSeconds
                || installs[j].at - installs[i].at >= p.minRefreshSeconds)
            && (gap > 0.0 && installs[j].at - installs[i].at <= length ==> (j - i + 1) as real <= length / gap + 1.0)
  {
    RunsKeepInv(p, start, actions);
    var ts := Times(Run(p, start, actions).installs);
    assert Spaced(ts, Gap(p)) && Spaced(ts, gap);
    hide Inv, Run;
    if gap > 0.0 && ts[j] - ts[i] <= length {
      WindowHolds(ts, gap, i, j, length);
    }
  }

  /** However many callers find the cache cold, there is one install until the shorter limit has passed. */
  lemma ColdCallersInstallOnce(p: Policy, start: real, actions: seq<Action>)
    requires Run(p, start, actions).installs != []
    requires var w := Run(p, start, actions);
             w.now - w.installs[0].at < p.cacheSeconds && w.now - w.installs[0].at < p.minRefreshSeconds
    ensures |Run(p, start, actions).installs| == 1
  {
    RunsKeepInv(p, start, actions);
    var w := Run(p, start, actions);
    var ts := Times(w.installs);
    assert ts[0] == w.installs[0].at;
  }

  /** One task at most is fetching, it is the one that holds the lock, and it waits for no lock. */
  lemma {:induction false} LockHasOneHolder(p: Policy, start: real, actions: seq<Action>)
    ensures var w := Run(p, start, actions);
            && (forall id :: id in w.tasks && Fetching(w.tasks[id].phase) <==> w.lock == Some(id))
            && (forall id :: id in w.tasks && Waiting(w.tasks[id].phase) ==> w.lock != Some(id))
  {
    RunsKeepInv(p, start, actions);
    var w := Run(p, start, actions);
    forall id | id in w.tasks
      ensures TaskSound(w, p, id, w.tasks[id])
    {
    }
  }

  lemma StepKeepsHistory(w: World, p: Policy, a: Action)
    requires Inv(w, p)
    ensures var w' := Next(w, p, a);
            && w.installs <= w'.installs
            && (w.cache.configuration.Some? ==> w'.cache.configuration == w.cache.configuration)
            && (w.cache.keys != map[] ==> w'.cache.keys != map[])
  {
    hide CacheSound, FreshDuring, MayRefresh, SeenWithout, AbsentWhenRefused;
    if a.ConfigurationArrives? && a.id in w.tasks {
      assert TaskSound(w, p, a.id, w.tasks[a.id]);
    }
  }

  /** The configuration is written once, installs are never undone, and the key set never becomes empty again. */
  lemma {:induction false} HistoryIsKept(p: Policy, start: real, actions: seq<Action>, more: seq<Action>)
    ensures var w, w' := Run(p, start, actions), Run(p, start, actions + more);
            && w.installs <= w'.installs
            && (w.cache.configuration.Some? ==> w'.cache.configuration == w.cache.configuration)
            && (w.cache.keys != map[] ==> w'.cache.keys != map[])
    decreases |more|
  {
    hide Inv, Next, Run;
    if more == [] {
      assert actions + more == actions;
    } else {
      var init, a := more[..|more| - 1], more[|more| - 1];
      HistoryIsKept(p, start, actions, init);
      assert actions + more == actions + init + [a];
      OneMore(p, start, actions + init, a);
      RunsKeepInv(p, start, actions + init);
      StepKeepsHistory(Run(p, start, actions + init), p, a);
    }
  }

  // ------------------------------------------------------------ the class behind the runs

  /** One stretch between two awaits, performed on the source itself, is one step of the system. */
  method Perform(source: KeySource, w: World, a: Action) returns (w': World)
    requires source.Valid() && source.View() == w.cache && Inv(w, source.policy)
    modifies source
    ensures source.Valid() && source.View() == w'.cache
    ensures w' == Next(w, source.policy, a)
  {
    w' := w;
    match a {
      case Tick(to) =>
        if to >= w.now {
          w' := w.(now := to);
        }
      case Call(id, kid) =>
        if id !in w.tasks {
          if kid == "" {
            w' := Enter(w, id, kid, Rejected(NoKeyId));
          } else {
            var found := source.CheckCached(kid, w.now);
            w' := Enter(w, id, kid, WaitCached);
            if !found.Contend? {
              w' := AfterCached(w', id, found);
            }
          }
        }
      case CallConfiguration(id) =>
        if id !in w.tasks {
          w' := Enter(w, id, "", if source.configuration.Some? then ReturnedConfiguration(source.configuration.value) else WaitConfiguration);
        }
      case Acquire(id) =>
        if w.lock.None? && id in w.tasks && Waiting(w.tasks[id].phase) {
          w' := PerformAcquire(source, w, id);
        }
      case ConfigurationArrives(id, document) =>
        if id in w.tasks && w.tasks[id].phase.FetchingConfiguration? {
          assert TaskSound(w, source.policy, id, w.tasks[id]);
          if document.Some? {
            source.StoreConfiguration(document.value);
          }
          w' := ConfigurationStep(w, id, document);
        }
      case KeysArrive(id, entries) =>
        if id in w.tasks && w.tasks[id].phase.FetchingKeys? && w.cache.configuration.Some? {
          w' := PerformRefresh(source, w, id, entries);
        }
    }
  }

  /** The lock is free and this task takes it: the second check of its path. */
  method PerformAcquire(source: KeySource, w: World, id: TaskId) returns (w': World)
    requires source.Valid() && source.View() == w.cache && id in w.tasks && Waiting(w.tasks[id].phase)
    ensures w' == AcquireStep(w, source.policy, id) && w'.cache == w.cache
  {
    var kid := w.tasks[id].asked;
    match w.tasks[id].phase {
      case WaitCached =>
        var found := source.CheckCached(kid, w.now);
        w' := if found.Contend? then Begin(w, id, ForCached) else AfterCached(w, id, found);
      case WaitUnknown(seen) =>
        var found := source.CheckUnknown(kid, w.now);
        match found {
          case Hit(key) => w' := With(w, id, Returned(key, Latest(w), source.keysFetchedAt, w.now));
          case Miss => w' := With(w, id, Rejected(NotPublished(Latest(w), w.now)));
          case Contend => w' := Begin(w, id, ForUnknown(seen));
        }
      case WaitConfiguration =>
        if source.configuration.None? {
          w' := With(w.(lock := Some(id)), id, FetchingConfiguration(ForConfiguration));
        } else {
          w' := With(w, id, ReturnedConfiguration(source.configuration.value));
        }
    }
  }

  /** The key set has arrived, or not: install it and look the key id up, or give up. */
  method PerformRefresh(source: KeySource, w: World, id: TaskId, entries: Option<seq<Entry>>) returns (w': World)
    requires source.Valid() && source.View() == w.cache
    requires id in w.tasks && w.tasks[id].phase.FetchingKeys? && w.cache.configuration.Some?
    modifies source
    ensures source.Valid() && source.View() == w'.cache
    ensures w' == KeysStep(w, id, entries)
  {
    if entries.None? {
      return FetchFails(w, id, None);
    }
    var ok := source.RefreshKeys(entries.value, w.now);
    if !ok {
      return FetchFails(w, id, entries);
    }
    var installed := w.(cache := source.View(), lock := None, installs := w.installs + [Installed(w.now, source.keys)]);
    w' := Resume(installed, id, w.tasks[id].phase.purpose);
  }

  /** Any interleaving of tasks over a new source ends in the world the runs speak of. */
  method Serve(policy: Policy, start: real, actions: seq<Action>) returns (source: KeySource, w: World)
    ensures source.policy == policy && source.Valid() && source.View() == w.cache
    ensures w == Run(policy, start, actions)
  {
    source := new KeySource(policy);
    w := Init(start);
    var i := 0;
    while i < |actions|
      invariant 0 <= i <= |actions|
      invariant fresh(source) && source.policy == policy && source.Valid() && source.View() == w.cache
      invariant w == Run(policy, start, actions[..i])
    {
      RunsKeepInv(policy, start, actions[..i]);
      OneMore(policy, start, actions[..i], actions[i]);
      assert actions[..i + 1] == actions[..i] + [actions[i]];
      w := Perform(source, w, actions[i]);
      i := i + 1;
    }
    assert actions[..i] == actions;
  }
}
